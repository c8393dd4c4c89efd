# A verified model of the Mimir provider's reconcile protocol

The provider keeps Kubernetes resources (rule groups and Alertmanager configurations) and the tenants of a
Grafana Mimir server in step. This project models how it does that and proves what it does and does not keep.

Everything is stated over Go byte strings (`Texts.Text`), so that slashes, percent signs, empty names and
non-ASCII bytes are all within the theorems.

## How the model is layered

1. **Strings and names.** `Texts`, `ExternalNames`: the external-name annotation is printed as
   `namespace/name`, and read back by a strict parser with a fallback to `spec.name` (RuleGroupAlerting,
   RuleGroupRecording) or by a lenient one (the legacy GroupRecording).
2. **Requests.** `Addressing`, `Ruler`, `Replies`, `Networks`, `Headers`, `Requests`, `Credentials`, `RulerClient`: percent-encoded paths
   and the remote entry they reach, the "not found" test on error texts, header precedence with Go maps ranged
   over in an arbitrary order, credentials from secrets to the `Authorization` header. `Ruler.Serve` is the
   server's side: it decodes the path, so that "this request addresses this key" is a theorem and not a
   convention.
3. **The reconcile protocol.** `Lifecycle` is a state machine of one resource and the remote store, request by
   request: a pass is a GET followed by the write the observation dictates; in between, and between passes, users
   edit the spec or delete the resource, others write to the store, the external name may be defaulted to the
   object's name, requests fail or are refused, replies get lost after the request was applied, the annotation that
   Create sets may fail to reach the API server, and an error may be misread as "not found". Every sequence of events
   is a run. `WriteBound`, `Accounting`,
   `Rename`, `Retries` and `Interference` hold the theorems over all runs.
4. **The controllers.** `RuleGroupController` and `GroupRecordingController` are the Go methods in imperative
   form, on heap objects, with loops where the source loops. `Reconcile` proves that one pass of a driver that
   does what Observe dictates is exactly two steps of the state machine, whatever the network does, so the run theorems are about this
   code.
   RuleGroupAlerting and RuleGroupRecording have the same code but for the kind of rule, and are one controller here.
5. **Alertmanager.** `AlertmanagerTranslation` (the nested loops), `AlertmanagerRetraction` (what they forget),
   `AlertmanagerCorrespondence` (what they send in every place, and which documents they can yield),
   `AlertmanagerClient` (the server and the client's operations), `AlertmanagerLifecycle`, `AlertmanagerInterference` and
   `AlertmanagerController` (a protocol of its own, with the same refinement).
6. **Deep copies.** `DeepCopies`: copies of any graph of pointers, slices, maps and structs, on the heap, by type.
   `GeneratedCopies`: the generated methods of ConfigParameters, RouteConfig, ChildRouteConfig, ReceiverConfig,
   TimeIntervalConfig and TimeIntervalSpec, block by block.

## What the proofs found

The code was modelled as it is. Where a natural property fails, there is a proof of exactly when it holds.

- A Create is found again by the next Observe if and only if the namespace is slash-free, or (the two current
  controllers) begins with a slash. In any other namespace that starts without groups each quiet pass creates again,
  and the legacy controller leaves one more group in the store every time.
- In such a namespace a resource can also take another resource's group for its own (`Interference.UnsafeInterferes`).
  Elsewhere any number of resources with distinct keys do not interfere.
- Observe of the two current controllers drops the error of an annotation that does not parse, and looks
  up `spec.name` instead.
- Any error text that carries status 404 or one of two phrases counts as "not found", whoever answered. Each such
  misread GET buys one write that no edit or foreign write asks for (`WriteBound.MisreadsWrite`), and, as long as every
  2xx reply is the server's own, nothing else does (`WriteBound.SuccessesBounded`).
- A resource of fixed identity leaves its group behind after its deletion if and only if it was finalised
  without a look at the store while the group was there: either nothing was asked, because the annotation never
  arrived (`Accounting.Orphaned`), or the answer was misread (`Accounting.OrphanedByMisreading`).
- Renaming a created rule group leaves the old group in place and makes the resource neither become up to date
  nor be deletable until it is renamed back, or a GET is misread; then the old group stays for good.
- "Up to date" compares the name, the interval if one is set, and the number of rules. Clearing the interval, or
  replacing rules by as many others, is not noticed.
- `queryOffset` of the legacy resource is documented as a delay of rule execution (apis/ruler/v1/grouprecording_types.go:45),
  but is never sent. The model follows the code.
- A created Alertmanager configuration counts as up to date for good, so a later edit reaches the server only if a GET is
  misread as "not found" or the document is gone. With an empty organisation, and as long as no name is defaulted, every
  pass creates again, no Delete is ever sent, and the document outlives the resource
  (`AlertmanagerLifecycle.UnnamedNeverDeletes`). Two resources of one tenant overwrite each other's document, and the one
  overwritten reports it as its own unless its organisation is empty.
- With an organisation that is set but empty, a tenant header configured on the provider wins over the provider's
  organisation; with an unset one it is the other way round. The fields' documentation mentions the unset case only.
- Two configured spellings of the tenant header make the tenant depend on Go's map order, exactly when they disagree
  (an empty value standing for the provider's organisation) and the resolved organisation is empty.

## How to read the statements

Most functions here are at once what the methods are proved against and what the theorems speak of. So each module closes
with lemmas that say in other words what these functions come to, with literal texts and with ghost predicates that no
other part of the model uses ("In other words", "Position by position"). A function that came to anything else would
fail them.

## Model

| member | source | states |
|---|---|---|
| ExternalNames.FormatSplit | internal/controller/rulegroupalerting/rulegroupalerting.go:51-53 | Which namespace and name the first slash of a printed annotation separates, for namespaces with and without slashes |
| ExternalNames.StrictRoundTrip | internal/controller/rulegroupalerting/rulegroupalerting.go:51-61 | Parsing undoes printing if and only if namespace and name are non-empty and the namespace has no slash |
| ExternalNames.StrictAgreement | internal/controller/rulegroupalerting/rulegroupalerting.go:199-202 | Observe looks up the name Create wrote if and only if the namespace has no slash or begins with one; otherwise a strictly longer name |
| ExternalNames.LegacyAgreement | internal/controller/grouprecording/grouprecording.go:51-61 | Re-printing any annotation, slashed or bare, keeps the name it parses to if and only if the namespace has no slash; otherwise the name grows strictly |
| ExternalNames.LookupsExactly | internal/controller/grouprecording/grouprecording.go:51-61 | For every annotation, whoever wrote it: the name each controller makes of it, by its first slash |
| ExternalNames.FormatExactly | internal/controller/rulegroupalerting/rulegroupalerting.go:51-53 | What is printed into an annotation |
| RuleGroups.UpToDateExactly | internal/controller/rulegroupalerting/rulegroupalerting.go:223-239 | A group built from one spec is up to date for another if and only if they agree on name, interval (if set) and number of rules; what a spec builds is up to date for it |
| RuleGroups.UnseenEdit | internal/controller/rulegroupalerting/rulegroupalerting.go:223-239 | Clearing the interval and replacing the rules by as many others always passes for up to date, and changes the group to be sent exactly when the interval or a translated rule was something else |
| RuleGroups.BuildKernelExactly | internal/controller/rulegroupalerting/rulegroupalerting.go:325-354 | Two specs of a kind are sent as the same group if and only if they agree on interval, source tenants and the rule in every place, an empty duration counting as none |
| RuleGroups.BuildExactly | internal/controller/rulegroupalerting/rulegroupalerting.go:325-354 | The group sent has as many rules as the spec, in every place the rule that the spec has there, field by field and with the other kind's fields empty; it reads back as the spec's; interval, source tenants and name are the spec's |
| RuleGroups.NamespaceExactly | internal/controller/rulegroupalerting/rulegroupalerting.go:189-192 | The namespace is "default" if none is given, and else the given text, the empty one included |
| RuleGroups.ComparisonExactly | internal/controller/rulegroupalerting/rulegroupalerting.go:223-239 | Up to date, for any stored group whoever wrote it, means the same name (current kinds), the same interval if one is set, and as many rules |
| RuleGroups.RulesReadBack | internal/controller/rulegroupalerting/rulegroupalerting.go:337-351 | The rules sent determine the rules of the spec, in order, up to empty durations |
| Addressing.EscapeDecodes | internal/clients/mimir/client.go:472 | A percent-encoded segment decodes to the text it came from and holds only bytes that may stand in a segment (sections 2.1, 2.3 and 3.3 of RFC 3986) |
| Addressing.PathsDecode | internal/clients/mimir/client.go:472-502 | The server reads back from each path exactly the namespace and name the client put in, slashes included |
| Addressing.PathsExactly | internal/clients/mimir/client.go:472-496 | The two paths, spelt out over the encoded segments |
| Addressing.KeptExactly | internal/clients/mimir/client.go:472 | Which bytes a segment leaves alone; all others are a percent sign and two digits |
| Addressing.KnownSegment | internal/clients/mimir/client.go:472 | A slash and a percent sign, encoded |
| Addressing.BaseExactly | internal/clients/mimir/client.go:195-207 | For all configured URLs, each component is reached under its own base URL if it has one, else under the common one, less one final slash; a slash alone counts as none, and the other component's is without effect |
| Addressing.AddressesInjective | internal/clients/mimir/client.go:195-207 | Under any base URL, two (namespace, name) pairs have the same URL if and only if they are the same pair |
| Ruler.GetAddressesKey | internal/clients/mimir/client.go:466-487 | The GET of a key reads that key of that tenant and changes nothing |
| Ruler.SetAddressesKey | internal/clients/mimir/client.go:490-508 | The POST of a group changes the store at its tenant, namespace and own name, and nowhere else |
| Ruler.DeleteAddressesKey | internal/clients/mimir/client.go:511-524 | The DELETE of a key removes exactly that key, and is answered 404 when there was nothing |
| Ruler.GetAfterSet | internal/clients/mimir/client.go:466-508 | A get after a set returns the group that was set; a get of any other key returns what it returned before |
| Ruler.GetAfterDelete | internal/clients/mimir/client.go:466-524 | A get after a delete finds nothing; a get of any other key returns what it returned before |
| Replies.ContainsSplits | internal/clients/mimir/client.go:187-189 | No phrase match straddles the formatted prefix and the body: a match lies in the body or is the printed 404 |
| Replies.NotFoundExactly | internal/clients/mimir/client.go:231-237 | For any status and body, the error text reads as "not found" if and only if the status is 404 or the body itself holds one of the two phrases |
| Replies.AnsweredExactly | internal/clients/mimir/client.go:474-523 | With phrase-free bodies, Get reports absence exactly on 404, and Delete succeeds exactly on 2xx and 404 |
| Replies.ReplyExactly | internal/clients/mimir/client.go:187-191 | By status: the body on 200 to 299, and else the error text, spelt out |
| Replies.PhrasesExactly | internal/clients/mimir/client.go:231-237 | Which two phrases make a text read as "not found" |
| Texts.ContainsExactly | internal/clients/mimir/client.go:235-236 | A text contains another if and only if it is that one with something before and after |
| Texts.DecimalExactly | internal/clients/mimir/client.go:188 | How a status is printed, digit by digit |
| Replies.TransportExactly | internal/clients/mimir/client.go:175-237 | A transport failure reads as "not found" if and only if its own text holds one of the phrases |
| Networks.RefusalMisleadsExactly | internal/clients/mimir/client.go:187-189 | A refusal on the way is misread as "not found" if and only if its status is 404 or its body holds one of the two phrases |
| Networks.NetworkExactly | internal/clients/mimir/client.go:163-192 | For every network behaviour: whether the server sees the request, whether the error reads as "not found", and its text |
| Headers.CanonicalExactly | internal/clients/mimir/client.go:217-223 | Two valid header names set the same header if and only if they agree up to case |
| Headers.KnownNames | internal/clients/mimir/client.go:217-227 | The tenant header's name as it goes out, and a name that is no header name |
| Headers.SetAll | internal/clients/mimir/client.go:217-219 | Ranging over a map sets its headers one after the other in some order in which every key comes once |
| Headers.SetHeaders | internal/clients/mimir/client.go:210-228 | The headers left are those of authentication, then all configured, then all extra ones, then the default organisation if there is no tenant yet, for some order of each map |
| Headers.TenantIsPossible | internal/clients/mimir/client.go:210-228 | In every order, the tenant on the wire is one of the possible tenants of organisation, provider and configured headers |
| Headers.EveryTenantHappens | internal/clients/mimir/client.go:210-228 | Each of those possible tenants is the one on the wire for some order |
| Headers.OrderIrrelevantExactly | internal/clients/mimir/client.go:217-223 | The map order is without effect on the tenant if and only if the resolved organisation is non-empty or the configured headers agree on the tenant header |
| Headers.RequestHeaders | internal/clients/mimir/client.go:163-178 | The headers of a request are those setHeaders leaves in some order of the maps, and their tenant is a possible one |
| Requests.SendsCarries | internal/clients/mimir/client.go:210-228 | Apart from the tenant, every header of a request, spelt out: content type of a body, configured value, own Authorization, or none |
| Headers.EffectiveTenantIs | internal/controller/rulegroupalerting/rulegroupalerting.go:318-323 | The one possible tenant: the resource's non-empty organisation; if unset, the provider's, else the configured header; if explicitly empty, the configured header before the provider's |
| Headers.EffectiveTenantOnWire | internal/clients/mimir/client.go:210-228 | That tenant is the header value sent, in every order of the map loops |
| Headers.AuthorizationOnWire | internal/clients/mimir/client.go:211-219 | The Authorization value sent is a configured one if there is any, else the client's own |
| Headers.WireExactly | internal/clients/mimir/client.go:210-228 | Every header of a request in every map order, spelt out: the tenant by the precedence of organisations and configured headers, the content type of a body, a configured value where there is one, and else the client's own Authorization and nothing |
| Headers.TenantsExactly | internal/clients/mimir/client.go:217-227 | The possible tenants, spelt out over organisations and configured headers |
| Headers.EffectiveExactly | internal/controller/rulegroupalerting/rulegroupalerting.go:318-323 | The tenant for one configured value, case by case |
| Texts.Base64RoundTrip | internal/clients/mimir/client.go:214 | The encoding in which basic credentials are sent decodes to them (section 4 of RFC 4648) |
| Texts.KnownEncodings | internal/clients/mimir/client.go:214 | Examples of section 10 of RFC 4648, one for each length of the last group |
| Credentials.ApplyAuth | internal/clients/mimir/config.go:72-101 | On success exactly the fields of the given kind of credentials change, to the secrets' values; on each failure the error is that of the first step that fails, and nothing changes |
| Credentials.ResolveExactly | internal/clients/mimir/config.go:72-101 | What the two kinds of credentials yield: user name and password, or token, each from its own secret in its own namespace or else the resource's; and each failure by the secret that is missing |
| Credentials.SecretsExactly | internal/clients/mimir/config.go:132-142 | The secret behind a reference, in its own namespace or else the resource's, and what a TLS field takes of it |
| Credentials.ValuesExactly | internal/clients/mimir/client.go:211-215 | The Authorization values of a token and of a user name and password |
| Credentials.TLSExactly | internal/clients/mimir/config.go:103-130 | Which TLS secrets are needed, the first one missing, and the key pair they make |
| Credentials.ApplyTLS | internal/clients/mimir/config.go:103-130 | Every field takes its secret's value up to the first unreadable secret, which is the error; the fields after it are unchanged |
| Credentials.NewClientSends | internal/clients/mimir/client.go:78-112 | There is a client if and only if there is a URI and the key pair, when both parts are given, can be loaded; on the wire, in every map order, its token wins over its user name and password unless a header speaks for Authorization, and its tenant is one that headers and organisations allow |
| Credentials.Connect | internal/clients/mimir/config.go:62-70 | The client of a provider configuration, or the first error among credentials, TLS material, URI and key pair; secrets are read from their own namespace if given, else the resource's |
| Credentials.ConnectExactly | internal/clients/mimir/config.go:62-142 | From the secrets to the wire: when Connect makes a client, and that it sends exactly "Basic " and the encoded user name, colon and password, or "Bearer " and the token, that the secrets hold, unless a configured header speaks for Authorization |
| Credentials.ConnectFailsExactly | internal/clients/mimir/config.go:72-101 | Each failure of Connect by the secret or reference that is missing |
| Credentials.AuthorizationEndToEnd | internal/clients/mimir/client.go:210-228 | From the credentials in the cluster to the wire: the value their kind stands for goes out, unless a configured Authorization header speaks for itself |
| Credentials.FormsExactly | internal/clients/mimir/client.go:211-215 | The bearer form goes out if and only if there is a non-empty token, the basic form if and only if user name and password are both non-empty |
| RulerClient.SendRequest | internal/clients/mimir/client.go:163-192 | One request of the given method to the ruler's base URL and path, with the headers made for it; the store as the server leaves it if it gets to see the request, for the tenant in these headers; and the result or error text of what came back |
| RulerClient.GetRuleGroup | internal/clients/mimir/client.go:466-487 | One GET of the key's URL; over any network behaviour, the group at the key of the tenant sent, nothing when the error reads as "not found", else a wrapped error; the store is unchanged |
| RulerClient.SetRuleGroup | internal/clients/mimir/client.go:490-508 | One POST to the namespace's URL; the store changes at the group's key for the tenant sent only, even when the reply is lost; success only when acknowledged |
| RulerClient.DeleteRuleGroup | internal/clients/mimir/client.go:511-524 | One DELETE of the key's URL; the store loses at most the key; success if and only if the exchange was reliable, or the error reads as "not found" by its status or by a phrase in its own text |
| RulerClient.GetExactly | internal/clients/mimir/client.go:474-487 | What a read returns for every network behaviour, with the text of each error |
| RulerClient.SetExactly | internal/clients/mimir/client.go:502-507 | A write succeeds if and only if it is acknowledged; the text of each error |
| RulerClient.DeleteExactly | internal/clients/mimir/client.go:518-523 | When a removal succeeds, over the network alone; a refusal with another status and a phrase-free body is an error |
| RulerClient.EffectExactly | internal/clients/mimir/client.go:490-524 | A write or removal is applied if and only if the server sees it, and to its key alone |
| Lifecycle.CreateIsFoundAgain | internal/controller/rulegroupalerting/rulegroupalerting.go:241-268 | For all three rule controllers: after an acknowledged Create, Observe addresses the key Create wrote if and only if the namespace is safe; otherwise a strictly longer name |
| Lifecycle.KeysExactly | internal/controller/grouprecording/grouprecording.go:184-324 | The tenant, namespace and name of every operation's key, spelt out for all three kinds |
| Lifecycle.StepsExactly | internal/controller/rulegroupalerting/rulegroupalerting.go:181-312 | What each observation leads to, and what each write leaves in annotation and store, spelt out |
| Lifecycle.SettledStep | internal/controller/grouprecording/grouprecording.go:184-324 | A settled resource stays settled at one home key through every step, and Observe, Create, Update and Delete all address it |
| Lifecycle.CellRefines | internal/controller/rulegroupalerting/rulegroupalerting.go:181-312 | A step in the whole store is, at the resource's home, a step of a protocol that knows a single group only |
| Lifecycle.RunRefines | internal/controller/grouprecording/grouprecording.go:184-324 | Over whole runs with failures, misread and lost replies, lost annotations, defaulted names and repeated Creates, all operations address one fixed key, and the run is one of the single-group protocol |
| Lifecycle.UnsafeDiverges | internal/controller/rulegroupalerting/rulegroupalerting.go:199-202 | In an unsafe namespace, for all three kinds, the first Create already leads away from the single-group protocol |
| Lifecycle.RefinesExactly | internal/controller/rulegroupalerting/rulegroupalerting.go:181-312 | A fresh resource behaves, over all runs in all stores, as it does alone with its group if and only if its namespace is safe |
| Lifecycle.StepFrame | internal/controller/rulegroupalerting/rulegroupalerting.go:241-312 | A step leaves every key but the one written as it was |
| WriteBound.DebtStep | internal/controller/rulegroupalerting/rulegroupalerting.go:181-290 | A successful write is paid for by the writes still owed, which only spec edits, foreign writes and misread GETs raise, by one each |
| WriteBound.SuccessesBounded | internal/controller/rulegroupalerting/rulegroupalerting.go:194-290 | Over any run from any phase, successful writes plus writes still owed never exceed those owed at the start plus edits, foreign writes and misread GETs |
| WriteBound.WriteBound | internal/controller/rulegroupalerting/rulegroupalerting.go:194-290 | Successful Creates and Updates never exceed 1 + spec edits + foreign writes + GETs misread as "not found", however many requests fail otherwise |
| WriteBound.MisreadsWrite | internal/clients/mimir/client.go:474-478 | The bound is reached: n passes with a misread GET write n times, even if all is up to date |
| WriteBound.CreateOutgrows | internal/controller/grouprecording/grouprecording.go:240-274 | In an unsafe namespace a Create makes Observe look for a name longer than any in the namespace |
| WriteBound.QuietWritesExactly | internal/controller/grouprecording/grouprecording.go:184-274 | With nobody interfering, n passes write once in a safe namespace and n times in an unsafe one, where the legacy controller leaves n groups |
| WriteBound.Converges | internal/controller/rulegroupalerting/rulegroupalerting.go:181-312 | One clean pass brings a settled resource up to date; deletion in clean requests finalises it with its group gone |
| Accounting.StoredIsLastApplied | internal/controller/rulegroupalerting/rulegroupalerting.go:241-290 | Without foreign writes the stored group is, after any run of fixed identity, the translation of the spec last applied, acknowledged or not |
| Accounting.UpToDateMeans | internal/controller/rulegroupalerting/rulegroupalerting.go:181-239 | After such a run Observe reports up to date if and only if something was applied and its spec agrees with the present one on name, interval (if set) and number of rules |
| Accounting.ElsewhereOnlyForeign | internal/controller/rulegroupalerting/rulegroupalerting.go:241-312 | Over any run with any edits, a key the resource neither wrote nor removed holds what foreign writes alone would have left |
| Accounting.SurvivorsExactly | internal/controller/rulegroupalerting/rulegroupalerting.go:241-312 | Without foreign writes the keys left are exactly the initial and the written ones minus the removed ones |
| Accounting.PostedIsHome | internal/controller/rulegroupalerting/rulegroupalerting.go:241-290 | With fixed identity the home key is the only one ever written |
| Accounting.CompletedDeletionExactly | internal/controller/rulegroupalerting/rulegroupalerting.go:292-312 | After a completed deletion with fixed identity the group is still there if and only if the resource was finalised unasked or on a misread answer while it was there; then everything written survives, and else nothing |
| Accounting.GoneLeavesExactly | internal/controller/rulegroupalerting/rulegroupalerting.go:181-312 | The same for the store alone: what the finalising observation tells about the group at home |
| Accounting.Orphaned | internal/controller/rulegroupalerting/rulegroupalerting.go:194-197 | A run that is finalised unasked: Create applied with its reply lost, deletion, and an Observe that asks nothing |
| Accounting.OrphanedByMisreading | internal/clients/mimir/client.go:231-237 | A run that is finalised on a misread answer: a clean Create, deletion, and a GET whose error reads as "not found" |
| Rename.RenamedForever | internal/controller/rulegroupalerting/rulegroupalerting.go:199-312 | After a rename, whatever follows short of renaming back, foreign writes to the old key or a misread answer, no Observe reports up to date or absent, every answered one leads to Update or Delete, and the old group stays untouched |
| Rename.MisreadingEndsIt | internal/controller/rulegroupalerting/rulegroupalerting.go:199-268 | A misread answer ends this: the resource is created under the new name and up to date from then on, or finalised, and the old group is left behind |
| Rename.RoundSucceedsExactly | internal/controller/rulegroupalerting/rulegroupalerting.go:199-312 | A clean pass brings a found resource up to date, and a clean deletion finalises it, if and only if the name Observe looks up is the name the writes use |
| Retries.RetriesExactly | internal/controller/grouprecording/grouprecording.go:240-324 | Any attempts at a write that end in a clean one leave the same store and annotation as the clean one alone, unless a legacy Create was persisted before in a slashed namespace, and then never |
| Retries.NamesGrow | internal/controller/grouprecording/grouprecording.go:255-267 | There, each persisted Create makes the annotation strictly longer |
| Interference.HappenLocal | internal/controller/rulegroupalerting/rulegroupalerting.go:181-312 | Among resources with distinct homes in safe namespaces (slash-free, or for the current kinds with a leading slash), a step changes one resource, and the store at its home only |
| Interference.HappenProjects | internal/controller/rulegroupalerting/rulegroupalerting.go:181-312 | In such a system, what a step does to a resource and its group is a step of that resource's own protocol, or nothing |
| Interference.NonInterference | internal/controller/rulegroupalerting/rulegroupalerting.go:181-312 | Any request-level interleaving of any number of resources with distinct homes in safe namespaces, projected on one of them and its group, is a solo run |
| Interference.AsIfAlone | internal/controller/rulegroupalerting/rulegroupalerting.go:181-312 | Among others, with distinct homes in safe namespaces, a resource and the group at its home end up as they would have in the same store alone |
| Interference.UnsafeInterferes | internal/controller/rulegroupalerting/rulegroupalerting.go:199-239 | The namespace condition is needed: a resource of any kind in an unsafe namespace, and a second one named as the first looks itself up, have distinct homes and interfere once both are created |
| Interference.NeighbourExists | internal/controller/rulegroupalerting/rulegroupalerting.go:199-239 | Every fresh resource in an unsafe namespace, of any kind, has a neighbour with another home that interferes with it, from an empty store on |
| Managed.TheTenant | internal/controller/rulegroupalerting/rulegroupalerting.go:138 | With at most one value configured for the tenant header, there is one choice of provider, and all requests for a spec act for the tenant the protocol assumes |
| Managed.TenantsAreChoices | internal/clients/mimir/client.go:210-228 | Whatever is configured for the tenant header, the tenants that requests may act for are exactly those of the protocol under one choice or another |
| Managed.ChoiceIrrelevantExactly | internal/clients/mimir/client.go:217-227 | The choice is without effect on the protocol if and only if the resolved organisation is non-empty or the configured headers agree |
| Managed.ObservesExactly | internal/controller/rulegroupalerting/rulegroupalerting.go:181-221 | What Observe reports and the status it leaves, over tenant, given namespace and annotation, with the text of each error |
| Managed.AppliesExactly | internal/controller/rulegroupalerting/rulegroupalerting.go:241-312 | Which key a write or removal changes, over tenant and given namespace, and when it changes nothing |
| Managed.StatusExactly | internal/controller/grouprecording/grouprecording.go:255-273 | The status of a created resource, field by field |
| Managed.AnswersExactly | internal/clients/mimir/client.go:163-237 | What the protocol sees of each network behaviour |
| Managed.WritesReport | internal/controller/rulegroupalerting/rulegroupalerting.go:258-311 | When each write of a rule controller reports success, and the text of each error |
| RuleGroupController.External.BuildRuleGroup | internal/controller/rulegrouprecording/rulegrouprecording.go:325-347 | The append loop translates every rule in order, and the optional fields fall back on empty ones |
| RuleGroupController.External.Observe | internal/controller/rulegroupalerting/rulegroupalerting.go:181-221 | What Observe reports and the status it leaves, for any annotation and network behaviour, at the key of the resource's tenant, its given namespace or "default", and the name its annotation stands for; nothing is asked under an empty annotation, and else one request is made; the store is unchanged |
| RuleGroupController.External.Create | internal/controller/rulegroupalerting/rulegroupalerting.go:241-268 | The group is stored if the server sees the request, in the resource's given namespace or "default", under the spec's name; success if and only if acknowledged; annotation and status change only on success, the condition always |
| RuleGroupController.External.Update | internal/controller/rulegroupalerting/rulegroupalerting.go:270-290 | The group is replaced if the server sees the request, in the given namespace or "default", under the spec's name; success if and only if acknowledged; the resource is unchanged |
| RuleGroupController.External.Delete | internal/controller/rulegroupalerting/rulegroupalerting.go:292-312 | The group is removed if the server sees the request, in the given namespace or "default"; success if and only if the exchange was reliable or its error reads as "not found"; only the condition changes |
| RuleGroupController.External.Look | internal/controller/rulegroupalerting/rulegroupalerting.go:181-239 | Doing what Observe dictates is the decision of the protocol, whatever the network does to the GET, misreadings included, and for some choice among the configured tenant headers |
| RuleGroupController.External.Act | internal/controller/rulegroupalerting/rulegroupalerting.go:241-312 | Each write, with its network behaviour and the fate of the annotation, is the Write step of the protocol, for some choice among the configured tenant headers |
| RuleGroupController.External.Reconcile | internal/controller/rulegroupalerting/rulegroupalerting.go:181-312 | A whole pass of the code is two steps of the protocol, whatever the network does to either request and whatever tenant headers are configured; each request makes a choice among these |
| GroupRecordingController.External.BuildRuleGroup | internal/controller/grouprecording/grouprecording.go:337-358 | The same for the legacy resource, under the name it is handed |
| GroupRecordingController.External.Observe | internal/controller/grouprecording/grouprecording.go:184-224 | What Observe reports and the status it leaves, for any annotation and network behaviour, at the key of the resource's tenant, its given namespace or "default", and the name its annotation stands for; nothing is asked under an empty annotation, and else one request is made; the store is unchanged |
| GroupRecordingController.External.Create | internal/controller/grouprecording/grouprecording.go:240-274 | The group is stored if the server sees the request, in the resource's given namespace or "default", under the name the annotation, or else the object's name, stands for; success if and only if acknowledged; annotation and status change only on success, the condition always |
| GroupRecordingController.External.Update | internal/controller/grouprecording/grouprecording.go:276-299 | The group is replaced if the server sees the request, in the given namespace or "default", under the name the annotation stands for; success if and only if acknowledged; the resource is unchanged |
| GroupRecordingController.External.Delete | internal/controller/grouprecording/grouprecording.go:301-324 | The group is removed if the server sees the request, in the given namespace or "default"; success if and only if the exchange was reliable or its error reads as "not found"; only the condition changes |
| GroupRecordingController.External.Look | internal/controller/grouprecording/grouprecording.go:184-238 | Doing what Observe dictates is the decision of the protocol, whatever the network does to the GET, misreadings included, and for some choice among the configured tenant headers |
| GroupRecordingController.External.Act | internal/controller/grouprecording/grouprecording.go:240-324 | Each write, with its network behaviour and the fate of the annotation, is the Write step of the protocol, for some choice among the configured tenant headers |
| GroupRecordingController.External.Reconcile | internal/controller/grouprecording/grouprecording.go:184-324 | A whole pass of the code is two steps of the protocol, whatever the network does to either request and whatever tenant headers are configured; each request makes a choice among these |
| AlertmanagerTranslation.BuildReceiver | internal/controller/alertmanagerconfig/alertmanagerconfig.go:325-355 | The three inner loops translate e-mail, Slack and webhook settings in order; PagerDuty and OpsGenie are dropped |
| AlertmanagerTranslation.BuildReceivers | internal/controller/alertmanagerconfig/alertmanagerconfig.go:323-359 | All receivers in order |
| AlertmanagerTranslation.BuildRoute | internal/controller/alertmanagerconfig/alertmanagerconfig.go:361-390 | The route and its child routes in order, nothing for none |
| AlertmanagerTranslation.BuildTimeInterval | internal/controller/alertmanagerconfig/alertmanagerconfig.go:300-311 | One time interval with its ranges in order |
| AlertmanagerTranslation.BuildMuteTimeIntervals | internal/controller/alertmanagerconfig/alertmanagerconfig.go:297-315 | The two nested loops over named intervals, lengths and order kept |
| AlertmanagerTranslation.BuildAlertmanagerConfig | internal/controller/alertmanagerconfig/alertmanagerconfig.go:263-321 | The whole document by all the loops together, which `AlertmanagerCorrespondence.SentExactly` spells out |
| AlertmanagerRetraction.TranslationRetracts | internal/controller/alertmanagerconfig/alertmanagerconfig.go:263-404 | Reading a sent document back gives the spec up to erasure, and the erased spec is sent alike |
| AlertmanagerRetraction.KernelExactly | internal/controller/alertmanagerconfig/alertmanagerconfig.go:263-404 | Two specs are sent alike if and only if they agree after dropping empty strings, false flags, secrets, webhook HTTP settings, PagerDuty and OpsGenie lists and the organisation |
| AlertmanagerCorrespondence.SentExactly | internal/controller/alertmanagerconfig/alertmanagerconfig.go:263-404 | Position by position: every field of the document holds what the spec has in that place, and every field no place of a spec goes to is empty |
| AlertmanagerCorrespondence.SayableRebuilds | internal/controller/alertmanagerconfig/alertmanagerconfig.go:263-404 | For every document without such fields, sent or not: what is read of it is a spec that is sent as that document |
| AlertmanagerCorrespondence.ImageExactly | internal/controller/alertmanagerconfig/alertmanagerconfig.go:263-404 | The documents that are sent for some spec are exactly those |
| AlertmanagerLifecycle.DebtStep | internal/controller/alertmanagerconfig/alertmanagerconfig.go:168-250 | A successful Create is paid for by one still owed, which only foreign writes and misread GETs raise |
| AlertmanagerLifecycle.StepsExactly | internal/controller/alertmanagerconfig/alertmanagerconfig.go:168-261 | Whose document a resource is about, what each observation leads to, and what each write leaves, spelt out |
| AlertmanagerLifecycle.DocumentsExactly | internal/controller/alertmanagerconfig/alertmanagerconfig.go:181-250 | What a write does to the documents, and which documents count as there |
| AlertmanagerLifecycle.CreatesOnce | internal/controller/alertmanagerconfig/alertmanagerconfig.go:168-217 | With a fixed non-empty organisation, over any run, no Update is ever pending and at most one Create succeeds beyond the foreign writes and the misread GETs |
| AlertmanagerLifecycle.MisreadsCreate | internal/clients/mimir/client.go:397-402 | n passes with a misread GET create n times, even if the configuration is there |
| AlertmanagerLifecycle.GoneLeavesExactly | internal/controller/alertmanagerconfig/alertmanagerconfig.go:168-250 | After a completed deletion of a resource of one tenant, an empty one included, the document is still there if and only if the resource was finalised unasked or on a misread answer while it was there |
| AlertmanagerLifecycle.UnnamedNeverDeletes | internal/controller/alertmanagerconfig/alertmanagerconfig.go:174-250 | In the empty organisation and without a name, no Delete is ever pending, and a document once there stays, over any run |
| AlertmanagerLifecycle.StoredIsLastCreated | internal/controller/alertmanagerconfig/alertmanagerconfig.go:198-217 | Without foreign writes the tenant's document is the translation of the spec as of the last Create, and of no later edit |
| AlertmanagerLifecycle.QuietWritesExactly | internal/controller/alertmanagerconfig/alertmanagerconfig.go:174-217 | With nobody interfering and no name defaulted, n passes create once with a non-empty resolved organisation and n times with an empty one |
| AlertmanagerInterference.StepLocal | internal/controller/alertmanagerconfig/alertmanagerconfig.go:168-250 | A resource of a fixed tenant, an empty one included, depends on that tenant's document alone and touches no other |
| AlertmanagerInterference.AsIfAlone | internal/controller/alertmanagerconfig/alertmanagerconfig.go:168-250 | In any interleaving of resources of distinct tenants, each of them and its document go through the run they would have alone |
| AlertmanagerInterference.SharedTenant | internal/controller/alertmanagerconfig/alertmanagerconfig.go:168-217 | Of two resources of one tenant, the later Create replaces the document; the earlier resource reports it as its own and up to date, or, in the empty organisation, creates again |
| AlertmanagerClient.SendRequest | internal/clients/mimir/client.go:163-192 | One request of the given method to /api/v1/alerts under the Alertmanager's base URL, with the headers made for it, and its exchange for the tenant in these headers |
| AlertmanagerClient.GetAfterWrite | internal/clients/mimir/client.go:389-444 | A get after a set returns the document, after a delete none; every other tenant reads what it read before |
| AlertmanagerClient.RequestsExactly | internal/clients/mimir/client.go:386-444 | Method, path, tenant and body of the three requests |
| AlertmanagerClient.GetAlertmanagerConfig | internal/clients/mimir/client.go:389-409 | Over any network behaviour, the document of a possible tenant, nothing when there is none or the error reads as "not found", else a wrapped error; nothing is changed |
| AlertmanagerClient.SetAlertmanagerConfig | internal/clients/mimir/client.go:412-429 | The tenant's document is replaced if the server sees the request, even when the reply is lost; success only when acknowledged |
| AlertmanagerClient.DeleteAlertmanagerConfig | internal/clients/mimir/client.go:432-444 | The tenant's document goes if the server sees the request; success if and only if the exchange was reliable, or the error reads as "not found" by its status or by a phrase in its own text |
| AlertmanagerClient.GetExactly | internal/clients/mimir/client.go:389-409 | What a read returns for every network behaviour, with the text of each error |
| AlertmanagerClient.SetExactly | internal/clients/mimir/client.go:412-429 | A write succeeds if and only if it is acknowledged; the text of each error |
| AlertmanagerClient.DeleteExactly | internal/clients/mimir/client.go:432-444 | When a removal succeeds, over the network alone |
| AlertmanagerClient.EffectExactly | internal/clients/mimir/client.go:412-444 | A write or removal is applied if and only if the server sees it, and to its tenant alone |
| AlertmanagerController.External.Observe | internal/controller/alertmanagerconfig/alertmanagerconfig.go:168-196 | What Observe reports for any annotation and network behaviour: every document is up to date, an empty one is absent; status only changes when something is found |
| AlertmanagerController.External.Create | internal/controller/alertmanagerconfig/alertmanagerconfig.go:198-217 | The translation is stored for the tenant unless refused; on success alone the annotation becomes the organisation |
| AlertmanagerController.External.Update | internal/controller/alertmanagerconfig/alertmanagerconfig.go:219-233 | One POST of the translation for a tenant the spec may act for, applied even if its reply is lost; success only when acknowledged, and the resource is unchanged |
| AlertmanagerController.External.Delete | internal/controller/alertmanagerconfig/alertmanagerconfig.go:235-250 | One DELETE for a tenant the spec may act for, applied even if its reply is lost; succeeds when acknowledged or when the error reads as "not found", and only the condition changes |
| AlertmanagerController.WritesReport | internal/controller/alertmanagerconfig/alertmanagerconfig.go:198-250 | When each write of the Alertmanager controller reports success, and the text of each error |
| AlertmanagerController.External.Look | internal/controller/alertmanagerconfig/alertmanagerconfig.go:168-196 | Doing what Observe dictates is the decision of the protocol, whatever the network does to the GET, misreadings included, and for some choice among the configured tenant headers |
| AlertmanagerController.External.Act | internal/controller/alertmanagerconfig/alertmanagerconfig.go:198-250 | Each write, with its network behaviour and the fate of the annotation, is the Write step of the protocol, for some choice among the configured tenant headers |
| AlertmanagerController.External.Reconcile | internal/controller/alertmanagerconfig/alertmanagerconfig.go:168-250 | A whole pass of the code is two steps of the protocol, whatever the network does to either request and whatever tenant headers are configured; each request makes a choice among these |
| DeepCopies.CopyTable | apis/alertmanager/v1/zz_generated.deepcopy.go:199-205 | The map loop makes a new map with the same entries, in whatever order it ranges |
| DeepCopies.CopyElements | apis/alertmanager/v1/zz_generated.deepcopy.go:173-198 | The element loops make a new slice of copies that look like the originals, each of them made of new objects |
| DeepCopies.CopyFields | apis/alertmanager/v1/zz_generated.deepcopy.go:598-652 | The fields of a struct, one after the other over its shallow copy, all end up as new copies |
| DeepCopies.DeepCopy | apis/alertmanager/v1/zz_generated.deepcopy.go:156-771 | For every graph of every type made of scalars, pointers, slices, maps and structs: the copy looks the same, nil and empty kept apart, and every pointer target, slice and map reachable from it is new |
| DeepCopies.ViewsExactly | apis/alertmanager/v1/zz_generated.deepcopy.go:156-771 | What "looks the same" means: equal scalars, maps and lengths, nil where the other is nil, and so on part by part |
| DeepCopies.FitsExactly | apis/alertmanager/v1/zz_generated.deepcopy.go:156-771 | What belongs to a value: every target, slice and map it refers to, part by part |
| GeneratedCopies.DeepCopyConfigParameters | apis/alertmanager/v1/zz_generated.deepcopy.go:156-206 | The blocks of ConfigParameters leave no field shared: the copy looks the same and is made of new objects only |
| GeneratedCopies.DeepCopyRouteConfig | apis/alertmanager/v1/zz_generated.deepcopy.go:598-652 | The same for the blocks of RouteConfig |
| GeneratedCopies.DeepCopyChildRouteConfig | apis/alertmanager/v1/zz_generated.deepcopy.go:17-64 | The same for the blocks of ChildRouteConfig |
| GeneratedCopies.DeepCopyReceiverConfig | apis/alertmanager/v1/zz_generated.deepcopy.go:548-585 | The same for the blocks of ReceiverConfig |
| GeneratedCopies.DeepCopyTimeIntervalConfig | apis/alertmanager/v1/zz_generated.deepcopy.go:720-729 | The same for the block of TimeIntervalConfig |
| GeneratedCopies.DeepCopyTimeIntervalSpec | apis/alertmanager/v1/zz_generated.deepcopy.go:742-771 | The same for the blocks of TimeIntervalSpec |
| GeneratedCopies.FormsOfTypes | apis/alertmanager/v1/config_types.go:29-441 | The blocks fit the declared types, field by field |
| GeneratedCopies.DeepCopyPointer | apis/alertmanager/v1/zz_generated.deepcopy.go:209-216 | nil for nil, else a new struct of new parts that looks the same |
| GeneratedCopies.ParametersOutliveOriginal | apis/alertmanager/v1/zz_generated.deepcopy.go:156-216 | For every graph of ConfigParameters, the copy shows what the original showed when it was made, however the original is mutated afterwards |
| GeneratedCopies.ParametersOutliveCopy | apis/alertmanager/v1/zz_generated.deepcopy.go:156-216 | And the original what it showed, however the copy is mutated |
| DeepCopies.CopyOutlivesOriginal | apis/alertmanager/v1/zz_generated.deepcopy.go:156-216 | For every type, the copy shows what the original showed when it was made, however the original is mutated afterwards |
| DeepCopies.OriginalOutlivesCopy | apis/alertmanager/v1/zz_generated.deepcopy.go:156-216 | For every type, the original shows what it showed, however the copy is mutated afterwards |

## Left out

- HTTP transport, TLS handshakes, X.509 loading, timeouts and cancellation: a request fails before the server sees it, is refused on the way, is applied and answered, or is applied with its reply lost. What loading a key pair makes of its two texts is a parameter, and the TLS configuration built of it is not modelled.
- YAML: the store holds records as they were sent, without the server normalising durations. Parse errors are not modelled, and an Alertmanager document with empty text is `document: None`.
- An error while making a request or reading a response body, and its text, which never mentions "not found".
- The Crossplane runtime: its managed reconciler is not part of this model. The driver is the abstract one of `Look`, `Act` and `Reconcile`, and name defaulting is an event that may or may not happen.
- Connect plumbing, usage tracking, `main`, registration, metrics, CRDs: wiring.
- `internal/controller/m` and `apis/m`: the same logic with other imports.
- RuleGroupRecording as a controller of its own: it has the code of RuleGroupAlerting with another rule translation, which `RuleGroups.Translate` covers.
- A server that cleans `.` and `..` or empty segments out of a path before decoding it: the model decodes segments as sent.
- `Kubernetes` object metadata other than the external-name annotation, and the aliasing of annotation and label maps.
- The text of wrong-kind errors, which is one text here and differs by controller in the source.
- Nil against empty slices and maps outside `DeepCopies`: both are omitted from the wire.
- Lifecycle.RunRefines: takes one choice among several configured tenant headers for a whole run, as do the other theorems over runs; `Managed.ChoiceIrrelevantExactly` says when there is nothing to choose. A single pass is covered without this (`Reconcile`).
- Blanks around header values, which net/http trims as it writes them: organisations that differ in these only are one tenant on the wire and two here.
- A 2xx reply that is not the server's own, such as an empty one from a proxy, which the source parses as an empty group.
- DeepCopies.DeepCopy: is the scheme the generator follows, once for all types. The types below the six of `GeneratedCopies` (e-mail, Slack and other receiver settings, global settings, inhibition rules, time ranges) are copied by it, on the assumption that their generated methods follow the scheme in every field.
- GeneratedCopies.DeepCopyConfigParameters: the struct written through `out` is an object whose fields are replaced one by one and whose value is returned; structs held by value have no identity of their own. Fields are told apart by position.
- Deep copies of the lists, specs and statuses around the parameters, and of `apis/v1` and `apis/ruler/v1`: the same scheme.
- Status fields are in the controllers' contracts but not in the state machine, since no decision reads them.
