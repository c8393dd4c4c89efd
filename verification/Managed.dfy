/** A managed resource as the API server keeps it, and the contracts its controllers share. */
module Managed {
  import opened Wrappers
  import opened Texts
  import opened ExternalNames
  import opened RuleGroups
  import opened Headers
  import opened Ruler
  import opened Networks
  import opened RulerClient
  import opened Lifecycle

  datatype Condition = Unset | Available | Creating | Deleting

  /** status.atProvider and the readiness condition. */
  datatype Status = Status(id: Option<Text>, orgID: Option<Text>, namespace: Option<Text>, name: Option<Text>,
                           interval: Option<Text>, condition: Condition)

  class Resource {
    const objectName: Text
    var desired: Desired
    var externalName: Text
    var status: Status
    var deleting: bool
    var finalised: bool

    constructor (objectName: Text, desired: Desired)
      ensures this.objectName == objectName && this.desired == desired && externalName == ""
      ensures status == Status(None, None, None, None, None, Unset) && !deleting && !finalised
    {
      this.objectName := objectName;
      this.desired := desired;
      externalName := "";
      status := Status(None, None, None, None, None, Unset);
      deleting := false;
      finalised := false;
    }
  }

  datatype Observation = Observation(resourceExists: bool, resourceUpToDate: bool)

  const WRONG_KIND: Text := "wrong kind of managed resource"
  const CANNOT_GET: Text := "cannot get rule group: "
  const CANNOT_CREATE: Text := "cannot create rule group: "
  const CANNOT_UPDATE: Text := "cannot update rule group: "
  const CANNOT_DELETE: Text := "cannot delete rule group: "

  /** What Observe learns of the group: nothing is asked under an empty annotation. */
  function Learned(d: Desired, externalName: Text, st: Store, tenant: Text, net: Network)
    : Result<Option<RuleGroup>, Text>
  {
    if externalName == "" then Ok(None)
    else GetResult(st, Key(tenant, Namespace(d), ObserveName(d, externalName)), net)
  }

  function Reported(d: Desired, learned: Result<Option<RuleGroup>, Text>): Result<Observation, Text> {
    match learned
    case Err(error) => Err(CANNOT_GET + error)
    case Ok(None) => Ok(Observation(false, false))
    case Ok(Some(rg)) => Ok(Observation(true, UpToDate(d, rg)))
  }

  /** The status Observe leaves: untouched unless the group was found. */
  function StatusObserved(s: Status, d: Desired, externalName: Text, orgID: Text,
                          learned: Result<Option<RuleGroup>, Text>): Status {
    if learned.Err? || learned.value.None? then s
    else if d.RuleGroupSpec? then
      s.(orgID := Some(orgID), namespace := Some(Namespace(d)), name := Some(learned.value.value.name),
         condition := Available)
    else
      s.(id := Some(Format(Namespace(d), LegacyParse(externalName))), orgID := Some(orgID),
         namespace := Some(Namespace(d)), interval := Some(learned.value.value.interval), condition := Available)
  }

  /** The status Create leaves. */
  function StatusCreated(s: Status, d: Desired, orgID: Text, name: Text, ok: bool): Status {
    if !ok then s.(condition := Creating)
    else if d.RuleGroupSpec? then
      s.(orgID := Some(orgID), namespace := Some(Namespace(d)), name := Some(name), condition := Creating)
    else
      s.(id := Some(Format(Namespace(d), name)), orgID := Some(orgID), namespace := Some(Namespace(d)),
         condition := Creating)
  }

  /** The tenants the requests for a spec may act for. */
  ghost function TenantsOf(c: Client, defaultOrgID: Text, d: Desired): set<Text> {
    Tenants(OrgID(d.orgID, defaultOrgID), c.orgID, c.headers)
  }

  /** Observe: what it reports, and the status it leaves. */
  ghost predicate Observes(c: Client, defaultOrgID: Text, d: Desired, externalName: Text, st: Store, net: Network,
                           before: Status, r: Result<Observation, Text>, after: Status) {
    exists t ::
      t in TenantsOf(c, defaultOrgID, d) &&
      var learned := Learned(d, externalName, st, t, net);
      && r == Reported(d, learned)
      && after == StatusObserved(before, d, externalName, OrgID(d.orgID, defaultOrgID), learned)
  }

  /** A write or removal of the group of a given name: the store it leaves. */
  ghost predicate Applies(c: Client, defaultOrgID: Text, d: Desired, name: Text, g: Option<RuleGroup>, net: Network,
                          st: Store, st': Store) {
    exists t :: t in TenantsOf(c, defaultOrgID, d) && st' == Effect(st, Key(t, Namespace(d), name), g, net)
  }

  function WrappedResult(context: Text, r: Result<(), Text>): Result<(), Text> {
    if r.Ok? then r else Err(context + r.error)
  }

  /** The answer to a GET, and the outcome of a write, as the protocol sees them. */
  function AnswerOf(net: Network): Answer {
    if net.Reliable? then Answered else if Misleading(net) then Misread else Unanswered
  }

  function OutcomeOf(net: Network, persisted: bool): Outcome {
    if net.Reliable? then (if persisted then Acked else Unpersisted)
    else if Served(net) then Lost
    else Dropped
  }

  /** The world of the protocol, read off a resource between passes and the remote store. */
  function WorldOf(p: Provider, cr: Resource, remote: Remote): World
    reads cr, remote
  {
    World(Local(p, cr.desired, cr.objectName, cr.externalName, cr.deleting, if cr.finalised then Gone else Idle),
          remote.groups)
  }

  function Deciding(w: World, phase: Phase): World {
    w.(local := w.local.(phase := phase))
  }

  /** What the driver does with an observation; an error ends the pass. */
  function Decision(d: Desired, deleting: bool, observed: Result<Observation, Text>): Phase {
    match observed
    case Err(_) => Idle
    case Ok(o) =>
      if deleting then (if o.resourceExists then Pending(Action.Delete, d) else Gone)
      else if !o.resourceExists then Pending(Action.Create, d)
      else if !o.resourceUpToDate then Pending(Action.Update, d)
      else Idle
  }

  /** With the protocol's tenant, that is the protocol's decision. */
  lemma DecisionIsStep(l: Local, st: Store, net: Network)
    requires l.phase.Idle?
    ensures var learned := Learned(l.desired, l.externalName, st, Tenant(l.provider, l.desired), net);
      Decision(l.desired, l.deleting, Reported(l.desired, learned)) ==
        AfterObserve(l, AnswerOf(net), Lookup(st, ObserveKey(l))).phase
  {
  }

  /** A write that acts for the protocol's tenant is the protocol's. */
  lemma WriteIsStep(w: World, net: Network, persisted: bool)
    requires w.local.phase.Pending? && w.local.phase.snapshot == w.local.desired
    ensures var k, action := WriteKey(w.local), w.local.phase.action;
      var name := if action.Create? && net.Reliable? && persisted then Format(k.namespace, k.name)
        else w.local.externalName;
      Step(w, Write(OutcomeOf(net, persisted))) ==
        World(w.local.(phase := Idle, externalName := name),
              Effect(w.store, k, if action.Delete? then None else Some(Build(w.local.desired, k.name)), net))
  {
  }

  /** Observing changes the phase alone, and without a pending write the second half of a pass idles. */
  lemma HalfPasses(w: World, answer: Answer, o: Outcome)
    requires w.local.phase.Idle?
    ensures var w1 := Step(w, Observe(answer));
      && w1 == Deciding(w, w1.local.phase)
      && (w1.local.phase.Pending? ==> w1.local.phase.snapshot == w.local.desired)
      && (!w1.local.phase.Pending? ==> Step(w1, Write(o)) == w1)
  {
  }

  /** What one request takes for its provider: the client's organisation, and one of the values configured for the
      tenant header if there are any. Which one is up to the order of ranging over the headers. */
  ghost predicate Chosen(c: Client, p: Provider) {
    && p.orgID == c.orgID
    && (if Offered(c.headers, SCOPE) == {} then p.configured == None
        else p.configured.Some? && p.configured.value in Offered(c.headers, SCOPE))
  }

  function ActingFor(w: World, p: Provider): World {
    w.(local := w.local.(provider := p))
  }

  /** Some choice can always be made. */
  lemma SomeChoice(c: Client) returns (p: Provider)
    ensures Chosen(c, p)
  {
    if Offered(c.headers, SCOPE) == {} {
      p := Provider(c.orgID, None);
    } else {
      var v :| v in Offered(c.headers, SCOPE);
      p := Provider(c.orgID, Some(v));
    }
  }

  /** Every tenant a request may act for is the protocol's tenant under some choice. */
  lemma ChoiceOf(c: Client, resourceOrg: Option<Text>, tenant: Text) returns (p: Provider)
    requires tenant in Tenants(OrgID(resourceOrg, c.orgID), c.orgID, c.headers)
    ensures Chosen(c, p) && EffectiveTenant(resourceOrg, p.orgID, p.configured) == tenant
  {
    p := SomeChoice(c);
    if OrgID(resourceOrg, c.orgID) == "" && Offered(c.headers, SCOPE) != {} {
      var v :| v in Offered(c.headers, SCOPE) && tenant == if v == "" then c.orgID else v;
      p := Provider(c.orgID, Some(v));
    }
  }

  /** The choice behind a report of Observe. */
  lemma ChoiceForReport(c: Client, d: Desired, externalName: Text, st: Store, net: Network, before: Status,
                        r: Result<Observation, Text>, after: Status)
    returns (p: Provider)
    requires Observes(c, c.orgID, d, externalName, st, net, before, r, after)
    ensures Chosen(c, p) && r == Reported(d, Learned(d, externalName, st, Tenant(p, d), net))
  {
    var t :|
      t in TenantsOf(c, c.orgID, d) &&
      var learned := Learned(d, externalName, st, t, net);
      r == Reported(d, learned) && after == StatusObserved(before, d, externalName, OrgID(d.orgID, c.orgID), learned);
    p := ChoiceOf(c, d.orgID, t);
  }

  /** The choice behind a write or removal. */
  lemma ChoiceForWrite(c: Client, d: Desired, name: Text, g: Option<RuleGroup>, net: Network, st: Store, st': Store)
    returns (p: Provider)
    requires Applies(c, c.orgID, d, name, g, net, st, st')
    ensures Chosen(c, p) && st' == Effect(st, Key(Tenant(p, d), Namespace(d), name), g, net)
  {
    var t :| t in TenantsOf(c, c.orgID, d) && st' == Effect(st, Key(t, Namespace(d), name), g, net);
    p := ChoiceOf(c, d.orgID, t);
  }

  /** And the other way round, so the protocol's tenants are exactly those that requests may act for. */
  lemma TenantsAreChoices(c: Client, resourceOrg: Option<Text>, tenant: Text)
    ensures tenant in Tenants(OrgID(resourceOrg, c.orgID), c.orgID, c.headers)
       <==> exists p :: Chosen(c, p) && EffectiveTenant(resourceOrg, p.orgID, p.configured) == tenant
  {
    if tenant in Tenants(OrgID(resourceOrg, c.orgID), c.orgID, c.headers) {
      var p := ChoiceOf(c, resourceOrg, tenant);
    }
    if p :| Chosen(c, p) && EffectiveTenant(resourceOrg, p.orgID, p.configured) == tenant {
      ChoiceAllowed(c, resourceOrg, p);
    }
  }

  lemma ChoiceAllowed(c: Client, resourceOrg: Option<Text>, p: Provider)
    requires Chosen(c, p)
    ensures var tenant := EffectiveTenant(resourceOrg, p.orgID, p.configured);
      tenant in Tenants(OrgID(resourceOrg, c.orgID), c.orgID, c.headers)
  {
    if OrgID(resourceOrg, c.orgID) == "" && p.configured.Some? {
      assert p.configured.value in Offered(c.headers, SCOPE);
    }
  }

  /** The choice is without effect on the tenant exactly when the resolved organisation is non-empty or the configured
      headers agree on the tenant header. */
  lemma ChoiceIrrelevantExactly(c: Client, resourceOrg: Option<Text>)
    ensures (forall p, q :: Chosen(c, p) && Chosen(c, q) ==>
              EffectiveTenant(resourceOrg, p.orgID, p.configured) ==
                EffectiveTenant(resourceOrg, q.orgID, q.configured))
       <==> OrgID(resourceOrg, c.orgID) != "" || Unambiguous(c.orgID, c.headers)
  {
    if OrgID(resourceOrg, c.orgID) != "" || Unambiguous(c.orgID, c.headers) {
      forall p, q | Chosen(c, p) && Chosen(c, q)
        ensures EffectiveTenant(resourceOrg, p.orgID, p.configured) ==
          EffectiveTenant(resourceOrg, q.orgID, q.configured)
      {
        ChoiceAllowed(c, resourceOrg, p);
        ChoiceAllowed(c, resourceOrg, q);
        OneTenant(OrgID(resourceOrg, c.orgID), c.orgID, c.headers,
                  EffectiveTenant(resourceOrg, p.orgID, p.configured),
                  EffectiveTenant(resourceOrg, q.orgID, q.configured));
      }
    } else {
      var v, w := TwoTenants(c.orgID, c.headers);
      var p := ChoiceOf(c, resourceOrg, v);
      var q := ChoiceOf(c, resourceOrg, w);
    }
  }

  /** With one value at most configured for the tenant header there is one choice, and one tenant. */
  lemma TheTenant(c: Client, p: Provider, d: Desired)
    requires p.orgID == c.orgID && ConfiguredIs(c.headers, p.configured)
    ensures forall q :: Chosen(c, q) <==> q == p
    ensures TenantsOf(c, p.orgID, d) == {Tenant(p, d)}
  {
    EffectiveTenantIs(d.orgID, p.orgID, c.headers, p.configured);
    if p.configured.Some? {
      assert p.configured.value in Offered(c.headers, SCOPE);
    }
  }

  // --------------------------------------------------------------------------------------------------
  // In other words: predicates that state what is proved, and are not used by the model

  /** A write or removal under a name, for a tenant the resource may act for and in its namespace: nothing happens
      if the request does not reach the server, and else that key holds the group or nothing. */
  ghost predicate Wrote(c: Client, d: Desired, name: Text, g: Option<RuleGroup>, net: Network, st: Store, st': Store) {
    if !Reaches(net) then st' == st
    else exists tenant: Text ::
      && ActsFor(c.orgID, c.headers, d.orgID, tenant)
      && st' == (if g.Some? then st[Key(tenant, GivenNamespace(d), name) := g.value]
                 else st - {Key(tenant, GivenNamespace(d), name)})
  }

  lemma AppliesExactly(c: Client, d: Desired, name: Text, g: Option<RuleGroup>, net: Network, st: Store, st': Store)
    requires Plausible(net) && Applies(c, c.orgID, d, name, g, net, st, st')
    ensures Wrote(c, d, name, g, net, st, st')
  {
    var t :| t in TenantsOf(c, c.orgID, d) && st' == Effect(st, Key(t, Namespace(d), name), g, net);
    TenantsExactly(c.orgID, c.headers, d.orgID, t);
    NamespaceExactly(d);
    NetworkExactly(net);
  }

  /** A write for one of the tenants, and what it comes to. */
  lemma AppliesFor(c: Client, defaultOrgID: Text, d: Desired, name: Text, g: Option<RuleGroup>, net: Network, st: Store,
                   st': Store, tenant: Text)
    requires Plausible(net) && tenant in TenantsOf(c, defaultOrgID, d)
    requires st' == Effect(st, Key(tenant, Namespace(d), name), g, net)
    ensures Applies(c, defaultOrgID, d, name, g, net, st, st')
    ensures defaultOrgID == c.orgID ==> Wrote(c, d, name, g, net, st, st')
  {
    if defaultOrgID == c.orgID {
      AppliesExactly(c, d, name, g, net, st, st');
    }
  }

  /** The organisation of a resource. */
  ghost function GivenOrg(c: Client, d: Desired): Text {
    match d.orgID
    case None => c.orgID
    case Some(orgID) => orgID
  }

  /** The status of a resource whose group was found. */
  ghost predicate ShowsFound(c: Client, d: Desired, name: Text, rg: RuleGroup, before: Status, after: Status) {
    && after.condition == Available && after.orgID == Some(GivenOrg(c, d)) && after.namespace == Some(GivenNamespace(d))
    && (d.RuleGroupSpec? ==> after.name == Some(rg.name) && after.id == before.id && after.interval == before.interval)
    && (d.GroupRecordingSpec? ==>
          && after.name == before.name && after.id == Some(GivenNamespace(d) + "/" + name)
          && after.interval == Some(rg.interval))
  }

  /** What Observe reports of the name its annotation stands for, for a tenant the resource may act for and in its
      namespace, and the status it leaves. */
  ghost predicate Saw(c: Client, d: Desired, externalName: Text, st: Store, net: Network, before: Status,
                      r: Result<Observation, Text>, after: Status)
  {
    if externalName == "" then r == Ok(Observation(false, false)) && after == before
    else if net.Reliable? then
      exists tenant: Text, name: Text ::
        && ActsFor(c.orgID, c.headers, d.orgID, tenant) && StandsFor(d, externalName, name)
        && var k := Key(tenant, GivenNamespace(d), name);
           if k in st then r == Ok(Observation(true, UpToDate(d, st[k]))) &&
             ShowsFound(c, d, name, st[k], before, after)
           else r == Ok(Observation(false, false)) && after == before
    else
      && after == before
      && r == if ReadsAbsent(net) then Ok(Observation(false, false))
              else Err("cannot get rule group: " + ("failed to get rule group: " + ErrorText(net)))
  }

  lemma ObservesExactly(c: Client, d: Desired, externalName: Text, st: Store, net: Network, before: Status,
                        r: Result<Observation, Text>, after: Status)
    requires Plausible(net) && Observes(c, c.orgID, d, externalName, st, net, before, r, after)
    ensures Saw(c, d, externalName, st, net, before, r, after)
  {
    var t :|
      t in TenantsOf(c, c.orgID, d) &&
      var learned := Learned(d, externalName, st, t, net);
      r == Reported(d, learned) && after == StatusObserved(before, d, externalName, OrgID(d.orgID, c.orgID), learned);
    TenantsExactly(c.orgID, c.headers, d.orgID, t);
    StandsForExactly(d, externalName);
    GetExactly(st, Key(t, Namespace(d), ObserveName(d, externalName)), net);
  }

  /** A report for one of the tenants, and what it comes to. */
  lemma ObservesFor(c: Client, defaultOrgID: Text, d: Desired, externalName: Text, st: Store, net: Network,
                    before: Status,
                    r: Result<Observation, Text>, after: Status, tenant: Text)
    requires Plausible(net) && tenant in TenantsOf(c, defaultOrgID, d)
    requires var learned := Learned(d, externalName, st, tenant, net);
      r == Reported(d, learned) &&
        after == StatusObserved(before, d, externalName, OrgID(d.orgID, defaultOrgID), learned)
    ensures Observes(c, defaultOrgID, d, externalName, st, net, before, r, after)
    ensures defaultOrgID == c.orgID ==> Saw(c, d, externalName, st, net, before, r, after)
  {
    if defaultOrgID == c.orgID {
      ObservesExactly(c, d, externalName, st, net, before, r, after);
    }
  }

  /** Under an empty annotation nothing is asked. */
  lemma UnaskedObserves(c: Client, defaultOrgID: Text, d: Desired, st: Store, net: Network, s: Status)
    ensures Observes(c, defaultOrgID, d, "", st, net, s, Ok(Observation(false, false)), s)
    ensures Saw(c, d, "", st, net, s, Ok(Observation(false, false)), s)
  {
    var t := SomeTenant(OrgID(d.orgID, defaultOrgID), c.orgID, c.headers);
    assert t in TenantsOf(c, defaultOrgID, d);
  }

  /** The status of a resource whose group was created under a name, or not. */
  ghost predicate ShowsCreated(c: Client, d: Desired, name: Text, ok: bool, before: Status, after: Status) {
    && after.condition == Creating && after.interval == before.interval
    && (!ok ==> after == before.(condition := Creating))
    && (ok ==> after.orgID == Some(GivenOrg(c, d)) && after.namespace == Some(GivenNamespace(d)))
    && (ok && d.RuleGroupSpec? ==> after.name == Some(name) && after.id == before.id)
    && (ok && d.GroupRecordingSpec? ==>
          after.name == before.name && after.id == Some(GivenNamespace(d) + "/" + name))
  }

  lemma StatusExactly(c: Client, d: Desired, name: Text, ok: bool, before: Status)
    ensures ShowsCreated(c, d, name, ok, before, StatusCreated(before, d, OrgID(d.orgID, c.orgID), name, ok))
  {
  }

  lemma WritesReport(net: Network)
    requires Plausible(net)
    ensures WrappedResult(CANNOT_CREATE, SetResult(net)) ==
      if net.Reliable? then Ok(())
        else Err("cannot create rule group: " + ("failed to set rule group: " + ErrorText(net)))
    ensures WrappedResult(CANNOT_UPDATE, SetResult(net)) ==
      if net.Reliable? then Ok(())
        else Err("cannot update rule group: " + ("failed to set rule group: " + ErrorText(net)))
    ensures WrappedResult(CANNOT_DELETE, DeleteResult(net)) ==
      if net.Reliable? || ReadsAbsent(net) then Ok(())
      else Err("cannot delete rule group: " + ("failed to delete rule group: " + ErrorText(net)))
  {
    SetExactly(net);
    DeleteExactly(net);
  }

  /** What the protocol sees of the network. */
  lemma AnswersExactly(net: Network, persisted: bool)
    requires Plausible(net)
    ensures AnswerOf(net) == if net.Reliable? then Answered else if ReadsAbsent(net) then Misread else Unanswered
    ensures OutcomeOf(net, persisted) ==
      if !Reaches(net) then Dropped
      else if net.ReplyLost? then Lost
      else if persisted then Acked
      else Unpersisted
  {
    NetworkExactly(net);
  }
}
