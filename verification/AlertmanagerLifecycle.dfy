/** The reconcile protocol of the Alertmanager configuration: one document per tenant, found or not found,
    and never out of date. */
module AlertmanagerLifecycle {
  import opened Wrappers
  import opened Texts
  import opened Headers
  import L = Lifecycle
  import opened Iteration
  import S = AlertmanagerSpec
  import W = AlertmanagerWire
  import opened AlertmanagerClient
  import opened AlertmanagerTranslation

  datatype Phase = Idle | Pending(action: L.Action, snapshot: S.Parameters) | Gone

  datatype Local = Local(provider: L.Provider, desired: S.Parameters, objectName: Text, externalName: Text,
                         deleting: bool, phase: Phase)

  datatype Event =
    | Observe(answer: L.Answer)
    | Write(outcome: L.Outcome)
    | Edit(desired: S.Parameters)
    | MarkDeleted
    | DefaultName
    | ForeignPut(tenant: Text, config: W.UserConfig)
    | ForeignDelete(tenant: Text)

  datatype World = World(local: Local, documents: Documents)

  /** getOrgID */
  function Org(p: L.Provider, d: S.Parameters): Text {
    OrgID(d.orgID, p.orgID)
  }

  function Tenant(p: L.Provider, d: S.Parameters): Text {
    EffectiveTenant(d.orgID, p.orgID, p.configured)
  }

  /** Whether Observe finds a configuration: an empty document counts as none. */
  predicate Present(docs: Documents, tenant: Text) {
    tenant in docs && docs[tenant].document.Some?
  }

  /** What the driver does with an observation. */
  function Decide(l: Local, resourceExists: bool, resourceUpToDate: bool): Phase {
    if l.deleting then (if resourceExists then Pending(L.Delete, l.desired) else Gone)
    else if !resourceExists then Pending(L.Create, l.desired)
    else if !resourceUpToDate then Pending(L.Update, l.desired)
    else Idle
  }

  function AfterObserve(l: Local, answer: L.Answer, present: bool): Local {
    if l.externalName == "" then l.(phase := Decide(l, false, false))
    else match answer
      case Answered => l.(phase := Decide(l, present, true))
      case Misread => l.(phase := Decide(l, false, false))
      case Unanswered => l
  }

  function AfterWrite(l: Local, o: L.Outcome): Local
    requires l.phase.Pending?
  {
    l.(phase := Idle,
       externalName := if l.phase.action.Create? && o.Acked? then Org(l.provider, l.phase.snapshot) else l.externalName)
  }

  function Applied(l: Local, docs: Documents): Documents
    requires l.phase.Pending?
  {
    var tenant := Tenant(l.provider, l.phase.snapshot);
    SetDocument(docs, tenant, if l.phase.action.Delete? then None else Some(Build(l.phase.snapshot)))
  }

  function Step(w: World, e: Event): World {
    var World(l, docs) := w;
    match e
    case Observe(answer) =>
      if l.phase.Idle? then w.(local := AfterObserve(l, answer, Present(docs, Tenant(l.provider, l.desired)))) else w
    case Write(o) =>
      if l.phase.Pending? then World(AfterWrite(l, o), if o.Dropped? then docs else Applied(l, docs)) else w
    case Edit(d) => if l.phase.Gone? then w else w.(local := l.(desired := d))
    case MarkDeleted => if l.phase.Gone? then w else w.(local := l.(deleting := true))
    case DefaultName =>
      if l.phase.Idle? && l.externalName == "" then w.(local := l.(externalName := l.objectName)) else w
    case ForeignPut(tenant, config) => w.(documents := docs[tenant := config])
    case ForeignDelete(tenant) => w.(documents := docs - {tenant})
  }

  function Run(w: World, es: seq<Event>): World
    decreases |es|
  {
    if es == [] then w else Run(Step(w, es[0]), es[1..])
  }

  predicate Foreign(e: Event) {
    e.ForeignPut? || e.ForeignDelete?
  }

  /** A resource of a fixed, non-empty organisation that never has an Update to do. */
  predicate Settled(l: Local, org: Text) {
    && org != "" && Org(l.provider, l.desired) == org
    && (l.phase.Pending? ==>
         && Org(l.provider, l.phase.snapshot) == org
         && !l.phase.action.Update?
         && (l.phase.action.Delete? ==> l.deleting))
  }

  predicate KeepsOrg(p: L.Provider, org: Text, e: Event) {
    e.Edit? ==> Org(p, e.desired) == org
  }

  predicate AllKeepOrg(p: L.Provider, org: Text, es: seq<Event>) {
    forall i :: 0 <= i < |es| ==> KeepsOrg(p, org, es[i])
  }

  /** A non-empty resolved organisation is the tenant. */
  lemma OrgIsTenant(p: L.Provider, d: S.Parameters)
    requires Org(p, d) != ""
    ensures Tenant(p, d) == Org(p, d)
  {
  }

  lemma SettledStep(w: World, org: Text, e: Event)
    requires Settled(w.local, org) && KeepsOrg(w.local.provider, org, e)
    ensures Settled(Step(w, e).local, org) && Step(w, e).local.provider == w.local.provider
  {
  }

  lemma LaterKeepOrg(p: L.Provider, org: Text, es: seq<Event>)
    requires AllKeepOrg(p, org, es) && es != []
    ensures KeepsOrg(p, org, es[0]) && AllKeepOrg(p, org, es[1..])
  {
  }

  /** A Create or Update that succeeds: acknowledged, and, for a Create, its annotation kept. */
  predicate Succeeds(w: World, e: Event) {
    && e.Write? && w.local.phase.Pending? && !w.local.phase.action.Delete?
    && (e.outcome.Acked? || (e.outcome.Unpersisted? && w.local.phase.action.Update?))
  }

  function Successes(w: World, es: seq<Event>): nat
    decreases |es|
  {
    if es == [] then 0 else Count(Succeeds(w, es[0])) + Successes(Step(w, es[0]), es[1..])
  }

  /** Writes by others, and errors that Observe takes for "not found". */
  predicate Disturbs(e: Event) {
    Foreign(e) || e == Observe(L.Misread)
  }

  function Disturbances(es: seq<Event>): nat {
    if es == [] then 0 else Count(Disturbs(es[0])) + Disturbances(es[1..])
  }

  /** The Creates the past may still ask for. */
  function Debt(w: World, org: Text): nat {
    match w.local.phase
    case Gone => 0
    case Pending(a, _) => if a.Delete? then 0 else 1
    case Idle => if w.local.deleting || (w.local.externalName != "" && Present(w.documents, org)) then 0 else 1
  }

  lemma DebtStep(w: World, org: Text, e: Event)
    requires Settled(w.local, org) && KeepsOrg(w.local.provider, org, e)
    ensures Count(Succeeds(w, e)) + Debt(Step(w, e), org) <= Debt(w, org) + Count(Disturbs(e))
  {
    OrgIsTenant(w.local.provider, w.local.desired);
    if w.local.phase.Pending? {
      OrgIsTenant(w.local.provider, w.local.phase.snapshot);
    }
  }

  /** Over any run with a fixed non-empty organisation, however the spec is edited and whichever requests
      fail, no Update is ever pending, and at most one Create succeeds beyond the foreign writes and the GETs
      misread as "not found". */
  lemma {:induction false} CreatesOnce(w: World, org: Text, es: seq<Event>)
    requires Settled(w.local, org) && AllKeepOrg(w.local.provider, org, es)
    ensures Settled(Run(w, es).local, org)
    ensures Successes(w, es) + Debt(Run(w, es), org) <= Debt(w, org) + Disturbances(es)
    ensures Debt(w, org) <= 1
    decreases |es|
  {
    if es != [] {
      LaterKeepOrg(w.local.provider, org, es);
      SettledStep(w, org, es[0]);
      DebtStep(w, org, es[0]);
      CreatesOnce(Step(w, es[0]), org, es[1..]);
    }
  }

  /** The spec of the last Create that reached the remote side; None after a Delete. */
  function LastApplied(w: World, before: Option<S.Parameters>, es: seq<Event>): Option<S.Parameters>
    decreases |es|
  {
    if es == [] then before else LastApplied(Step(w, es[0]), NowApplied(w, before, es[0]), es[1..])
  }

  function NowApplied(w: World, before: Option<S.Parameters>, e: Event): Option<S.Parameters> {
    if e.Write? && !e.outcome.Dropped? && w.local.phase.Pending? then
      if w.local.phase.action.Delete? then None else Some(w.local.phase.snapshot)
    else before
  }

  predicate Holds(docs: Documents, tenant: Text, applied: Option<S.Parameters>) {
    match applied
    case None => tenant !in docs
    case Some(d) => tenant in docs && docs[tenant] == Build(d)
  }

  predicate NoForeign(es: seq<Event>) {
    forall i :: 0 <= i < |es| ==> !Foreign(es[i])
  }

  /** Without foreign writes the tenant's document is the translation of the spec as of the last Create, and
      of no later edit. */
  lemma {:induction false} StoredIsLastCreated(w: World, org: Text, applied: Option<S.Parameters>, es: seq<Event>)
    requires Settled(w.local, org) && AllKeepOrg(w.local.provider, org, es) && NoForeign(es)
    requires Holds(w.documents, org, applied)
    ensures Holds(Run(w, es).documents, org, LastApplied(w, applied, es))
    decreases |es|
  {
    if es != [] {
      LaterKeepOrg(w.local.provider, org, es);
      SettledStep(w, org, es[0]);
      if w.local.phase.Pending? {
        OrgIsTenant(w.local.provider, w.local.phase.snapshot);
      }
      assert !Foreign(es[0]) && NoForeign(es[1..]);
      StoredIsLastCreated(Step(w, es[0]), org, NowApplied(w, applied, es[0]), es[1..]);
    }
  }

  /** A pass whose GET is misread and whose write is acknowledged. */
  function MisreadPass(w: World): World {
    Step(Step(w, Observe(L.Misread)), Write(L.Acked))
  }

  function MisreadPassWrites(w: World): nat {
    Count(Succeeds(Step(w, Observe(L.Misread)), Write(L.Acked)))
  }

  predicate Live(w: World) {
    w.local.phase.Idle? && !w.local.deleting
  }

  /** Each misread GET does buy a Create, even when the configuration is there. */
  lemma MisreadsCreate(w: World, n: nat)
    requires Live(w)
    ensures Total(MisreadPass, MisreadPassWrites, w, n) == n
  {
    OneEach(MisreadPass, MisreadPassWrites, Live, w, n);
  }

  // --------------------------------------------------------------------------------------------------
  // Deletion

  /** A resource whose requests all act for one tenant, an empty one included. */
  predicate OnTenant(l: Local, tenant: Text) {
    && Tenant(l.provider, l.desired) == tenant
    && (l.phase.Pending? ==> Tenant(l.provider, l.phase.snapshot) == tenant)
  }

  predicate KeepsTenant(p: L.Provider, tenant: Text, e: Event) {
    e.Edit? ==> Tenant(p, e.desired) == tenant
  }

  predicate AllKeepTenant(p: L.Provider, tenant: Text, es: seq<Event>) {
    forall i :: 0 <= i < |es| ==> KeepsTenant(p, tenant, es[i])
  }

  lemma OnTenantStep(w: World, tenant: Text, e: Event)
    requires OnTenant(w.local, tenant) && KeepsTenant(w.local.provider, tenant, e)
    ensures OnTenant(Step(w, e).local, tenant) && Step(w, e).local.provider == w.local.provider
  {
  }

  /** An observation that lets a resource be finalised without a look at its document: nothing was asked under an
      empty annotation, or the answer was misread. */
  predicate Blind(l: Local, e: Event) {
    l.phase.Idle? && l.deleting && e.Observe? && (l.externalName == "" || e.answer.Misread?)
  }

  /** Whether a run finalises the resource blindly while there is a document. */
  predicate LeavesBehind(w: World, tenant: Text, es: seq<Event>)
    decreases |es|
  {
    && es != []
    && (|| (Blind(w.local, es[0]) && Present(w.documents, tenant))
        || LeavesBehind(Step(w, es[0]), tenant, es[1..]))
  }

  lemma {:induction false} GoneRests(w: World, tenant: Text, es: seq<Event>)
    requires w.local.phase.Gone? && NoForeign(es)
    ensures Run(w, es) == w && !LeavesBehind(w, tenant, es)
    decreases |es|
  {
    if es != [] {
      assert !Foreign(es[0]) && NoForeign(es[1..]);
      GoneRests(Step(w, es[0]), tenant, es[1..]);
    }
  }

  lemma FinalisingStep(w: World, tenant: Text, e: Event)
    requires OnTenant(w.local, tenant) && !Foreign(e) && !w.local.phase.Gone? && Step(w, e).local.phase.Gone?
    ensures Step(w, e).documents == w.documents
    ensures Present(w.documents, tenant) ==> Blind(w.local, e)
  {
  }

  /** After a completed deletion of a resource of one tenant the tenant's document is still there exactly when the
      resource was finalised blindly with the document there. */
  lemma {:induction false} GoneLeavesExactly(w: World, tenant: Text, es: seq<Event>)
    requires OnTenant(w.local, tenant) && AllKeepTenant(w.local.provider, tenant, es) && NoForeign(es)
    requires !w.local.phase.Gone? && Run(w, es).local.phase.Gone?
    ensures Present(Run(w, es).documents, tenant) <==> LeavesBehind(w, tenant, es)
    decreases |es|
  {
    assert KeepsTenant(w.local.provider, tenant, es[0]) && !Foreign(es[0]);
    assert AllKeepTenant(w.local.provider, tenant, es[1..]) && NoForeign(es[1..]);
    OnTenantStep(w, tenant, es[0]);
    var w1 := Step(w, es[0]);
    if w1.local.phase.Gone? {
      FinalisingStep(w, tenant, es[0]);
      GoneRests(w1, tenant, es[1..]);
    } else {
      GoneLeavesExactly(w1, tenant, es[1..]);
    }
  }

  /** A resource of the empty organisation that is never given a name. */
  predicate Unnamed(l: Local) {
    && l.externalName == "" && Org(l.provider, l.desired) == ""
    && (l.phase.Pending? ==> !l.phase.action.Delete? && Org(l.provider, l.phase.snapshot) == "")
  }

  predicate StaysUnnamed(p: L.Provider, e: Event) {
    e != DefaultName && (e.Edit? ==> Org(p, e.desired) == "")
  }

  /** In the empty organisation no Delete is ever sent, so a document once there is there for good, deletion of the
      resource or not. */
  lemma {:induction false} UnnamedNeverDeletes(w: World, tenant: Text, es: seq<Event>)
    requires Unnamed(w.local) && NoForeign(es)
    requires forall i :: 0 <= i < |es| ==> StaysUnnamed(w.local.provider, es[i])
    ensures Unnamed(Run(w, es).local)
    ensures Present(w.documents, tenant) ==> Present(Run(w, es).documents, tenant)
    decreases |es|
  {
    if es != [] {
      assert StaysUnnamed(w.local.provider, es[0]) && !Foreign(es[0]) && NoForeign(es[1..]);
      UnnamedStep(w, tenant, es[0]);
      UnnamedNeverDeletes(Step(w, es[0]), tenant, es[1..]);
    }
  }

  lemma UnnamedStep(w: World, tenant: Text, e: Event)
    requires Unnamed(w.local) && StaysUnnamed(w.local.provider, e) && !Foreign(e)
    ensures Unnamed(Step(w, e).local) && Step(w, e).local.provider == w.local.provider
    ensures Present(w.documents, tenant) ==> Present(Step(w, e).documents, tenant)
  {
  }

  // --------------------------------------------------------------------------------------------------
  // The quiet system

  function CleanPass(w: World): World {
    Step(Step(w, Observe(L.Answered)), Write(L.Acked))
  }

  function PassWrites(w: World): nat {
    Count(Succeeds(Step(w, Observe(L.Answered)), Write(L.Acked)))
  }

  /** How many of n clean passes write. */
  function CleanWrites(w: World, n: nat): nat {
    Total(CleanPass, PassWrites, w, n)
  }

  /** Idle without an annotation, in the empty organisation: Create will set the empty annotation again. */
  predicate Nameless(w: World) {
    && w.local.phase.Idle? && !w.local.deleting
    && w.local.externalName == "" && Org(w.local.provider, w.local.desired) == ""
  }

  lemma NamelessPass(w: World)
    requires Nameless(w)
    ensures Nameless(CleanPass(w)) && PassWrites(w) == 1
  {
  }

  /** With nobody interfering and no name given to the resource, n clean passes create once in a non-empty
      organisation, and n times in the empty one. */
  lemma QuietWritesExactly(w: World, n: nat)
    requires w.local.phase.Idle? && !w.local.deleting && w.local.externalName == ""
    ensures CleanWrites(w, n) == if Org(w.local.provider, w.local.desired) != "" && n > 0 then 1 else n
  {
    var org := Org(w.local.provider, w.local.desired);
    if org == "" {
      forall v | Nameless(v)
        ensures Nameless(CleanPass(v)) && PassWrites(v) == 1
      {
        NamelessPass(v);
      }
      OneEach(CleanPass, PassWrites, Nameless, w, n);
    } else if n > 0 {
      OrgIsTenant(w.local.provider, w.local.desired);
      var w1 := CleanPass(w);
      assert CleanPass(w1) == w1;
      AtRest(CleanPass, PassWrites, w1, n - 1);
    }
  }

  // --------------------------------------------------------------------------------------------------
  // In other words

  /** Whose document a resource is about, what an observation leads to, and what a write leaves. */
  lemma StepsExactly(l: Local, answer: L.Answer, o: L.Outcome, present: bool)
    ensures Org(l.provider, l.desired) == if l.desired.orgID == None then l.provider.orgID else l.desired.orgID.value
    ensures Tenant(l.provider, l.desired) == EffectiveTenant(l.desired.orgID, l.provider.orgID, l.provider.configured)
    ensures AfterObserve(l, answer, present) ==
      if l.externalName != "" && answer.Unanswered? then l
      else l.(phase :=
        if l.externalName != "" && answer.Answered? && present
        then (if l.deleting then Pending(L.Delete, l.desired) else Idle)
        else (if l.deleting then Gone else Pending(L.Create, l.desired)))
    ensures l.phase.Pending? ==>
      AfterWrite(l, o) == l.(phase := Idle, externalName :=
        if l.phase.action.Create? && o.Acked? then
          (if l.phase.snapshot.orgID == None then l.provider.orgID else l.phase.snapshot.orgID.value)
        else l.externalName)
  {
  }

  lemma DocumentsExactly(l: Local, docs: Documents, other: Text)
    requires l.phase.Pending?
    ensures var tenant, docs' := Tenant(l.provider, l.phase.snapshot), Applied(l, docs);
      && (tenant in docs' <==> !l.phase.action.Delete?)
      && (!l.phase.action.Delete? ==> docs'[tenant] == Build(l.phase.snapshot))
      && (other != tenant ==> (other in docs' <==> other in docs) && (other in docs ==> docs'[other] == docs[other]))
    ensures Present(docs, other) <==> other in docs && docs[other].document != None
  {
  }
}
