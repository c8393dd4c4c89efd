/** The reconcile protocol of the three rule controllers, request by request.

    One managed resource and the remote store take turns: the controller observes and then does only what
    the observation dictates, users edit the spec, others write to the store, requests fail, replies and
    annotation writes get lost. Events that are not enabled change nothing, so every sequence of events
    is a run. */
module Lifecycle {
  import opened Wrappers
  import opened Texts
  import opened ExternalNames
  import opened RuleGroups
  import opened Ruler
  import opened Headers

  /** What a controller knows of its provider config: the default organisation, and the value configured
      for the tenant header if there is one. */
  datatype Provider = Provider(orgID: Text, configured: Option<Text>)

  datatype Action = Create | Update | Delete

  /** Between reconcile passes; between the GET of a pass and the write it decided on, with the spec the
      pass started from; or finalised and gone. */
  datatype Phase = Idle | Pending(action: Action, snapshot: Desired) | Gone

  datatype Local = Local(provider: Provider, desired: Desired, objectName: Text, externalName: Text,
                         deleting: bool, phase: Phase)

  /** How a write request ends: acknowledged; acknowledged, but the annotation Create set does not reach the
      API server; applied with the reply lost; not applied. */
  datatype Outcome = Acked | Unpersisted | Lost | Dropped

  /** How the GET of a pass ends: with the server's word; with an error; or with an error that the client takes
      for "not found", whoever sent it and whatever the store holds. */
  datatype Answer = Answered | Unanswered | Misread

  datatype Event =
    | Observe(answer: Answer)
    | Write(outcome: Outcome)
    | Edit(desired: Desired)
    | MarkDeleted
    | DefaultName
    | ForeignPut(tenant: Text, namespace: Text, group: RuleGroup)
    | ForeignDelete(key: Key)

  datatype World = World(local: Local, store: Store)

  function Tenant(p: Provider, d: Desired): Text {
    EffectiveTenant(d.orgID, p.orgID, p.configured)
  }

  /** The name Observe looks up under a non-empty annotation. */
  function ObserveName(d: Desired, externalName: Text): Text {
    if d.RuleGroupSpec? then StrictLookup(externalName, d.name) else LegacyParse(externalName)
  }

  /** The name a write uses: spec.name, or for the legacy controller what the annotation holds; there
      Create falls back on the object's own name. */
  function WriteName(d: Desired, externalName: Text, objectName: Text, a: Action): Text {
    if d.RuleGroupSpec? then d.name
    else if a.Create? && externalName == "" then LegacyParse(objectName)
    else LegacyParse(externalName)
  }

  function ObserveKey(l: Local): Key {
    Key(Tenant(l.provider, l.desired), Namespace(l.desired), ObserveName(l.desired, l.externalName))
  }

  function WriteKey(l: Local): Key
    requires l.phase.Pending?
  {
    var d := l.phase.snapshot;
    Key(Tenant(l.provider, d), Namespace(d), WriteName(d, l.externalName, l.objectName, l.phase.action))
  }

  /** What the driver does with an observation: nothing, a write, or finalising. */
  function Decide(l: Local, found: Option<RuleGroup>): Phase {
    match found
    case None => if l.deleting then Gone else Pending(Create, l.desired)
    case Some(rg) =>
      if l.deleting then Pending(Delete, l.desired)
      else if UpToDate(l.desired, rg) then Idle
      else Pending(Update, l.desired)
  }

  /** Observe, given what the store holds under ObserveKey. An empty annotation means absent, unasked. */
  function AfterObserve(l: Local, answer: Answer, found: Option<RuleGroup>): Local {
    if l.externalName == "" then l.(phase := Decide(l, None))
    else match answer
      case Answered => l.(phase := Decide(l, found))
      case Misread => l.(phase := Decide(l, None))
      case Unanswered => l
  }

  /** The resource after a write: only an acknowledged Create that gets persisted sets the annotation. */
  function AfterWrite(l: Local, o: Outcome): Local
    requires l.phase.Pending?
  {
    var named := if l.phase.action.Create? && o.Acked? then Format(WriteKey(l).namespace, WriteKey(l).name)
      else l.externalName;
    l.(phase := Idle, externalName := named)
  }

  /** What a write leaves under WriteKey. */
  function Written(l: Local): Option<RuleGroup>
    requires l.phase.Pending?
  {
    if l.phase.action.Delete? then None else Some(Build(l.phase.snapshot, WriteKey(l).name))
  }

  predicate Foreign(e: Event) {
    e.ForeignPut? || e.ForeignDelete?
  }

  /** What others do to the store. A group they post is stored under its own name, too. */
  function ForeignEffect(st: Store, e: Event): Store {
    match e
    case ForeignPut(tenant, namespace, rg) => Set(st, Key(tenant, namespace, rg.name), Some(rg))
    case ForeignDelete(k) => Set(st, k, None)
    case _ => st
  }

  function Step(w: World, e: Event): World {
    var World(l, st) := w;
    match e
    case Observe(answer) =>
      if l.phase.Idle? then w.(local := AfterObserve(l, answer, Lookup(st, ObserveKey(l)))) else w
    case Write(o) =>
      if l.phase.Pending? then
        World(AfterWrite(l, o), if o.Dropped? then st else Set(st, WriteKey(l), Written(l)))
      else w
    case Edit(d) => if l.phase.Gone? then w else w.(local := l.(desired := d))
    case MarkDeleted => if l.phase.Gone? then w else w.(local := l.(deleting := true))
    case DefaultName =>
      if l.phase.Idle? && l.externalName == "" then w.(local := l.(externalName := l.objectName)) else w
    case _ => w.(store := ForeignEffect(st, e))
  }

  function Run(w: World, es: seq<Event>): World
    decreases |es|
  {
    if es == [] then w else Run(Step(w, es[0]), es[1..])
  }

  // --------------------------------------------------------------------------------------------------
  // One key for one resource

  /** Same kind of resource, tenant, namespace and (where the spec has one) name. */
  predicate SameIdentity(p: Provider, d: Desired, d': Desired) {
    && d.RuleGroupSpec? == d'.RuleGroupSpec?
    && Tenant(p, d) == Tenant(p, d')
    && Namespace(d) == Namespace(d')
    && (d.RuleGroupSpec? ==> d.name == d'.name)
  }

  predicate KeepsIdentity(p: Provider, d: Desired, e: Event) {
    e.Edit? ==> SameIdentity(p, d, e.desired)
  }

  predicate AllKeepIdentity(p: Provider, d: Desired, es: seq<Event>) {
    forall i :: 0 <= i < |es| ==> KeepsIdentity(p, d, es[i])
  }

  /** The namespaces in which a Create finds its own group again. */
  predicate Safe(d: Desired) {
    if d.RuleGroupSpec? then StrictSafe(Namespace(d)) else '/' !in Namespace(d)
  }

  /** The one key a resource of fixed identity should live at. */
  function Home(l: Local): Key {
    Key(Tenant(l.provider, l.desired), Namespace(l.desired), WriteName(l.desired, l.externalName, l.objectName, Create))
  }

  /** A resource whose operations agree on its key: safe namespace, an annotation (if any) that leads home,
      an object name without slashes, and a pending write of the same identity. */
  predicate Settled(l: Local) {
    && Safe(l.desired)
    && '/' !in l.objectName
    && (l.externalName != "" ==> ObserveKey(l) == Home(l))
    && (l.phase.Pending? ==>
      && SameIdentity(l.provider, l.desired, l.phase.snapshot)
      && (l.phase.action.Delete? ==> l.deleting)
      && (!l.phase.action.Create? ==> l.externalName != ""))
  }

  /** A Create that is persisted is observed at the key it wrote, exactly in a safe namespace. */
  lemma CreateIsFoundAgain(l: Local)
    requires l.phase == Pending(Create, l.desired)
    ensures ObserveKey(AfterWrite(l, Acked)) == WriteKey(l) <==> Safe(l.desired)
    ensures !Safe(l.desired) ==> |ObserveKey(AfterWrite(l, Acked)).name| > |WriteKey(l).name|
  {
    StrictAgreement(Namespace(l.desired), WriteKey(l).name);
    LegacyAgreement(Namespace(l.desired), if l.externalName == "" then l.objectName else l.externalName);
  }

  lemma SettledWrite(w: World, o: Outcome)
    requires Settled(w.local)
    ensures Settled(Step(w, Write(o)).local) && Home(Step(w, Write(o)).local) == Home(w.local)
    ensures w.local.phase.Pending? ==> WriteKey(w.local) == Home(w.local)
  {
    var l := w.local;
    if l.phase.Pending? && l.phase.action.Create? && o.Acked? {
      StrictAgreement(Namespace(l.desired), WriteKey(l).name);
      LegacyAgreement(Namespace(l.desired), if l.externalName == "" then l.objectName else l.externalName);
    }
  }

  lemma SettledObserve(w: World, answer: Answer)
    requires Settled(w.local)
    ensures Settled(Step(w, Observe(answer)).local) && Home(Step(w, Observe(answer)).local) == Home(w.local)
  {
  }

  /** Every operation of a settled resource addresses its home, and it stays settled at the same home. */
  lemma SettledStep(w: World, e: Event)
    requires Settled(w.local) && KeepsIdentity(w.local.provider, w.local.desired, e)
    ensures Settled(Step(w, e).local) && Home(Step(w, e).local) == Home(w.local)
    ensures w.local.externalName != "" ==> ObserveKey(w.local) == Home(w.local)
    ensures w.local.phase.Pending? ==> WriteKey(w.local) == Home(w.local)
  {
    SettledWrite(w, if e.Write? then e.outcome else Dropped);
    match e
    case Observe(answer) => SettledObserve(w, answer);
    case _ =>
  }

  /** The same protocol on a single cell: the group at the resource's home. */
  datatype Cell = Cell(local: Local, group: Option<RuleGroup>)

  function CellOf(w: World): Cell {
    Cell(w.local, Lookup(w.store, Home(w.local)))
  }

  function CellStep(c: Cell, e: Event): Cell {
    var Cell(l, group) := c;
    match e
    case Observe(answer) =>
      if l.phase.Idle? then c.(local := AfterObserve(l, answer, group)) else c
    case Write(o) =>
      if l.phase.Pending? then Cell(AfterWrite(l, o), if o.Dropped? then group else Written(l)) else c
    case ForeignPut(tenant, namespace, rg) =>
      if Key(tenant, namespace, rg.name) == Home(l) then c.(group := Some(rg)) else c
    case ForeignDelete(k) => if k == Home(l) then c.(group := None) else c
    case _ => c.(local := Step(World(l, map[]), e).local)
  }

  function CellRun(c: Cell, es: seq<Event>): Cell
    decreases |es|
  {
    if es == [] then c else CellRun(CellStep(c, es[0]), es[1..])
  }

  /** A settled resource in the whole store behaves as it does alone with its cell. */
  lemma CellRefines(w: World, e: Event)
    requires Settled(w.local) && KeepsIdentity(w.local.provider, w.local.desired, e)
    ensures CellOf(Step(w, e)) == CellStep(CellOf(w), e)
  {
    SettledStep(w, e);
  }

  lemma FirstAndLater(p: Provider, d: Desired, e: Event, es: seq<Event>)
    requires AllKeepIdentity(p, d, [e] + es)
    ensures KeepsIdentity(p, d, e) && AllKeepIdentity(p, d, es)
  {
    assert ([e] + es)[0] == e;
    forall i | 0 <= i < |es|
      ensures KeepsIdentity(p, d, es[i])
    {
      assert es[i] == ([e] + es)[i + 1];
    }
  }

  lemma StepKeepsIdentity(w: World, e: Event)
    requires KeepsIdentity(w.local.provider, w.local.desired, e)
    ensures var l := Step(w, e).local;
      l.provider == w.local.provider && SameIdentity(l.provider, w.local.desired, l.desired)
  {
  }

  /** Identity is kept by steps, so a run of edits can be judged against its first spec. */
  lemma IdentityStep(w: World, e: Event, es: seq<Event>)
    requires AllKeepIdentity(w.local.provider, w.local.desired, [e] + es)
    ensures var l := Step(w, e).local;
      && KeepsIdentity(w.local.provider, w.local.desired, e)
      && l.provider == w.local.provider
      && SameIdentity(l.provider, w.local.desired, l.desired)
      && AllKeepIdentity(l.provider, l.desired, es)
  {
    FirstAndLater(w.local.provider, w.local.desired, e, es);
    StepKeepsIdentity(w, e);
    Rebased(w.local.provider, w.local.desired, Step(w, e).local.desired, es);
  }

  lemma Rebased(p: Provider, d: Desired, d': Desired, es: seq<Event>)
    requires AllKeepIdentity(p, d, es) && SameIdentity(p, d, d')
    ensures AllKeepIdentity(p, d', es)
  {
    forall i | 0 <= i < |es|
      ensures KeepsIdentity(p, d', es[i])
    {
      assert KeepsIdentity(p, d, es[i]);
    }
  }

  /** Over whole runs: one fixed key for every Observe, Create, Update and Delete, whatever is retried or
      lost, and the behaviour of the cell machine at that key. */
  lemma {:induction false} RunRefines(w: World, es: seq<Event>)
    requires Settled(w.local) && AllKeepIdentity(w.local.provider, w.local.desired, es)
    ensures var w' := Run(w, es);
      && Settled(w'.local) && Home(w'.local) == Home(w.local)
      && (w'.local.externalName != "" ==> ObserveKey(w'.local) == Home(w.local))
      && (w'.local.phase.Pending? ==> WriteKey(w'.local) == Home(w.local))
      && CellOf(w') == CellRun(CellOf(w), es)
    decreases |es|
  {
    if es == [] {
      SettledStep(w, MarkDeleted);
    } else {
      assert es == [es[0]] + es[1..];
      IdentityStep(w, es[0], es[1..]);
      SettledStep(w, es[0]);
      CellRefines(w, es[0]);
      RunRefines(Step(w, es[0]), es[1..]);
    }
  }

  lemma ThreeSteps(w: World, c: Cell, e: Event, f: Event, g: Event)
    ensures Run(w, [e, f, g]) == Step(Step(Step(w, e), f), g)
    ensures CellRun(c, [e, f, g]) == CellStep(CellStep(CellStep(c, e), f), g)
  {
    assert [e, f, g][1..] == [f, g] && [f, g][1..] == [g] && [g][1..] == [];
    var w1, c1 := Step(w, e), CellStep(c, e);
    var w2, c2 := Step(w1, f), CellStep(c1, f);
    assert Run(w1, [f, g]) == Run(w2, [g]) == Step(w2, g);
    assert CellRun(c1, [f, g]) == CellRun(c2, [g]) == CellStep(c2, g);
  }

  lemma MissesItsGroup(l: Local)
    requires l.phase == Pending(Create, l.desired) && !l.deleting && !Safe(l.desired)
    ensures Step(Step(World(l, map[]), Write(Acked)), Observe(Answered)).local.phase.Pending?
  {
    CreateIsFoundAgain(l);
  }

  lemma SeesItsGroup(l: Local, group: Option<RuleGroup>)
    requires l.phase == Pending(Create, l.desired) && !l.deleting
    ensures CellStep(CellStep(Cell(l, group), Write(Acked)), Observe(Answered)).local.phase.Idle?
  {
    UpToDateExactly(l.desired, l.desired, WriteKey(l).name);
  }

  /** In an unsafe namespace the first Create already ends it: Observe then misses the group at home and asks
      for another Create, while alone with its cell the resource would be up to date. */
  lemma UnsafeDiverges(l: Local)
    requires l.phase.Idle? && !l.deleting && l.externalName == "" && !Safe(l.desired)
    ensures var es := [Observe(Answered), Write(Acked), Observe(Answered)];
      && AllKeepIdentity(l.provider, l.desired, es)
      && CellOf(Run(World(l, map[]), es)) != CellRun(CellOf(World(l, map[])), es)
  {
    var w, l1 := World(l, map[]), l.(phase := Pending(Create, l.desired));
    ThreeSteps(w, CellOf(w), Observe(Answered), Write(Acked), Observe(Answered));
    MissesItsGroup(l1);
    SeesItsGroup(l1, None);
  }

  /** A fresh resource behaves over all runs, in all stores, as it would alone with its cell, exactly in a safe
      namespace. */
  lemma RefinesExactly(l: Local)
    requires l.phase.Idle? && !l.deleting && l.externalName == "" && '/' !in l.objectName
    ensures Safe(l.desired) <==>
      forall st, es :: AllKeepIdentity(l.provider, l.desired, es) ==>
        CellOf(Run(World(l, st), es)) == CellRun(CellOf(World(l, st)), es)
  {
    if Safe(l.desired) {
      forall st, es | AllKeepIdentity(l.provider, l.desired, es) {
        RunRefines(World(l, st), es);
      }
    } else {
      UnsafeDiverges(l);
    }
  }

  // --------------------------------------------------------------------------------------------------
  // Which keys a step can touch

  function Touched(w: World, e: Event): set<Key> {
    match e
    case Write(_) => if w.local.phase.Pending? then {WriteKey(w.local)} else {}
    case ForeignPut(tenant, namespace, rg) => {Key(tenant, namespace, rg.name)}
    case ForeignDelete(k) => {k}
    case _ => {}
  }

  lemma StepFrame(w: World, e: Event, k: Key)
    requires k !in Touched(w, e)
    ensures Lookup(Step(w, e).store, k) == Lookup(w.store, k)
  {
  }

  // --------------------------------------------------------------------------------------------------
  // In other words: predicates and functions that state what is proved, and are not used by the model

  /** The name an annotation stands for: for the current kinds what follows the first slash, if that and what is
      before it are not empty, and else the spec's name; for the legacy kind what follows the first slash, or all of
      it. */
  ghost predicate StandsFor(d: Desired, externalName: Text, name: Text) {
    && ('/' !in externalName ==> name == if d.RuleGroupSpec? then d.name else externalName)
    && (forall before: Text, after: Text :: FollowsSlash(externalName, before, after) ==>
          name == if d.RuleGroupSpec? && (before == "" || after == "") then d.name else after)
  }

  /** The namespace of a spec's requests. */
  ghost function GivenNamespace(d: Desired): Text {
    match d.namespace
    case None => "default"
    case Some(namespace) => namespace
  }

  lemma StandsForExactly(d: Desired, externalName: Text)
    ensures StandsFor(d, externalName, ObserveName(d, externalName))
    ensures Namespace(d) == GivenNamespace(d)
  {
    LookupsExactly(externalName, if d.RuleGroupSpec? then d.name else "");
  }

  /** The keys of all operations. */
  lemma KeysExactly(l: Local)
    ensures var k := ObserveKey(l);
      && k.tenant == EffectiveTenant(l.desired.orgID, l.provider.orgID, l.provider.configured)
      && k.namespace == GivenNamespace(l.desired) && StandsFor(l.desired, l.externalName, k.name)
    ensures l.phase.Pending? ==>
      var k, d := WriteKey(l), l.phase.snapshot;
      && k.tenant == EffectiveTenant(d.orgID, l.provider.orgID, l.provider.configured)
      && k.namespace == GivenNamespace(d)
      && (d.RuleGroupSpec? ==> k.name == d.name)
      && (d.GroupRecordingSpec? ==>
            StandsFor(d, if l.phase.action.Create? && l.externalName == "" then l.objectName else l.externalName,
                      k.name))
    ensures var k, d := Home(l), l.desired;
      && k.tenant == EffectiveTenant(d.orgID, l.provider.orgID, l.provider.configured)
      && k.namespace == GivenNamespace(d)
      && (d.RuleGroupSpec? ==> k.name == d.name)
      && (d.GroupRecordingSpec? ==> StandsFor(d, if l.externalName == "" then l.objectName else l.externalName, k.name))
  {
    StandsForExactly(l.desired, l.externalName);
    StandsForExactly(l.desired, l.objectName);
    if l.phase.Pending? {
      StandsForExactly(l.phase.snapshot, l.externalName);
      StandsForExactly(l.phase.snapshot, l.objectName);
    }
  }

  /** What an observation leads to, and what a write leaves. */
  lemma StepsExactly(l: Local, answer: Answer, o: Outcome, found: Option<RuleGroup>)
    ensures var seen := if l.externalName == "" || answer.Misread? then None else found;
      AfterObserve(l, answer, found) ==
        if l.externalName != "" && answer.Unanswered? then l
        else l.(phase :=
          if seen.None? then (if l.deleting then Gone else Pending(Create, l.desired))
          else if l.deleting then Pending(Delete, l.desired)
          else if UpToDate(l.desired, seen.value) then Idle
          else Pending(Update, l.desired))
    ensures l.phase.Pending? ==>
      && AfterWrite(l, o) == l.(phase := Idle, externalName :=
           if l.phase.action.Create? && o.Acked? then WriteKey(l).namespace + "/" + WriteKey(l).name
             else l.externalName)
      && Written(l) == if l.phase.action.Delete? then None else Some(Build(l.phase.snapshot, WriteKey(l).name))
  {
  }
}
