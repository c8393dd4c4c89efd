/** Renaming a rule group after its creation: the annotation keeps the old name, the writes use the new. */
module Rename {
  import opened Texts
  import opened ExternalNames
  import opened RuleGroups
  import opened Ruler
  import opened Lifecycle
  import opened WriteBound

  /** The old key: what a Create printed into the annotation, in a namespace that can be read back. */
  predicate Readable(k: Key) {
    '/' !in k.namespace && k.namespace != "" && k.name != ""
  }

  /** The same tenant and namespace as the key, another name. */
  predicate AnotherName(l: Local, d: Desired, k: Key) {
    d.RuleGroupSpec? && Tenant(l.provider, d) == k.tenant && Namespace(d) == k.namespace && d.name != k.name
  }

  /** A created resource whose spec has been renamed while its group is stored under the old name. */
  predicate Renamed(w: World, k: Key) {
    var l := w.local;
    && Readable(k) && l.externalName == Format(k.namespace, k.name)
    && AnotherName(l, l.desired, k)
    && !l.phase.Gone?
    && (l.phase.Pending? ==> !l.phase.action.Create? && AnotherName(l, l.phase.snapshot, k))
    && k in w.store && w.store[k].name == k.name
  }

  /** Edits that do not go back to the old key, foreign writes elsewhere, and no misread answer. */
  predicate Leaves(l: Local, k: Key, e: Event) {
    && e != Observe(Misread)
    && (e.Edit? ==> AnotherName(l, e.desired, k))
    && (e.ForeignPut? ==> Key(e.tenant, e.namespace, e.group.name) != k)
    && (e.ForeignDelete? ==> e.key != k)
  }

  lemma ReadsBack(k: Key, name: Text)
    requires Readable(k)
    ensures StrictLookup(Format(k.namespace, k.name), name) == k.name
  {
    StrictRoundTrip(k.namespace, k.name);
  }

  lemma RenamedObserves(w: World, k: Key, answer: Answer)
    requires Renamed(w, k) && !answer.Misread?
    ensures Renamed(Step(w, Observe(answer)), k)
    ensures w.local.phase.Idle? && answer.Answered? ==>
      Step(w, Observe(answer)).local.phase == Pending(if w.local.deleting then Delete else Update, w.local.desired)
  {
    ReadsBack(k, w.local.desired.name);
  }

  lemma RenamedWrites(w: World, k: Key, o: Outcome)
    requires Renamed(w, k)
    ensures Renamed(Step(w, Write(o)), k) && Step(w, Write(o)).store[k] == w.store[k]
  {
    assert w.local.phase.Pending? ==> WriteKey(w.local) != k;
  }

  lemma RenamedStep(w: World, k: Key, e: Event)
    requires Renamed(w, k) && Leaves(w.local, k, e)
    ensures Renamed(Step(w, e), k) && Step(w, e).store[k] == w.store[k]
    ensures Step(w, e).local.provider == w.local.provider
  {
    match e
    case Observe(answer) => RenamedObserves(w, k, answer);
    case Write(o) => RenamedWrites(w, k, o);
    case _ =>
  }

  /** From then on, whatever happens short of renaming back, touching the old group from outside or misreading
      an answer, no Observe ever reports up to date, no Delete makes Observe report absence, and the old group stays. */
  lemma {:induction false} RenamedForever(w: World, k: Key, es: seq<Event>)
    requires Renamed(w, k) && forall i :: 0 <= i < |es| ==> Leaves(w.local, k, es[i])
    ensures var w' := Run(w, es);
      && Renamed(w', k) && w'.store[k] == w.store[k]
      && (w'.local.phase.Idle? ==>
           Step(w', Observe(Answered)).local.phase ==
             Pending(if w'.local.deleting then Delete else Update, w'.local.desired))
    decreases |es|
  {
    if es == [] {
      RenamedObserves(w, k, Answered);
    } else {
      RenamedStep(w, k, es[0]);
      RenamedForever(Step(w, es[0]), k, es[1..]);
    }
  }

  lemma CreatedUnderNewName(w: World, k: Key)
    requires Readable(k) && AnotherName(w.local, w.local.desired, k) && !w.local.deleting && k in w.store
    requires w.local.phase == Pending(Create, w.local.desired)
    ensures var w' := Step(w, Write(Acked));
      k in w'.store && w'.local.externalName == Format(k.namespace, w.local.desired.name) &&
      Step(w', Observe(Answered)).local.phase.Idle?
  {
    CreateIsFoundAgain(w.local);
    UpToDateExactly(w.local.desired, w.local.desired, w.local.desired.name);
  }

  /** A misread answer does end it, and the old group is left behind: the resource is created under its new name
      and up to date from then on, or finalised. */
  lemma MisreadingEndsIt(w: World, k: Key)
    requires Renamed(w, k) && w.local.phase.Idle?
    ensures var w1 := Step(w, Observe(Misread));
      var w2 := Step(w1, Write(Acked));
      if w.local.deleting then w1.local.phase.Gone? && k in w1.store
      else k in w2.store && w2.local.externalName == Format(k.namespace, w.local.desired.name) &&
           Step(w2, Observe(Answered)).local.phase.Idle?
  {
    if !w.local.deleting {
      CreatedUnderNewName(Step(w, Observe(Misread)), k);
    }
  }

  /** An idle resource whose annotation leads to a stored group of the looked-up name. */
  predicate Found(w: World) {
    && w.local.phase.Idle? && w.local.externalName != ""
    && ObserveKey(w.local) in w.store && w.store[ObserveKey(w.local)].name == ObserveKey(w.local).name
  }

  /** The name the next Update or Delete would use. */
  function NextName(l: Local): Text {
    WriteName(l.desired, l.externalName, l.objectName, if l.deleting then Delete else Update)
  }

  lemma UpdateRound(w: World)
    requires Found(w) && !w.local.deleting
    ensures Step(CleanPass(w), Observe(Answered)).local.phase.Idle? <==> ObserveKey(w.local).name == NextName(w.local)
  {
  }

  lemma DeleteRound(w: World)
    requires Found(w) && w.local.deleting
    ensures Step(CleanPass(w), Observe(Answered)).local.phase.Gone? <==> ObserveKey(w.local).name == NextName(w.local)
  {
  }

  /** A clean pass brings such a resource up to date, or a clean deletion finalises it, exactly when the
      name it looks up is the name it writes. */
  lemma RoundSucceedsExactly(w: World)
    requires Found(w)
    ensures var next := Step(CleanPass(w), Observe(Answered)).local.phase;
      (if w.local.deleting then next.Gone? else next.Idle?) <==> ObserveKey(w.local).name == NextName(w.local)
  {
    if w.local.deleting {
      DeleteRound(w);
    } else {
      UpdateRound(w);
    }
  }
}
