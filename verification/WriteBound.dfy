/** How often a resource writes: a bound over all runs, and the exact count in a quiet system. */
module WriteBound {
  import opened ExternalNames
  import opened RuleGroups
  import opened Ruler
  import opened Lifecycle
  import opened Iteration

  /** A Create or Update that succeeds: acknowledged, and, for a Create, its annotation kept. */
  predicate Succeeds(w: World, e: Event) {
    && e.Write? && w.local.phase.Pending? && !w.local.phase.action.Delete?
    && (e.outcome.Acked? || (e.outcome.Unpersisted? && w.local.phase.action.Update?))
  }

  function Successes(w: World, es: seq<Event>): nat
    decreases |es|
  {
    if es == [] then 0 else Count(Succeeds(w, es[0])) + Successes(Step(w, es[0]), es[1..])
  }

  /** Spec edits, writes by others, and errors that Observe takes for "not found". */
  predicate Disturbs(e: Event) {
    e.Edit? || Foreign(e) || e == Observe(Misread)
  }

  function Disturbances(es: seq<Event>): nat {
    if es == [] then 0 else Count(Disturbs(es[0])) + Disturbances(es[1..])
  }

  /** The next Observe would find nothing to do. */
  predicate Fresh(w: World) {
    var found := Lookup(w.store, Home(w.local));
    w.local.externalName != "" && found.Some? && UpToDate(w.local.desired, found.value)
  }

  /** The writes the past may still ask for. */
  function Debt(w: World): nat {
    match w.local.phase
    case Gone => 0
    case Pending(a, snapshot) => if a.Delete? then 0 else 1 + Count(snapshot != w.local.desired)
    case Idle => Count(!w.local.deleting && !Fresh(w))
  }

  /** A successful write of the present spec leaves nothing to do. */
  lemma SuccessIsFresh(w: World, o: Outcome)
    requires Settled(w.local) && Succeeds(w, Write(o)) && w.local.phase.snapshot == w.local.desired
    ensures Fresh(Step(w, Write(o)))
  {
    SettledStep(w, Write(o));
  }

  lemma DebtWrite(w: World, o: Outcome)
    requires Settled(w.local)
    ensures Count(Succeeds(w, Write(o))) + Debt(Step(w, Write(o))) <= Debt(w)
  {
    if Succeeds(w, Write(o)) && w.local.phase.snapshot == w.local.desired {
      SuccessIsFresh(w, o);
    }
  }

  lemma DebtObserve(w: World, answer: Answer)
    requires Settled(w.local)
    ensures Debt(Step(w, Observe(answer))) <= Debt(w) + Count(answer.Misread?)
  {
  }

  /** Each step pays for its write out of the debt, or raises the debt by a disturbance of its own. */
  lemma DebtStep(w: World, e: Event)
    requires Settled(w.local) && KeepsIdentity(w.local.provider, w.local.desired, e)
    ensures Count(Succeeds(w, e)) + Debt(Step(w, e)) <= Debt(w) + Count(Disturbs(e))
  {
    match e
    case Write(o) => DebtWrite(w, o);
    case Observe(answer) => DebtObserve(w, answer);
    case _ =>
  }

  lemma {:induction false} SuccessesBounded(w: World, es: seq<Event>)
    requires Settled(w.local) && AllKeepIdentity(w.local.provider, w.local.desired, es)
    ensures Successes(w, es) + Debt(Run(w, es)) <= Debt(w) + Disturbances(es)
    decreases |es|
  {
    if es != [] {
      assert es == [es[0]] + es[1..];
      IdentityStep(w, es[0], es[1..]);
      SettledStep(w, es[0]);
      DebtStep(w, es[0]);
      SuccessesBounded(Step(w, es[0]), es[1..]);
    }
  }

  /** Over any run of a settled resource of fixed identity, successful Creates and Updates number at most one
      more than the spec edits, the foreign writes and the GETs misread as "not found", however many requests
      fail otherwise. */
  lemma WriteBound(w: World, es: seq<Event>)
    requires Settled(w.local) && AllKeepIdentity(w.local.provider, w.local.desired, es) && w.local.phase.Idle?
    ensures Successes(w, es) <= 1 + Disturbances(es)
  {
    SuccessesBounded(w, es);
  }

  /** A pass whose GET is misread and whose write is acknowledged. */
  function MisreadPass(w: World): World {
    Step(Step(w, Observe(Misread)), Write(Acked))
  }

  function MisreadPassWrites(w: World): nat {
    Count(Succeeds(Step(w, Observe(Misread)), Write(Acked)))
  }

  predicate Named(w: World) {
    w.local.phase.Idle? && !w.local.deleting && w.local.externalName != ""
  }

  /** The bound counts misread GETs for a reason: each of them buys a write, even when all is up to date. */
  lemma MisreadsWrite(w: World, n: nat)
    requires Named(w)
    ensures Total(MisreadPass, MisreadPassWrites, w, n) == n
  {
    OneEach(MisreadPass, MisreadPassWrites, Named, w, n);
  }

  // --------------------------------------------------------------------------------------------------
  // The quiet system

  /** A reconcile pass in which every request is answered; without anything to write, the second event idles. */
  function CleanPass(w: World): World {
    Step(Step(w, Observe(Answered)), Write(Acked))
  }

  /** Whether a clean pass writes. */
  function PassWrites(w: World): nat {
    Count(Succeeds(Step(w, Observe(Answered)), Write(Acked)))
  }

  /** n clean passes, and how many of them write. */
  function CleanPasses(w: World, n: nat): World {
    Iterate(CleanPass, w, n)
  }

  function CleanWrites(w: World, n: nat): nat {
    Total(CleanPass, PassWrites, w, n)
  }

  /** All groups of the resource's tenant and namespace have names shorter than the one it looks up next;
      an annotation of the current controllers is the one their Create printed. */
  predicate Outgrown(w: World) {
    var l, k := w.local, ObserveKey(w.local);
    && (l.desired.RuleGroupSpec? && l.externalName != "" ==> l.externalName == Format(k.namespace, l.desired.name))
    && forall j :: j in w.store && j.tenant == k.tenant && j.namespace == k.namespace ==>
         l.externalName != "" && |j.name| < |k.name|
  }

  lemma OutgrownIsAbsent(w: World)
    requires w.local.phase.Idle? && !w.local.deleting && Outgrown(w)
    ensures Step(w, Observe(Answered)) == w.(local := w.local.(phase := Pending(Create, w.local.desired)))
  {
  }

  /** In an unsafe namespace a Create leads Observe to a strictly longer name than any in the namespace. */
  lemma CreateOutgrows(w: World)
    requires !Safe(w.local.desired) && w.local.phase == Pending(Create, w.local.desired)
    requires Outgrown(w)
    ensures var w' := Step(w, Write(Acked)); Outgrown(w') && |ObserveKey(w'.local).name| > |WriteKey(w.local).name|
  {
    CreateIsFoundAgain(w.local);
    var k, w' := WriteKey(w.local), Step(w, Write(Acked));
    forall j | j in w'.store && j.tenant == k.tenant && j.namespace == k.namespace
      ensures |j.name| < |ObserveKey(w'.local).name|
    {
      assert j == k || j in w.store;
    }
  }

  /** The legacy controller's Create in an outgrown namespace adds a group instead of replacing one. */
  lemma CreateAdds(w: World)
    requires w.local.desired.GroupRecordingSpec? && w.local.phase == Pending(Create, w.local.desired)
    requires Outgrown(w)
    ensures |Step(w, Write(Acked)).store| == |w.store| + 1
  {
    var k, st := WriteKey(w.local), Step(w, Write(Acked)).store;
    assert k !in w.store && st.Keys == w.store.Keys + {k};
  }

  /** An idle resource in an unsafe, outgrown namespace. */
  predicate Restless(w: World) {
    !Safe(w.local.desired) && w.local.phase.Idle? && !w.local.deleting && Outgrown(w)
  }

  /** One clean pass of a restless resource creates a group and leaves it restless. */
  lemma RestlessPass(w: World)
    requires Restless(w)
    ensures Restless(CleanPass(w)) && CleanPass(w).local.desired == w.local.desired
    ensures PassWrites(w) == 1
  {
    OutgrownIsAbsent(w);
    CreateOutgrows(Step(w, Observe(Answered)));
  }

  predicate RestlessLegacy(w: World) {
    Restless(w) && w.local.desired.GroupRecordingSpec?
  }

  function Groups(w: World): nat {
    |w.store|
  }

  lemma RestlessLegacyPass(w: World)
    requires RestlessLegacy(w)
    ensures RestlessLegacy(CleanPass(w)) && Groups(CleanPass(w)) == Groups(w) + 1
  {
    RestlessPass(w);
    OutgrownIsAbsent(w);
    CreateAdds(Step(w, Observe(Answered)));
  }

  lemma RestlessPasses()
    ensures forall w {:trigger CleanPass(w)} {:trigger PassWrites(w)} ::
      Restless(w) ==> Restless(CleanPass(w)) && PassWrites(w) == 1
  {
    forall w | Restless(w) {
      RestlessPass(w);
    }
  }

  lemma RestlessLegacyPasses()
    ensures forall w {:trigger CleanPass(w)} ::
      RestlessLegacy(w) ==> RestlessLegacy(CleanPass(w)) && Groups(CleanPass(w)) == Groups(w) + 1
  {
    forall w | RestlessLegacy(w) {
      RestlessLegacyPass(w);
    }
  }

  lemma NeverQuiet(w: World, n: nat)
    requires Restless(w)
    ensures CleanWrites(w, n) == n
  {
    RestlessPasses();
    OneEach(CleanPass, PassWrites, Restless, w, n);
  }

  lemma LeavesOneEachPass(w: World, n: nat)
    requires RestlessLegacy(w)
    ensures Groups(CleanPasses(w, n)) == Groups(w) + n
  {
    RestlessLegacyPasses();
    OneMoreEach(CleanPass, Groups, RestlessLegacy, w, n);
  }

  /** A resource nothing was ever created for, in a namespace of its tenant that holds no groups. */
  predicate Untouched(w: World) {
    && w.local.phase.Idle? && !w.local.deleting && w.local.externalName == "" && '/' !in w.local.objectName
    && forall j :: j in w.store ==>
         j.tenant != Tenant(w.local.provider, w.local.desired) || j.namespace != Namespace(w.local.desired)
  }

  lemma FreshRests(w: World)
    requires Fresh(w) && Settled(w.local) && w.local.phase.Idle? && !w.local.deleting
    ensures CleanPass(w) == w && PassWrites(w) == 0
  {
  }

  lemma FirstPassSettles(w: World)
    requires Untouched(w) && Safe(w.local.desired)
    ensures PassWrites(w) == 1
    ensures CleanPass(CleanPass(w)) == CleanPass(w) && PassWrites(CleanPass(w)) == 0
  {
    var w1 := Step(w, Observe(Answered));
    SettledStep(w, Observe(Answered));
    SettledStep(w1, Write(Acked));
    SuccessIsFresh(w1, Acked);
    FreshRests(CleanPass(w));
  }

  lemma SettlesOnce(w: World, n: nat)
    requires Untouched(w) && Safe(w.local.desired) && n > 0
    ensures CleanWrites(w, n) == 1
  {
    FirstPassSettles(w);
    AtRest(CleanPass, PassWrites, CleanPass(w), n - 1);
  }

  lemma UntouchedIsOutgrown(w: World)
    requires Untouched(w)
    ensures Outgrown(w)
  {
  }

  /** With nobody interfering, n clean passes write once if the namespace is safe and n times if it is not;
      and the legacy controller then leaves n groups behind, one for each pass. */
  lemma QuietWritesExactly(w: World, n: nat)
    requires Untouched(w)
    ensures CleanWrites(w, n) == if Safe(w.local.desired) && n > 0 then 1 else n
    ensures w.local.desired.GroupRecordingSpec? && !Safe(w.local.desired) ==>
      Groups(CleanPasses(w, n)) == Groups(w) + n
  {
    if Safe(w.local.desired) && n > 0 {
      SettlesOnce(w, n);
    } else if !Safe(w.local.desired) {
      UntouchedIsOutgrown(w);
      NeverQuiet(w, n);
      if w.local.desired.GroupRecordingSpec? {
        LeavesOneEachPass(w, n);
      }
    }
  }

  // --------------------------------------------------------------------------------------------------
  // Convergence

  /** One clean pass brings a settled resource up to date; three clean requests delete and finalise it. */
  lemma Converges(w: World)
    requires Settled(w.local) && w.local.phase.Idle?
    ensures !w.local.deleting ==> CleanPass(w).local.phase.Idle? && Fresh(CleanPass(w))
    ensures w.local.deleting ==> var w' := Step(CleanPass(w), Observe(Answered));
      w'.local.phase.Gone? && (w.local.externalName != "" ==> Home(w.local) !in w'.store)
  {
    var w1 := Step(w, Observe(Answered));
    SettledStep(w, Observe(Answered));
    SettledStep(w1, Write(Acked));
    SettledStep(CleanPass(w), Observe(Answered));
    if Succeeds(w1, Write(Acked)) {
      SuccessIsFresh(w1, Acked);
    }
  }
}
