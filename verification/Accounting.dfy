/** What a resource leaves in the store: which spec the stored group was built from, and which keys
    survive it. */
module Accounting {
  import opened Wrappers
  import opened RuleGroups
  import opened Ruler
  import opened Lifecycle

  // --------------------------------------------------------------------------------------------------
  // Staleness: the spec behind the stored group

  /** The spec of the last write that reached the store, acknowledged or not; None after a Delete. */
  function LastApplied(w: World, before: Option<Desired>, es: seq<Event>): Option<Desired>
    decreases |es|
  {
    if es == [] then before
    else
      var applied :=
        if es[0].Write? && !es[0].outcome.Dropped? && w.local.phase.Pending? then
          if w.local.phase.action.Delete? then None else Some(w.local.phase.snapshot)
        else before;
      LastApplied(Step(w, es[0]), applied, es[1..])
  }

  predicate NoForeign(es: seq<Event>) {
    forall i :: 0 <= i < |es| ==> !Foreign(es[i])
  }

  /** The group a spec's resource stores at its home. */
  function StoredFor(l: Local, applied: Option<Desired>): Option<RuleGroup> {
    match applied
    case None => None
    case Some(d) => Some(Build(d, Home(l).name))
  }

  predicate Ours(l: Local, applied: Option<Desired>) {
    applied.Some? ==> SameIdentity(l.provider, l.desired, applied.value)
  }

  /** Without foreign writes, a resource of fixed identity has at its home exactly the translation of the
      spec it last got through, and Observe calls it up to date exactly as far as the comparison looks. */
  lemma {:induction false} StoredIsLastApplied(w: World, applied: Option<Desired>, es: seq<Event>)
    requires Settled(w.local) && AllKeepIdentity(w.local.provider, w.local.desired, es) && NoForeign(es)
    requires Ours(w.local, applied) && Lookup(w.store, Home(w.local)) == StoredFor(w.local, applied)
    ensures var w', last := Run(w, es), LastApplied(w, applied, es);
      && Home(w'.local) == Home(w.local) && Ours(w'.local, last)
      && Lookup(w'.store, Home(w.local)) == StoredFor(w.local, last)
    decreases |es|
  {
    if es != [] {
      assert es == [es[0]] + es[1..];
      IdentityStep(w, es[0], es[1..]);
      SettledStep(w, es[0]);
      CellRefines(w, es[0]);
      assert NoForeign(es[1..]) && !Foreign(es[0]);
      StoredIsLastApplied(Step(w, es[0]),
        if es[0].Write? && !es[0].outcome.Dropped? && w.local.phase.Pending? then
          if w.local.phase.action.Delete? then None else Some(w.local.phase.snapshot)
        else applied, es[1..]);
    } else {
      SettledStep(w, MarkDeleted);
    }
  }

  /** So when Observe finds nothing to do after such a run, some write got through, and its spec and the
      present one agree on name, interval (if set) and number of rules; and only then. */
  lemma UpToDateMeans(w: World, applied: Option<Desired>, es: seq<Event>)
    requires Settled(w.local) && AllKeepIdentity(w.local.provider, w.local.desired, es) && NoForeign(es)
    requires Ours(w.local, applied) && Lookup(w.store, Home(w.local)) == StoredFor(w.local, applied)
    requires var l := Run(w, es).local; l.phase.Idle? && !l.deleting && l.externalName != ""
    ensures var w', last := Run(w, es), LastApplied(w, applied, es);
      Step(w', Observe(Answered)).local.phase.Idle? <==>
        last.Some? && SameAsFarAsCompared(w'.local.desired, last.value)
  {
    RunRefines(w, es);
    StoredIsLastApplied(w, applied, es);
    var w', last := Run(w, es), LastApplied(w, applied, es);
    if last.Some? {
      UpToDateExactly(w'.local.desired, last.value, Home(w.local).name);
    }
  }

  // --------------------------------------------------------------------------------------------------
  // Footprint: the keys a resource wrote and removed

  /** The keys of Creates and Updates that reached the store. */
  function Posted(w: World, es: seq<Event>): set<Key>
    decreases |es|
  {
    if es == [] then {}
    else PostedBy(w, es[0]) + Posted(Step(w, es[0]), es[1..])
  }

  function PostedBy(w: World, e: Event): set<Key> {
    if e.Write? && !e.outcome.Dropped? && w.local.phase.Pending? && !w.local.phase.action.Delete?
    then {WriteKey(w.local)} else {}
  }

  /** The keys of Deletes that reached the store. */
  function Removed(w: World, es: seq<Event>): set<Key>
    decreases |es|
  {
    if es == [] then {}
    else RemovedBy(w, es[0]) + Removed(Step(w, es[0]), es[1..])
  }

  function RemovedBy(w: World, e: Event): set<Key> {
    if e.Write? && !e.outcome.Dropped? && w.local.phase.Pending? && w.local.phase.action.Delete?
    then {WriteKey(w.local)} else {}
  }

  /** The store as foreign writes alone would have made it. */
  function ForeignRun(st: Store, es: seq<Event>): Store
    decreases |es|
  {
    if es == [] then st else ForeignRun(ForeignEffect(st, es[0]), es[1..])
  }

  /** Over any run, with any edits of any field, every key the resource neither posted nor removed holds
      what foreign writes alone would have left there. */
  lemma {:induction false} ElsewhereOnlyForeign(w: World, st: Store, es: seq<Event>, k: Key)
    requires k !in Posted(w, es) && k !in Removed(w, es) && Lookup(w.store, k) == Lookup(st, k)
    ensures Lookup(Run(w, es).store, k) == Lookup(ForeignRun(st, es), k)
    decreases |es|
  {
    if es != [] {
      ElsewhereOnlyForeign(Step(w, es[0]), ForeignEffect(st, es[0]), es[1..], k);
    }
  }

  /** Deletes come only once the resource is being deleted, and after the last Create or Update. */
  predicate Ordered(l: Local) {
    l.phase.Pending? && l.phase.action.Delete? ==> l.deleting
  }

  predicate DonePosting(l: Local) {
    l.deleting && (l.phase.Pending? ==> l.phase.action.Delete?)
  }

  lemma {:induction false} NoMorePosts(w: World, es: seq<Event>)
    requires DonePosting(w.local)
    ensures Posted(w, es) == {}
    decreases |es|
  {
    if es != [] {
      NoMorePosts(Step(w, es[0]), es[1..]);
    }
  }

  lemma KeysStep(w: World, e: Event)
    requires !Foreign(e)
    ensures Step(w, e).store.Keys == w.store.Keys + PostedBy(w, e) - RemovedBy(w, e)
  {
  }

  /** Without foreign writes, what a run leaves is exactly what was there or was posted, minus what was
      removed: no key comes back after its removal, whatever the edits. */
  lemma {:induction false} SurvivorsExactly(w: World, es: seq<Event>)
    requires Ordered(w.local) && NoForeign(es)
    ensures Run(w, es).store.Keys == w.store.Keys + Posted(w, es) - Removed(w, es)
    decreases |es|
  {
    if es != [] {
      assert NoForeign(es[1..]) && !Foreign(es[0]);
      var w1 := Step(w, es[0]);
      SurvivorsExactly(w1, es[1..]);
      if RemovedBy(w, es[0]) != {} {
        NoMorePosts(w1, es[1..]);
      }
      KeysStep(w, es[0]);
    }
  }

  /** With identity fixed, home is the only key posted to. */
  lemma {:induction false} PostedIsHome(w: World, es: seq<Event>)
    requires Settled(w.local) && AllKeepIdentity(w.local.provider, w.local.desired, es)
    ensures Posted(w, es) <= {Home(w.local)}
    decreases |es|
  {
    if es != [] {
      assert es == [es[0]] + es[1..];
      IdentityStep(w, es[0], es[1..]);
      SettledStep(w, es[0]);
      PostedIsHome(Step(w, es[0]), es[1..]);
    }
  }

  lemma NamedStep(w: World, e: Event)
    requires Settled(w.local)
    ensures Step(w, e).local.externalName == "" ==> w.local.externalName == "" && RemovedBy(w, e) == {}
  {
  }

  /** While the annotation stays empty, nothing is removed. */
  lemma {:induction false} UnnamedRemovesNothing(w: World, es: seq<Event>)
    requires Settled(w.local) && AllKeepIdentity(w.local.provider, w.local.desired, es)
    ensures Run(w, es).local.externalName == "" ==> w.local.externalName == "" && Removed(w, es) == {}
    decreases |es|
  {
    if es != [] {
      assert es == [es[0]] + es[1..];
      IdentityStep(w, es[0], es[1..]);
      SettledStep(w, es[0]);
      NamedStep(w, es[0]);
      UnnamedRemovesNothing(Step(w, es[0]), es[1..]);
    }
  }

  /** An observation that lets a resource be finalised without a look at the store: nothing was asked under an
      empty annotation, or the answer was misread. */
  predicate Blind(l: Local, e: Event) {
    l.phase.Idle? && l.deleting && e.Observe? && (l.externalName == "" || e.answer.Misread?)
  }

  /** Whether a run finalises the resource blindly while there is a group at its home. */
  predicate LeavesBehind(w: World, es: seq<Event>)
    decreases |es|
  {
    es != [] && ((Blind(w.local, es[0]) && Home(w.local) in w.store) || LeavesBehind(Step(w, es[0]), es[1..]))
  }

  /** A finalised resource does nothing more. */
  lemma {:induction false} GoneRests(w: World, es: seq<Event>)
    requires w.local.phase.Gone? && NoForeign(es)
    ensures Run(w, es) == w && !LeavesBehind(w, es)
    decreases |es|
  {
    if es != [] {
      assert NoForeign(es[1..]) && !Foreign(es[0]);
      GoneRests(Step(w, es[0]), es[1..]);
    }
  }

  /** The step that finalises: what it leaves at home it left blindly. */
  lemma FinalisingStep(w: World, e: Event)
    requires Settled(w.local) && !Foreign(e) && !w.local.phase.Gone? && Step(w, e).local.phase.Gone?
    ensures Home(Step(w, e).local) == Home(w.local) && Step(w, e).store == w.store
    ensures Home(w.local) in w.store ==> Blind(w.local, e)
  {
  }

  lemma {:induction false} GoneLeavesExactly(w: World, es: seq<Event>)
    requires Settled(w.local) && AllKeepIdentity(w.local.provider, w.local.desired, es) && NoForeign(es)
    requires !w.local.phase.Gone? && Run(w, es).local.phase.Gone?
    ensures Home(w.local) in Run(w, es).store <==> LeavesBehind(w, es)
    decreases |es|
  {
    assert es == [es[0]] + es[1..];
    IdentityStep(w, es[0], es[1..]);
    SettledStep(w, es[0]);
    assert NoForeign(es[1..]) && !Foreign(es[0]);
    var w1 := Step(w, es[0]);
    if w1.local.phase.Gone? {
      FinalisingStep(w, es[0]);
      GoneRests(w1, es[1..]);
    } else {
      GoneLeavesExactly(w1, es[1..]);
    }
  }

  /** After a completed deletion of a resource of fixed identity its group is still at home exactly when it was
      finalised blindly with the group there; then everything it posted survives, and else nothing. Under an
      empty annotation nothing was ever removed, so there it is always everything. */
  lemma CompletedDeletionExactly(w: World, es: seq<Event>)
    requires Settled(w.local) && AllKeepIdentity(w.local.provider, w.local.desired, es) && NoForeign(es)
    requires !w.local.phase.Gone? && Run(w, es).local.phase.Gone?
    ensures Home(w.local) in Run(w, es).store <==> LeavesBehind(w, es)
    ensures Posted(w, es) - Removed(w, es) == if LeavesBehind(w, es) then Posted(w, es) else {}
    ensures Run(w, es).local.externalName == "" ==> Posted(w, es) - Removed(w, es) == Posted(w, es)
  {
    SurvivorsExactly(w, es);
    PostedIsHome(w, es);
    UnnamedRemovesNothing(w, es);
    GoneLeavesExactly(w, es);
  }

  /** Finalised unasked: a Create whose reply is lost, followed by deletion before any annotation is set. */
  lemma Orphaned(w: World)
    requires w.local.phase.Idle? && !w.local.deleting && w.local.externalName == ""
    ensures var es := [Observe(Answered), Write(Lost), MarkDeleted, Observe(Answered)];
      Run(w, es).local.phase.Gone? && Home(w.local) in Run(w, es).store
  {
    var es := [Observe(Answered), Write(Lost), MarkDeleted, Observe(Answered)];
    var w1 := Step(w, es[0]);
    var w2 := Step(w1, Write(Lost));
    var w3 := Step(w2, MarkDeleted);
    assert es[1..] == [Write(Lost), MarkDeleted, Observe(Answered)];
    assert es[1..][1..] == [MarkDeleted, Observe(Answered)];
    assert es[1..][1..][1..] == [Observe(Answered)];
    assert Run(w3, [Observe(Answered)]) == Step(w3, Observe(Answered)) by {
      assert [Observe(Answered)][1..] == [];
    }
  }

  /** Finalised on a misread answer, with an annotation in place: all was well until the deletion. */
  lemma OrphanedByMisreading(w: World)
    requires Settled(w.local) && w.local.phase.Idle? && !w.local.deleting && w.local.externalName == ""
    ensures var w' := Run(w, [Observe(Answered), Write(Acked), MarkDeleted, Observe(Misread)]);
      w'.local.phase.Gone? && w'.local.externalName != "" && Home(w.local) in w'.store
  {
    var es := [Observe(Answered), Write(Acked), MarkDeleted, Observe(Misread)];
    var w1 := Step(w, es[0]);
    var w2 := Step(w1, Write(Acked));
    var w3 := Step(w2, MarkDeleted);
    assert es[1..] == [Write(Acked), MarkDeleted, Observe(Misread)];
    assert es[1..][1..] == [MarkDeleted, Observe(Misread)];
    assert es[1..][1..][1..] == [Observe(Misread)];
    assert Run(w3, [Observe(Misread)]) == Step(w3, Observe(Misread)) by {
      assert [Observe(Misread)][1..] == [];
    }
    SettledStep(w, es[0]);
  }
}
