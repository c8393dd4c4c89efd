/** Many resources on one store. */
module Interference {
  import opened Wrappers
  import opened ExternalNames
  import opened RuleGroups
  import opened Ruler
  import opened Lifecycle

  datatype System = System(locals: seq<Local>, store: Store)

  /** A step of one resource, or (for foreign events) of nobody in the system. */
  datatype Happening = Happening(who: nat, event: Event)

  function Happen(s: System, h: Happening): System {
    if Foreign(h.event) then s.(store := ForeignEffect(s.store, h.event))
    else if h.who < |s.locals| then
      var w := Step(World(s.locals[h.who], s.store), h.event);
      System(s.locals[h.who := w.local], w.store)
    else s
  }

  function HappenAll(s: System, hs: seq<Happening>): System
    decreases |hs|
  {
    if hs == [] then s else HappenAll(Happen(s, hs[0]), hs[1..])
  }

  /** What resource i sees of a history: its own events and the foreign ones. */
  function Project(hs: seq<Happening>, i: nat): seq<Event> {
    if hs == [] then []
    else if Foreign(hs[0].event) || hs[0].who == i then [hs[0].event] + Project(hs[1..], i)
    else Project(hs[1..], i)
  }

  /** Settled resources at pairwise distinct homes. */
  predicate Apart(s: System) {
    && (forall i :: 0 <= i < |s.locals| ==> Settled(s.locals[i]))
    && (forall i, j :: 0 <= i < j < |s.locals| ==> Home(s.locals[i]) != Home(s.locals[j]))
  }

  predicate EditsKeep(s: System, hs: seq<Happening>) {
    forall n, i :: 0 <= n < |hs| && 0 <= i < |s.locals| && hs[n].who == i ==>
      KeepsIdentity(s.locals[i].provider, s.locals[i].desired, hs[n].event)
  }

  /** A step of a system touches one resource and, in the store, that resource's home only. */
  lemma HappenLocal(s: System, h: Happening)
    requires Apart(s) && EditsKeep(s, [h]) && !Foreign(h.event) && h.who < |s.locals|
    ensures var s' := Happen(s, h);
      && |s'.locals| == |s.locals| && Settled(s'.locals[h.who])
      && Home(s'.locals[h.who]) == Home(s.locals[h.who])
      && (forall i :: 0 <= i < |s.locals| && i != h.who ==> s'.locals[i] == s.locals[i])
      && (forall k :: k != Home(s.locals[h.who]) ==> Lookup(s'.store, k) == Lookup(s.store, k))
  {
    var w := World(s.locals[h.who], s.store);
    assert KeepsIdentity(w.local.provider, w.local.desired, [h][0].event);
    SettledStep(w, h.event);
    forall k | k != Home(w.local)
      ensures Lookup(Step(w, h.event).store, k) == Lookup(s.store, k)
    {
      StepFrame(w, h.event, k);
    }
  }

  lemma EditsKeepParts(s: System, h: Happening, hs: seq<Happening>)
    requires EditsKeep(s, [h] + hs)
    ensures EditsKeep(s, [h]) && EditsKeep(s, hs)
  {
    assert ([h] + hs)[0] == h;
    assert forall n :: 0 <= n < |hs| ==> ([h] + hs)[n + 1] == hs[n];
  }

  lemma HappenKeepsIdentity(s: System, h: Happening, i: nat)
    requires EditsKeep(s, [h]) && i < |s.locals|
    ensures var s' := Happen(s, h);
      && |s'.locals| == |s.locals| && s'.locals[i].provider == s.locals[i].provider
      && SameIdentity(s.locals[i].provider, s.locals[i].desired, s'.locals[i].desired)
  {
    if !Foreign(h.event) && h.who == i {
      assert KeepsIdentity(s.locals[i].provider, s.locals[i].desired, [h][0].event);
      StepKeepsIdentity(World(s.locals[i], s.store), h.event);
    }
  }

  lemma EditsKeepLater(s: System, h: Happening, hs: seq<Happening>)
    requires EditsKeep(s, [h] + hs)
    ensures EditsKeep(s, [h]) && EditsKeep(Happen(s, h), hs)
  {
    EditsKeepParts(s, h, hs);
    var s' := Happen(s, h);
    forall n, i | 0 <= n < |hs| && 0 <= i < |s'.locals| && hs[n].who == i
      ensures KeepsIdentity(s'.locals[i].provider, s'.locals[i].desired, hs[n].event)
    {
      HappenKeepsIdentity(s, h, i);
      assert KeepsIdentity(s.locals[i].provider, s.locals[i].desired, hs[n].event);
    }
  }

  lemma ApartStep(s: System, h: Happening)
    requires Apart(s) && EditsKeep(s, [h])
    ensures var s' := Happen(s, h);
      Apart(s') && |s'.locals| == |s.locals| &&
      forall i :: 0 <= i < |s.locals| ==> Home(s'.locals[i]) == Home(s.locals[i])
  {
    if !Foreign(h.event) && h.who < |s.locals| {
      HappenLocal(s, h);
    }
  }

  /** What one step of the system does to resource i and its cell is a step of the cell machine, or nothing. */
  lemma HappenProjects(s: System, h: Happening, i: nat)
    requires Apart(s) && EditsKeep(s, [h]) && i < |s.locals|
    ensures var s' := Happen(s, h);
      var c := CellOf(World(s.locals[i], s.store));
      |s'.locals| == |s.locals| &&
      CellOf(World(s'.locals[i], s'.store)) ==
        if Foreign(h.event) || h.who == i then CellStep(c, h.event) else c
  {
    var w := World(s.locals[i], s.store);
    if Foreign(h.event) {
    } else if h.who == i {
      assert KeepsIdentity(w.local.provider, w.local.desired, [h][0].event);
      CellRefines(w, h.event);
    } else if h.who < |s.locals| {
      HappenLocal(s, h);
    }
  }

  /** Non-interference: in any interleaving of any number of resources at distinct homes, requests failing
      and replies getting lost as they may, each resource and the group at its home go through a run of that
      resource alone. */
  lemma {:induction false} NonInterference(s: System, hs: seq<Happening>, i: nat)
    requires Apart(s) && EditsKeep(s, hs) && i < |s.locals|
    ensures var s' := HappenAll(s, hs);
      |s'.locals| == |s.locals| &&
      CellOf(World(s'.locals[i], s'.store)) == CellRun(CellOf(World(s.locals[i], s.store)), Project(hs, i))
    decreases |hs|
  {
    if hs != [] {
      assert hs == [hs[0]] + hs[1..];
      EditsKeepLater(s, hs[0], hs[1..]);
      ApartStep(s, hs[0]);
      HappenProjects(s, hs[0], i);
      NonInterference(Happen(s, hs[0]), hs[1..], i);
      if Foreign(hs[0].event) || hs[0].who == i {
        assert Project(hs, i)[1..] == Project(hs[1..], i);
      }
    }
  }

  lemma {:induction false} ProjectionKeeps(s: System, hs: seq<Happening>, i: nat)
    requires EditsKeep(s, hs) && i < |s.locals|
    ensures AllKeepIdentity(s.locals[i].provider, s.locals[i].desired, Project(hs, i))
    decreases |hs|
  {
    if hs != [] {
      assert KeepsIdentity(s.locals[i].provider, s.locals[i].desired, hs[0].event) || hs[0].who != i;
      assert forall n :: 0 <= n < |hs[1..]| ==> hs[1..][n] == hs[n + 1];
      ProjectionKeeps(s, hs[1..], i);
    }
  }

  /** So the history of a resource among others is the history it would have had in the same store alone. */
  lemma AsIfAlone(s: System, hs: seq<Happening>, i: nat)
    requires Apart(s) && EditsKeep(s, hs) && i < |s.locals|
    ensures var s', alone := HappenAll(s, hs), Run(World(s.locals[i], s.store), Project(hs, i));
      && |s'.locals| == |s.locals| && s'.locals[i] == alone.local
      && Lookup(s'.store, Home(s.locals[i])) == Lookup(alone.store, Home(s.locals[i]))
  {
    NonInterference(s, hs, i);
    ProjectionKeeps(s, hs, i);
    RunRefines(World(s.locals[i], s.store), Project(hs, i));
  }

  lemma FiveHappen(s: System, h1: Happening, h2: Happening, h3: Happening, h4: Happening, h5: Happening)
    ensures HappenAll(s, [h1, h2, h3, h4, h5]) == Happen(Happen(Happen(Happen(Happen(s, h1), h2), h3), h4), h5)
  {
    assert [h1, h2, h3, h4, h5][1..] == [h2, h3, h4, h5] && [h2, h3, h4, h5][1..] == [h3, h4, h5];
    assert [h3, h4, h5][1..] == [h4, h5] && [h4, h5][1..] == [h5] && [h5][1..] == [];
    var s1 := Happen(s, h1);
    var s2 := Happen(s1, h2);
    var s3 := Happen(s2, h3);
    var s4 := Happen(s3, h4);
    assert HappenAll(s4, [h5]) == Happen(s4, h5);
    assert HappenAll(s3, [h4, h5]) == HappenAll(s4, [h5]);
    assert HappenAll(s2, [h3, h4, h5]) == HappenAll(s3, [h4, h5]);
    assert HappenAll(s1, [h2, h3, h4, h5]) == HappenAll(s2, [h3, h4, h5]);
  }

  lemma ThreeOfFive(e1: Event, e2: Event, e3: Event, e4: Event, e5: Event)
    requires !Foreign(e1) && !Foreign(e2) && !Foreign(e3) && !Foreign(e4) && !Foreign(e5)
    ensures Project([Happening(0, e1), Happening(0, e2), Happening(1, e3), Happening(1, e4), Happening(0, e5)], 0)
         == [e1, e2, e5]
  {
    var h1, h2, h3, h4, h5 := Happening(0, e1), Happening(0, e2), Happening(1, e3), Happening(1, e4), Happening(0, e5);
    assert [h1, h2, h3, h4, h5][1..] == [h2, h3, h4, h5] && [h2, h3, h4, h5][1..] == [h3, h4, h5];
    assert [h3, h4, h5][1..] == [h4, h5] && [h4, h5][1..] == [h5] && [h5][1..] == [];
    assert Project([h5], 0) == [e5];
    assert Project([h4, h5], 0) == [e5];
    assert Project([h3, h4, h5], 0) == [e5];
    assert Project([h2, h3, h4, h5], 0) == [e2, e5];
  }

  /** The first resource of the two: its Create leads it to the other one's home, and it finds nothing there alone. */
  lemma LooksNextDoor(a: Local, home: Key, st: Store)
    requires a.phase == Pending(Create, a.desired) && !a.deleting && a.externalName == "" && !Safe(a.desired)
    requires var k := WriteKey(a); home == k.(name := ObserveName(a.desired, Format(k.namespace, k.name)))
    ensures ObserveKey(AfterWrite(a, Acked)) == home && WriteKey(a) != home
    ensures home !in st ==>
      Step(Step(World(a, st), Write(Acked)), Observe(Answered)).local.phase == Pending(Create, a.desired)
    ensures home in st ==>
      !Step(World(AfterWrite(a, Acked), st), Observe(Answered)).local.phase.Pending? ||
      Step(World(AfterWrite(a, Acked), st), Observe(Answered)).local.phase.action == Update
  {
    CreateIsFoundAgain(a);
  }

  /** A fresh resource's first pass, all acknowledged. */
  lemma FirstPass(s: System, i: nat)
    requires i < |s.locals|
    requires var l := s.locals[i]; l.phase.Idle? && !l.deleting && l.externalName == ""
    ensures var l := s.locals[i].(phase := Pending(Create, s.locals[i].desired));
      && Home(l) == WriteKey(l) == Home(s.locals[i])
      && Happen(Happen(s, Happening(i, Observe(Answered))), Happening(i, Write(Acked))) ==
           System(s.locals[i := AfterWrite(l, Acked)], Set(s.store, WriteKey(l), Written(l)))
  {
    var l := s.locals[i].(phase := Pending(Create, s.locals[i].desired));
    assert Happen(s, Happening(i, Observe(Answered))) == s.(locals := s.locals[i := l]);
    assert s.locals[i := l][i := AfterWrite(l, Acked)] == s.locals[i := AfterWrite(l, Acked)];
  }

  /** A fresh, live resource. */
  predicate Unmade(l: Local) {
    l.phase.Idle? && !l.deleting && l.externalName == ""
  }

  /** The second resource lives where the first one looks after its Create. */
  predicate NextDoor(a: Local, b: Local) {
    var k := Home(a);
    Home(b) == k.(name := ObserveName(a.desired, Format(k.namespace, k.name)))
  }

  /** Both resources are created, then the first one looks again. */
  function BothCreated(): seq<Happening> {
    [Happening(0, Observe(Answered)), Happening(0, Write(Acked)), Happening(1, Observe(Answered)),
     Happening(1, Write(Acked)), Happening(0, Observe(Answered))]
  }

  lemma TogetherNoCreate(a: Local, b: Local, st: Store)
    requires Unmade(a) && !Safe(a.desired) && Unmade(b) && b.desired.RuleGroupSpec? && NextDoor(a, b)
    ensures var l := HappenAll(System([a, b], st), BothCreated()).locals[0];
      Home(a) != Home(b) && (l.phase.Pending? ==> l.phase.action.Update?)
  {
    var a1, b1 := a.(phase := Pending(Create, a.desired)), b.(phase := Pending(Create, b.desired));
    var a2, b2 := AfterWrite(a1, Acked), AfterWrite(b1, Acked);
    var s0 := System([a, b], st);
    FirstPass(s0, 0);
    var s2 := System([a2, b], Set(st, WriteKey(a1), Written(a1)));
    assert [a, b][0 := a2] == [a2, b];
    FirstPass(s2, 1);
    var s4 := System([a2, b2], Set(s2.store, WriteKey(b1), Written(b1)));
    assert [a2, b][1 := b2] == [a2, b2];
    LooksNextDoor(a1, Home(b), s4.store);
    FiveHappen(s0, Happening(0, Observe(Answered)), Happening(0, Write(Acked)),
               Happening(1, Observe(Answered)), Happening(1, Write(Acked)), Happening(0, Observe(Answered)));
  }

  lemma AloneCreates(a: Local, b: Local, st: Store)
    requires Unmade(a) && !Safe(a.desired) && NextDoor(a, b) && Home(b) !in st
    ensures Run(World(a, st), Project(BothCreated(), 0)).local.phase == Pending(Create, a.desired)
  {
    LooksNextDoor(a.(phase := Pending(Create, a.desired)), Home(b), st);
    ThreeOfFive(Observe(Answered), Write(Acked), Observe(Answered), Write(Acked), Observe(Answered));
    ThreeSteps(World(a, st), CellOf(World(a, st)), Observe(Answered), Write(Acked), Observe(Answered));
  }

  /** What apartness asks of namespaces is needed. A fresh resource of any kind in an unsafe namespace, and one of
      the current kinds whose name is what the first one looks up after its Create: their homes are distinct, but
      once both are created the first one takes the second one's group for its own, and does not create again as
      it would alone. */
  lemma UnsafeInterferes(a: Local, b: Local, st: Store)
    requires Unmade(a) && !Safe(a.desired) && Unmade(b) && b.desired.RuleGroupSpec? && NextDoor(a, b)
    requires Home(b) !in st
    ensures Home(a) != Home(b)
    ensures HappenAll(System([a, b], st), BothCreated()).locals[0].phase !=
            Run(World(a, st), Project(BothCreated(), 0)).local.phase
  {
    TogetherNoCreate(a, b, st);
    AloneCreates(a, b, st);
  }

  /** Every fresh resource in an unsafe namespace has such a neighbour, and an empty store will do. */
  lemma NeighbourExists(a: Local) returns (b: Local)
    requires Unmade(a) && !Safe(a.desired)
    ensures Unmade(b) && b.desired.RuleGroupSpec? && NextDoor(a, b) && Home(a) != Home(b)
    ensures HappenAll(System([a, b], map[]), BothCreated()).locals[0].phase !=
            Run(World(a, map[]), Project(BothCreated(), 0)).local.phase
  {
    var k := Home(a);
    var name := ObserveName(a.desired, Format(k.namespace, k.name));
    b := a.(desired := RuleGroupSpec(a.desired.orgID, a.desired.namespace, name, None, [], []));
    UnsafeInterferes(a, b, map[]);
  }
}
