/** Several Alertmanager configurations on one server. */
module AlertmanagerInterference {
  import opened Wrappers
  import opened Texts
  import opened AlertmanagerClient
  import L = Lifecycle
  import T = AlertmanagerTranslation
  import opened AlertmanagerLifecycle

  datatype System = System(locals: seq<Local>, documents: Documents)

  /** A step of one resource, or (for foreign events) of nobody in the system. */
  datatype Happening = Happening(who: nat, event: Event)

  function Happen(s: System, h: Happening): System {
    if Foreign(h.event) then
      var config := if h.event.ForeignPut? then Some(h.event.config) else None;
      s.(documents := SetDocument(s.documents, h.event.tenant, config))
    else if h.who < |s.locals| then
      var w := Step(World(s.locals[h.who], s.documents), h.event);
      System(s.locals[h.who := w.local], w.documents)
    else s
  }

  function HappenAll(s: System, hs: seq<Happening>): System
    decreases |hs|
  {
    if hs == [] then s else HappenAll(Happen(s, hs[0]), hs[1..])
  }

  /** What resource i sees of a history: its own events and the foreign ones. */
  function Project(hs: seq<Happening>, i: nat): seq<Event> {
    if hs == [] then []
    else if Foreign(hs[0].event) || hs[0].who == i then [hs[0].event] + Project(hs[1..], i)
    else Project(hs[1..], i)
  }

  /** Resources of pairwise distinct tenants. */
  predicate Apart(s: System, tenants: seq<Text>) {
    && |tenants| == |s.locals|
    && (forall i :: 0 <= i < |tenants| ==> OnTenant(s.locals[i], tenants[i]))
    && (forall i, j :: 0 <= i < j < |tenants| ==> tenants[i] != tenants[j])
  }

  predicate EditsKeep(s: System, tenants: seq<Text>, hs: seq<Happening>)
    requires |tenants| == |s.locals|
  {
    forall n, i :: 0 <= n < |hs| && 0 <= i < |tenants| && hs[n].who == i ==>
      KeepsTenant(s.locals[i].provider, tenants[i], hs[n].event)
  }

  predicate Agree(docs: Documents, docs': Documents, tenant: Text) {
    Stored(docs, tenant) == Stored(docs', tenant)
  }

  /** A step depends on the document of the resource's tenant alone, and leaves all others as they are. */
  lemma StepLocal(l: Local, tenant: Text, e: Event, docs: Documents, docs': Documents)
    requires OnTenant(l, tenant) && KeepsTenant(l.provider, tenant, e) && Agree(docs, docs', tenant)
    ensures var w, w' := Step(World(l, docs), e), Step(World(l, docs'), e);
      w.local == w'.local && Agree(w.documents, w'.documents, tenant)
    ensures !Foreign(e) ==> forall t :: t != tenant ==> Agree(Step(World(l, docs), e).documents, docs, t)
  {
  }

  lemma OtherStep(s: System, tenants: seq<Text>, h: Happening, i: nat)
    requires Apart(s, tenants) && EditsKeep(s, tenants, [h]) && !Foreign(h.event)
    requires i < |tenants| && h.who < |tenants| && h.who != i
    ensures Agree(Happen(s, h).documents, s.documents, tenants[i]) && Happen(s, h).locals[i] == s.locals[i]
  {
    assert KeepsTenant(s.locals[h.who].provider, tenants[h.who], [h][0].event);
    StepLocal(s.locals[h.who], tenants[h.who], h.event, s.documents, s.documents);
  }

  /** What a step of the system is to resource i, in a world that agrees with it on i's tenant. */
  lemma HappenProjects(s: System, tenants: seq<Text>, h: Happening, i: nat, docs: Documents)
    requires Apart(s, tenants) && EditsKeep(s, tenants, [h]) && i < |tenants| && Agree(s.documents, docs, tenants[i])
    ensures var s' := Happen(s, h);
      var w := World(s.locals[i], docs);
      var w' := if Foreign(h.event) || h.who == i then Step(w, h.event) else w;
      |s'.locals| == |s.locals| && s'.locals[i] == w'.local && Agree(s'.documents, w'.documents, tenants[i])
  {
    if Foreign(h.event) || h.who == i {
      assert Foreign(h.event) || KeepsTenant(s.locals[i].provider, tenants[i], [h][0].event);
    }
    if !Foreign(h.event) && h.who == i {
      StepLocal(s.locals[i], tenants[i], h.event, s.documents, docs);
    } else if !Foreign(h.event) && h.who < |tenants| {
      OtherStep(s, tenants, h, i);
    }
  }

  lemma ApartStep(s: System, tenants: seq<Text>, h: Happening, hs: seq<Happening>)
    requires Apart(s, tenants) && EditsKeep(s, tenants, [h] + hs)
    ensures EditsKeep(s, tenants, [h]) && Apart(Happen(s, h), tenants) && EditsKeep(Happen(s, h), tenants, hs)
  {
    assert ([h] + hs)[0] == h;
    assert forall n :: 0 <= n < |hs| ==> ([h] + hs)[n + 1] == hs[n];
    if !Foreign(h.event) && h.who < |tenants| {
      OnTenantStep(World(s.locals[h.who], s.documents), tenants[h.who], h.event);
    }
  }

  /** In any interleaving of resources of distinct tenants, each of them and its tenant's document go through
      the run they would have alone, in any world that starts out with the same document. */
  lemma {:induction false} AsIfAlone(s: System, tenants: seq<Text>, hs: seq<Happening>, i: nat, docs: Documents)
    requires Apart(s, tenants) && EditsKeep(s, tenants, hs) && i < |tenants| && Agree(s.documents, docs, tenants[i])
    ensures var s', alone := HappenAll(s, hs), Run(World(s.locals[i], docs), Project(hs, i));
      |s'.locals| == |s.locals| && s'.locals[i] == alone.local && Agree(s'.documents, alone.documents, tenants[i])
    decreases |hs|
  {
    if hs != [] {
      assert hs == [hs[0]] + hs[1..];
      ApartStep(s, tenants, hs[0], hs[1..]);
      HappenProjects(s, tenants, hs[0], i, docs);
      if Foreign(hs[0].event) || hs[0].who == i {
        AsIfAlone(Happen(s, hs[0]), tenants, hs[1..], i, Step(World(s.locals[i], docs), hs[0].event).documents);
        assert Project(hs, i)[1..] == Project(hs[1..], i);
      } else {
        AsIfAlone(Happen(s, hs[0]), tenants, hs[1..], i, docs);
      }
    }
  }

  predicate Unmade(l: Local) {
    l.phase.Idle? && !l.deleting && l.externalName == ""
  }

  /** Distinct tenants are needed: of two fresh resources of one tenant the later one's Create replaces the earlier
      one's document. The earlier one, if its organisation is not empty, takes it for its own and up to date; else it
      creates again and replaces it in turn. */
  lemma SharedTenant(a: Local, b: Local, tenant: Text, docs: Documents)
    requires Unmade(a) && OnTenant(a, tenant) && Unmade(b) && OnTenant(b, tenant)
    ensures var afterA := CleanPass(World(a, docs));
      var afterB := CleanPass(World(b, afterA.documents));
      var looks := Step(World(afterA.local, afterB.documents), Observe(L.Answered));
      && Stored(afterB.documents, tenant) == Some(T.Build(b.desired))
      && looks.local.phase == (if Org(a.provider, a.desired) != "" then Idle else Pending(L.Create, a.desired))
  {
  }
}
