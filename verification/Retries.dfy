/** Repeated attempts at the same operation. */
module Retries {
  import opened Wrappers
  import opened Texts
  import opened ExternalNames
  import opened RuleGroups
  import opened Ruler
  import opened Lifecycle

  /** One more attempt at an action, decided on the present spec. */
  function Attempt(w: World, a: Action, o: Outcome): World {
    Step(w.(local := w.local.(phase := Pending(a, w.local.desired))), Write(o))
  }

  function Attempts(w: World, a: Action, os: seq<Outcome>): World
    decreases |os|
  {
    if os == [] then w else Attempts(Attempt(w, a, os[0]), a, os[1..])
  }

  /** The name a Create would use now. */
  function CreateName(w: World): Text {
    WriteName(w.local.desired, w.local.externalName, w.local.objectName, Create)
  }

  predicate Grows(w: World) {
    w.local.desired.GroupRecordingSpec? && '/' in Namespace(w.local.desired)
  }

  /** An attempt is absorbed by a later clean one, unless it persists a name that parses to a longer one. */
  lemma AttemptAbsorbed(w: World, a: Action, o: Outcome)
    requires !(a.Create? && o.Acked? && Grows(w))
    ensures Attempt(Attempt(w, a, o), a, Acked) == Attempt(w, a, Acked)
  {
    var l := w.local.(phase := Pending(a, w.local.desired));
    LegacyAgreement(Namespace(l.desired), if l.externalName == "" then l.objectName else l.externalName);
    SetTwice(w.store, WriteKey(l), Written(l));
  }

  lemma SetTwice(st: Store, k: Key, g: Option<RuleGroup>)
    ensures Set(Set(st, k, g), k, g) == Set(st, k, g)
  {
  }

  lemma GrowingAttempt(w: World, o: Outcome)
    requires Grows(w)
    ensures var w1 := Attempt(w, Create, o);
      && w1.local.desired == w.local.desired
      && |CreateName(w1)| >= |CreateName(w)|
      && (o.Acked? ==> |CreateName(w1)| > |CreateName(w)| &&
                       |w1.local.externalName| == |Namespace(w.local.desired)| + 1 + |CreateName(w)|)
  {
    var l := w.local;
    LegacyAgreement(Namespace(l.desired), if l.externalName == "" then l.objectName else l.externalName);
  }

  /** In a slashed namespace the legacy controller's persisted names only get longer. */
  lemma {:induction false} NamesGrow(w: World, os: seq<Outcome>)
    requires Grows(w)
    ensures var length := |Attempts(w, Create, os + [Acked]).local.externalName|;
      && length >= |Namespace(w.local.desired)| + 1 + |CreateName(w)|
      && (Acked in os ==> length > |Namespace(w.local.desired)| + 1 + |CreateName(w)|)
    decreases |os|
  {
    if os == [] {
      GrowingAttempt(w, Acked);
      assert (os + [Acked])[1..] == [];
    } else {
      GrowingAttempt(w, os[0]);
      assert (os + [Acked])[1..] == os[1..] + [Acked];
      NamesGrow(Attempt(w, Create, os[0]), os[1..]);
    }
  }

  /** Any attempts ending in a clean one leave the same store and annotation as the clean one alone; for a
      legacy Create in a slashed namespace, exactly if none of the earlier ones was persisted. */
  lemma {:induction false} RetriesExactly(w: World, a: Action, os: seq<Outcome>)
    ensures Attempts(w, a, os + [Acked]) == Attempt(w, a, Acked)
       <==> !(a.Create? && Acked in os && Grows(w))
    decreases |os|
  {
    if os == [] {
      assert (os + [Acked])[1..] == [];
    } else {
      assert (os + [Acked])[1..] == os[1..] + [Acked];
      var w1 := Attempt(w, a, os[0]);
      if a.Create? && Grows(w) && Acked in os {
        NamesGrow(w, os);
        GrowingAttempt(w, Acked);
      } else {
        RetriesExactly(w1, a, os[1..]);
        AttemptAbsorbed(w, a, os[0]);
      }
    }
  }
}
