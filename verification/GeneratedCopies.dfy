/** The generated DeepCopyInto methods of the main Alertmanager types, block by block. */
module GeneratedCopies {
  import opened DeepCopies

  // --------------------------------------------------------------------------------------------------
  // The types, field by field in the order of their declaration

  predicate IsPointer(t: Shape) {
    t.PtrTo? && t.target.Scalar?
  }

  predicate IsStrings(t: Shape) {
    t.ListOf? && t.element.Scalar?
  }

  predicate IsChildRouteConfig(t: Shape) {
    && t.Record? && |t.parts| == 9
    && IsPointer(t.parts[0]) // receiver
    && IsStrings(t.parts[1]) // groupBy
    && IsPointer(t.parts[2]) // groupWait
    && IsPointer(t.parts[3]) // groupInterval
    && IsPointer(t.parts[4]) // repeatInterval
    && IsPointer(t.parts[5]) // continue
    && IsStrings(t.parts[6]) // matchers
    && IsStrings(t.parts[7]) // muteTimeIntervals
    && IsStrings(t.parts[8]) // activeTimeIntervals
  }

  predicate IsRouteConfig(t: Shape) {
    && t.Record? && |t.parts| == 10
    && IsPointer(t.parts[0]) // receiver
    && IsStrings(t.parts[1]) // groupBy
    && IsPointer(t.parts[2]) // groupWait
    && IsPointer(t.parts[3]) // groupInterval
    && IsPointer(t.parts[4]) // repeatInterval
    && IsPointer(t.parts[5]) // continue
    && IsStrings(t.parts[6]) // matchers
    && IsStrings(t.parts[7]) // muteTimeIntervals
    && IsStrings(t.parts[8]) // activeTimeIntervals
    && t.parts[9].ListOf? && IsChildRouteConfig(t.parts[9].element) // childRoute
  }

  predicate IsTimeIntervalSpec(t: Shape) {
    && t.Record? && |t.parts| == 5
    && t.parts[0].ListOf? // times
    && IsStrings(t.parts[1]) // weekdays
    && IsStrings(t.parts[2]) // daysOfMonth
    && IsStrings(t.parts[3]) // months
    && IsStrings(t.parts[4]) // years
  }

  predicate IsTimeIntervalConfig(t: Shape) {
    && t.Record? && |t.parts| == 2
    && t.parts[0].Scalar? // name
    && t.parts[1].ListOf? && IsTimeIntervalSpec(t.parts[1].element) // timeIntervals
  }

  predicate IsReceiverConfig(t: Shape) {
    && t.Record? && |t.parts| == 6
    && t.parts[0].Scalar? // name
    && t.parts[1].ListOf? // emailConfigs
    && t.parts[2].ListOf? // slackConfigs
    && t.parts[3].ListOf? // pagerdutyConfigs
    && t.parts[4].ListOf? // webhookConfigs
    && t.parts[5].ListOf? // opsGenieConfigs
  }

  predicate IsConfigParameters(t: Shape) {
    && t.Record? && |t.parts| == 8
    && IsPointer(t.parts[0]) // orgID
    && t.parts[1].PtrTo? // global
    && t.parts[2].PtrTo? && IsRouteConfig(t.parts[2].target) // route
    && t.parts[3].ListOf? && IsReceiverConfig(t.parts[3].element) // receivers
    && t.parts[4].ListOf? // inhibitRules
    && t.parts[5].ListOf? && IsTimeIntervalConfig(t.parts[5].element) // timeIntervals
    && IsStrings(t.parts[6]) // templates
    && t.parts[7].Strings? // templatesFiles
  }

  /** The shapes of the types are of these forms. */
  lemma FormsOfTypes()
    ensures IsConfigParameters(CONFIG_PARAMETERS)
  {
    assert IsRouteConfig(ROUTE_CONFIG) && IsReceiverConfig(RECEIVER_CONFIG);
    assert IsTimeIntervalConfig(TIME_INTERVAL_CONFIG);
  }

  // --------------------------------------------------------------------------------------------------
  // Facts about single fields

  /** A pointer to a new target with the same value is a copy; so is nil. */
  lemma PointerCopied(from: Value, field: Value, t: Shape, R: set<object>, R1: set<object>)
    requires IsPointer(t) && Fits(from, t, R) && field.Ptr? && (from.cell == null <==> field.cell == null)
    requires field.cell != null ==> field.cell in R1 && field.cell.v == from.cell.v
    ensures Copied(from, field, t, R, R1)
  {
    if from.cell != null {
      assert Fits(from.cell.v, t.target, R);
      assert Fits(field.cell.v, t.target, R1) && View(field.cell.v, t.target, R1) == View(from.cell.v, t.target, R);
    }
  }

  /** A pointer to a new copy of its target is a copy. */
  lemma TargetCopied(field: Value, cell: Cell, t: Shape, R: set<object>, R1: set<object>, R': set<object>)
    requires t.PtrTo? && Fits(field, t, R) && field.cell != null && Copied(field.cell.v, cell.v, t.target, R, R1)
    requires R1 <= R' && cell in R'
    ensures Copied(field, Ptr(cell), t, R, R')
  {
    CopiedWithin(field.cell.v, cell.v, t.target, R, R1, R');
  }

  method PointTo(field: Value, target: Value, ghost t: Shape, ghost R: set<object>, ghost R1: set<object>)
    returns (copy: Value, ghost R': set<object>)
    requires t.PtrTo? && Fits(field, t, R) && field.cell != null && Copied(field.cell.v, target, t.target, R, R1)
    ensures fresh(R' - R1) && Copied(field, copy, t, R, R')
  {
    var cell := new Cell(target);
    copy, R' := Ptr(cell), R1 + {cell};
    TargetCopied(field, cell, t, R, R1, R');
  }

  /** A new slice of copies is a copy of the slice. */
  lemma ListCopied(field: Value, elements: array<Value>, t: Shape, R: set<object>, R1: set<object>, R': set<object>)
    requires Fits(field, ListOf(t), R) && field.elements != null
    requires FirstCopied(field.elements[..], elements[..], field.elements.Length, t, R, R1)
    requires R1 <= R' && elements in R'
    ensures Copied(field, List(elements), ListOf(t), R, R')
  {
    AllCopied(field.elements[..], elements[..], t, R, R1, R');
    assert Fits(List(elements), ListOf(t), R');
  }

  /** A struct whose fields are all copied is a copy. */
  lemma StructCopied(v: Value, fields: seq<Value>, ts: seq<Shape>, R: set<object>, R': set<object>)
    requires Fits(v, Record(ts), R) && FieldsCopied(v.fields, fields, |ts|, ts, R, R')
    ensures Copied(v, Struct(fields), Record(ts), R, R')
  {
    assert ViewFields(fields, ts, R') == ViewFields(v.fields, ts, R);
  }

  method CopyStrings(from: array<Value>, ghost R: set<object>) returns (out: array<Value>)
    requires from in R && AllFit(from[..], Scalar, R)
    ensures fresh(out) && Copied(List(from), List(out), STR_LIST, R, {out})
  {
    out := new Value[from.Length];
    forall i | 0 <= i < from.Length {
      out[i] := from[i];
    }
    assert out[..] == from[..];
    ListCopied(List(from), out, Scalar, R, {}, {out});
  }

  // --------------------------------------------------------------------------------------------------
  // The blocks

  /** The struct a DeepCopyInto writes through `out`. It starts as the shallow copy of `in`, and each block replaces
      one field by a copy of its own; a block left out, or put on another field, leaves a field shared, and At of the
      last field unproved. */
  class Out {
    var fields: seq<Value>
    const ts: seq<Shape>
    ghost const from: seq<Value>
    ghost const R: set<object>
    ghost var copied: set<object>

    /** The first n fields are copied, into new objects. */
    ghost predicate At(n: nat)
      reads this, R, copied
    {
      && this !in R && this !in copied
      && |from| == |ts| && (forall i :: 0 <= i < |ts| ==> Fits(from[i], ts[i], R))
      && FieldsCopied(from, fields, n, ts, R, copied)
    }

    constructor (v: Value, ts: seq<Shape>, ghost R: set<object>)
      requires Fits(v, Record(ts), R)
      ensures At(0) && copied == {} && this.ts == ts && this.from == v.fields && this.R == R
    {
      fields, this.ts, from, this.R, copied := v.fields, ts, v.fields, R, {};
    }

    method Replace(n: nat, field: Value, ghost R1: set<object>)
      requires At(n) && n < |ts| && Copied(from[n], field, ts[n], R, R1) && this !in R1
      modifies this
      ensures At(n + 1) && copied == old(copied) + R1
    {
      OneMoreField(from, fields, n, field, ts, R, R1, copied);
      fields, copied := fields[n := field], copied + R1;
    }

    /** *string, *bool: a new target with the old one's value. */
    method PointerBlock(n: nat)
      requires At(n) && n < |ts| && IsPointer(ts[n])
      modifies this
      ensures At(n + 1) && fresh(copied - old(copied))
    {
      var field := fields[n];
      ghost var R1: set<object> := {};
      if field.cell != null {
        var cell := new Cell(field.cell.v);
        field, R1 := Ptr(cell), {cell};
      }
      PointerCopied(from[n], field, ts[n], R, R1);
      Replace(n, field, R1);
    }

    /** []string: a new slice, filled by the built-in copy. */
    method StringsBlock(n: nat)
      requires At(n) && n < |ts| && IsStrings(ts[n])
      modifies this
      ensures At(n + 1) && fresh(copied - old(copied))
    {
      var field := fields[n];
      ghost var R1: set<object> := {};
      if field.elements != null {
        var strings := CopyStrings(field.elements, R);
        field, R1 := List(strings), {strings};
      }
      Replace(n, field, R1);
    }

    /** map[string]string: a new map, filled entry by entry. */
    method MapBlock(n: nat)
      requires At(n) && n < |ts| && ts[n].Strings?
      modifies this
      ensures At(n + 1) && fresh(copied - old(copied))
    {
      var field := fields[n];
      ghost var R1: set<object> := {};
      if field.table != null {
        var table := CopyTable(field.table);
        field, R1 := Dict(table), {table};
      }
      Replace(n, field, R1);
    }

    /** A pointer to, or a slice of, structs of a type that is not written out below. */
    method OtherBlock(n: nat)
      requires At(n) && n < |ts| && (ts[n].PtrTo? || ts[n].ListOf?)
      modifies this
      ensures At(n + 1) && fresh(copied - old(copied))
    {
      var field, R1 := DeepCopy(ts[n], fields[n], R);
      Replace(n, field, R1);
    }

    /** A field without references has no block: the shallow copy copied it. */
    method NoBlock(n: nat)
      requires At(n) && n < |ts| && ts[n].Scalar?
      modifies this
      ensures At(n + 1) && fresh(copied - old(copied))
    {
      Replace(n, fields[n], {});
    }

    // No method of the program corresponds to the next ones: they group the blocks of the types below, from field n on,
    // so that each proof has few of them to follow.

    method ThreePointers(n: nat)
      requires At(n) && n + 3 <= |ts|
      requires IsPointer(ts[n]) && IsPointer(ts[n + 1]) && IsPointer(ts[n + 2])
      modifies this
      ensures At(n + 3) && fresh(copied - old(copied))
    {
      PointerBlock(n);
      PointerBlock(n + 1);
      PointerBlock(n + 2);
    }

    method ThreeStrings(n: nat)
      requires At(n) && n + 3 <= |ts|
      requires IsStrings(ts[n]) && IsStrings(ts[n + 1]) && IsStrings(ts[n + 2])
      modifies this
      ensures At(n + 3) && fresh(copied - old(copied))
    {
      StringsBlock(n);
      StringsBlock(n + 1);
      StringsBlock(n + 2);
    }

    method TwoSlices(n: nat)
      requires At(n) && n + 2 <= |ts|
      requires ts[n].ListOf? && ts[n + 1].ListOf?
      modifies this
      ensures At(n + 2) && fresh(copied - old(copied))
    {
      OtherBlock(n);
      OtherBlock(n + 1);
    }

    method FourSlices(n: nat)
      requires At(n) && n + 4 <= |ts|
      requires ts[n].ListOf? && ts[n + 1].ListOf? && ts[n + 2].ListOf? && ts[n + 3].ListOf?
      modifies this
      ensures At(n + 4) && fresh(copied - old(copied))
    {
      TwoSlices(n);
      TwoSlices(n + 2);
    }

    method RouteHead(n: nat)
      requires At(n) && n + 3 <= |ts|
      requires IsPointer(ts[n]) && IsStrings(ts[n + 1]) && IsPointer(ts[n + 2])
      modifies this
      ensures At(n + 3) && fresh(copied - old(copied))
    {
      PointerBlock(n);
      StringsBlock(n + 1);
      PointerBlock(n + 2);
    }

    method RouteTimings(n: nat)
      requires At(n) && n + 6 <= |ts|
      requires IsPointer(ts[n]) && IsStrings(ts[n + 1]) && IsPointer(ts[n + 2])
      requires IsPointer(ts[n + 3]) && IsPointer(ts[n + 4]) && IsPointer(ts[n + 5])
      modifies this
      ensures At(n + 6) && fresh(copied - old(copied))
    {
      RouteHead(n);
      ThreePointers(n + 3);
    }

    method RouteLists(n: nat)
      requires At(n) && n + 4 <= |ts|
      requires IsStrings(ts[n]) && IsStrings(ts[n + 1]) && IsStrings(ts[n + 2])
      requires ts[n + 3].ListOf? && IsChildRouteConfig(ts[n + 3].element)
      modifies this
      ensures At(n + 4) && fresh(copied - old(copied))
    {
      ThreeStrings(n);
      ChildRoutesBlock(n + 3);
    }

    method ParametersHead(n: nat)
      requires At(n) && n + 3 <= |ts|
      requires IsPointer(ts[n]) && ts[n + 1].PtrTo? && ts[n + 2].PtrTo? && IsRouteConfig(ts[n + 2].target)
      modifies this
      ensures At(n + 3) && fresh(copied - old(copied))
    {
      PointerBlock(n);
      OtherBlock(n + 1);
      RouteBlock(n + 2);
    }

    method ParametersLists(n: nat)
      requires At(n) && n + 3 <= |ts|
      requires ts[n].ListOf? && IsReceiverConfig(ts[n].element) && ts[n + 1].ListOf?
      requires ts[n + 2].ListOf? && IsTimeIntervalConfig(ts[n + 2].element)
      modifies this
      ensures At(n + 3) && fresh(copied - old(copied))
    {
      ReceiversBlock(n);
      OtherBlock(n + 1);
      TimeIntervalsBlock(n + 2);
    }

    method ParametersStructs(n: nat)
      requires At(n) && n + 6 <= |ts|
      requires IsPointer(ts[n]) && ts[n + 1].PtrTo? && ts[n + 2].PtrTo? && IsRouteConfig(ts[n + 2].target)
      requires ts[n + 3].ListOf? && IsReceiverConfig(ts[n + 3].element) && ts[n + 4].ListOf?
      requires ts[n + 5].ListOf? && IsTimeIntervalConfig(ts[n + 5].element)
      modifies this
      ensures At(n + 6) && fresh(copied - old(copied))
    {
      ParametersHead(n);
      ParametersLists(n + 3);
    }

    method ParametersTemplates(n: nat)
      requires At(n) && n + 2 <= |ts|
      requires IsStrings(ts[n]) && ts[n + 1].Strings?
      modifies this
      ensures At(n + 2) && fresh(copied - old(copied))
    {
      StringsBlock(n);
      MapBlock(n + 1);
    }

    method ChildRouteConfigBlocks()
      requires At(0) && IsChildRouteConfig(Record(ts))
      modifies this
      ensures At(|ts|) && fresh(copied - old(copied))
    {
      RouteTimings(0); // receiver, groupBy, groupWait, groupInterval, repeatInterval, continue
      ThreeStrings(6); // matchers, muteTimeIntervals, activeTimeIntervals
    }

    method RouteConfigBlocks()
      requires At(0) && IsRouteConfig(Record(ts))
      modifies this
      ensures At(|ts|) && fresh(copied - old(copied))
    {
      RouteTimings(0); // receiver, groupBy, groupWait, groupInterval, repeatInterval, continue
      RouteLists(6); // matchers, muteTimeIntervals, activeTimeIntervals, childRoute
    }

    method TimeIntervalSpecBlocks()
      requires At(0) && IsTimeIntervalSpec(Record(ts))
      modifies this
      ensures At(|ts|) && fresh(copied - old(copied))
    {
      OtherBlock(0); // times
      StringsBlock(1); // weekdays
      ThreeStrings(2); // daysOfMonth, months, years
    }

    method TimeIntervalConfigBlocks()
      requires At(0) && IsTimeIntervalConfig(Record(ts))
      modifies this
      ensures At(|ts|) && fresh(copied - old(copied))
    {
      NoBlock(0); // name
      TimeIntervalSpecsBlock(1); // timeIntervals
    }

    method ReceiverConfigBlocks()
      requires At(0) && IsReceiverConfig(Record(ts))
      modifies this
      ensures At(|ts|) && fresh(copied - old(copied))
    {
      NoBlock(0); // name
      FourSlices(1); // emailConfigs, slackConfigs, pagerdutyConfigs, webhookConfigs
      OtherBlock(5); // opsGenieConfigs
    }

    method ConfigParametersBlocks()
      requires At(0) && IsConfigParameters(Record(ts))
      modifies this
      ensures At(|ts|) && fresh(copied - old(copied))
    {
      ParametersStructs(0); // orgID, global, route, receivers, inhibitRules, timeIntervals
      ParametersTemplates(6); // templates, templatesFiles
    }

    method RouteBlock(n: nat)
      requires At(n) && n < |ts| && ts[n].PtrTo? && IsRouteConfig(ts[n].target)
      modifies this
      ensures At(n + 1) && fresh(copied - old(copied))
    {
      var field := fields[n];
      ghost var R1: set<object> := {};
      if field.cell != null {
        var route, R2 := DeepCopyRouteConfig(ts[n].target, field.cell.v, R);
        field, R1 := PointTo(field, route, ts[n], R, R2);
      }
      Replace(n, field, R1);
    }

    method ChildRoutesBlock(n: nat)
      requires At(n) && n < |ts| && ts[n].ListOf? && IsChildRouteConfig(ts[n].element)
      modifies this
      ensures At(n + 1) && fresh(copied - old(copied))
    {
      var field := fields[n];
      ghost var R1: set<object> := {};
      if field.elements != null {
        var copies, R2 := CopyChildRoutes(ts[n].element, field.elements, R);
        R1 := R2 + {copies};
        ListCopied(field, copies, ts[n].element, R, R2, R1);
        field := List(copies);
      }
      Replace(n, field, R1);
    }

    method TimeIntervalSpecsBlock(n: nat)
      requires At(n) && n < |ts| && ts[n].ListOf? && IsTimeIntervalSpec(ts[n].element)
      modifies this
      ensures At(n + 1) && fresh(copied - old(copied))
    {
      var field := fields[n];
      ghost var R1: set<object> := {};
      if field.elements != null {
        var copies, R2 := CopyTimeIntervalSpecs(ts[n].element, field.elements, R);
        R1 := R2 + {copies};
        ListCopied(field, copies, ts[n].element, R, R2, R1);
        field := List(copies);
      }
      Replace(n, field, R1);
    }

    method TimeIntervalsBlock(n: nat)
      requires At(n) && n < |ts| && ts[n].ListOf? && IsTimeIntervalConfig(ts[n].element)
      modifies this
      ensures At(n + 1) && fresh(copied - old(copied))
    {
      var field := fields[n];
      ghost var R1: set<object> := {};
      if field.elements != null {
        var copies, R2 := CopyTimeIntervals(ts[n].element, field.elements, R);
        R1 := R2 + {copies};
        ListCopied(field, copies, ts[n].element, R, R2, R1);
        field := List(copies);
      }
      Replace(n, field, R1);
    }

    method ReceiversBlock(n: nat)
      requires At(n) && n < |ts| && ts[n].ListOf? && IsReceiverConfig(ts[n].element)
      modifies this
      ensures At(n + 1) && fresh(copied - old(copied))
    {
      var field := fields[n];
      ghost var R1: set<object> := {};
      if field.elements != null {
        var copies, R2 := CopyReceivers(ts[n].element, field.elements, R);
        R1 := R2 + {copies};
        ListCopied(field, copies, ts[n].element, R, R2, R1);
        field := List(copies);
      }
      Replace(n, field, R1);
    }
  }

  // --------------------------------------------------------------------------------------------------
  // The methods and the element loops
  //
  // The element loops are one text for each type, as they are in the generated code; what they share is StoreElement.

  method DeepCopyChildRouteConfig(t: Shape, v: Value, ghost R: set<object>) returns (copy: Value, ghost R': set<object>)
    requires IsChildRouteConfig(t) && Fits(v, t, R)
    ensures fresh(R') && Copied(v, copy, t, R, R')
  {
    var out := new Out(v, t.parts, R);
    out.ChildRouteConfigBlocks();
    StructCopied(v, out.fields, t.parts, R, out.copied);
    copy, R' := Struct(out.fields), out.copied;
  }

  method CopyChildRoutes(t: Shape, from: array<Value>, ghost R: set<object>)
    returns (out: array<Value>, ghost R': set<object>)
    requires IsChildRouteConfig(t) && from in R && AllFit(from[..], t, R)
    ensures fresh(out) && fresh(R') && out !in R' && FirstCopied(from[..], out[..], from.Length, t, R, R')
  {
    out := new Value[from.Length];
    R' := {};
    for i := 0 to from.Length
      invariant fresh(R') && out !in R' && AllFit(from[..], t, R)
      invariant FirstCopied(from[..], out[..], i, t, R, R')
    {
      R' := ChildRoutesElement(t, from, i, out, R, R');
    }
  }

  method ChildRoutesElement(t: Shape, from: array<Value>, n: nat, out: array<Value>, ghost R: set<object>,
                            ghost R0: set<object>)
    returns (ghost R': set<object>)
    requires IsChildRouteConfig(t) && from in R && out !in R && out !in R0 && n < from.Length
    requires Fits(from[n], t, R) && FirstCopied(from[..], out[..], n, t, R, R0)
    modifies out
    ensures fresh(R' - R0) && out !in R' && FirstCopied(from[..], out[..], n + 1, t, R, R')
  {
    var element, R1 := DeepCopyChildRouteConfig(t, from[n], R);
    R' := StoreElement(t, from, n, element, out, R, R1, R0);
  }

  method DeepCopyRouteConfig(t: Shape, v: Value, ghost R: set<object>) returns (copy: Value, ghost R': set<object>)
    requires IsRouteConfig(t) && Fits(v, t, R)
    ensures fresh(R') && Copied(v, copy, t, R, R')
  {
    var out := new Out(v, t.parts, R);
    out.RouteConfigBlocks();
    StructCopied(v, out.fields, t.parts, R, out.copied);
    copy, R' := Struct(out.fields), out.copied;
  }

  method DeepCopyTimeIntervalSpec(t: Shape, v: Value, ghost R: set<object>) returns (copy: Value, ghost R': set<object>)
    requires IsTimeIntervalSpec(t) && Fits(v, t, R)
    ensures fresh(R') && Copied(v, copy, t, R, R')
  {
    var out := new Out(v, t.parts, R);
    out.TimeIntervalSpecBlocks();
    StructCopied(v, out.fields, t.parts, R, out.copied);
    copy, R' := Struct(out.fields), out.copied;
  }

  method CopyTimeIntervalSpecs(t: Shape, from: array<Value>, ghost R: set<object>)
    returns (out: array<Value>, ghost R': set<object>)
    requires IsTimeIntervalSpec(t) && from in R && AllFit(from[..], t, R)
    ensures fresh(out) && fresh(R') && out !in R' && FirstCopied(from[..], out[..], from.Length, t, R, R')
  {
    out := new Value[from.Length];
    R' := {};
    for i := 0 to from.Length
      invariant fresh(R') && out !in R' && AllFit(from[..], t, R)
      invariant FirstCopied(from[..], out[..], i, t, R, R')
    {
      R' := TimeIntervalSpecsElement(t, from, i, out, R, R');
    }
  }

  method TimeIntervalSpecsElement(t: Shape, from: array<Value>, n: nat, out: array<Value>, ghost R: set<object>,
                                  ghost R0: set<object>)
    returns (ghost R': set<object>)
    requires IsTimeIntervalSpec(t) && from in R && out !in R && out !in R0 && n < from.Length
    requires Fits(from[n], t, R) && FirstCopied(from[..], out[..], n, t, R, R0)
    modifies out
    ensures fresh(R' - R0) && out !in R' && FirstCopied(from[..], out[..], n + 1, t, R, R')
  {
    var element, R1 := DeepCopyTimeIntervalSpec(t, from[n], R);
    R' := StoreElement(t, from, n, element, out, R, R1, R0);
  }

  method DeepCopyTimeIntervalConfig(t: Shape, v: Value, ghost R: set<object>)
    returns (copy: Value, ghost R': set<object>)
    requires IsTimeIntervalConfig(t) && Fits(v, t, R)
    ensures fresh(R') && Copied(v, copy, t, R, R')
  {
    var out := new Out(v, t.parts, R);
    out.TimeIntervalConfigBlocks();
    StructCopied(v, out.fields, t.parts, R, out.copied);
    copy, R' := Struct(out.fields), out.copied;
  }

  method CopyTimeIntervals(t: Shape, from: array<Value>, ghost R: set<object>)
    returns (out: array<Value>, ghost R': set<object>)
    requires IsTimeIntervalConfig(t) && from in R && AllFit(from[..], t, R)
    ensures fresh(out) && fresh(R') && out !in R' && FirstCopied(from[..], out[..], from.Length, t, R, R')
  {
    out := new Value[from.Length];
    R' := {};
    for i := 0 to from.Length
      invariant fresh(R') && out !in R' && AllFit(from[..], t, R)
      invariant FirstCopied(from[..], out[..], i, t, R, R')
    {
      R' := TimeIntervalsElement(t, from, i, out, R, R');
    }
  }

  method TimeIntervalsElement(t: Shape, from: array<Value>, n: nat, out: array<Value>, ghost R: set<object>,
                              ghost R0: set<object>)
    returns (ghost R': set<object>)
    requires IsTimeIntervalConfig(t) && from in R && out !in R && out !in R0 && n < from.Length
    requires Fits(from[n], t, R) && FirstCopied(from[..], out[..], n, t, R, R0)
    modifies out
    ensures fresh(R' - R0) && out !in R' && FirstCopied(from[..], out[..], n + 1, t, R, R')
  {
    var element, R1 := DeepCopyTimeIntervalConfig(t, from[n], R);
    R' := StoreElement(t, from, n, element, out, R, R1, R0);
  }

  method DeepCopyReceiverConfig(t: Shape, v: Value, ghost R: set<object>) returns (copy: Value, ghost R': set<object>)
    requires IsReceiverConfig(t) && Fits(v, t, R)
    ensures fresh(R') && Copied(v, copy, t, R, R')
  {
    var out := new Out(v, t.parts, R);
    out.ReceiverConfigBlocks();
    StructCopied(v, out.fields, t.parts, R, out.copied);
    copy, R' := Struct(out.fields), out.copied;
  }

  method CopyReceivers(t: Shape, from: array<Value>, ghost R: set<object>)
    returns (out: array<Value>, ghost R': set<object>)
    requires IsReceiverConfig(t) && from in R && AllFit(from[..], t, R)
    ensures fresh(out) && fresh(R') && out !in R' && FirstCopied(from[..], out[..], from.Length, t, R, R')
  {
    out := new Value[from.Length];
    R' := {};
    for i := 0 to from.Length
      invariant fresh(R') && out !in R' && AllFit(from[..], t, R)
      invariant FirstCopied(from[..], out[..], i, t, R, R')
    {
      R' := ReceiversElement(t, from, i, out, R, R');
    }
  }

  method ReceiversElement(t: Shape, from: array<Value>, n: nat, out: array<Value>, ghost R: set<object>,
                          ghost R0: set<object>)
    returns (ghost R': set<object>)
    requires IsReceiverConfig(t) && from in R && out !in R && out !in R0 && n < from.Length
    requires Fits(from[n], t, R) && FirstCopied(from[..], out[..], n, t, R, R0)
    modifies out
    ensures fresh(R' - R0) && out !in R' && FirstCopied(from[..], out[..], n + 1, t, R, R')
  {
    var element, R1 := DeepCopyReceiverConfig(t, from[n], R);
    R' := StoreElement(t, from, n, element, out, R, R1, R0);
  }

  method DeepCopyConfigParameters(t: Shape, v: Value, ghost R: set<object>) returns (copy: Value, ghost R': set<object>)
    requires IsConfigParameters(t) && Fits(v, t, R)
    ensures fresh(R') && Copied(v, copy, t, R, R')
  {
    var out := new Out(v, t.parts, R);
    out.ConfigParametersBlocks();
    StructCopied(v, out.fields, t.parts, R, out.copied);
    copy, R' := Struct(out.fields), out.copied;
  }

  // --------------------------------------------------------------------------------------------------
  // DeepCopy of a pointer to parameters

  /** DeepCopy: nil for nil, else a new struct that DeepCopyInto writes. */
  method DeepCopyPointer(t: Shape, params: Value, ghost R: set<object>) returns (out: Value, ghost R': set<object>)
    requires t.PtrTo? && IsConfigParameters(t.target) && Fits(params, t, R)
    ensures fresh(R') && Copied(params, out, t, R, R')
  {
    out, R' := params, {};
    if params.cell != null {
      var copy, R1 := DeepCopyConfigParameters(t.target, params.cell.v, R);
      out, R' := PointTo(params, copy, t, R, R1);
    }
  }

  /** For every graph of configuration parameters, the copy shows what the original showed when it was made, however
      the original is changed afterwards. */
  method ParametersOutliveOriginal(params: Value, ghost R: set<object>) returns (out: Value, ghost R': set<object>)
    requires Fits(params, PtrTo(CONFIG_PARAMETERS), R)
    modifies R
    ensures fresh(R') && Fits(out, PtrTo(CONFIG_PARAMETERS), R')
    ensures View(out, PtrTo(CONFIG_PARAMETERS), R') == old(View(params, PtrTo(CONFIG_PARAMETERS), R))
  {
    FormsOfTypes();
    out, R' := DeepCopyPointer(PtrTo(CONFIG_PARAMETERS), params, R);
    Mutate(R);
  }

  /** And the original shows what it showed, however the copy is changed afterwards. */
  method ParametersOutliveCopy(params: Value, ghost R: set<object>)
    requires Fits(params, PtrTo(CONFIG_PARAMETERS), R)
    ensures Fits(params, PtrTo(CONFIG_PARAMETERS), R)
    ensures View(params, PtrTo(CONFIG_PARAMETERS), R) == old(View(params, PtrTo(CONFIG_PARAMETERS), R))
  {
    FormsOfTypes();
    var out, R' := DeepCopyPointer(PtrTo(CONFIG_PARAMETERS), params, R);
    Mutate(R');
  }
}
