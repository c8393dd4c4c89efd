/** The generated deep copies, on the heap: values of the Go types as pointers, slices and maps make them. */
module DeepCopies {
  import opened Texts

  datatype Primitive = Flag(flag: bool) | Str(text: Text)

  /** A Go value: scalars and structs by value, the rest by reference, nil included. */
  datatype Value =
    | Plain(primitive: Primitive)
    | Ptr(cell: Cell?)
    | List(elements: array?<Value>)
    | Dict(table: Table?)
    | Struct(fields: seq<Value>)

  class Cell {
    var v: Value

    constructor (v: Value)
      ensures this.v == v
    {
      this.v := v;
    }
  }

  class Table {
    var m: map<Text, Text>

    constructor ()
      ensures m == map[]
    {
      m := map[];
    }
  }

  /** A Go type, as far as copying it goes. None of the API types contains itself. */
  datatype Shape =
    | Scalar
    | PtrTo(target: Shape)
    | ListOf(element: Shape)
    | Strings
    | Record(parts: seq<Shape>)

  /** A value of a type, all of whose reachable cells, arrays and tables are in a set. */
  ghost predicate Fits(v: Value, shape: Shape, R: set<object>)
    reads R
    decreases shape
  {
    match shape
    case Scalar => v.Plain?
    case PtrTo(t) => v.Ptr? && (v.cell != null ==> v.cell in R && Fits(v.cell.v, t, R))
    case ListOf(t) =>
      && v.List?
      && (v.elements != null ==> v.elements in R)
      && (v.elements != null ==> forall i :: 0 <= i < v.elements.Length ==> Fits(v.elements[i], t, R))
    case Strings => v.Dict? && (v.table != null ==> v.table in R)
    case Record(ts) =>
      v.Struct? && |v.fields| == |ts| && forall i :: 0 <= i < |ts| ==> Fits(v.fields[i], ts[i], R)
  }

  /** What a value looks like from outside: no identities, but nil and empty kept apart. */
  datatype Tree =
    | Leaf(primitive: Primitive)
    | Nil
    | Pointed(tree: Tree)
    | Listed(trees: seq<Tree>)
    | Entries(m: map<Text, Text>)
    | Node(trees: seq<Tree>)

  ghost function View(v: Value, shape: Shape, R: set<object>): Tree
    requires Fits(v, shape, R)
    reads R
    decreases shape, 1, 0
  {
    match shape
    case Scalar => Leaf(v.primitive)
    case PtrTo(t) => if v.cell == null then Nil else Pointed(View(v.cell.v, t, R))
    case ListOf(t) => if v.elements == null then Nil else Listed(ViewAll(v.elements[..], t, R))
    case Strings => if v.table == null then Nil else Entries(v.table.m)
    case Record(ts) => Node(ViewFields(v.fields, ts, R))
  }

  ghost function ViewAll(vs: seq<Value>, t: Shape, R: set<object>): (trees: seq<Tree>)
    requires forall i :: 0 <= i < |vs| ==> Fits(vs[i], t, R)
    reads R
    ensures |trees| == |vs| && forall i :: 0 <= i < |vs| ==> trees[i] == View(vs[i], t, R)
    decreases t, 2, |vs|
  {
    if vs == [] then [] else ViewAll(vs[..|vs| - 1], t, R) + [View(vs[|vs| - 1], t, R)]
  }

  ghost function ViewFields(vs: seq<Value>, ts: seq<Shape>, R: set<object>): (trees: seq<Tree>)
    requires |vs| == |ts| && forall i :: 0 <= i < |vs| ==> Fits(vs[i], ts[i], R)
    reads R
    ensures |trees| == |vs| && forall i :: 0 <= i < |vs| ==> trees[i] == View(vs[i], ts[i], R)
    decreases ts, 0, |vs|
  {
    if vs == [] then []
    else ViewFields(vs[..|vs| - 1], ts[..|ts| - 1], R) + [View(vs[|vs| - 1], ts[|ts| - 1], R)]
  }

  /** A larger set to look in shows the same. */
  lemma {:induction false} Enlarge(v: Value, shape: Shape, R: set<object>, R': set<object>)
    requires Fits(v, shape, R) && R <= R'
    ensures Fits(v, shape, R') && View(v, shape, R') == View(v, shape, R)
    decreases shape
  {
    match shape
    case Scalar =>
    case PtrTo(t) =>
      if v.cell != null {
        Enlarge(v.cell.v, t, R, R');
      }
    case ListOf(t) =>
      if v.elements != null {
        forall i | 0 <= i < v.elements.Length
          ensures Fits(v.elements[i], t, R') && View(v.elements[i], t, R') == View(v.elements[i], t, R)
        {
          Enlarge(v.elements[i], t, R, R');
        }
        assert ViewAll(v.elements[..], t, R') == ViewAll(v.elements[..], t, R);
      }
    case Strings =>
    case Record(ts) =>
      forall i | 0 <= i < |ts|
        ensures Fits(v.fields[i], ts[i], R') && View(v.fields[i], ts[i], R') == View(v.fields[i], ts[i], R)
      {
        Enlarge(v.fields[i], ts[i], R, R');
      }
      assert ViewFields(v.fields, ts, R') == ViewFields(v.fields, ts, R);
  }

  /** The map loop: every entry, in whatever order. */
  method CopyTable(from: Table) returns (out: Table)
    ensures fresh(out) && out.m == from.m
  {
    out := new Table();
    var rest := from.m.Keys;
    while rest != {}
      invariant rest <= from.m.Keys
      invariant out.m == from.m - rest
      decreases rest
    {
      var key :| key in rest;
      assert from.m - (rest - {key}) == (from.m - rest)[key := from.m[key]];
      out.m := out.m[key := from.m[key]];
      rest := rest - {key};
    }
  }

  /** DeepCopyInto, as generated for a type: a shallow copy first, then a new target for every pointer, slice
      and map that is not nil. The copy looks the same, and all of it is new. */
  method DeepCopy(shape: Shape, v: Value, ghost R: set<object>) returns (out: Value, ghost R': set<object>)
    requires Fits(v, shape, R)
    ensures fresh(R') && Fits(out, shape, R')
    ensures View(out, shape, R') == View(v, shape, R)
    decreases shape, 0
  {
    out := v;
    R' := {};
    match shape
    case Scalar =>
    case PtrTo(t) =>
      if v.cell != null {
        var target, R1 := DeepCopy(t, v.cell.v, R);
        var cell := new Cell(target);
        out := Ptr(cell);
        R' := R1 + {cell};
        Enlarge(target, t, R1, R');
      }
    case ListOf(t) =>
      if v.elements != null {
        var elements, R1 := CopyElements(t, v.elements, R);
        out := List(elements);
        R' := R1 + {elements};
        AllCopied(v.elements[..], elements[..], t, R, R1, R');
      }
    case Strings =>
      if v.table != null {
        var table := CopyTable(v.table);
        out := Dict(table);
        R' := {table};
      }
    case Record(ts) =>
      var fields, R1 := CopyFields(ts, v.fields, R);
      out := Struct(fields);
      R' := R1;
      assert ViewFields(fields, ts, R') == ViewFields(v.fields, ts, R);
  }

  /** out is a copy of what from is, as values of a type: it looks the same, and R' holds all it is made of. */
  ghost predicate Copied(from: Value, out: Value, t: Shape, R: set<object>, R': set<object>)
    reads R, R'
  {
    Fits(from, t, R) && Fits(out, t, R') && View(out, t, R') == View(from, t, R)
  }

  lemma CopiedWithin(from: Value, out: Value, t: Shape, R: set<object>, R1: set<object>, R': set<object>)
    requires Copied(from, out, t, R, R1) && R1 <= R'
    ensures Copied(from, out, t, R, R')
  {
    Enlarge(out, t, R1, R');
  }

  ghost predicate AllFit(vs: seq<Value>, t: Shape, R: set<object>)
    reads R
  {
    forall i :: 0 <= i < |vs| ==> Fits(vs[i], t, R)
  }

  /** The first n elements are copied. */
  ghost predicate FirstCopied(from: seq<Value>, out: seq<Value>, n: nat, t: Shape, R: set<object>, R': set<object>)
    reads R, R'
  {
    n <= |from| == |out| && forall i :: 0 <= i < n ==> Copied(from[i], out[i], t, R, R')
  }

  lemma OneMoreCopied(from: seq<Value>, out: seq<Value>, n: nat, element: Value, t: Shape,
                      R: set<object>, R1: set<object>, R': set<object>)
    requires FirstCopied(from, out, n, t, R, R') && n < |from| && Copied(from[n], element, t, R, R1)
    ensures FirstCopied(from, out[n := element], n + 1, t, R, R' + R1)
  {
    forall i | 0 <= i < n + 1
      ensures Copied(from[i], out[n := element][i], t, R, R' + R1)
    {
      if i < n {
        CopiedWithin(from[i], out[i], t, R, R', R' + R1);
      } else {
        CopiedWithin(from[n], element, t, R, R1, R' + R1);
      }
    }
  }

  /** All elements are copied, and a slice made of the copies looks the same. */
  lemma AllCopied(from: seq<Value>, out: seq<Value>, t: Shape, R: set<object>, R1: set<object>, R': set<object>)
    requires FirstCopied(from, out, |from|, t, R, R1) && R1 <= R'
    ensures forall i :: 0 <= i < |out| ==> Fits(out[i], t, R')
    ensures (forall i :: 0 <= i < |from| ==> Fits(from[i], t, R)) && ViewAll(out, t, R') == ViewAll(from, t, R)
  {
    forall i | 0 <= i < |from|
      ensures Copied(from[i], out[i], t, R, R')
    {
      CopiedWithin(from[i], out[i], t, R, R1, R');
    }
  }

  /** A copied element is stored in the new slice. */
  method StoreElement(ghost t: Shape, from: array<Value>, n: nat, element: Value, out: array<Value>,
                      ghost R: set<object>, ghost R1: set<object>, ghost R0: set<object>)
    returns (ghost R': set<object>)
    requires from in R && out !in R && out !in R0 && out !in R1 && n < from.Length
    requires FirstCopied(from[..], out[..], n, t, R, R0) && Copied(from[n], element, t, R, R1)
    modifies out
    ensures R' == R0 + R1 && FirstCopied(from[..], out[..], n + 1, t, R, R')
  {
    OneMoreCopied(from[..], out[..], n, element, t, R, R1, R0);
    ghost var copies := out[..][n := element];
    R' := R0 + R1;
    out[n] := element;
    assert out[..] == copies;
  }

  /** The loop's body: one more element is copied. */
  method CopyElement(t: Shape, from: array<Value>, n: nat, out: array<Value>, ghost R: set<object>,
                     ghost R0: set<object>)
    returns (ghost R': set<object>)
    requires from in R && out !in R && out !in R0 && n < from.Length
    requires Fits(from[n], t, R) && FirstCopied(from[..], out[..], n, t, R, R0)
    modifies out
    ensures fresh(R' - R0) && out !in R' && FirstCopied(from[..], out[..], n + 1, t, R, R')
    decreases t, 1
  {
    var element, R1 := DeepCopy(t, from[n], R);
    R' := StoreElement(t, from, n, element, out, R, R1, R0);
  }

  /** The element loop of a slice of structs (or the built-in copy, for a slice of strings). */
  method CopyElements(t: Shape, from: array<Value>, ghost R: set<object>)
    returns (out: array<Value>, ghost R': set<object>)
    requires from in R && AllFit(from[..], t, R)
    ensures fresh(out) && fresh(R') && out !in R' && FirstCopied(from[..], out[..], from.Length, t, R, R')
    decreases t, 2
  {
    out := new Value[from.Length];
    R' := {};
    for n := 0 to from.Length
      invariant fresh(R') && out !in R' && AllFit(from[..], t, R)
      invariant FirstCopied(from[..], out[..], n, t, R, R')
    {
      R' := CopyElement(t, from, n, out, R, R');
    }
  }

  /** The first n fields are copied, the others still shared. */
  ghost predicate FieldsCopied(from: seq<Value>, out: seq<Value>, n: nat, ts: seq<Shape>, R: set<object>,
                               R': set<object>)
    reads R, R'
  {
    && n <= |from| == |out| == |ts|
    && (forall i :: 0 <= i < n ==> Copied(from[i], out[i], ts[i], R, R'))
    && (forall i :: n <= i < |ts| ==> out[i] == from[i])
  }

  lemma OneMoreField(from: seq<Value>, out: seq<Value>, n: nat, field: Value, ts: seq<Shape>,
                     R: set<object>, R1: set<object>, R': set<object>)
    requires FieldsCopied(from, out, n, ts, R, R') && n < |from| && Copied(from[n], field, ts[n], R, R1)
    ensures FieldsCopied(from, out[n := field], n + 1, ts, R, R' + R1)
  {
    forall i | 0 <= i < n + 1
      ensures Copied(from[i], out[n := field][i], ts[i], R, R' + R1)
    {
      if i < n {
        CopiedWithin(from[i], out[i], ts[i], R, R', R' + R1);
      } else {
        CopiedWithin(from[n], field, ts[n], R, R1, R' + R1);
      }
    }
  }

  /** The fields of a struct, one after the other over its shallow copy. */
  method CopyFields(ts: seq<Shape>, from: seq<Value>, ghost R: set<object>)
    returns (out: seq<Value>, ghost R': set<object>)
    requires |from| == |ts| && forall i :: 0 <= i < |ts| ==> Fits(from[i], ts[i], R)
    ensures fresh(R') && FieldsCopied(from, out, |ts|, ts, R, R')
    decreases ts, 0
  {
    out := from;
    R' := {};
    for n := 0 to |ts|
      invariant fresh(R') && FieldsCopied(from, out, n, ts, R, R')
    {
      var field, R1 := DeepCopy(ts[n], from[n], R);
      OneMoreField(from, out, n, field, ts, R, R1, R');
      out := out[n := field];
      R' := R' + R1;
    }
  }

  /** Any later mutation of these objects: callers know of no more than which objects it may change. */
  method Mutate(ghost R: set<object>)
    modifies R
  {
  }

  /** A copy shows what the original showed when it was made, however the original is changed afterwards. */
  method CopyOutlivesOriginal(shape: Shape, v: Value, ghost R: set<object>) returns (out: Value, ghost R': set<object>)
    requires Fits(v, shape, R)
    modifies R
    ensures fresh(R') && Fits(out, shape, R') && View(out, shape, R') == old(View(v, shape, R))
  {
    out, R' := DeepCopy(shape, v, R);
    Mutate(R);
  }

  /** And the original shows what it showed, however the copy is changed afterwards. */
  method OriginalOutlivesCopy(shape: Shape, v: Value, ghost R: set<object>)
    requires Fits(v, shape, R)
    ensures Fits(v, shape, R) && View(v, shape, R) == old(View(v, shape, R))
  {
    var out, R' := DeepCopy(shape, v, R);
    Mutate(R');
  }

  // --------------------------------------------------------------------------------------------------
  // The API types of the Alertmanager configuration, field by field in the order of their declaration

  const STR_PTR := PtrTo(Scalar)
  const BOOL_PTR := PtrTo(Scalar)
  const STR_LIST := ListOf(Scalar)
  const SECRET_REF := PtrTo(Record([Scalar, Scalar, Scalar]))

  const GLOBAL_CONFIG :=
    Record([STR_PTR, STR_PTR, STR_PTR, STR_PTR, SECRET_REF, STR_PTR, BOOL_PTR, SECRET_REF, STR_PTR, STR_PTR,
            SECRET_REF])
  const CHILD_ROUTE_CONFIG :=
    Record([STR_PTR, STR_LIST, STR_PTR, STR_PTR, STR_PTR, BOOL_PTR, STR_LIST, STR_LIST, STR_LIST])
  const ROUTE_CONFIG :=
    Record([STR_PTR, STR_LIST, STR_PTR, STR_PTR, STR_PTR, BOOL_PTR, STR_LIST, STR_LIST, STR_LIST,
            ListOf(CHILD_ROUTE_CONFIG)])
  const EMAIL_CONFIG_SPEC :=
    Record([STR_PTR, STR_PTR, STR_PTR, STR_PTR, SECRET_REF, STR_PTR, STR_PTR, BOOL_PTR, BOOL_PTR])
  const SLACK_CONFIG_SPEC := Record([SECRET_REF, STR_PTR, STR_PTR, STR_PTR, STR_PTR, STR_PTR, STR_PTR, BOOL_PTR])
  const PAGERDUTY_CONFIG_SPEC := Record([SECRET_REF, SECRET_REF, STR_PTR, STR_PTR, STR_PTR, BOOL_PTR])
  const HTTP_BASIC_AUTH_SPEC := Record([STR_PTR, SECRET_REF])
  const HTTP_CONFIG_SPEC := Record([PtrTo(HTTP_BASIC_AUTH_SPEC), SECRET_REF])
  const WEBHOOK_CONFIG_SPEC := Record([STR_PTR, BOOL_PTR, PtrTo(HTTP_CONFIG_SPEC)])
  const OPS_GENIE_CONFIG_SPEC := Record([SECRET_REF, STR_PTR, STR_PTR, STR_PTR, BOOL_PTR])
  const RECEIVER_CONFIG :=
    Record([Scalar, ListOf(EMAIL_CONFIG_SPEC), ListOf(SLACK_CONFIG_SPEC), ListOf(PAGERDUTY_CONFIG_SPEC),
                                   ListOf(WEBHOOK_CONFIG_SPEC), ListOf(OPS_GENIE_CONFIG_SPEC)])
  const INHIBIT_RULE_CONFIG := Record([STR_LIST, STR_LIST, STR_LIST])
  const TIME_RANGE_SPEC := Record([STR_PTR, STR_PTR])
  const TIME_INTERVAL_SPEC := Record([ListOf(TIME_RANGE_SPEC), STR_LIST, STR_LIST, STR_LIST, STR_LIST])
  const TIME_INTERVAL_CONFIG := Record([Scalar, ListOf(TIME_INTERVAL_SPEC)])
  const CONFIG_PARAMETERS := Record([STR_PTR, PtrTo(GLOBAL_CONFIG), PtrTo(ROUTE_CONFIG), ListOf(RECEIVER_CONFIG),
                                     ListOf(INHIBIT_RULE_CONFIG), ListOf(TIME_INTERVAL_CONFIG), STR_LIST, Strings])

  // --------------------------------------------------------------------------------------------------
  // What a view tells

  /** Two values of a type that look the same agree on every scalar, on what is nil, on every length and every map, and
      part by part on what looks the same. */
  lemma ViewsExactly(v: Value, v': Value, shape: Shape, R: set<object>, R': set<object>)
    requires Fits(v, shape, R) && Fits(v', shape, R')
    ensures shape.Scalar? ==> (View(v, shape, R) == View(v', shape, R') <==> v.primitive == v'.primitive)
    ensures shape.PtrTo? ==>
      (View(v, shape, R) == View(v', shape, R') <==>
        && (v.cell == null <==> v'.cell == null)
        && (v.cell != null && v'.cell != null ==> View(v.cell.v, shape.target, R) == View(v'.cell.v, shape.target, R')))
    ensures shape.ListOf? ==>
      (View(v, shape, R) == View(v', shape, R') <==>
        && (v.elements == null <==> v'.elements == null)
        && (v.elements != null && v'.elements != null ==>
              && v.elements.Length == v'.elements.Length
              && forall i :: 0 <= i < v.elements.Length ==>
                   View(v.elements[i], shape.element, R) == View(v'.elements[i], shape.element, R')))
    ensures shape.Strings? ==>
      (View(v, shape, R) == View(v', shape, R') <==>
        (v.table == null <==> v'.table == null) && (v.table != null && v'.table != null ==> v.table.m == v'.table.m))
    ensures shape.Record? ==>
      (View(v, shape, R) == View(v', shape, R') <==>
        forall i :: 0 <= i < |shape.parts| ==>
          View(v.fields[i], shape.parts[i], R) == View(v'.fields[i], shape.parts[i], R'))
  {
    match shape
    case ListOf(t) =>
      if v.elements != null && v'.elements != null {
        ViewsOfAll(v.elements[..], v'.elements[..], t, R, R');
      }
    case Record(ts) => ViewsOfFields(v.fields, v'.fields, ts, R, R');
    case _ =>
  }

  lemma ViewsOfAll(vs: seq<Value>, vs': seq<Value>, t: Shape, R: set<object>, R': set<object>)
    requires AllFit(vs, t, R) && AllFit(vs', t, R')
    ensures ViewAll(vs, t, R) == ViewAll(vs', t, R') <==>
      |vs| == |vs'| && forall i :: 0 <= i < |vs| ==> View(vs[i], t, R) == View(vs'[i], t, R')
  {
    if ViewAll(vs, t, R) == ViewAll(vs', t, R') {
      forall i | 0 <= i < |vs|
        ensures View(vs[i], t, R) == View(vs'[i], t, R')
      {
        assert ViewAll(vs, t, R)[i] == ViewAll(vs', t, R')[i];
      }
    }
  }

  lemma ViewsOfFields(vs: seq<Value>, vs': seq<Value>, ts: seq<Shape>, R: set<object>, R': set<object>)
    requires |vs| == |vs'| == |ts|
    requires forall i :: 0 <= i < |ts| ==> Fits(vs[i], ts[i], R) && Fits(vs'[i], ts[i], R')
    ensures ViewFields(vs, ts, R) == ViewFields(vs', ts, R') <==>
      forall i :: 0 <= i < |ts| ==> View(vs[i], ts[i], R) == View(vs'[i], ts[i], R')
  {
    if ViewFields(vs, ts, R) == ViewFields(vs', ts, R') {
      forall i | 0 <= i < |ts|
        ensures View(vs[i], ts[i], R) == View(vs'[i], ts[i], R')
      {
        assert ViewFields(vs, ts, R)[i] == ViewFields(vs', ts, R')[i];
      }
    }
  }

  /** A value of a type has the parts of the type, and they are all in the set. */
  lemma FitsExactly(v: Value, shape: Shape, R: set<object>)
    ensures shape.Scalar? ==> (Fits(v, shape, R) <==> v.Plain?)
    ensures shape.PtrTo? ==>
      (Fits(v, shape, R) <==> v.Ptr? && (v.cell == null || (v.cell in R && Fits(v.cell.v, shape.target, R))))
    ensures shape.ListOf? ==>
      (Fits(v, shape, R) <==>
        v.List? && (v.elements == null || (v.elements in R && AllFit(v.elements[..], shape.element, R))))
    ensures shape.Strings? ==> (Fits(v, shape, R) <==> v.Dict? && (v.table == null || v.table in R))
    ensures shape.Record? ==>
      (Fits(v, shape, R) <==>
        && v.Struct? && |v.fields| == |shape.parts|
        && forall i :: 0 <= i < |shape.parts| ==> Fits(v.fields[i], shape.parts[i], R))
  {
  }
}
