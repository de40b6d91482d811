/** JavaScript values as the effect loop handles them: actions, what an
    effect resolves to, and the arguments handed to effect factories.
    Only the parts of JavaScript semantics the loop relies on are modelled:
    truthiness, `Array.prototype.concat` (which spreads an array argument
    exactly one level), `filter`, and `join`. */
module Values {

  /** A JavaScript value. An object is modelled by the one property the loop
      reads, its `type`, plus an opaque payload standing for the rest. */
  datatype Value =
    | Undefined
    | Null
    | Bool(b: bool)
    | Num(n: int)
    | Str(s: string)
    | Arr(items: seq<Value>)
    | Obj(actionType: string, payload: Value)

  /** JavaScript truthiness (NaN is not a value of this model). */
  predicate Truthy(v: Value) {
    match v
    case Undefined => false
    case Null => false
    case Bool(b) => b
    case Num(n) => n != 0
    case Str(s) => s != ""
    case Arr(_) => true
    case Obj(_, _) => true
  }

  /** `xs.concat(v)`: an array argument is spread one level, anything else
      is appended as a single element. */
  function Concat(xs: seq<Value>, v: Value): (r: seq<Value>)
    ensures |r| >= |xs| && r[..|xs|] == xs
    ensures !v.Arr? ==> r == xs + [v]
    ensures v.Arr? ==> r == xs + v.items
  {
    if v.Arr? then xs + v.items else xs + [v]
  }

  /** `[].concat(...vs)`: the one-level flattening of a list of values. Its
      elements are the values that are not arrays and the elements of those
      that are. */
  function Flatten(vs: seq<Value>): (r: seq<Value>)
    ensures forall x :: x in r <==> exists i :: 0 <= i < |vs| && x in Concat([], vs[i])
  {
    if vs == [] then [] else Concat([], vs[0]) + Flatten(vs[1..])
  }

  /** `xs.filter(a => a)`: the truthy elements of `xs`, in order. */
  function Compact(xs: seq<Value>): (r: seq<Value>)
  {
    if xs == [] then []
    else if Truthy(xs[0]) then [xs[0]] + Compact(xs[1..])
    else Compact(xs[1..])
  }

  /** What `[].concat(v).filter(a => a)` yields: a single value becomes a
      singleton, an array is kept as it is, and falsy entries are dropped.
      Every action it yields is truthy. */
  function Materialize(v: Value): (r: seq<Value>)
    ensures forall x :: x in r <==> x in Concat([], v) && Truthy(x)
  {
    CompactKeepsTruthy(Concat([], v));
    Compact(Concat([], v))
  }

  /** The text `String(v.type)` contributes to `Array.prototype.join`: the
      action type of an object, the empty string where `type` is absent. */
  function TypeName(v: Value): string
  {
    if v.Obj? then v.actionType else ""
  }

  /** `xs.map(a => a.type).join(sep)`. */
  function JoinTypes(xs: seq<Value>, sep: string): string
  {
    if xs == [] then ""
    else if |xs| == 1 then TypeName(xs[0])
    else TypeName(xs[0]) + sep + JoinTypes(xs[1..], sep)
  }

  /** Extending a list by one value extends its joined types by the
      separator and that value's type. */
  lemma {:induction false} JoinTypesSnoc(xs: seq<Value>, x: Value, sep: string)
    requires xs != []
    ensures JoinTypes(xs + [x], sep) == JoinTypes(xs, sep) + sep + TypeName(x)
  {
    if |xs| == 1 {
      assert (xs + [x])[1..] == [x];
    } else {
      assert (xs + [x])[1..] == xs[1..] + [x];
      JoinTypesSnoc(xs[1..], x, sep);
    }
  }

  /** Every value that `Compact` keeps is truthy, every truthy element is
      kept, and nothing else is added. */
  lemma {:induction false} CompactKeepsTruthy(xs: seq<Value>)
    ensures forall x :: x in Compact(xs) <==> x in xs && Truthy(x)
    ensures |Compact(xs)| <= |xs|
  {
    if xs != [] {
      CompactKeepsTruthy(xs[1..]);
      assert xs == [xs[0]] + xs[1..];
    }
  }

  /** Filtering distributes over concatenation. */
  lemma {:induction false} CompactAppend(xs: seq<Value>, ys: seq<Value>)
    ensures Compact(xs + ys) == Compact(xs) + Compact(ys)
  {
    if xs == [] {
      assert xs + ys == ys;
    } else {
      assert (xs + ys)[1..] == xs[1..] + ys;
      CompactAppend(xs[1..], ys);
    }
  }

  /** The materialised actions of a non-array value: the value itself when
      it is truthy, nothing otherwise; of an array: its truthy elements. */
  lemma MaterializeCases(v: Value)
    ensures !v.Arr? && Truthy(v) ==> Materialize(v) == [v]
    ensures !Truthy(v) ==> Materialize(v) == []
    ensures v.Arr? ==> Materialize(v) == Compact(v.items)
  {
    if v.Arr? {
      assert [] + v.items == v.items;
    } else {
      assert Concat([], v) == [v];
      assert [v][1..] == [];
      assert Compact([v]) == (if Truthy(v) then [v] + Compact([]) else Compact([]));
    }
  }

  /** The actions one value of a list contributes, concatenated over the
      list in order. */
  function MaterializeEach(vs: seq<Value>): seq<Value>
  {
    if vs == [] then [] else Materialize(vs[0]) + MaterializeEach(vs[1..])
  }

  /** Materialising a flattened list yields, in order, the actions each of
      its values would yield on its own. */
  lemma {:induction false} MaterializeFlatten(vs: seq<Value>)
    ensures Materialize(Arr(Flatten(vs))) == MaterializeEach(vs)
  {
    MaterializeCases(Arr(Flatten(vs)));
    if vs != [] {
      MaterializeFlatten(vs[1..]);
      MaterializeCases(Arr(Flatten(vs[1..])));
      CompactAppend(Concat([], vs[0]), Flatten(vs[1..]));
    }
  }
}
