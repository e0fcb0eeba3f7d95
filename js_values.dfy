/** The optional value used throughout the model: `None` stands for a JavaScript
    `undefined` (or `null`) where the TypeScript code only distinguishes "present" from "absent". */
module Options {
  datatype Option<+T> = None | Some(value: T) {
    function GetOr(default: T): T {
      match this
      case Some(v) => v
      case None => default
    }
  }
}

/** The JavaScript values that reach the controller widget from its form and from query
    result rows, with the three pieces of JavaScript semantics the widget relies on:
    truthiness (`x || y`, `x ? a : b`), `typeof`, and `Array.prototype.flat`. */
module JsValues {

  datatype JsValue =
    | Undefined
    | Null
    | Bool(b: bool)
    | Num(n: real)
    | NaN
    | Str(s: string)
    | Arr(items: seq<JsValue>)
    | Obj(fields: seq<(string, JsValue)>)

  /** JavaScript truthiness: `undefined`, `null`, `false`, `0`, `NaN` and `''` are falsy;
      every array and every object, empty or not, is truthy. */
  predicate Truthy(v: JsValue)
    ensures v.Arr? || v.Obj? ==> Truthy(v)
    ensures v.Undefined? || v.Null? || v.NaN? || v == Bool(false) || v == Num(0.0) || v == Str("") ==> !Truthy(v)
  {
    match v
    case Undefined => false
    case Null => false
    case Bool(b) => b
    case Num(n) => n != 0.0
    case NaN => false
    case Str(s) => s != ""
    case Arr(_) => true
    case Obj(_) => true
  }

  /** The `typeof` operator (`null` and arrays report "object"). */
  function TypeOf(v: JsValue): (t: string)
    ensures t == "object" <==> v.Null? || v.Arr? || v.Obj?
  {
    match v
    case Undefined => "undefined"
    case Null => "object"
    case Bool(_) => "boolean"
    case Num(_) => "number"
    case NaN => "number"
    case Str(_) => "string"
    case Arr(_) => "object"
    case Obj(_) => "object"
  }

  /** `a || b`: the first operand when it is truthy, the second otherwise. */
  function Or(a: JsValue, b: JsValue): (r: JsValue)
    ensures Truthy(a) ==> r == a
    ensures !Truthy(a) ==> r == b
  {
    if Truthy(a) then a else b
  }

  /** `xs?.[i]`: the element at `i`, or `undefined` past the end. */
  function At(xs: seq<JsValue>, i: nat): (r: JsValue)
    ensures i < |xs| ==> r == xs[i]
    ensures i >= |xs| ==> r == Undefined
  {
    if i < |xs| then xs[i] else Undefined
  }

  /** `xs.flat(depth)`: every array element met at nesting level below `depth` is replaced
      by its own (flattened) elements, in place; everything else is kept, in order. */
  function Flat(xs: seq<JsValue>, depth: nat): (r: seq<JsValue>)
    ensures depth == 0 ==> r == xs
    ensures (forall i :: 0 <= i < |xs| ==> !xs[i].Arr?) ==> r == xs
  {
    if xs == [] then []
    else (if xs[0].Arr? && depth > 0 then Flat(xs[0].items, depth - 1) else [xs[0]])
         + Flat(xs[1..], depth)
  }

  /** Reference definition: the scalars of a nested array, read left to right at any depth
      (what `flat(Infinity)` yields). Never contains an array. */
  function Leaves(xs: seq<JsValue>): (r: seq<JsValue>)
    ensures forall i :: 0 <= i < |r| ==> !r[i].Arr?
  {
    if xs == [] then []
    else (if xs[0].Arr? then Leaves(xs[0].items) else [xs[0]]) + Leaves(xs[1..])
  }

  /** No array is nested more than `depth` levels inside `xs`. */
  predicate NestedAtMost(xs: seq<JsValue>, depth: nat) {
    forall i :: 0 <= i < |xs| ==> (xs[i].Arr? ==> depth > 0 && NestedAtMost(xs[i].items, depth - 1))
  }

  lemma {:induction false} FlatAppend(a: seq<JsValue>, b: seq<JsValue>, depth: nat)
    ensures Flat(a + b, depth) == Flat(a, depth) + Flat(b, depth)
  {
    if a == [] {
      assert a + b == b;
    } else {
      assert (a + b)[0] == a[0];
      assert (a + b)[1..] == a[1..] + b;
      FlatAppend(a[1..], b, depth);
    }
  }

  lemma {:induction false} LeavesAppend(a: seq<JsValue>, b: seq<JsValue>)
    ensures Leaves(a + b) == Leaves(a) + Leaves(b)
  {
    if a == [] {
      assert a + b == b;
    } else {
      assert (a + b)[0] == a[0];
      assert (a + b)[1..] == a[1..] + b;
      LeavesAppend(a[1..], b);
    }
  }

  /** Flattening to any depth keeps every scalar, once each, in its original order:
      nothing is dropped, duplicated or reordered. */
  lemma {:induction false} FlatKeepsLeaves(xs: seq<JsValue>, depth: nat)
    ensures Leaves(Flat(xs, depth)) == Leaves(xs)
  {
    if xs != [] {
      var head := if xs[0].Arr? && depth > 0 then Flat(xs[0].items, depth - 1) else [xs[0]];
      LeavesAppend(head, Flat(xs[1..], depth));
      if xs[0].Arr? && depth > 0 {
        FlatKeepsLeaves(xs[0].items, depth - 1);
      } else {
        assert Leaves([xs[0]]) == (if xs[0].Arr? then Leaves(xs[0].items) else [xs[0]]) + Leaves([]);
      }
      FlatKeepsLeaves(xs[1..], depth);
    }
  }

  /** When the nesting is no deeper than `depth`, `flat(depth)` flattens completely. */
  lemma {:induction false} FlatCompletes(xs: seq<JsValue>, depth: nat)
    requires NestedAtMost(xs, depth)
    ensures Flat(xs, depth) == Leaves(xs)
  {
    if xs != [] {
      assert NestedAtMost(xs[1..], depth) by {
        forall i | 0 <= i < |xs[1..]| ensures xs[1..][i] == xs[i + 1] { }
      }
      FlatCompletes(xs[1..], depth);
      if xs[0].Arr? {
        FlatCompletes(xs[0].items, depth - 1);
      }
    }
  }
}
