/** Optional values: the JavaScript `undefined` that a lookup may produce. */
module Wrappers {

  datatype Option<+T> = None | Some(value: T)
}

/** Array helpers in the shape of JavaScript's `Array.prototype.filter`. */
module Seqs {

  /** Appending in two steps is appending the two parts at once. */
  lemma AppendAssociates<T>(a: seq<T>, b: seq<T>, c: seq<T>)
    ensures a + b + c == a + (b + c)
  {
  }

  /** The positions of the elements of `s` that satisfy `p`, in increasing order. */
  function FilterIndices<T>(s: seq<T>, p: T -> bool): (idx: seq<nat>)
    ensures forall k :: 0 <= k < |idx| ==> idx[k] < |s|
    ensures forall k, l :: 0 <= k < l < |idx| ==> idx[k] < idx[l]
    ensures forall i :: 0 <= i < |s| ==> (i in idx <==> p(s[i]))
    decreases |s|
  {
    if s == [] then []
    else FilterIndices(s[..|s| - 1], p) + (if p(s[|s| - 1]) then [|s| - 1] else [])
  }

  /**
   * `s.filter(p)`: the elements of `s` that satisfy `p`, each position once and in their
   * original order.
   */
  function Filter<T>(s: seq<T>, p: T -> bool): (r: seq<T>)
    ensures var idx := FilterIndices(s, p);
      |r| == |idx| && forall k :: 0 <= k < |idx| ==> r[k] == s[idx[k]]
    ensures forall x :: x in r ==> x in s && p(x)
    ensures forall x :: x in s && p(x) ==> x in r
    decreases |s|
  {
    if s == [] then []
    else
      var init := s[..|s| - 1];
      assert s == init + [s[|s| - 1]];
      Filter(init, p) + (if p(s[|s| - 1]) then [s[|s| - 1]] else [])
  }
}

/** Attribute values of a graphic, with the JavaScript comparisons the layer uses on them. */
module Values {
  import opened Wrappers

  /**
   * A JSON attribute value; `Undefined` is what reading an absent key yields. `Num` holds a
   * finite number: NaN attribute values are not represented.
   */
  datatype Value = Undefined | Null | Num(n: real) | Text(s: string) | Bool(b: bool)

  /** `attributes[field]`. */
  function Lookup(attributes: map<string, Value>, field: string): Value
  {
    if field in attributes then attributes[field] else Undefined
  }

  /** The number a relational comparison `<=` coerces a value to; `None` stands for NaN. */
  function ToNumber(v: Value): Option<real>
  {
    match v
    case Num(n) => Some(n)
    case Bool(b) => Some(if b then 1.0 else 0.0)
    case Null => Some(0.0)
    case Text(_) => None
    case Undefined => None
  }
}
