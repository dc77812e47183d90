/**
 * The JavaScript values the source reads out of request bodies and configuration
 * maps, with the language's truthiness, `||` and `String(...)`, and the
 * insertion-ordered string-keyed object that a submission's `data` is.
 */
module Js {
  import opened Wrappers
  import Strings

  /**
   * A scalar JSON value, numbers as unbounded integers. `None` of an
   * `Option<Value>` stands for `undefined`.
   */
  datatype Value = Str(s: string) | Num(n: int) | Bool(b: bool) | Null

  /** JavaScript truthiness: `undefined`, `null`, `false`, `0` and `""` are falsy. */
  predicate Truthy(v: Option<Value>)
  {
    match v
    case None => false
    case Some(Str(s)) => s != ""
    case Some(Num(n)) => n != 0
    case Some(Bool(b)) => b
    case Some(Null) => false
  }

  /** `a || b`: the left operand when it is truthy, the right one otherwise. */
  function Or(a: Option<Value>, b: Option<Value>): (r: Option<Value>)
    ensures Truthy(r) <==> Truthy(a) || Truthy(b)
    ensures r == a || r == b
  {
    if Truthy(a) then a else b
  }

  /** `String(v)`. */
  function ToString(v: Value): (r: string)
    ensures v.Str? ==> r == v.s
    ensures v.Bool? ==> r == (if v.b then "true" else "false")
    ensures v.Null? ==> r == "null"
    ensures v.Num? ==> |r| >= 1
  {
    match v
    case Str(s) => s
    case Num(n) => Strings.IntToString(n)
    case Bool(b) => if b then "true" else "false"
    case Null => "null"
  }

  /** A string-valued setting that may be unset (an environment variable, say). */
  function FromOptString(o: Option<string>): (r: Option<Value>)
    ensures r.Some? <==> o.Some?
    ensures o.Some? ==> r.value == Str(o.value)
  {
    match o
    case None => None
    case Some(s) => Some(Str(s))
  }

  /**
   * A Mongoose `Map`, or a plain object whose keys are not array indices:
   * entries in insertion order.
   */
  type Object = seq<(string, Value)>

  /** `Object.keys(obj)` / `map.keys()`, in insertion order. */
  function Keys(obj: Object): (r: seq<string>)
    ensures |r| == |obj|
    ensures forall i :: 0 <= i < |obj| ==> r[i] == obj[i].0
  {
    seq(|obj|, i requires 0 <= i < |obj| => obj[i].0)
  }

  /** Keys are unique, as they are in a JavaScript object. */
  predicate DistinctKeys(obj: Object)
  {
    forall i, j :: 0 <= i < j < |obj| ==> obj[i].0 != obj[j].0
  }

  /** `obj[key]` / `map.get(key)`: the value stored under `key`, or `undefined`. */
  function Get(obj: Object, key: string): (r: Option<Value>)
    ensures r.Some? <==> key in Keys(obj)
    ensures r.Some? ==> (key, r.value) in obj
    ensures DistinctKeys(obj) ==> forall i :: 0 <= i < |obj| && obj[i].0 == key ==> r == Some(obj[i].1)
  {
    if obj == [] then None
    else if obj[0].0 == key then Some(obj[0].1)
    else
      assert Keys(obj) == [obj[0].0] + Keys(obj[1..]);
      Get(obj[1..], key)
  }

  /** A configuration map lookup; the order of entries does not matter there. */
  function Lookup(m: map<string, Value>, key: string): (r: Option<Value>)
    ensures r.Some? <==> key in m
    ensures r.Some? ==> r.value == m[key]
  {
    if key in m then Some(m[key]) else None
  }
}
