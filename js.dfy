/** JavaScript values as the client code sees them: enough to state the
    truthiness tests (`if (x)`, `x ? a : b`, `!!x`) and property reads the
    client code performs. Numbers are integers; NaN is not represented. */
module Js {

  datatype JsValue =
    | Undefined
    | Null
    | Bool(b: bool)
    | Number(n: int)
    | Str(s: string)
    | Object(props: seq<(string, JsValue)>)
    | Array(items: seq<JsValue>)

  /** ECMAScript ToBoolean. */
  predicate Truthy(v: JsValue) {
    match v
    case Undefined => false
    case Null => false
    case Bool(b) => b
    case Number(n) => n != 0
    case Str(s) => s != ""
    case Object(_) => true
    case Array(_) => true
  }

  /** The first value stored under `key`, or `undefined`. */
  function Lookup(props: seq<(string, JsValue)>, key: string): (r: JsValue)
    ensures r != Undefined ==> exists i :: 0 <= i < |props| && props[i] == (key, r)
    ensures (forall i :: 0 <= i < |props| ==> props[i].0 != key) ==> r == Undefined
  {
    if props == [] then Undefined
    else if props[0].0 == key then props[0].1
    else Lookup(props[1..], key)
  }

  /** Property access `v.key` (also `v?.key`): only objects carry properties
      here; on any other value the read gives `undefined`. */
  function Get(v: JsValue, key: string): JsValue {
    match v
    case Object(props) => Lookup(props, key)
    case _ => Undefined
  }
}
