/** The JavaScript values a request body or a parsed model reply can hold. */
module Js {
  import opened Wrappers

  /** A JSON value, plus `undefined` for a missing property.  JSON has no NaN or
      infinity, so a number is a real. */
  datatype Value =
    | Undefined
    | Null
    | Bool(b: bool)
    | Num(n: real)
    | Str(s: string)
    | Arr(items: seq<Value>)
    | Obj(fields: map<string, Value>)

  /** JavaScript truthiness: `undefined`, `null`, `false`, `0` and `""` are falsy. */
  predicate Truthy(v: Value) {
    match v
    case Undefined => false
    case Null => false
    case Bool(b) => b
    case Num(n) => n != 0.0
    case Str(s) => s != ""
    case _ => true
  }

  /** `v.key` (or a destructuring of `key`) for a key that is not a built-in property:
      `null` and `undefined` throw a TypeError, other non-objects give `undefined`. */
  function Get(v: Value, key: string): (r: Result<Value>)
    ensures r.Failure? <==> Nullish(v)
    ensures v.Obj? && key in v.fields ==> r == Success(v.fields[key])
    ensures v.Obj? && key !in v.fields ==> r == Success(Undefined)
    ensures !v.Obj? && r.Success? ==> r.value == Undefined
  {
    match v
    case Undefined => Failure("TypeError: Cannot read properties of undefined (reading '" + key + "')")
    case Null => Failure("TypeError: Cannot read properties of null (reading '" + key + "')")
    case Obj(fields) => Success(if key in fields then fields[key] else Undefined)
    case _ => Success(Undefined)
  }

  /** `items.map(t => t.key)`: the key of every item in order; throws on a `null` or `undefined` item. */
  function MapGet(items: seq<Value>, key: string): (r: Result<seq<Value>>)
    ensures r.Success? <==> forall i :: 0 <= i < |items| ==> !Nullish(items[i])
    ensures r.Success? ==> |r.value| == |items|
    ensures r.Success? ==> forall i :: 0 <= i < |items| ==> Get(items[i], key) == Success(r.value[i])
  {
    if items == [] then Success([])
    else
      match Get(items[0], key)
      case Failure(e) => Failure(e)
      case Success(v) =>
        match MapGet(items[1..], key)
        case Failure(e) => Failure(e)
        case Success(vs) =>
          assert forall i :: 1 <= i < |items| ==> items[i] == items[1..][i - 1];
          Success([v] + vs)
  }

  /** `null` or `undefined`, the values whose properties cannot be read. */
  predicate Nullish(v: Value) {
    v.Null? || v.Undefined?
  }

  /** `Number.isInteger(v)`. */
  predicate IsInteger(v: Value) {
    v.Num? && v.n.Floor as real == v.n
  }
}
