/**
 * JavaScript values as the services receive them from a JSON body or an HTTP client, with
 * the property reads, index reads and truthiness tests the services apply to them. A read on
 * `undefined` or `null` throws a TypeError, which these functions report as `None`.
 */
module JsValue {
  import opened Common

  datatype Value =
    | Undefined
    | Null
    | Bool(b: bool)
    | Num(n: real)
    | Str(s: string)
    | Arr(items: seq<Value>)
    | Obj(fields: map<string, Value>)

  /** `if (v)`: false for undefined, null, false, 0 and the empty string. NaN is not a `Value`. */
  predicate IsTruthy(v: Value)
  {
    match v
    case Undefined => false
    case Null => false
    case Bool(b) => b
    case Num(n) => n != 0.0
    case Str(s) => s != ""
    case Arr(_) => true
    case Obj(_) => true
  }

  /** `v.key`: `None` when it throws, `Undefined` when the property is absent. */
  function Get(v: Value, key: string): (r: Option<Value>)
    ensures r.None? <==> v.Undefined? || v.Null?
    ensures v.Obj? && key in v.fields ==> r == Some(v.fields[key])
  {
    match v
    case Undefined => None
    case Null => None
    case Obj(m) => Some(if key in m then m[key] else Undefined)
    case Arr(items) => Some(if key == "length" then Num(|items| as real) else Undefined)
    case Str(s) => Some(if key == "length" then Num(|s| as real) else Undefined)
    case _ => Some(Undefined)
  }

  /** `v[i]`: array element, one-character string, or the object property named by `i`. */
  function At(v: Value, i: nat): (r: Option<Value>)
    ensures r.None? <==> v.Undefined? || v.Null?
    ensures v.Arr? && i < |v.items| ==> r == Some(v.items[i])
  {
    match v
    case Undefined => None
    case Null => None
    case Arr(items) => Some(if i < |items| then items[i] else Undefined)
    case Str(s) => Some(if i < |s| then Str([s[i]]) else Undefined)
    case Obj(m) => Some(if NatToString(i) in m then m[NatToString(i)] else Undefined)
    case _ => Some(Undefined)
  }

  /** `v?.key`: `undefined` instead of a TypeError when `v` is undefined or null. */
  function OptionalGet(v: Value, key: string): (r: Value)
    ensures v.Undefined? || v.Null? ==> r == Undefined
    ensures v.Obj? && key in v.fields ==> r == v.fields[key]
  {
    match Get(v, key)
    case None => Undefined
    case Some(w) => w
  }

  /**
   * `v > 0` for the operands the services compare: numbers and booleans. Other operands,
   * which JavaScript would first convert to a number, count as not positive.
   */
  predicate Positive(v: Value)
  {
    match v
    case Num(n) => n > 0.0
    case Bool(b) => b
    case _ => false
  }

  /** `a || b`. */
  function Or(a: Value, b: Value): (r: Value)
    ensures IsTruthy(a) ==> r == a
    ensures !IsTruthy(a) ==> r == b
  {
    if IsTruthy(a) then a else b
  }

  /** `o.key` on a value that may already have thrown. */
  function Field(o: Option<Value>, key: string): Option<Value>
  {
    if o.None? then None else Get(o.value, key)
  }

  /** `o[i]` on a value that may already have thrown. */
  function Index(o: Option<Value>, i: nat): Option<Value>
  {
    if o.None? then None else At(o.value, i)
  }
}
