/** The part of JavaScript's value semantics that the webhook handler relies
    on: JSON values as parsed by the body parser, truthiness, property reads
    (plain and optional-chained), `||` and `for...of`. */
module Js {
  import opened Wrappers

  /** A JavaScript value that can come out of a parsed JSON body.
      `Undefined` is what a read of a missing property yields. JSON has no NaN,
      so a number is a real. */
  datatype Value =
    | Undefined
    | Null
    | Bool(b: bool)
    | Num(n: real)
    | Str(s: string)
    | Arr(items: seq<Value>)
    | Obj(props: map<string, Value>)

  /** An exception thrown by the language itself. */
  datatype JsError = TypeError(message: string)

  predicate Nullish(v: Value) {
    v.Undefined? || v.Null?
  }

  /** `if (v)`: everything is truthy except undefined, null, false, 0 and "". */
  predicate Truthy(v: Value) {
    match v
    case Undefined => false
    case Null => false
    case Bool(b) => b
    case Num(n) => n != 0.0
    case Str(s) => s != ""
    case Arr(_) => true
    case Obj(_) => true
  }

  /** The own property `key` of a value that is not nullish, or undefined.
      Only meant for keys that no prototype defines: `email`,
      `changedRecords`, `id`, `changedFields`, `current`, `fields`, `Email`
      and the contract field name. */
  function Lookup(v: Value, key: string): Value {
    if v.Obj? && key in v.props then v.props[key] else Undefined
  }

  /** `v.key`: throws a TypeError when `v` is null or undefined. */
  function Get(v: Value, key: string): (r: Result<Value, JsError>)
    ensures r.Failure? <==> Nullish(v)
    ensures r.Success? ==> r.value == Lookup(v, key)
  {
    match v
    case Undefined => Failure(TypeError("Cannot read properties of undefined (reading '" + key + "')"))
    case Null => Failure(TypeError("Cannot read properties of null (reading '" + key + "')"))
    case _ => Success(Lookup(v, key))
  }

  /** `v?.[key]`: undefined, without throwing, when `v` is null or undefined. */
  function OptGet(v: Value, key: string): (r: Value)
    ensures Get(v, key).Success? ==> r == Get(v, key).value
    ensures Get(v, key).Failure? ==> r == Undefined
  {
    if Nullish(v) then Undefined else Lookup(v, key)
  }

  /** `a || b`: one of its operands, truthy when either is. */
  function Or(a: Value, b: Value): (r: Value)
    ensures r == a || r == b
    ensures Truthy(r) <==> Truthy(a) || Truthy(b)
  {
    if Truthy(a) then a else b
  }

  /** The elements `for (const x of v)` visits, or the TypeError it throws;
      `name` is the source text of `v`, which the error message quotes.
      A string is iterated one character at a time. */
  function Iterate(v: Value, name: string): (r: Result<seq<Value>, JsError>)
    ensures r.Success? <==> v.Arr? || v.Str?
    ensures v.Str? ==> r.Success? && |r.value| == |v.s|
                       && forall i :: 0 <= i < |v.s| ==> r.value[i] == Str([v.s[i]])
  {
    match v
    case Arr(items) => Success(items)
    case Str(s) => Success(seq(|s|, i requires 0 <= i < |s| => Str([s[i]])))
    case _ => Failure(TypeError(name + " is not iterable"))
  }

  const CannotConvert := "Cannot convert object to primitive value"

  /** `${v}` (ToString) does not throw. JSON gives no callable property, so
      an object with an own `toString` key has no usable `toString`, and its
      inherited `valueOf` returns the object itself: the conversion throws
      a TypeError with message `CannotConvert`. Any other object becomes
      "[object Object]". An array joins its elements, converting each one
      that is not null or undefined. */
  predicate Printable(v: Value)
    decreases v
  {
    match v
    case Obj(props) => "toString" !in props
    case Arr(items) => forall i :: 0 <= i < |items| ==> Printable(items[i])
    case _ => true
  }
}
