/**
 * The JavaScript values the settings loader and `isBox` inspect: what
 * `JSON.parse` can return, plus `undefined` and function-valued properties.
 */
module JsValue {
  import opened Wrappers
  import opened ExtNum

  datatype Value =
    | Undefined
    | Null
    | Bool(b: bool)
    | Number(n: Num)
    | Str(s: string)
    | Arr(items: seq<Value>)
    | Object(props: map<string, Value>)
    | Function(name: string)

  /** Reading a property of `null` or `undefined` throws a TypeError. */
  datatype TypeError = TypeError(key: string)

  /**
   * `v.key` for the own-property keys this model reads: an object yields its
   * property or `undefined`; other non-null values carry none of these keys.
   */
  function Get(v: Value, key: string): (r: Result<Value, TypeError>)
    ensures r.Failure? <==> v == Null || v == Undefined
    ensures r.Success? && r.value != Undefined ==> v.Object? && key in v.props
  {
    match v
    case Null => Failure(TypeError(key))
    case Undefined => Failure(TypeError(key))
    case Object(props) => Success(if key in props then props[key] else Undefined)
    case _ => Success(Undefined)
  }

  /** `v?.key`: optional chaining yields `undefined` instead of throwing. */
  function GetOptional(v: Value, key: string): (r: Value)
    ensures r != Undefined ==> v.Object? && key in v.props && r == v.props[key]
  {
    match Get(v, key)
    case Success(x) => x
    case Failure(_) => Undefined
  }
}
