/** JavaScript values as the client code sees them: plain objects are maps
    from property names to values; `undefined` is a value of its own. */
module JsValue {

  datatype Value =
    | Undefined
    | Null
    | Bool(b: bool)
    | Num(n: int)
    | Str(s: string)
    | Arr(elems: seq<Value>)
    | Obj(fields: map<string, Value>)

  /** The own enumerable properties of a plain object. */
  type Object = map<string, Value>

  /** What a property read can throw. */
  datatype JsError = TypeError(key: string)

  /** The outcome of evaluating an expression: a value, or a thrown error. */
  datatype Result<+T> = Ok(value: T) | Throw(error: JsError)

  /** `undefined` for an omitted argument, or the value passed. */
  datatype Option<+T> = None | Some(value: T)

  /** `o.key` on an object: an absent property reads as `undefined`. */
  function Prop(o: Object, key: string): Value
  {
    if key in o then o[key] else Undefined
  }

  /** `v.key` on any value: reading a property of `undefined` or `null`
      throws a TypeError; other primitives and arrays have none of the
      properties this model reads. */
  function Get(v: Value, key: string): Result<Value>
  {
    match v
    case Undefined => Throw(TypeError(key))
    case Null => Throw(TypeError(key))
    case Obj(fields) => Ok(Prop(fields, key))
    case _ => Ok(Undefined)
  }

  /** True of the values whose properties cannot be read. */
  predicate IsNullish(v: Value)
  {
    v.Undefined? || v.Null?
  }
}
