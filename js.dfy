/** The few JavaScript value semantics the client relies on: `typeof`, truthiness,
    reading the `length` property, and completions (a value or a thrown exception). */
module Js {

  /** A JavaScript value, as far as the client can observe it.
      Numbers are modelled as integers; functions and symbols are not modelled. */
  datatype JsValue =
    | Undefined
    | Null
    | Bool(b: bool)
    | Num(n: int)
    | Str(s: string)
    | Arr(elems: seq<JsValue>)
    | Obj(props: map<string, JsValue>)
    | Err(name: string, message: string)   // an `Error` instance

  datatype Option<T> = None | Some(value: T)

  /** The completion of an expression: a normal value, or an exception thrown. */
  datatype Completion<T> = Normal(value: T) | Throw(exception: JsValue)

  /** The result of the `typeof` operator. */
  function TypeOf(v: JsValue): (t: string)
    ensures t in {"undefined", "object", "boolean", "number", "string"}
    ensures t == "string" <==> v.Str?
  {
    match v
    case Undefined => "undefined"
    case Null => "object"
    case Bool(_) => "boolean"
    case Num(_) => "number"
    case Str(_) => "string"
    case Arr(_) => "object"
    case Obj(_) => "object"
    case Err(_, _) => "object"
  }

  /** `null` and `undefined`: the two values whose properties cannot be read. */
  predicate Nullish(v: JsValue) {
    v.Undefined? || v.Null?
  }

  /** JavaScript truthiness, as tested by `if (v)`. */
  predicate Truthy(v: JsValue)
    ensures Truthy(v) <==> !(v.Undefined? || v.Null? || v == Bool(false) || v == Num(0) || v == Str(""))
  {
    match v
    case Undefined => false
    case Null => false
    case Bool(b) => b
    case Num(n) => n != 0
    case Str(s) => s != ""
    case Arr(_) => true
    case Obj(_) => true
    case Err(_, _) => true
  }

  /** The TypeError thrown when a property of `null` or `undefined` is read. */
  function CannotReadLength(v: JsValue): JsValue {
    Err("TypeError", "Cannot read property 'length' of " + (if v.Null? then "null" else "undefined"))
  }

  /** Evaluating `v.length`. Strings and arrays have a numeric length; a plain object
      has whatever its own `length` property holds (usually nothing, i.e. `undefined`);
      numbers, booleans and errors have none; `null` and `undefined` throw. */
  function LengthOf(v: JsValue): (r: Completion<JsValue>)
    ensures r.Throw? <==> Nullish(v)
    ensures r.Throw? ==> r.exception.Err? && r.exception.name == "TypeError"
    ensures r.Normal? && r.value.Num? ==> r.value.n >= 0 || v.Obj?
  {
    match v
    case Undefined => Throw(CannotReadLength(v))
    case Null => Throw(CannotReadLength(v))
    case Str(s) => Normal(Num(|s|))
    case Arr(elems) => Normal(Num(|elems|))
    case Obj(props) => Normal(if "length" in props then props["length"] else Undefined)
    case _ => Normal(Undefined)
  }
}
