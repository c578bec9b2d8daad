/**
 * The slice of JavaScript's value semantics the wrapper relies on: truthiness, `typeof ===
 * 'function'`, property reads (which throw a TypeError on `undefined` and `null`) and object
 * spread. Objects are plain records of own properties; prototypes are not modelled.
 */
module Js {
  import opened Patterns

  datatype Option<T> = None | Some(value: T)

  /** The two errors the wrapper can raise: its own compatibility error, and a TypeError. */
  datatype JsError = IncompatibleNextVersion | TypeError

  datatype Result<T> = Ok(value: T) | Err(error: JsError)

  datatype Value =
    | Undefined
    | Null
    | Bool(b: bool)
    | Num(n: int)
    | Str(s: string)
    | RegExp(pattern: Pattern)
    | Obj(fields: map<string, Value>)
    | Fn(id: nat)                              // a function the caller wrote; its code is not modelled
    | WebpackHook(wrapped: map<string, Value>) // the `webpack` closure this wrapper returns around a config

  predicate Nullish(v: Value) {
    v.Undefined? || v.Null?
  }

  /** The value counts as true in an `if` or `? :` test. */
  predicate Truthy(v: Value) {
    match v
    case Undefined => false
    case Null => false
    case Bool(b) => b
    case Num(n) => n != 0
    case Str(s) => s != ""
    case _ => true
  }

  /** `typeof v === 'function'` */
  predicate IsFunction(v: Value) {
    v.Fn? || v.WebpackHook?
  }

  /** The own property `key` of `v`, `undefined` when there is none. */
  function Field(v: Value, key: string): Value {
    if v.Obj? && key in v.fields then v.fields[key] else Undefined
  }

  /** `v.key`: reading a property of `undefined` or `null` throws. */
  function Get(v: Value, key: string): (r: Result<Value>)
    ensures r.Err? <==> Nullish(v)
    ensures r.Err? ==> r.error == TypeError
    ensures r.Ok? ==> r.value == Field(v, key)
  {
    if Nullish(v) then Err(TypeError) else Ok(Field(v, key))
  }

  /** The own properties `{...v}` copies; spreading `undefined`, `null` or a non-object copies none. */
  function Spread(v: Value): (m: map<string, Value>)
    ensures forall key :: key in m ==> m[key] == Field(v, key)
    ensures forall key :: key !in m ==> Field(v, key) == Undefined
  {
    if v.Obj? then v.fields else map[]
  }
}
