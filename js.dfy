/** JavaScript values and the few operations on ordinary objects that the
    plugin relies on: property read, truthiness, `??` and object spread.
    Objects live on Dafny's heap, so object identity (`===` on objects) is
    reference equality of `JsObject`s. */
module Js {

  /** A JavaScript value. Numbers are mathematical integers here.
      `Builtin(name)` stands for the value of the member `name` that every
      ordinary object inherits from Object.prototype (a function, or for
      `__proto__` the prototype object itself); each of them is an object. */
  datatype Value =
    | Undefined
    | Null
    | Bool(b: bool)
    | Num(n: int)
    | Str(s: string)
    | Ref(obj: JsObject)
    | Builtin(name: string)

  /** An ordinary object whose prototype is Object.prototype. `props` holds its
      own enumerable string-keyed data properties. */
  class JsObject {
    var props: map<string, Value>

    constructor (props: map<string, Value>)
      ensures this.props == props
    {
      this.props := props;
    }

    /** `o[key] = v`. The key `__proto__` is excluded: assigning it runs the
        setter inherited from Object.prototype, which replaces the object's
        prototype instead of creating an own property. */
    method Set(key: string, v: Value)
      requires key != "__proto__"
      modifies this
      ensures props == old(props)[key := v]
    {
      props := props[key := v];
    }

    /** `delete o[key]` */
    method Delete(key: string)
      modifies this
      ensures props == old(props) - {key}
    {
      props := props - {key};
    }
  }

  /** The two kinds of thrown error the model distinguishes: the designed
      "not found" error and the engine's TypeError on a read from null or
      undefined. */
  datatype Error = NotFound(message: string) | TypeError(message: string)

  /** A value, or the error a JavaScript `throw` would have raised. */
  datatype Result<+T> = Ok(value: T) | Err(error: Error) {
    predicate IsFailure() {
      Err?
    }

    function PropagateFailure<U>(): Result<U>
      requires Err?
    {
      Err(error)
    }

    function Extract(): T
      requires Ok?
    {
      value
    }
  }

  datatype Option<+T> = None | Some(value: T)

  /** The objects whose state a read from `v` depends on. */
  function Footprint(v: Value): set<object> {
    if v.Ref? then {v.obj} else {}
  }

  /** ToBoolean (section 7.1.2 of ECMAScript 2024): `undefined`, `null`,
      `false`, `0` and `""` are falsy; every object is truthy. */
  predicate Truthy(v: Value) {
    match v
    case Undefined => false
    case Null => false
    case Bool(b) => b
    case Num(n) => n != 0
    case Str(s) => s != ""
    case Ref(_) => true
    case Builtin(_) => true
  }

  /** `null` or `undefined`, the values `??` replaces. */
  predicate Nullish(v: Value) {
    v.Undefined? || v.Null?
  }

  /** `v ?? d` */
  function Coalesce(v: Value, d: Value): Value {
    if Nullish(v) then d else v
  }

  /** The string-keyed members of Object.prototype (section 20.1.3 of
      ECMAScript 2024, with the legacy accessors of its Annex B.2.2), which
      every ordinary object inherits. */
  const ObjectPrototypeMembers: set<string> := {
    "constructor", "hasOwnProperty", "isPrototypeOf", "propertyIsEnumerable",
    "toLocaleString", "toString", "valueOf", "__proto__",
    "__defineGetter__", "__defineSetter__", "__lookupGetter__", "__lookupSetter__"
  }

  /** What a read of `key` finds on Object.prototype when the object itself
      has no own property `key`. */
  function Inherited(key: string): Value {
    if key in ObjectPrototypeMembers then Builtin(key) else Undefined
  }

  /** The own property `key` of a property map, or `undefined`. */
  function OwnValue(props: map<string, Value>, key: string): Value {
    if key in props then props[key] else Undefined
  }

  /** The message V8 gives the TypeError of a property read on null or undefined. */
  function CannotReadMessage(receiver: Value, key: string): string
    requires Nullish(receiver)
  {
    "Cannot read properties of " + (if receiver.Null? then "null" else "undefined")
    + " (reading '" + key + "')"
  }

  /** `receiver[key]` as the language evaluates it: own property first, then
      Object.prototype; a TypeError on null and undefined. */
  function GetProperty(receiver: Value, key: string): Result<Value>
    reads Footprint(receiver)
  {
    match receiver
    case Undefined => Err(TypeError(CannotReadMessage(receiver, key)))
    case Null => Err(TypeError(CannotReadMessage(receiver, key)))
    case Ref(o) => Ok(if key in o.props then o.props[key] else Inherited(key))
    case _ => Ok(Inherited(key))
  }

  /** `Object.hasOwn(receiver, key) ? receiver[key] : undefined`: the read
      restricted to own properties. */
  function GetOwnProperty(receiver: Value, key: string): Result<Value>
    reads Footprint(receiver)
  {
    match receiver
    case Undefined => Err(TypeError(CannotReadMessage(receiver, key)))
    case Null => Err(TypeError(CannotReadMessage(receiver, key)))
    case Ref(o) => Ok(OwnValue(o.props, key))
    case _ => Ok(Undefined)
  }

  /** The properties `...v` contributes to an object literal: an object's own
      enumerable properties; nothing for null, undefined, booleans and numbers. */
  function SpreadProps(v: Value): map<string, Value>
    reads Footprint(v)
  {
    if v.Ref? then v.obj.props else map[]
  }
}
