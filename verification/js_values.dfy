/**
  The JavaScript values that the logger passes to the console and that the response
  helpers inspect, together with the three JavaScript built-ins whose text the model
  does not spell out (`JSON.stringify`, string conversion and number conversion).
 */
module JsValues {
  import opened Optional

  /** What kind of object an object value is; it only matters to the serialiser. */
  datatype ObjectKind = PlainObject | ArrayObject | ErrorObject

  /**
    A JavaScript value. Numbers are integers here; objects are their own enumerable
    fields (property order and prototype chains are not part of the model).
   */
  datatype JsValue =
    | Undefined
    | Null
    | Bool(b: bool)
    | Num(n: int)
    | Str(s: string)
    | Object(kind: ObjectKind, fields: map<string, JsValue>)

  const EmptyObject: JsValue := Object(PlainObject, map[])

  /** JavaScript truthiness: `undefined`, `null`, `false`, `0` and `''` are falsy; every object is truthy. */
  predicate Truthy(v: JsValue)
  {
    match v
    case Undefined => false
    case Null => false
    case Bool(x) => x
    case Num(n) => n != 0
    case Str(s) => s != ""
    case Object(_, _) => true
  }

  /** `typeof v === 'object'`, which JavaScript also answers with true for `null`. */
  predicate TypeofObject(v: JsValue)
  {
    v.Null? || v.Object?
  }

  /** `null` or `undefined`: reading a property of either throws a TypeError. */
  predicate Nullish(v: JsValue)
  {
    v.Undefined? || v.Null?
  }

  /** JavaScript's `a || c`: the left operand when it is truthy, otherwise the right one. */
  function Or(a: JsValue, c: JsValue): (r: JsValue)
    ensures Truthy(a) ==> r == a
    ensures !Truthy(a) ==> r == c
    ensures Truthy(r) <==> Truthy(a) || Truthy(c)
  {
    if Truthy(a) then a else c
  }

  /**
    Reading `v.key` on a value that is not `null`/`undefined`; a missing field reads as `undefined`.
    Only the keys the response helpers read (`statusCode`, `body`) are meant: no primitive has
    them, so a primitive reads as `undefined`. Keys a string does carry, such as `length` or an
    index, are outside this model.
   */
  function Prop(v: JsValue, key: string): (r: JsValue)
    requires !Nullish(v)
    ensures !v.Object? ==> r == Undefined
  {
    if v.Object? && key in v.fields then v.fields[key] else Undefined
  }

  /** Assigning `v.key = x` on an object: that one field changes and no other. */
  function SetProp(v: JsValue, key: string, x: JsValue): (r: JsValue)
    requires v.Object?
    ensures r.Object? && r.kind == v.kind
    ensures Prop(r, key) == x
    ensures forall k :: k != key ==> Prop(r, k) == Prop(v, k)
    ensures r.fields.Keys == v.fields.Keys + {key}
  {
    Object(v.kind, v.fields[key := x])
  }

  /**
    The JavaScript built-ins the model leaves uninterpreted:
    `stringify(v, false)` is `JSON.stringify(v)`, `stringify(v, true)` is
    `JSON.stringify(v, null, 2)`; `toText(v)` is `String(v)` (or `v.toString()`) for a
    value that is not already a string; `toNumber(v)` is JavaScript's number conversion
    of a string or object, `None` standing for `NaN`.
   */
  datatype Builtins = Builtins(
    stringify: (JsValue, bool) -> string,
    toText: JsValue -> string,
    toNumber: JsValue -> Option<int>)

  /** `String(v)`: a string converts to itself, anything else as the runtime says. */
  function Text(b: Builtins, v: JsValue): (t: string)
    ensures v.Str? ==> t == v.s
  {
    if v.Str? then v.s else b.toText(v)
  }

  /** JavaScript's conversion of a value to a number, `None` standing for `NaN`. */
  function ToNumber(b: Builtins, v: JsValue): (r: Option<int>)
    ensures v.Num? ==> r == Some(v.n)
    ensures v.Bool? ==> r == Some(if v.b then 1 else 0)
    ensures v.Null? ==> r == Some(0)
    ensures v.Undefined? ==> r == None
  {
    match v
    case Undefined => None
    case Null => Some(0)
    case Bool(x) => Some(if x then 1 else 0)
    case Num(n) => Some(n)
    case _ => b.toNumber(v)
  }

  /** JavaScript's `v < bound` for a number `bound`: a comparison with `NaN` is false. */
  predicate LessThan(b: Builtins, v: JsValue, bound: int)
  {
    match ToNumber(b, v)
    case Some(n) => n < bound
    case None => false
  }
}
