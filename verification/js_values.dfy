/** The JavaScript values the client inspects: the destructured event name and data of a
    namespace event, the key id of a key event and the fields `t` and `d` of a decrypted
    event. */
module JsValues {
  import opened Wrappers

  /** A value produced by `JSON.parse`. Numbers are reals, so `-0` and `0` are one value,
      as they are for `Map` keys and for `===`. */
  datatype JsValue =
    | Undefined
    | Null
    | Bool(b: bool)
    | Number(n: real)
    | Str(s: string)
    | Array(items: seq<JsValue>)
    | Object(fields: map<string, JsValue>)

  /** JavaScript truthiness: `undefined`, `null`, `false`, `0` and `""` are falsy. */
  predicate Truthy(v: JsValue)
  {
    match v
    case Undefined => false
    case Null => false
    case Bool(b) => b
    case Number(n) => n != 0.0
    case Str(s) => s != ""
    case Array(_) => true
    case Object(_) => true
  }

  /** The property read `v.name` for a plain field name (not `length`, not an index).
      `None` is the TypeError thrown when `v` is `undefined` or `null`; every other
      value without an own field of that name yields `undefined`. */
  function Property(v: JsValue, name: string): (r: Option<JsValue>)
    ensures r.None? <==> v.Undefined? || v.Null?
    ensures r.Some? && v.Object? && name in v.fields ==> r.value == v.fields[name]
    ensures r.Some? && !(v.Object? && name in v.fields) ==> r.value == Undefined
  {
    match v
    case Undefined => None
    case Null => None
    case Object(fields) => Some(if name in fields then fields[name] else Undefined)
    case _ => Some(Undefined)
  }

  /** The array pattern `const [first, second] = v`: arrays yield their first two
      elements and strings their first two characters, `undefined` where there are
      fewer; every other value is not iterable and `None` is the TypeError. */
  function FirstTwo(v: JsValue): (r: Option<(JsValue, JsValue)>)
    ensures r.Some? <==> v.Array? || v.Str?
    ensures r.Some? && v.Array? && |v.items| >= 2 ==> r.value == (v.items[0], v.items[1])
    ensures r.Some? && v.Str? ==> r.value.0.Str? || r.value.0.Undefined?
  {
    match v
    case Array(items) =>
      Some((if |items| > 0 then items[0] else Undefined,
            if |items| > 1 then items[1] else Undefined))
    case Str(s) =>
      Some((if |s| > 0 then Str(s[..1]) else Undefined,
            if |s| > 1 then Str(s[1..2]) else Undefined))
    case _ => None
  }
}
