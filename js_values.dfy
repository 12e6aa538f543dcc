/** The slice of JavaScript value semantics the fan's signal listener relies on:
    the values JSON.parse produces, the outcome of JSON.parse on the text a
    signal carries, and what reading a property of such a value yields. */
module JsValues {

  datatype Option<+T> = None | Some(value: T)

  datatype Result<+T, +E> = Ok(value: T) | Err(error: E)

  /** The exceptions the listener can raise. */
  datatype ErrorKind =
    | SyntaxError   // JSON.parse rejected its argument
    | TypeError     // a property was read from null or undefined

  /** A value JSON.parse can yield. JSON numbers are doubles; the model keeps integers. */
  datatype JsValue =
    | Null
    | Bool(b: bool)
    | Num(n: int)
    | Str(s: string)
    | Arr(items: seq<JsValue>)
    | Obj(fields: map<string, JsValue>)

  /** A string field of a transport message, seen through JSON.parse. A field
      that is absent (undefined) is `None` of `Option<WireText>`. */
  datatype WireText =
    | Blank                  // the empty string: falsy, and JSON.parse rejects it
    | Garbled                // a non-empty string that is not JSON
    | Json(value: JsValue)   // a JSON text, given as the value JSON.parse yields

  /** The empty object literal `{}`. */
  const EmptyObject: JsValue := Obj(map[])

  /** JavaScript truthiness of a string field that may be undefined. */
  predicate Truthy(t: Option<WireText>)
  {
    t.Some? && !t.value.Blank?
  }

  /** `JSON.parse(t)`: undefined is turned into the text "undefined", which is
      not JSON, so only a JSON text parses. */
  function Parse(t: Option<WireText>): (r: Result<JsValue, ErrorKind>)
    ensures r.Ok? <==> t.Some? && t.value.Json?
    ensures r.Ok? ==> r.value == t.value.value
    ensures r.Err? ==> r.error == SyntaxError
  {
    match t
    case Some(Json(v)) => Ok(v)
    case _ => Err(SyntaxError)
  }

  /** `v[key]` for one of the own-property names the listener reads (userType,
      video, mute, volume), none of which any prototype defines: null throws,
      an object yields its field or undefined (`None`), any other value yields
      undefined. */
  function Get(v: JsValue, key: string): (r: Result<Option<JsValue>, ErrorKind>)
    ensures r.Err? <==> v.Null?
    ensures r.Err? ==> r.error == TypeError
    ensures r.Ok? && r.value.Some? <==> v.Obj? && key in v.fields
    ensures r.Ok? && r.value.Some? ==> r.value.value == v.fields[key]
  {
    match v
    case Null => Err(TypeError)
    case Obj(fields) => Ok(if key in fields then Some(fields[key]) else None)
    case _ => Ok(None)
  }

  /** `v[key] === s` for a string literal `s`, given that the read succeeded. */
  predicate IsString(p: Option<JsValue>, s: string)
  {
    p == Some(Str(s))
  }
}
