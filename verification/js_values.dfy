/** The JavaScript values a request body can hold once parsed as JSON, and the
    three pieces of JavaScript semantics the handlers lean on: truthiness,
    property access and `String.prototype.trim`. */
module JsValues {
  import opened Base

  /** A JSON value as seen by handler code. `Undefined` never comes out of
      `JSON.parse`; it is what reading a missing property yields. */
  datatype JsValue =
    | Undefined
    | Null
    | Bool(b: bool)
    | Num(n: real)
    | Str(s: string)
    | Arr(items: seq<JsValue>)
    | Obj(fields: map<string, JsValue>)

  /** JavaScript truthiness (`!!v`). NaN cannot come out of JSON and is not modelled. */
  predicate Truthy(v: JsValue) {
    match v
    case Undefined => false
    case Null => false
    case Bool(b) => b
    case Num(n) => n != 0.0
    case Str(s) => s != ""
    case Arr(_) => true
    case Obj(_) => true
  }

  /** What reading a property can produce: a value, or a TypeError. */
  datatype Access = Value(v: JsValue) | TypeError

  /** `v[key]` (also `const { key } = v`) for the keys the handlers read,
      `"name"` and `"message"`: reading from `null` or `undefined` throws, and
      no primitive or array has a property of either name. Keys such as
      `"length"` or an index, which strings and arrays do have, are not
      modelled. */
  function GetProperty(v: JsValue, key: string): (r: Access)
    ensures r.TypeError? <==> v.Undefined? || v.Null?
    ensures r.Value? && r.v != Undefined ==> v.Obj? && key in v.fields && r.v == v.fields[key]
    ensures v.Obj? ==> r == Value(if key in v.fields then v.fields[key] else Undefined)
    ensures !v.Obj? && !v.Undefined? && !v.Null? ==> r == Value(Undefined)
  {
    match v
    case Undefined => TypeError
    case Null => TypeError
    case Obj(m) => Value(if key in m then m[key] else Undefined)
    case _ => Value(Undefined)
  }

  /** The characters `String.prototype.trim` removes: ECMAScript WhiteSpace
      (tab, vertical tab, form feed, space, no-break space, byte order mark and
      the Unicode space separators) and LineTerminator (line feed, carriage
      return, line and paragraph separators). */
  predicate IsJsWhitespace(c: char) {
    || c == '\t' || c == '\U{000B}' || c == '\U{000C}' || c == ' '
    || c == '\U{00A0}' || c == '\U{FEFF}' || c == '\U{1680}'
    || ('\U{2000}' <= c <= '\U{200A}')
    || c == '\U{202F}' || c == '\U{205F}' || c == '\U{3000}'
    || c == '\n' || c == '\r' || c == '\U{2028}' || c == '\U{2029}'
  }

  /** `s.trim()`. */
  function JsTrim(s: string): string {
    Trim(s, IsJsWhitespace)
  }

  /** `s.trim() === ""` holds exactly for strings made only of whitespace. */
  lemma JsTrimEmptyIffBlank(s: string)
    ensures JsTrim(s) == "" <==> Blank(s, IsJsWhitespace)
  {
    TrimEmptyIffBlank(s, IsJsWhitespace);
  }
}
