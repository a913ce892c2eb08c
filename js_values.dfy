/** The JavaScript values a request body field can hold in this model, and
    the three things the handlers do with them: test truthiness, pick a
    fallback with `||`, and interpolate into a template literal. */
module JsValues {
  import opened Strings
  import opened Options

  /** A field of a parsed JSON body: absent, `null`, a string, or an array of
      strings. */
  datatype Value = Undefined | Null | Str(text: string) | StrArray(items: seq<string>)

  /** JavaScript truthiness: `undefined`, `null` and `''` are falsy; every
      other string and every array (even `[]`) is truthy. */
  predicate Truthy(v: Value)
    ensures v.StrArray? ==> Truthy(v)
    ensures v.Str? ==> (Truthy(v) <==> v.text != "")
    ensures v.Undefined? || v.Null? ==> !Truthy(v)
  {
    match v
    case Undefined => false
    case Null => false
    case Str(s) => s != ""
    case StrArray(_) => true
  }

  /** `a || b` */
  function Or(a: Value, b: Value): (r: Value)
    ensures Truthy(a) ==> r == a
    ensures !Truthy(a) ==> r == b
    ensures Truthy(r) <==> Truthy(a) || Truthy(b)
  {
    if Truthy(a) then a else b
  }

  /** `${v}` inside a template literal. */
  function Interpolate(v: Value): (s: string)
    ensures v.Str? ==> s == v.text
    ensures v.Undefined? ==> s == "undefined"
    ensures v.Null? ==> s == "null"
    ensures v.StrArray? ==> s == Join(v.items, ",")
  {
    match v
    case Undefined => "undefined"
    case Null => "null"
    case Str(s) => s
    case StrArray(xs) => Join(xs, ",")
  }

  /** `s || fallback` over a string that may be absent (an environment
      variable, for one): the fallback replaces an absent or empty string. */
  function OrDefault(s: Option<string>, fallback: string): (r: string)
    ensures s.Some? && s.value != "" ==> r == s.value
    ensures s.None? || s.value == "" ==> r == fallback
  {
    if s.Some? && s.value != "" then s.value else fallback
  }
}
