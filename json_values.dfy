/** JSON values as the back end's `json` module produces them, and the bits of Python's
    object protocol the services apply to them. */
module JsonValues {
  import opened Text

  /** A JSON value; numbers are integers (floats are not modelled). */
  datatype Json =
    | JNull
    | JBool(b: bool)
    | JInt(i: int)
    | JString(s: string)
    | JArray(items: seq<Json>)
    | JObject(fields: map<string, Json>)

  /** The Python type name of the decoded value. */
  function PyTypeName(j: Json): string {
    match j
    case JNull => "NoneType"
    case JBool(_) => "bool"
    case JInt(_) => "int"
    case JString(_) => "str"
    case JArray(_) => "list"
    case JObject(_) => "dict"
  }

  predicate IsContainer(j: Json) {
    j.JString? || j.JArray? || j.JObject?
  }

  /** Python's `key in value` for a string key: a dict tests its keys, a list its elements,
      a str its substrings; any other value raises TypeError. */
  datatype Membership = Member(found: bool) | NotIterable(message: string)

  function PyIn(key: string, value: Json): (m: Membership)
    ensures m.NotIterable? <==> !IsContainer(value)
    ensures value.JObject? ==> m == Member(key in value.fields)
    ensures value.JArray? ==> m == Member(JString(key) in value.items)
    ensures value.JString? ==> m == Member(Contains(value.s, key))
  {
    match value
    case JObject(fields) => Member(key in fields)
    case JArray(items) => Member(JString(key) in items)
    case JString(s) => Member(Contains(s, key))
    case _ => NotIterable(NotIterableMessage(PyTypeName(value)))
  }

  /** The TypeError message of `in` on a value that is not a container. */
  function NotIterableMessage(typeName: string): string {
    "argument of type '" + typeName + "' is not iterable"
  }
}
