/** The generic JSON tree that the exporter's decoder produces (section 3 of
    RFC 8259), together with the two dynamic operations the bean scan applies
    to it: a map index and a type assertion to a number. */
module Json {

  datatype Option<+T> = None | Some(value: T)

  /** A decoded JSON value. Every number is carried as a `real`: the scan only
      copies numbers, it never computes with them. */
  datatype Json =
    | JNull
    | JBool(b: bool)
    | JNum(n: real)
    | JStr(s: string)
    | JArr(items: seq<Json>)
    | JObj(fields: map<string, Json>)

  /** Indexing a decoded object by key. A missing key yields the zero value of
      the element type, the nil interface, which is exactly what a JSON `null`
      decodes to; the two cannot be told apart afterwards. */
  function Get(fields: map<string, Json>, key: string): (r: Json)
  {
    if key in fields then fields[key] else JNull
  }

  /** A checked type assertion to a number: `None` exactly where the
      unchecked assertion would fail at run time. */
  function AsNumber(v: Json): (r: Option<real>)
  {
    match v
    case JNum(n) => Some(n)
    case _ => None
  }
}
