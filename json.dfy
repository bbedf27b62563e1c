/** Parsed JSON documents as the Python code sees them after `json.loads`, with
    the three Python operations the code applies to them: truthiness (`if x:`),
    membership (`key in x`) and subscription (`x[key]`). Encoding with
    `json.dumps` is not modelled: a published document is the value itself. */
module Json {
  import opened Strings

  datatype Option<T> = None | Some(value: T)

  datatype Json =
    | JNull
    | JBool(b: bool)
    | JInt(i: int)
    | JStr(s: string)
    | JArr(items: seq<Json>)
    | JObj(fields: map<string, Json>)

  /** A JSON object, i.e. a Python dict with string keys. */
  type Doc = map<string, Json>

  /** Python truthiness: None, False, 0, "", [] and {} are false. */
  predicate Truthy(j: Json) {
    match j
    case JNull => false
    case JBool(b) => b
    case JInt(i) => i != 0
    case JStr(s) => s != ""
    case JArr(items) => items != []
    case JObj(fields) => fields != map[]
  }

  /** Python's `key in x`: a dict key, a list element or a substring;
      None when Python raises TypeError (numbers, booleans, None). */
  function In(key: string, x: Json): (r: Option<bool>)
    ensures r.None? <==> !(x.JObj? || x.JArr? || x.JStr?)
    ensures x.JObj? ==> r == Some(key in x.fields)
  {
    match x
    case JObj(fields) => Some(key in fields)
    case JArr(items) => Some(JStr(key) in items)
    case JStr(s) => Some(Contains(s, key))
    case _ => None
  }

  /** Python's `x[key]` with a string key: only a dict holding the key
      answers; everything else raises (KeyError or TypeError), shown as None. */
  function Index(x: Json, key: string): (r: Option<Json>)
    ensures r.Some? <==> x.JObj? && key in x.fields
    ensures r.Some? ==> r.value == x.fields[key]
  {
    if x.JObj? && key in x.fields then Some(x.fields[key]) else None
  }

  /** Python's `d.get(key, default)` on a dict. */
  function Get(d: Doc, key: string, default: Json): (r: Json)
    ensures key in d ==> r == d[key]
    ensures key !in d ==> r == default
  {
    if key in d then d[key] else default
  }

  /** The elements a `for` loop visits when its body subscripts each element
      with a string key: a list's items; nothing for an empty string or dict.
      None when the loop raises before its body completes once: iterating
      None, a boolean or a number raises, and a non-empty string or dict
      yields strings, whose subscript by a string key raises. */
  function Records(x: Json): (r: Option<seq<Json>>)
    ensures x.JArr? ==> r == Some(x.items)
    ensures r.Some? && r.value != [] ==> x.JArr?
  {
    match x
    case JArr(items) => Some(items)
    case JStr(s) => if s == "" then Some([]) else None
    case JObj(fields) => if fields == map[] then Some([]) else None
    case _ => None
  }
}
