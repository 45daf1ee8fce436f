/** The values `response.json()` produces, with the two dictionary lookups and the
    string conversion the analyzer applies to them. */
module Values {
  import opened Py

  /** A decoded JSON document. Numbers are integers; objects map keys to values. */
  datatype Json =
    | JNull
    | JBool(b: bool)
    | JInt(n: int)
    | JStr(s: string)
    | JArr(items: seq<Json>)
    | JObj(members: map<string, Json>)

  /** Python's `d.get(key, default)`: the stored value when the key is present (even a
      JSON null), the default otherwise. */
  function GetOr(d: map<string, Json>, key: string, default: Json): Json
  {
    if key in d then d[key] else default
  }

  /** Python's `d.get(key)`: None when the key is missing or holds JSON null, the
      stored value otherwise. */
  function Get(d: map<string, Json>, key: string): (v: Option<Json>)
    ensures v.None? <==> key !in d || d[key] == JNull
    ensures v.Some? ==> key in d && v.value == d[key] && v.value != JNull
  {
    if key in d && d[key] != JNull then Some(d[key]) else None
  }

  /** Python's `str(v)` (also what an f-string prints) for a value that may be None. */
  function Text(v: Option<Json>): (r: string)
    ensures v.None? || v == Some(JNull) ==> r == "None"
    ensures v.Some? && v.value.JStr? ==> r == v.value.s
    ensures v.Some? && v.value.JInt? ==> r == Decimal(v.value.n)
    ensures v.Some? && v.value.JBool? ==> r == if v.value.b then "True" else "False"
    ensures !(v.Some? && v.value.JStr?) ==> '\n' !in r && r != ""
  {
    match v
    case None => "None"
    case Some(JNull) => "None"
    case Some(JBool(b)) => if b then "True" else "False"
    case Some(JInt(n)) => Decimal(n)
    case Some(JStr(s)) => s
    case Some(JArr(_)) => "[...]"
    case Some(JObj(_)) => "{...}"
  }
}
