/**
  The already-parsed JSON document, seen through the accessors the adapter
  uses (SwiftyJSON's subscript, `.exists()`, `.string`, `.int` and `for … in`).

  A subscript that misses (absent key, or a value that is not an object) is
  `None`; chaining subscripts on a miss stays `None`, as SwiftyJSON's error
  value propagates.
*/
module Json {
  import opened Wrappers

  datatype Json =
    | JNull
    | JBool(b: bool)
    | JNumber(n: int)
    | JString(s: string)
    | JArray(items: seq<Json>)
    | JObject(fields: map<string, Json>)

  /** `j[key]` */
  function Member(j: Option<Json>, key: string): (r: Option<Json>)
  {
    if j.Some? && j.value.JObject? && key in j.value.fields then Some(j.value.fields[key]) else None
  }

  /** `j.exists()`: the subscript that produced `j` found its key. */
  predicate Exists(j: Option<Json>) {
    j.Some?
  }

  /** `j.string`: a value only when `j` is a JSON string. */
  function AsString(j: Option<Json>): (r: Option<string>)
  {
    if j.Some? && j.value.JString? then Some(j.value.s) else None
  }

  /** `j.int`: a value for a number, and for a boolean as 1 or 0. */
  function AsInt(j: Option<Json>): (r: Option<int>)
  {
    if j.Some? && j.value.JNumber? then Some(j.value.n)
    else if j.Some? && j.value.JBool? then Some(if j.value.b then 1 else 0)
    else None
  }

  /** The elements `for (_, x) in j` visits: the items of an array, in order, and nothing otherwise. */
  function Elements(j: Option<Json>): (r: seq<Json>)
  {
    if j.Some? && j.value.JArray? then j.value.items else []
  }
}
