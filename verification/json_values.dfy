/** The dynamic values the client handles: JSON as it comes back from the
    server, the selection/filter arguments of the split handler, the errors the
    client raises, and the three Python lookups the read side relies on
    (`d[k]`, `d.get(k, default)` and list indexing). */
module JsonValues {
  import opened Wrappers

  datatype Json =
    | JNull
    | JBool(b: bool)
    | JNumber(n: real)
    | JString(s: string)
    | JArray(items: seq<Json>)
    | JObject(fields: map<string, Json>)

  /** A selection or filter argument: either an already built value, or a
      builder object. The builder's `build()` lives outside this model, so a
      builder is represented by the value its `build()` returns. */
  datatype Arg = Raw(value: Json) | Builder(built: Json)

  /** The errors the client raises locally. */
  datatype Error =
    | MissingDatasetName            // explicit split without a dataset name
    | MissingMetric                 // set_metric with neither metric nor custom metric
    | UnknownWeightFeature(name: string)
    | KeyError(key: string)         // `d[key]` on a mapping without that key
    | IndexError(index: int)        // list index out of range
    | TypeError(key: string)        // lookup of `key` in, or iteration over, a value of the wrong shape

  /** The value an argument stands for: the raw value itself, or what the
      builder builds. */
  function Resolve(a: Arg): Json
  {
    match a
    case Raw(v) => v
    case Builder(b) => b
  }

  /** `None` stays absent; a present argument is resolved. */
  function ResolveOpt(a: Option<Arg>): (r: Option<Json>)
    ensures r.None? <==> a.None?
    ensures a.Some? ==> r == Some(Resolve(a.value))
  {
    match a
    case None => None
    case Some(x) => Some(Resolve(x))
  }

  /** Python `v[key]` on a value expected to be a mapping. */
  function Index(v: Json, key: string): (r: Result<Json, Error>)
    ensures r.Success? <==> v.JObject? && key in v.fields
    ensures r.Success? ==> r.value == v.fields[key]
  {
    match v
    case JObject(fields) =>
      if key in fields then Success(fields[key]) else Failure(KeyError(key))
    case _ => Failure(TypeError(key))
  }

  /** Python `v.get(key, default)`: fails only when `v` is not a mapping. */
  function GetOr(v: Json, key: string, default: Json): (r: Result<Json, Error>)
    ensures r.Success? <==> v.JObject?
    ensures r.Success? ==> r.value == (if key in v.fields then v.fields[key] else default)
  {
    match v
    case JObject(fields) => Success(if key in fields then fields[key] else default)
    case _ => Failure(TypeError(key))
  }

  /** The elements a Python comprehension over `v` gets to keep when its step
      subscripts every element (`x[k]` or `x.get(k, d)`): the items of a list,
      and nothing for an empty mapping or an empty string. A non-empty
      mapping or string hands the step its keys or characters, which it
      rejects, and any other value is not iterable, so both raise. */
  function Elements(v: Json, key: string): (r: Result<seq<Json>, Error>)
    ensures r.Success? <==> v.JArray? || v == JObject(map[]) || v == JString("")
    ensures v.JArray? ==> r == Success(v.items)
    ensures r.Success? && !v.JArray? ==> r.value == []
  {
    match v
    case JArray(items) => Success(items)
    case JObject(fields) => if fields == map[] then Success([]) else Failure(TypeError(key))
    case JString(s) => if s == "" then Success([]) else Failure(TypeError(key))
    case _ => Failure(TypeError(key))
  }

  /** Python list indexing: a negative index counts from the end, anything
      outside `-|s| .. |s|-1` raises. */
  function At<T>(s: seq<T>, i: int): (r: Result<T, Error>)
    ensures r.Success? <==> -|s| <= i < |s|
    ensures 0 <= i < |s| ==> r == Success(s[i])
    ensures -|s| <= i < 0 ==> r == Success(s[|s| + i])
  {
    if 0 <= i < |s| then Success(s[i])
    else if -|s| <= i < 0 then Success(s[|s| + i])
    else Failure(IndexError(i))
  }
}
