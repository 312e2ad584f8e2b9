/**
 * A parsed JSON document and the Gson accessors the plugin uses on it
 * (`has`, `get`, `getAsJsonArray`, `getAsJsonObject`, `getAsString`,
 * `addProperty(String, String)`), with the exceptions Gson throws.
 * An object is a map: a Gson `JsonObject` holds each key once.
 */
module Json {
  import opened Lang

  datatype Json =
    | JNull
    | JBool(b: bool)
    | JNumber(text: string)   // a number keeps the text it was parsed from
    | JString(s: string)
    | JArray(items: seq<Json>)
    | JObject(fields: map<string, Json>)

  /** `JsonElement.getAsJsonObject`: fails unless the element is an object. */
  function AsObject(j: Json): (r: Result<map<string, Json>>)
    ensures r.Ok? <==> j.JObject?
    ensures r.Ok? ==> r.value == j.fields
    ensures r.Err? ==> r.error == IllegalState
  {
    if j.JObject? then Ok(j.fields) else Err(IllegalState)
  }

  /** `JsonElement.getAsString`: a primitive gives its text, an array of exactly
      one element gives that element's string; null, objects and other arrays fail. */
  function AsString(j: Json): Result<string>
  {
    match j
    case JString(s) => Ok(s)
    case JNumber(t) => Ok(t)
    case JBool(b) => Ok(if b then "true" else "false")
    case JArray(items) =>
      if |items| == 1 then AsString(items[0]) else Err(IllegalState)
    case JNull => Err(UnsupportedOperation)
    case JObject(_) => Err(UnsupportedOperation)
  }

  /** `obj.get(key).getAsString()`: a missing key is a null dereference. */
  function StringMember(obj: map<string, Json>, key: string): (r: Result<string>)
    ensures key !in obj ==> r == Err(NullPointer)
    ensures key in obj && obj[key].JString? ==> r == Ok(obj[key].s)
  {
    if key in obj then AsString(obj[key]) else Err(NullPointer)
  }

  /** `obj.getAsJsonArray(key)`, dereferenced: a missing key yields null (and the
      next call on it fails); a member that is not an array fails the cast. */
  function ArrayMember(obj: map<string, Json>, key: string): (r: Result<seq<Json>>)
    ensures r.Ok? <==> key in obj && obj[key].JArray?
    ensures r.Ok? ==> r.value == obj[key].items
  {
    if key !in obj then Err(NullPointer)
    else if obj[key].JArray? then Ok(obj[key].items)
    else Err(ClassCast)
  }

  /** `addProperty(key, s)` stores a null string as JSON null. */
  function FromNullable(s: Nullable<string>): (r: Json)
    ensures s.Null? <==> r == JNull
    ensures s.Val? ==> r == JString(s.v)
  {
    match s
    case Null => JNull
    case Val(t) => JString(t)
  }
}
