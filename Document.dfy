/** A parsed JSON document, as `json.loads` hands it to the feed parser, and the Python
    operations the parser applies to it (`value[key]`, `value[i]`, `len(value)`,
    `key in value`, `int(value)`), each with the exception Python raises when the value
    has the wrong shape. */
module Document {
  import opened Wrappers
  import Text

  /** A JSON value. Numbers are integers; objects map string keys to values. */
  datatype Json =
    | JNull
    | JBool(b: bool)
    | JInt(i: int)
    | JString(s: string)
    | JArray(items: seq<Json>)
    | JObject(fields: map<string, Json>)

  /** The Python exceptions these operations raise. `InvalidOperation` is `decimal`'s
      signal for a malformed number, and `OverflowError` is what dateutil raises for a date
      whose numbers are too large: both are `ArithmeticError`s, not `ValueError`s. */
  datatype Fault = KeyError | ValueError | TypeError | IndexError | InvalidOperation | OverflowError

  /** `value[key]` for a string key: only a dict can be indexed by a string. */
  function Get(value: Json, key: string): (r: Result<Json, Fault>)
    ensures r.Ok? <==> value.JObject? && key in value.fields
    ensures r.Ok? ==> r.value == value.fields[key]
    ensures r.Err? ==> r.error == (if value.JObject? then KeyError else TypeError)
  {
    match value
    case JObject(fields) => if key in fields then Ok(fields[key]) else Err(KeyError)
    case _ => Err(TypeError)
  }

  /** `value[k0][k1]...`, failing at the first step that fails. */
  function Path(value: Json, keys: seq<string>): (r: Result<Json, Fault>)
    ensures r.Err? ==> r.error in {KeyError, TypeError}
  {
    if |keys| == 0 then Ok(value)
    else
      var child :- Get(value, keys[0]);
      Path(child, keys[1..])
  }

  /** `value[index]` for an integer index: a list or a string gives an element or an
      IndexError; a dict has no integer keys in JSON, so it raises KeyError. */
  function At(value: Json, index: nat): (r: Result<Json, Fault>)
    ensures r.Err? ==> r.error in {IndexError, KeyError, TypeError}
    ensures r == Err(IndexError) <==> Len(value).Ok? && index >= Len(value).value && !value.JObject?
  {
    match value
    case JArray(items) => if index < |items| then Ok(items[index]) else Err(IndexError)
    case JString(s) => if index < |s| then Ok(JString([s[index]])) else Err(IndexError)
    case JObject(_) => Err(KeyError)
    case _ => Err(TypeError)
  }

  /** `len(value)`. */
  function Len(value: Json): (r: Result<nat, Fault>)
    ensures r.Err? <==> !(value.JArray? || value.JString? || value.JObject?)
    ensures r.Err? ==> r.error == TypeError
  {
    match value
    case JArray(items) => Ok(|items|)
    case JString(s) => Ok(|s|)
    case JObject(fields) => Ok(|fields|)
    case _ => Err(TypeError)
  }

  /** `key in value`: a dict's keys, a list's elements, or a substring of a string. */
  function Has(value: Json, key: string): (r: Result<bool, Fault>)
    ensures r.Err? <==> !(value.JArray? || value.JString? || value.JObject?)
    ensures r.Err? ==> r.error == TypeError
  {
    match value
    case JObject(fields) => Ok(key in fields)
    case JArray(items) => Ok(JString(key) in items)
    case JString(s) => Ok(Text.Contains(s, key))
    case _ => Err(TypeError)
  }

  /** `int(value)`: a numeral string, an integer, or a boolean (True is 1). */
  function IntOf(value: Json): (r: Result<int, Fault>)
    ensures value.JString? ==> (r.Ok? <==> Text.ParseInt(value.s).Some?)
    ensures r.Err? ==> r.error == (if value.JString? then ValueError else TypeError)
  {
    match value
    case JString(s) =>
      var n := Text.ParseInt(s);
      if n.Some? then Ok(n.value) else Err(ValueError)
    case JInt(i) => Ok(i)
    case JBool(b) => Ok(if b then 1 else 0)
    case _ => Err(TypeError)
  }

  /** A text column's value: the JSON string itself. Any other JSON value is refused with
      ValueError, where Django's text fields would store its `str()` text. */
  function TextOf(value: Json): (r: Result<string, Fault>)
    ensures r.Ok? <==> value.JString?
    ensures r.Err? ==> r.error == ValueError
  {
    if value.JString? then Ok(value.s) else Err(ValueError)
  }
}
