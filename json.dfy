/**
 * JSON values as Python's `json.loads` produces them, the `dict.get` lookup
 * with a default, and the Python exception kinds that the modelled code can
 * raise while taking such values apart.
 */
module Json {

  /** A decoded JSON document: `None`, `bool`, `int`, `float`, `str`, `list` or `dict`. */
  datatype JValue =
    | JNull
    | JBool(b: bool)
    | JInt(i: int)
    | JFloat(r: real)
    | JString(s: string)
    | JArray(elems: seq<JValue>)
    | JObject(fields: map<string, JValue>)

  /** Python's `d.get(key, default)` on a dictionary. */
  function Get(m: map<string, JValue>, key: string, default: JValue): JValue {
    if key in m then m[key] else default
  }

  /** The Python exceptions raised by indexing, attribute lookup and model validation. */
  datatype PyError =
    | AttributeError   // `.get` on a value that is not a dict
    | TypeError        // iterating, subscripting or `**`-unpacking the wrong kind of value
    | IndexError       // `[0]` on an empty list or string
    | KeyError         // `[0]` on a dict
    | ValidationError  // a pydantic model rejects a field value
}
