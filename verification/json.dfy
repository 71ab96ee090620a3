/** Parsed JSON values and the JavaScript operators the clients apply to them. */
module Json {
  import opened Outcomes

  /** A value produced by parsing a JSON text. Numbers are restricted to integers. */
  datatype Json =
    | JNull
    | JBool(b: bool)
    | JNumber(n: int)
    | JString(s: string)
    | JArray(items: seq<Json>)
    | JObject(fields: map<string, Json>)

  /** JavaScript truthiness of a value read out of parsed JSON (`None` is `undefined`). */
  predicate Truthy(v: Option<Json>) {
    match v
    case None => false
    case Some(JNull) => false
    case Some(JBool(b)) => b
    case Some(JNumber(n)) => n != 0
    case Some(JString(s)) => s != ""
    case Some(JArray(_)) => true
    case Some(JObject(_)) => true
  }

  /** Optional property access: the value an object holds under `key`, and `None`
      for any other value. Only keys that no JSON value inherits from its prototype
      are read this way (a length is read with HasZeroLength instead). */
  function Prop(v: Option<Json>, key: string): Option<Json> {
    match v
    case Some(JObject(fields)) => if key in fields then Some(fields[key]) else None
    case _ => None
  }

  /** Optional access to index 0: the first element of an array, the first
      character of a string, or the property named "0" of an object. */
  function Element0(v: Option<Json>): Option<Json> {
    match v
    case Some(JArray(items)) => if |items| > 0 then Some(items[0]) else None
    case Some(JString(s)) => if |s| > 0 then Some(JString([s[0]])) else None
    case Some(JObject(fields)) => if "0" in fields then Some(fields["0"]) else None
    case _ => None
  }

  /** Whether the optional length of a value is exactly the number 0: an empty
      array, an empty string, or an object whose "length" property is the number 0. */
  predicate HasZeroLength(v: Option<Json>) {
    match v
    case Some(JArray(items)) => |items| == 0
    case Some(JString(s)) => |s| == 0
    case Some(JObject(fields)) => "length" in fields && fields["length"] == JNumber(0)
    case _ => false
  }
}
