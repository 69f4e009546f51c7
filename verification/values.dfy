/**
  The values the plugin hands back to JavaScript: the contents of a
  `java.util.Map<String, Object>` or a `JSONObject`, before serialisation.
 */
module Values {
  import opened Wrappers

  /** A value stored under a key of a result map. Nested maps are `Obj`. */
  datatype Value =
    | Str(s: string)
    | Bool(b: bool)
    | Null
    | Obj(fields: map<string, Value>)

  /** A Java `String` that may be null, as stored by `HashMap.put`. */
  function StrOrNull(s: Option<string>): (v: Value)
    ensures AsStrOrNull(v) == Some(s)
  {
    match s
    case Some(x) => Str(x)
    case None => Null
  }

  /** Reads back a nullable string; None for any other kind of value. */
  function AsStrOrNull(v: Value): Option<Option<string>>
  {
    match v
    case Str(x) => Some(Some(x))
    case Null => Some(None)
    case _ => None
  }
}
