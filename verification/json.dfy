/** The PHP values the value handler reads from fields and produces as payload. */
module JsonValues {

  /** A JSON-like PHP value. `Null` is PHP's NULL, which also stands for "absent".
      A PHP list is `List`; an associative array is `Object`. */
  datatype Json =
    | Null
    | Bool(b: bool)
    | Int(i: int)
    | Str(s: string)
    | List(elems: seq<Json>)
    | Object(members: map<string, Json>)

  /** PHP's truthiness, as used by `$x ? TRUE : FALSE`: NULL, FALSE, 0, "", "0"
      and the empty array are false, everything else is true. */
  predicate Truthy(v: Json)
  {
    match v
    case Null => false
    case Bool(b) => b
    case Int(i) => i != 0
    case Str(s) => s != "" && s != "0"
    case List(xs) => xs != []
    case Object(m) => m != map[]
  }
}
