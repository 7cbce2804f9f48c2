/**
 * The JSON values the admin pages send as request bodies (what
 * `JSON.stringify` is applied to). Objects are maps from member name to
 * value; a member whose value is `undefined` is absent.
 */
module Json {
  import opened Wrappers

  datatype Json =
    | JNull
    | JBool(b: bool)
    | JNumber(n: real)
    | JString(s: string)
    | JObject(fields: map<string, Json>)

  /** A string that may be `null`. */
  function StringOrNull(v: Option<string>): (j: Json)
    ensures j == JNull <==> v.None?
  {
    match v
    case None => JNull
    case Some(s) => JString(s)
  }

  /** An integer that may be `NaN`, which `JSON.stringify` writes as `null`. */
  function IntOrNull(v: Option<int>): (j: Json)
    ensures j == JNull <==> v.None?
  {
    match v
    case None => JNull
    case Some(n) => JNumber(n as real)
  }

  /** A number that may be `null` or `NaN`. */
  function RealOrNull(v: Option<real>): (j: Json)
    ensures j == JNull <==> v.None?
  {
    match v
    case None => JNull
    case Some(x) => JNumber(x)
  }

  /** One object member; an `undefined` value (`None`) leaves the member out. */
  function MemberIfDefined(key: string, v: Option<Json>): (m: map<string, Json>)
    ensures key in m <==> v.Some?
    ensures m.Keys <= {key}
    ensures key in m ==> m[key] == v.value
  {
    match v
    case None => map[]
    case Some(j) => map[key := j]
  }
}
