/** A JSON-like value as JavaScript sees it, and JavaScript truthiness. */
module Json {

  /**
   * `JUndefined` stands for a missing property or a property whose value is
   * `undefined`; Joi treats both alike. Numbers are integers only.
   */
  datatype JVal =
    | JUndefined
    | JNull
    | JBool(b: bool)
    | JInt(n: int)
    | JStr(s: string)
    | JArr(items: seq<JVal>)
    | JObj(fields: map<string, JVal>)

  /** Property access `o[k]`: a missing key reads as `undefined`. */
  function Get(o: map<string, JVal>, k: string): (v: JVal)
    ensures k !in o ==> v == JUndefined
    ensures k in o ==> v == o[k]
  {
    if k in o then o[k] else JUndefined
  }

  /** JavaScript truthiness: `undefined`, `null`, `false`, `0` and `''` are falsy. */
  predicate Truthy(v: JVal): (b: bool)
    ensures !b <==> v == JUndefined || v == JNull || v == JBool(false) || v == JInt(0) || v == JStr("")
  {
    match v
    case JUndefined => false
    case JNull => false
    case JBool(b) => b
    case JInt(n) => n != 0
    case JStr(s) => s != ""
    case JArr(_) => true
    case JObj(_) => true
  }
}
