/**
 * Values produced by `JSON.parse`, and the JavaScript tests the source applies to them:
 * truthiness, `Object.keys(v).length`, property lookup and loose equality `==`.
 */
module Json {
  import opened Wrappers

  /** A parsed JSON value. Numbers are integral here. */
  datatype Json =
    | JNull
    | JBool(b: bool)
    | JNum(n: int)
    | JStr(s: string)
    | JArr(items: seq<Json>)
    | JObj(fields: map<string, Json>)

  /** An object's own property, `undefined` (None) when absent. */
  function Get(m: map<string, Json>, key: string): Option<Json> {
    if key in m then Some(m[key]) else None
  }

  /** `v.key` for any value: only objects have the properties read here. */
  function Prop(v: Option<Json>, key: string): Option<Json> {
    if v.Some? && v.value.JObj? then Get(v.value.fields, key) else None
  }

  /** `!!v` */
  predicate Truthy(v: Option<Json>) {
    match v
    case None => false
    case Some(JNull) => false
    case Some(JBool(b)) => b
    case Some(JNum(n)) => n != 0
    case Some(JStr(s)) => s != ""
    case Some(JArr(_)) => true
    case Some(JObj(_)) => true
  }

  /** `Object.keys(v).length` for a value that is not `null` or `undefined`. */
  function KeyCount(v: Json): nat {
    match v
    case JStr(s) => |s|
    case JArr(items) => |items|
    case JObj(fields) => |fields|
    case _ => 0
  }

  predicate Nullish(v: Option<Json>) {
    v.None? || v == Some(JNull)
  }

  /**
   * `a == b` between two values of a parsed document: `null` and `undefined` equal each
   * other, primitives of one type compare by value, and two distinct objects never compare
   * equal. Comparisons between different primitive types are taken as unequal.
   */
  predicate LooseEquals(a: Option<Json>, b: Option<Json>) {
    if Nullish(a) || Nullish(b) then Nullish(a) && Nullish(b)
    else match (a.value, b.value)
      case (JBool(x), JBool(y)) => x == y
      case (JNum(x), JNum(y)) => x == y
      case (JStr(x), JStr(y)) => x == y
      case _ => false
  }

  /** `v == 'text'`: only the string itself compares equal. */
  predicate IsString(v: Option<Json>, text: string) {
    LooseEquals(v, Some(JStr(text)))
  }
}
