/**
 * The JSON values the tracker reads back from storage. A saved record comes
 * back through JSON.parse, so an entry can hold any JSON value, not only the
 * booleans and numbers the tracker itself writes.
 */
module JsonValue {

  /** A JSON value; arrays and objects are lumped together, since the tracker
      only ever tests them for truthiness (they are always truthy). */
  datatype Val = JNull | JBool(b: bool) | JNum(n: int) | JStr(s: string) | JStructured

  /** JavaScript truthiness: `false`, `0`, `""` and `null` are falsy. */
  predicate Truthy(v: Val)
  {
    match v
    case JNull => false
    case JBool(b) => b
    case JNum(n) => n != 0
    case JStr(s) => s != ""
    case JStructured => true
  }
}
