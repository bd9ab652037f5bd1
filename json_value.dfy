/**
 * Parsed JSON as the edge function's JavaScript sees it: member reads, truthiness, and the text
 * a template literal `${v}` produces. JSON numbers are integers here.
 */
module JsonValue {

  import opened JsText

  datatype Json =
    | JNull
    | JBool(b: bool)
    | JNum(n: int)
    | JStr(s: string)
    | JArr(items: seq<Json>)
    | JObj(members: map<string, Json>)

  /** A JavaScript value read out of parsed JSON: a JSON value, or `undefined` for a missing member. */
  datatype Value = Undefined | Defined(json: Json)

  /** `undefined` or `null`: reading a member of either throws a TypeError. */
  predicate IsNullish(v: Value)
  {
    v == Undefined || v == Defined(JNull)
  }

  /** JavaScript truthiness: `undefined`, `null`, `false`, `0` and `""` are falsy, everything else is truthy. */
  predicate Truthy(v: Value)
  {
    match v
    case Undefined => false
    case Defined(j) =>
      match j
      case JNull => false
      case JBool(b) => b
      case JNum(n) => n != 0
      case JStr(s) => s != []
      case _ => true
  }

  /**
   * `v.key` for a value that is neither `undefined` nor `null`. Objects give their own members;
   * strings and arrays give `length`. None of the names the handler reads is an array index or
   * a member every object inherits, so nothing else is found.
   */
  function Get(v: Value, key: string): Value
    requires !IsNullish(v)
  {
    match v.json
    case JObj(m) => if key in m then Defined(m[key]) else Undefined
    case JArr(items) => if key == "length" then Defined(JNum(|items|)) else Undefined
    case JStr(s) => if key == "length" then Defined(JNum(|s|)) else Undefined
    case _ => Undefined
  }

  predicate IsString(v: Value)
  {
    v.Defined? && v.json.JStr?
  }

  /** `String(v)`, which is what `${v}` inserts into a template literal. */
  function ToText(v: Value): string
  {
    match v
    case Undefined => "undefined"
    case Defined(j) => JsonText(j)
  }

  /** `String(j)`: arrays join their elements with commas, with `null` elements left empty. */
  function JsonText(j: Json): string
  {
    match j
    case JNull => "null"
    case JBool(b) => if b then "true" else "false"
    case JNum(n) => IntToDecimal(n)
    case JStr(s) => s
    case JArr(items) =>
      if items == [] then ""
      else Join(seq(|items|, i requires 0 <= i < |items| => if items[i] == JNull then "" else JsonText(items[i])), ',')
    case JObj(_) => "[object Object]"
  }
}
