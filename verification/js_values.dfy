/**
 * The JavaScript values the map component receives from its configuration
 * and keeps in its fields, with the few language rules it relies on:
 * truthiness (`a || b`, `a && b`), property reads and property-key
 * conversion.
 *
 * A number is represented by its canonical decimal text, the string
 * `String(n)` gives ("10", "41.8902", "0", "NaN"). The component never
 * computes with numbers: it copies them, tests their truthiness and uses
 * them as property keys, and each of those is determined by that text.
 */
module JsValues {
  import opened Wrappers
  import opened Dicts

  datatype Js =
    | Undefined
    | Null
    | JBool(b: bool)
    | JNum(text: string)
    | JStr(s: string)
    | JArr(items: seq<Js>)
    | JObj(props: Dict<string, Js>)

  /** `null` or `undefined`: reading a property of one throws a TypeError. */
  predicate Nullish(v: Js) {
    v.Undefined? || v.Null?
  }

  /** What `if (v)` takes: false, 0, NaN, "" , null and undefined are falsy. */
  predicate Truthy(v: Js) {
    match v
    case Undefined => false
    case Null => false
    case JBool(b) => b
    case JNum(t) => t != "0" && t != "NaN"
    case JStr(s) => s != ""
    case JArr(_) => true
    case JObj(_) => true
  }

  /** `a || b`: the left operand when it is truthy, else the right one. */
  function Or(a: Js, b: Js): (r: Js)
    ensures r == a || r == b
    ensures Truthy(r) <==> Truthy(a) || Truthy(b)
  {
    if Truthy(a) then a else b
  }

  /** `v.name` for a name that is neither an array index nor a built-in
      property of arrays or strings (the only names the component reads:
      coordinates, name, url, options, iconUrl). Only an own property of an
      object has a value; on null or undefined the read throws, so it is
      excluded here. */
  function Prop(v: Js, name: string): (r: Js)
    requires !Nullish(v)
    ensures !v.JObj? ==> r == Undefined
    ensures v.JObj? && name in v.props.vals ==> r == v.props.vals[name]
    ensures v.JObj? && name !in v.props.vals ==> r == Undefined
  {
    match v
    case JObj(props) => props.Get(name).GetOr(Undefined)
    case _ => Undefined
  }

  /** The decimal text of a natural number: the property key of an index. */
  function IndexKey(i: nat): (s: string)
    ensures |s| > 0
    ensures forall c :: c in s ==> '0' <= c <= '9'
  {
    var digit := ['0' + (i % 10) as char];
    if i < 10 then digit else IndexKey(i / 10) + digit
  }

  /** `v[i]` on a value that is not null or undefined: an array element,
      a character of a string, or the object property keyed by the index. */
  function Element(v: Js, i: nat): Js
    requires !Nullish(v)
  {
    match v
    case JArr(items) => if i < |items| then items[i] else Undefined
    case JStr(s) => if i < |s| then JStr([s[i]]) else Undefined
    case JObj(props) => props.Get(IndexKey(i)).GetOr(Undefined)
    case _ => Undefined
  }

  /** `items.join(",")` after the elements are turned into strings. */
  function Join(parts: seq<string>): string {
    if |parts| == 0 then ""
    else if |parts| == 1 then parts[0]
    else parts[0] + "," + Join(parts[1..])
  }

  /** The property key a value becomes in `obj[v]` (`String(v)`): an array
      joins its elements with commas, null and undefined elements as empty. */
  function PropertyKey(v: Js): string
    decreases v
  {
    match v
    case Undefined => "undefined"
    case Null => "null"
    case JBool(b) => if b then "true" else "false"
    case JNum(t) => t
    case JStr(s) => s
    case JArr(items) =>
      Join(seq(|items|, i requires 0 <= i < |items| =>
        if Nullish(items[i]) then "" else PropertyKey(items[i])))
    case JObj(_) => "[object Object]"
  }
}
