/** The JavaScript values the script reads from the parsed connection file,
    with the operators it applies to them: `??`, truthiness, `typeof` and
    string conversion in template literals. */
module JsValues {
  import JsStrings

  /** A value of `JSON.parse`, plus `undefined` for a property that is not
      there. A number is carried by the text `String(n)` gives for it. */
  datatype Value =
    | Undefined
    | Null
    | Bool(b: bool)
    | Num(text: string)
    | Str(s: string)
    | Arr(items: seq<Value>)
    | Obj(fields: map<string, Value>)

  predicate Nullish(v: Value) {
    v.Undefined? || v.Null?
  }

  /** `a ?? b` */
  function Coalesce(a: Value, b: Value): Value {
    if Nullish(a) then b else a
  }

  /** The `if (v)` test. A number from JSON is falsy only when it is zero,
      which prints as "0" (JSON has no NaN). */
  predicate Truthy(v: Value) {
    match v
    case Undefined => false
    case Null => false
    case Bool(b) => b
    case Num(text) => text != "0"
    case Str(s) => s != ""
    case _ => true
  }

  /** `typeof v`: null, arrays and objects are all "object". */
  function TypeOf(v: Value): string {
    match v
    case Undefined => "undefined"
    case Bool(_) => "boolean"
    case Num(_) => "number"
    case Str(_) => "string"
    case _ => "object"
  }

  /** `v.key` on a value that is not null or undefined. None of the keys the
      script reads is a built-in property of strings, numbers or arrays. */
  function Get(v: Value, key: string): Value
    requires !Nullish(v)
  {
    if v.Obj? && key in v.fields then v.fields[key] else Undefined
  }

  /** `${v}` in a template literal. An array is joined with commas, its
      null and undefined elements giving the empty string. */
  function ToText(v: Value): string
    decreases v
  {
    match v
    case Undefined => "undefined"
    case Null => "null"
    case Bool(b) => if b then "true" else "false"
    case Num(text) => text
    case Str(s) => s
    case Arr(items) =>
      JsStrings.Join(seq(|items|, i requires 0 <= i < |items| =>
        if Nullish(items[i]) then "" else assert items[i] in items; ToText(items[i])), ',')
    // An object with its own "toString" key makes the conversion throw in
    // JavaScript; that case is not modelled here.
    case Obj(_) => "[object Object]"
  }
}
