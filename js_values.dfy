/**
 * The JavaScript values the chat handler meets: parsed JSON (request body,
 * upstream reply), header and environment strings, and `undefined`.
 * Numbers are integral here.
 */
module JsValues {
  import opened Options
  import opened JsText

  datatype JsValue =
    | Undefined
    | Null
    | Bool(b: bool)
    | Num(n: int)
    | Str(s: string)
    | Arr(items: seq<JsValue>)
    | Obj(props: map<string, JsValue>)

  predicate IsNullish(v: JsValue) {
    v.Undefined? || v.Null?
  }

  /** ECMAScript ToBoolean: what `!v`, `v ? … : …` and `a || b` test. */
  predicate IsTruthy(v: JsValue) {
    match v
    case Undefined => false
    case Null => false
    case Bool(b) => b
    case Num(n) => n != 0
    case Str(s) => s != []
    case Arr(_) => true
    case Obj(_) => true
  }

  /** `a || b`: the left operand when it is truthy, otherwise the right one. */
  function Or(a: JsValue, b: JsValue): (r: JsValue)
    ensures IsTruthy(r) <==> IsTruthy(a) || IsTruthy(b)
    ensures IsTruthy(a) ==> r == a
  {
    if IsTruthy(a) then a else b
  }

  /**
   * The property keys the handler reads. None of them is a property that
   * Object, Array or String objects inherit, and the only index among them is "0".
   */
  predicate IsReadKey(key: string) {
    key == "0" || key == "choices" || key == "message" || key == "content"
    || key == "apiKey"
  }

  /**
   * `v?.[key]`: an own property of an object, element 0 of an array, the first
   * character of a string; `undefined` for everything else, and without
   * evaluating further when `v` is `null` or `undefined`.
   */
  function Get(v: JsValue, key: string): (r: JsValue)
    requires IsReadKey(key)
    ensures IsNullish(v) || v.Bool? || v.Num? ==> r == Undefined
    ensures v.Str? && r != Undefined ==> key == "0" && |v.s| > 0 && r == Str([v.s[0]])
    ensures v.Arr? && r != Undefined ==> key == "0" && |v.items| > 0 && r == v.items[0]
    ensures v.Arr? && key == "0" && v.items != [] ==> r == v.items[0]
    ensures v.Str? && key == "0" && v.s != [] ==> r == Str([v.s[0]])
  {
    match v
    case Obj(m) => if key in m then m[key] else Undefined
    case Arr(xs) => if key == "0" && xs != [] then xs[0] else Undefined
    case Str(s) => if key == "0" && s != [] then Str([s[0]]) else Undefined
    case _ => Undefined
  }

  /**
   * ECMAScript ToString as a template literal applies it, or None where it
   * throws a TypeError. An object converts through its inherited `toString`;
   * a JSON object with an own "toString" key shadows it with a value that is
   * not callable, and the inherited `valueOf` gives back the object, so the
   * conversion throws. An array converts by joining its elements with ",",
   * `null` and `undefined` elements giving "".
   */
  function ToJsString(v: JsValue): (r: Option<string>)
    ensures v.Str? ==> r == Some(v.s)
    ensures v.Num? ==> r == Some(IntToDecimal(v.n)) && r.value != []
    ensures v.Obj? ==> (r.None? <==> "toString" in v.props)
    decreases v
  {
    match v
    case Undefined => Some("undefined")
    case Null => Some("null")
    case Bool(b) => Some(if b then "true" else "false")
    case Num(n) => Some(IntToDecimal(n))
    case Str(s) => Some(s)
    case Arr(xs) => JoinElements(xs)
    case Obj(m) => if "toString" in m then None else Some("[object Object]")
  }

  /** `Array.prototype.join(",")` over the elements `xs`. */
  function JoinElements(xs: seq<JsValue>): (r: Option<string>)
    ensures xs == [] ==> r == Some("")
    decreases xs
  {
    if xs == [] then Some("")
    else
      var head := if IsNullish(xs[0]) then Some("") else ToJsString(xs[0]);
      if |xs| == 1 then head
      else
        match (head, JoinElements(xs[1..]))
        case (Some(h), Some(t)) => Some(h + "," + t)
        case _ => None
  }
}
