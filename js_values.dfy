/*
 * The JavaScript values the browser scripts read off server replies and
 * form fields, with the two conversions they lean on: truthiness (for
 * `x || fallback`) and String(x) (for template literals). Numbers are
 * integers here; fractions, NaN and the infinities are not represented.
 */
module JsValues {
  import opened Text

  datatype JsValue = Undefined | Null | JStr(s: string) | JNum(n: int) | JBool(b: bool)

  predicate Truthy(v: JsValue)
  {
    match v
    case JStr(s) => s != ""
    case JNum(n) => n != 0
    case JBool(b) => b
    case _ => false
  }

  /** String(v), which is also what `${v}` inserts. */
  function ToText(v: JsValue): string
  {
    match v
    case Undefined => "undefined"
    case Null => "null"
    case JStr(s) => s
    case JNum(n) => IntToDecimal(n)
    case JBool(b) => if b then "true" else "false"
  }

  /** The values `||` replaces by its right operand. */
  const FalsyValues: set<JsValue> := {Undefined, Null, JStr(""), JNum(0), JBool(false)}

  /** `${v || fallback}`: the fallback exactly for the five falsy values,
    * otherwise the value's own text, which is never empty. */
  function Or(v: JsValue, fallback: string): (r: string)
    ensures v in FalsyValues ==> r == fallback
    ensures v !in FalsyValues ==> r == ToText(v) && r != ""
  {
    if Truthy(v) then ToText(v) else fallback
  }

  /** The fallback shows exactly when the value is falsy or happens to
    * read as the fallback itself; an empty result needs an empty fallback. */
  lemma OrFallsBack(v: JsValue, fallback: string)
    ensures Or(v, fallback) == fallback <==> v in FalsyValues || ToText(v) == fallback
    ensures Or(v, fallback) == "" ==> fallback == "" && v in FalsyValues
  {
  }

  /** A barcode object as the scripts receive it from the server. */
  datatype ClientBarcode = ClientBarcode(id: JsValue, data: JsValue, barcodeType: JsValue,
                                         imageUrl: JsValue, imageData: JsValue)
}
