/** The slice of JavaScript's value domain that option resolution depends on:
    the primitive values an option may hold, their truthiness, and the `||`
    operator the resolution is written with. */
module JsValues {

  /** The primitive values a typed option can stand for; `NaN`, `Infinity`,
      `-Infinity`, BigInt and Symbol are not modelled. */
  datatype JsValue = Undefined | Null | Boolean(b: bool) | Number(n: real) | String(s: string)

  /** ToBoolean, section 7.1.2 of ECMA-262: `undefined`, `null`, `false`,
      `+0`/`-0` and the empty string are the falsy values; everything else is truthy. */
  predicate ToBoolean(v: JsValue) {
    match v
    case Undefined => false
    case Null => false
    case Boolean(b) => b
    case Number(n) => n != 0.0
    case String(s) => s != ""
  }

  /** `a || b`, section 13.13 of ECMA-262: the left operand itself when it is
      truthy, otherwise the right operand (neither is converted). */
  function LogicalOr(a: JsValue, b: JsValue): (r: JsValue)
    ensures r == a || r == b
    ensures ToBoolean(a) <==> r == a && ToBoolean(r)
    ensures !ToBoolean(a) ==> r == b
  {
    if ToBoolean(a) then a else b
  }
}
