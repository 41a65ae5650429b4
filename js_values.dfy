/** JavaScript value notions the component relies on: optional props,
    truthiness of numbers, numbers that may be NaN or infinite, and the
    bitwise XOR of two booleans (which JavaScript coerces to 0 and 1). */
module JsValues {

  /** An optional prop: `None` stands for `undefined` or `null`. */
  datatype Option<T> = None | Some(value: T)

  /** A JavaScript number: either a finite value, represented exactly,
      or one of NaN, +Infinity and -Infinity, which the model does not
      tell apart. */
  datatype Num = Finite(v: real) | NonFinite

  /** An optional number is truthy when it is present and not zero:
      `undefined`, `null` and 0 are falsy. */
  predicate Truthy(x: Option<real>)
    ensures x.None? ==> !Truthy(x)
    ensures x == Some(0.0) ==> !Truthy(x)
    ensures x.Some? && x.value != 0.0 ==> Truthy(x)
  {
    x.Some? && x.value != 0.0
  }

  function Abs(x: real): (r: real)
    ensures r >= 0.0 && (r == x || r == -x)
  {
    if x < 0.0 then -x else x
  }

  /** The number a boolean becomes in an arithmetic or bitwise context. */
  function BoolToNumber(b: bool): (n: int)
    ensures 0 <= n <= 1 && (n == 1 <==> b)
  {
    if b then 1 else 0
  }

  /** `a ^ b` on two booleans: both are coerced to the integers 0 and 1
      and combined bit by bit; on one-bit operands XOR is addition modulo 2,
      so the result is the number 0 or 1. */
  function JsXor(a: bool, b: bool): (n: int)
    ensures n == 0 || n == 1
    ensures n == 1 <==> a != b
  {
    (BoolToNumber(a) + BoolToNumber(b)) % 2
  }
}
