/**
 * The parts of JavaScript value semantics that the finance app relies on:
 * optional values, numbers that may be NaN or infinite, truthiness, the
 * rounding and clamping built-ins, and integer-to-text conversion.
 *
 * Finite numbers are kept as exact `real`s: the rounding error of IEEE
 * doubles is outside this model.
 */
module Js {

  datatype Option<T> = None | Some(value: T)

  /** A JS number as far as the app can observe it. */
  datatype Num = Finite(value: real) | PosInf | NegInf | NaN

  /** `a / b` on JS numbers: division by zero gives an infinity, or NaN for `0 / 0`. */
  function Div(a: real, b: real): Num
  {
    if b != 0.0 then Finite(a / b)
    else if a > 0.0 then PosInf
    else if a < 0.0 then NegInf
    else NaN
  }

  /** `n * c` for a positive constant `c`. */
  function Scale(n: Num, c: real): Num
    requires c > 0.0
  {
    match n
    case Finite(x) => Finite(x * c)
    case _ => n
  }

  /** `Math.round` on a finite value: the nearest integer, halves rounded up. */
  function Round(x: real): (r: int)
    ensures r as real <= x + 0.5 < r as real + 1.0
  {
    (x + 0.5).Floor
  }

  /** `Math.round` on any JS number: infinities and NaN pass through. */
  function RoundNum(n: Num): Num
  {
    match n
    case Finite(x) => Finite(Round(x) as real)
    case _ => n
  }

  /** `Math.min(n, c)`: NaN wins, +Infinity loses, -Infinity wins. */
  function MinNum(n: Num, c: real): Num
  {
    match n
    case Finite(x) => Finite(if x <= c then x else c)
    case PosInf => Finite(c)
    case NegInf => NegInf
    case NaN => NaN
  }

  /** `n > c`; every comparison with NaN is false. */
  predicate Greater(n: Num, c: real)
  {
    match n
    case Finite(x) => x > c
    case PosInf => true
    case NegInf => false
    case NaN => false
  }

  /** `n >= c`; every comparison with NaN is false. */
  predicate AtLeast(n: Num, c: real)
  {
    match n
    case Finite(x) => x >= c
    case PosInf => true
    case NegInf => false
    case NaN => false
  }

  /** Truthiness of a number: `0` and NaN are falsy. */
  predicate Truthy(n: Num)
  {
    match n
    case Finite(x) => x != 0.0
    case NaN => false
    case _ => true
  }

  /** `p || 0` on the result of a parse that gives `None` for NaN. */
  function ParsedOrZero<T>(p: Option<T>, zero: T): T
  {
    match p
    case Some(v) => v
    case None => zero
  }

  /** Ceiling of `a / b` for a positive divisor (`Math.ceil` of an exact quotient). */
  function CeilDiv(a: int, b: int): (r: int)
    requires b > 0
    ensures (r - 1) * b < a <= r * b
  {
    -((-a) / b)
  }

  function DigitChar(d: int): (c: char)
    requires 0 <= d < 10
    ensures '0' <= c <= '9'
    ensures c as int - '0' as int == d
  {
    ('0' as int + d) as char
  }

  function Pow10(w: nat): (p: nat)
    ensures p >= 1
  {
    if w == 0 then 1 else 10 * Pow10(w - 1)
  }

  predicate AllDigits(s: string)
  {
    forall i :: 0 <= i < |s| ==> '0' <= s[i] <= '9'
  }

  /** The number a string of decimal digits spells. */
  function DigitsValue(s: string): (v: nat)
    requires AllDigits(s)
    ensures v < Pow10(|s|)
  {
    if s == [] then 0 else DigitsValue(s[..|s| - 1]) * 10 + (s[|s| - 1] as int - '0' as int)
  }

  /** Decimal text of a natural number, as `String(n)` prints it: the digits spell n. */
  function NatToString(n: nat): (s: string)
    ensures |s| >= 1 && AllDigits(s)
    ensures n >= 10 ==> s[0] != '0'
    ensures DigitsValue(s) == n
  {
    if n < 10 then [DigitChar(n)]
    else
      var p := NatToString(n / 10);
      var s := p + [DigitChar(n % 10)];
      assert s[..|s| - 1] == p;
      s
  }

  /** Decimal text of an integer: a `-` before the digits of its magnitude when negative. */
  function IntToString(i: int): (s: string)
    ensures |s| >= 1
    ensures (s[0] == '-') <==> i < 0
    ensures i >= 0 ==> s == NatToString(i)
    ensures i < 0 ==> s == "-" + NatToString(-i)
  {
    if i < 0 then "-" + NatToString(-i) else NatToString(i)
  }
}
