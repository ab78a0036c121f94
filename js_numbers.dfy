/**
 * The JavaScript number operations the store relies on: the remainder operator
 * `%` (which truncates toward zero and gives NaN for a zero divisor) and
 * `Number(str)` on the strings a filter token can produce.
 */
module JsNumbers {
  import opened JsStrings

  /** A JavaScript number as far as the model needs one: an integer, or NaN. */
  datatype Num = Finite(value: int) | NaN

  function Abs(x: int): nat {
    if x < 0 then -x else x
  }

  /** The quotient of JavaScript's remainder: `a / n` rounded toward zero. */
  function TruncDiv(a: int, n: int): int
    requires n != 0
  {
    var q := Abs(a) / Abs(n);
    if (a >= 0) == (n > 0) then q else -q
  }

  /**
   * `a % n` in JavaScript: the remainder of truncating division. It takes the
   * sign of `a`, is smaller than `|n|` in magnitude, and `a` is `n` times the
   * truncated quotient plus it; a zero divisor gives NaN rather than an
   * exception. (JavaScript's `-0`, as in `-3 % 3`, is modelled as 0.)
   */
  function JsRem(a: int, n: int): (r: Num)
    ensures r.NaN? <==> n == 0
    ensures r.Finite? ==> Abs(r.value) < Abs(n) && a == n * TruncDiv(a, n) + r.value
    ensures r.Finite? ==> (a >= 0 ==> r.value >= 0) && (a <= 0 ==> r.value <= 0)
  {
    if n == 0 then NaN
    else
      TruncatedRemainder(a, n);
      var m := Abs(n);
      if a >= 0 then Finite(a % m) else Finite(-((-a) % m))
  }

  /** The quotient and remainder of truncating division put `a` back together. */
  lemma TruncatedRemainder(a: int, n: int)
    requires n != 0
    ensures var m := Abs(n);
      a == n * TruncDiv(a, n) + (if a >= 0 then a % m else -((-a) % m))
  {
    var m: int := Abs(n);
    var q: int := Abs(a) / m;
    assert Abs(a) == m * q + Abs(a) % m;
    if n < 0 {
      Negate(m, q);
      Negate(m, -q);
    }
  }

  lemma Negate(x: int, y: int)
    ensures (-x) * y == -(x * y)
  {
  }

  /** On a non-negative dividend JavaScript's remainder agrees with the Euclidean one. */
  lemma JsRemNonNegative(a: nat, n: nat)
    requires n > 0
    ensures JsRem(a, n) == Finite(a % n)
  {
  }

  /** `-1 % n` is `-1` for every length `n` above one, as the store's data-index test expects. */
  lemma JsRemMinusOne(n: nat)
    requires n > 1
    ensures JsRem(-1, n) == Finite(-1)
  {
  }

  /**
   * `Number(s)` for the strings built from digits, a sign and white space: white
   * space around the text is ignored, the empty string is 0, a digit run with an
   * optional sign is its decimal value, and anything else is NaN.
   */
  function JsNumber(s: string): Num {
    var t := Trim(s);
    if AllDigits(t) then Finite(DigitsValue(t))
    else if (t[0] == '-' || t[0] == '+') && |t| > 1 && AllDigits(t[1..]) then
      Finite(if t[0] == '-' then 0 - DigitsValue(t[1..]) else DigitsValue(t[1..]))
    else NaN
  }

  /**
   * `Number` reads a digit run, with white space around it, as its decimal
   * value, and text that starts with a digit but holds something else as NaN.
   */
  lemma JsNumberDigits(s: string)
    ensures AllDigits(Trim(s)) ==> JsNumber(s) == Finite(DigitsValue(Trim(s)))
    ensures var t := Trim(s); t != [] && IsDigit(t[0]) && !AllDigits(t) ==> JsNumber(s) == NaN
  {
  }
}
