/**
 * The JavaScript string built-ins the store and the parsers rely on:
 * `split` with a one-character separator, `trim`, `endsWith`, `padStart`,
 * decimal `toString` of a non-negative integer and `parseInt` of a digit run.
 */
module JsStrings {

  /** The characters `String.prototype.trim` removes: ECMAScript WhiteSpace and LineTerminator. */
  predicate IsWhiteSpace(c: char) {
    c == '\t' || c == '\n' || c == '\U{000B}' || c == '\U{000C}' || c == '\r' || c == ' '
    || c == '\U{00A0}' || c == '\U{1680}' || ('\U{2000}' <= c <= '\U{200A}')
    || c == '\U{2028}' || c == '\U{2029}' || c == '\U{202F}' || c == '\U{205F}'
    || c == '\U{3000}' || c == '\U{FEFF}'
  }

  /** `s.trimEnd()`: drops the trailing white space, keeps everything before it. */
  function TrimEnd(s: string): (r: string)
    ensures |r| <= |s| && r == s[..|r|]
    ensures forall i | |r| <= i < |s| :: IsWhiteSpace(s[i])
    ensures r == [] || !IsWhiteSpace(r[|r| - 1])
  {
    if s == [] || !IsWhiteSpace(s[|s| - 1]) then s else TrimEnd(s[..|s| - 1])
  }

  /** `s.trimStart()`: drops the leading white space, keeps everything after it. */
  function TrimStart(s: string): (r: string)
    ensures |r| <= |s| && r == s[|s| - |r|..]
    ensures forall i | 0 <= i < |s| - |r| :: IsWhiteSpace(s[i])
    ensures r == [] || !IsWhiteSpace(r[0])
  {
    if s == [] || !IsWhiteSpace(s[0]) then s else TrimStart(s[1..])
  }

  /** `s.trim()`: neither end of the result is white space; `TrimDropsOuterWhiteSpace` says what was dropped. */
  function Trim(s: string): (r: string)
    ensures |r| <= |s|
    ensures r == [] || (!IsWhiteSpace(r[0]) && !IsWhiteSpace(r[|r| - 1]))
  {
    TrimStart(TrimEnd(s))
  }

  /** `r` is the slice `s[i..j]`, and everything of `s` outside the slice is white space. */
  predicate OuterWhiteSpaceDropped(s: string, r: string, i: int, j: int) {
    0 <= i <= j <= |s| && r == s[i..j]
    && (forall k | 0 <= k < i :: IsWhiteSpace(s[k])) && (forall k | j <= k < |s| :: IsWhiteSpace(s[k]))
  }

  /**
   * `trim` keeps a middle slice of its input: everything before the slice and
   * everything after it is white space, and the slice neither starts nor ends
   * with white space.
   */
  lemma TrimDropsOuterWhiteSpace(s: string)
    ensures exists i, j :: OuterWhiteSpaceDropped(s, Trim(s), i, j)
    ensures Trim(s) == [] || (!IsWhiteSpace(Trim(s)[0]) && !IsWhiteSpace(Trim(s)[|Trim(s)| - 1]))
  {
    var e := TrimEnd(s);
    var r := TrimStart(e);
    assert r == Trim(s);
    var i, j := |e| - |r|, |e|;
    assert r == s[..j][i..j];
    forall k | 0 <= k < i
      ensures IsWhiteSpace(s[k])
    {
      assert s[k] == e[k];
    }
    assert OuterWhiteSpaceDropped(s, r, i, j);
  }

  /** Text that starts and ends with a digit has nothing to trim. */
  lemma TrimDigitEnds(s: string)
    requires s != [] && IsDigit(s[0]) && IsDigit(s[|s| - 1])
    ensures Trim(s) == s
  {
    assert TrimEnd(s) == s;
  }

  /** `s.endsWith(suffix)`. */
  predicate EndsWith(s: string, suffix: string) {
    |suffix| <= |s| && s[|s| - |suffix|..] == suffix
  }

  /** The inverse of `Split`: the parts glued back together with the separator between them. */
  function Join(parts: seq<string>, sep: char): string
    requires |parts| >= 1
  {
    if |parts| == 1 then parts[0] else parts[0] + [sep] + Join(parts[1..], sep)
  }

  /** `s.split(sep)` for a one-character separator. */
  function Split(s: string, sep: char): (parts: seq<string>)
    ensures |parts| >= 1
  {
    if s == [] then [[]]
    else
      var rest := Split(s[1..], sep);
      if s[0] == sep then [[]] + rest
      else [[s[0]] + rest[0]] + rest[1..]
  }

  /**
   * No part of `s.split(sep)` holds the separator, and joining the parts gives
   * `s` back (so `"".split(",")` is `[""]` and `"a,,b".split(",")` is
   * `["a", "", "b"]`).
   */
  lemma {:induction false} SplitJoinsBack(s: string, sep: char)
    ensures forall i | 0 <= i < |Split(s, sep)| :: sep !in Split(s, sep)[i]
    ensures Join(Split(s, sep), sep) == s
  {
    if s != [] {
      var rest := Split(s[1..], sep);
      SplitJoinsBack(s[1..], sep);
      var parts := Split(s, sep);
      if s[0] == sep {
        assert parts[1..] == rest;
      } else {
        assert parts[1..] == rest[1..];
        assert parts[0] == [s[0]] + rest[0];
        if |rest| > 1 {
          assert Join(rest, sep) == rest[0] + [sep] + Join(rest[1..], sep);
        }
      }
    }
  }

  /** A string that holds the separator splits into at least two parts. */
  lemma {:induction false} SplitAtSeparator(s: string, sep: char)
    requires sep in s
    ensures |Split(s, sep)| >= 2
  {
    if s[0] != sep {
      SplitAtSeparator(s[1..], sep);
    }
  }

  /** A string that splits into one part holds no separator. */
  lemma {:induction false} SplitOnePart(s: string, sep: char)
    ensures |Split(s, sep)| == 1 ==> sep !in s
  {
    if s != [] {
      SplitOnePart(s[1..], sep);
      assert s == [s[0]] + s[1..];
    }
  }

  /** A string without the separator splits into itself alone. */
  lemma {:induction false} SplitWithoutSeparator(a: string, sep: char)
    requires sep !in a
    ensures Split(a, sep) == [a]
  {
    if a != [] {
      assert a[0] in a;
      SplitWithoutSeparator(a[1..], sep);
      assert a == [a[0]] + a[1..];
    }
  }

  /** Splitting `a + sep + b` where `a` holds no separator peels off `a` as the first part. */
  lemma {:induction false} SplitAfterSeparator(a: string, sep: char, b: string)
    requires sep !in a
    ensures Split(a + [sep] + b, sep) == [a] + Split(b, sep)
  {
    if a == [] {
      assert a + [sep] + b == [sep] + b;
      assert ([sep] + b)[1..] == b;
    } else {
      var s := a + [sep] + b;
      SplitAfterSeparator(a[1..], sep, b);
      assert s[1..] == a[1..] + [sep] + b;
      assert s[0] == a[0] && s[0] != sep;
      var rest := Split(s[1..], sep);
      assert rest == [a[1..]] + Split(b, sep);
      assert [s[0]] + rest[0] == a;
    }
  }

  /** The round trip the other way: splitting joined separator-free parts gives the parts back. */
  lemma {:induction false} SplitJoin(parts: seq<string>, sep: char)
    requires |parts| >= 1
    requires forall i | 0 <= i < |parts| :: sep !in parts[i]
    ensures Split(Join(parts, sep), sep) == parts
  {
    if |parts| == 1 {
      SplitWithoutSeparator(parts[0], sep);
    } else {
      SplitJoin(parts[1..], sep);
      SplitAfterSeparator(parts[0], sep, Join(parts[1..], sep));
    }
  }

  predicate IsDigit(c: char) {
    '0' <= c <= '9'
  }

  predicate AllDigits(s: string) {
    forall i | 0 <= i < |s| :: IsDigit(s[i])
  }

  function Pow10(k: nat): (p: nat)
    ensures p >= 1
  {
    if k == 0 then 1 else 10 * Pow10(k - 1)
  }

  /** The decimal value of a run of ASCII digits, as `parseInt(s, 10)` and `Number(s)` read it. */
  function DigitsValue(s: string): (n: nat)
    requires AllDigits(s)
    ensures n < Pow10(|s|)
  {
    if s == [] then 0 else DigitsValue(s[..|s| - 1]) * 10 + ((s[|s| - 1] as int) - ('0' as int))
  }

  /** Reading `a + b` shifts `a` left by as many decimal places as `b` has digits. */
  lemma {:induction false} DigitsValueConcat(a: string, b: string)
    requires AllDigits(a) && AllDigits(b)
    ensures AllDigits(a + b)
    ensures DigitsValue(a + b) == DigitsValue(a) * Pow10(|b|) + DigitsValue(b)
  {
    if b == [] {
      assert a + b == a;
    } else {
      var b' := b[..|b| - 1];
      assert (a + b)[..|a + b| - 1] == a + b';
      DigitsValueConcat(a, b');
      var d := (b[|b| - 1] as int) - ('0' as int);
      var x, p, y := DigitsValue(a), Pow10(|b'|), DigitsValue(b');
      assert DigitsValue(a + b) == (x * p + y) * 10 + d;
      assert DigitsValue(b) == y * 10 + d;
      assert Pow10(|b|) == p * 10;
      ShiftDigit(x, p, y, d);
    }
  }

  lemma ShiftDigit(x: int, p: int, y: int, d: int)
    ensures (x * p + y) * 10 + d == x * (p * 10) + (y * 10 + d)
  {
  }

  /** `fill` repeated `n` times. */
  function Repeat(fill: char, n: nat): (r: string)
    ensures |r| == n && forall i | 0 <= i < n :: r[i] == fill
  {
    if n == 0 then [] else [fill] + Repeat(fill, n - 1)
  }

  /** Leading zeros do not change the value of a digit run. */
  lemma {:induction false} LeadingZeros(n: nat, s: string)
    requires AllDigits(s)
    ensures AllDigits(Repeat('0', n) + s) && DigitsValue(Repeat('0', n) + s) == DigitsValue(s)
  {
    var z := Repeat('0', n);
    DigitsValueConcat(z, s);
    ZerosValue(n);
  }

  lemma {:induction false} ZerosValue(n: nat)
    ensures AllDigits(Repeat('0', n)) && DigitsValue(Repeat('0', n)) == 0
  {
    if n > 0 {
      ZerosValue(n - 1);
      var z := Repeat('0', n);
      assert z[..n - 1] == Repeat('0', n - 1);
    }
  }

  /** `s.padStart(len, fill)`: `s` itself when already long enough, else `s` behind enough copies of `fill`. */
  function PadStart(s: string, len: nat, fill: char): (r: string)
    ensures |r| == if |s| >= len then |s| else len
    ensures r[|r| - |s|..] == s
    ensures forall i | 0 <= i < |r| - |s| :: r[i] == fill
  {
    if |s| >= len then s else Repeat(fill, len - |s|) + s
  }

  function DigitChar(d: nat): (c: char)
    requires d < 10
    ensures IsDigit(c) && (c as int) - ('0' as int) == d
  {
    (('0' as int) + d) as char
  }

  /** `n.toString()` for a non-negative integer: its shortest decimal digit run. */
  function ToDecimal(n: nat): (s: string)
    ensures AllDigits(s) && DigitsValue(s) == n
    ensures 1 <= |s| && (s[0] == '0' ==> n == 0)
  {
    if n < 10 then [DigitChar(n)]
    else
      var s := ToDecimal(n / 10) + [DigitChar(n % 10)];
      assert s[..|s| - 1] == ToDecimal(n / 10);
      s
  }

  /** A number below `10^k` is written with at most `k` digits. */
  lemma {:induction false} ToDecimalLength(n: nat, k: nat)
    requires 1 <= k && n < Pow10(k)
    ensures |ToDecimal(n)| <= k
  {
    if n >= 10 {
      ToDecimalLength(n / 10, k - 1);
    }
  }
}
