/**
 * The grammar a filter string must match before `filterChallenges` reads it:
 * the regular expression `^\d+(-\d+)?(\+)?(,\d+(-\d+)?(\+)?)*$`, written as a
 * recursive recognizer that reads the string left to right. A digit run is
 * always taken whole, since no character that may follow one is a digit.
 */
module FilterGrammar {
  import opened JsStrings

  /** The number of digits at the start of `s`. */
  function LeadingDigits(s: string): (n: nat)
    ensures n <= |s| && AllDigits(s[..n])
    ensures n < |s| ==> !IsDigit(s[n])
  {
    if s == [] || !IsDigit(s[0]) then 0
    else
      var n := 1 + LeadingDigits(s[1..]);
      assert s[..n] == [s[0]] + s[1..][..n - 1];
      n
  }

  /** The whole pattern: a token `\d+(-\d+)?(\+)?` first, then the rest of the list. */
  predicate MatchesFilter(s: string)
    decreases |s|, 3
  {
    var n := LeadingDigits(s);
    n > 0 && AfterStart(s[n..])
  }

  /** What may follow a token's first number: `(-\d+)?(\+)?` and the rest of the list. */
  predicate AfterStart(r: string)
    decreases |r|, 2
  {
    if r != [] && r[0] == '-' then
      var m := LeadingDigits(r[1..]);
      m > 0 && AfterEnd(r[1 + m..])
    else AfterEnd(r)
  }

  /** What may follow a token's numbers: `(\+)?` and the rest of the list. */
  predicate AfterEnd(r: string)
    decreases |r|, 1
  {
    if r != [] && r[0] == '+' then AfterToken(r[1..]) else AfterToken(r)
  }

  /** What may follow a whole token: the end of the string, or a comma and another list. */
  predicate AfterToken(r: string)
    decreases |r|, 0
  {
    r == [] || (r[0] == ',' && MatchesFilter(r[1..]))
  }

  /** The four shapes a comma-free piece of a grammatical filter can take. */
  datatype Token =
    | Single(id: nat)                 // "n"
    | Range(lo: nat, hi: nat)         // "a-b"
    | From(lo: nat)                   // "a+"
    | RangeFrom(lo: nat, hi: nat)     // "a-b+"

  /** A piece between commas that the pattern accepts. */
  predicate IsToken(p: string) {
    ',' !in p && MatchesFilter(p)
  }

  /** The shape of a token and the values of the digit runs around its `-` and before its `+`. */
  function TokenOf(p: string): Token
    requires IsToken(p)
  {
    var n := LeadingDigits(p);
    var r := p[n..];
    if r != [] && r[0] == '-' then
      var m := LeadingDigits(r[1..]);
      var e := r[1..][..m];
      if r[1 + m..] == [] then Range(DigitsValue(p[..n]), DigitsValue(e))
      else RangeFrom(DigitsValue(p[..n]), DigitsValue(e))
    else if r == [] then Single(DigitsValue(p[..n]))
    else From(DigitsValue(p[..n]))
  }

  /**
   * A token is written as its shape says, with its numbers: `n` is a digit run,
   * `a+` one followed by `+`, `a-b` two around the `-` that ends the first run,
   * and `a-b+` the same followed by `+`, each number the value of the digit
   * run at its place.
   */
  lemma TokenOfReads(p: string)
    requires IsToken(p)
    ensures var t, n := TokenOf(p), LeadingDigits(p);
      && (t.Single? ==> p != [] && AllDigits(p) && DigitsValue(p) == t.id)
      && (t.From? ==> |p| >= 2 && p[|p| - 1] == '+' && AllDigits(p[..|p| - 1]) && DigitsValue(p[..|p| - 1]) == t.lo)
      && (t.Range? || t.RangeFrom? ==> 0 < n < |p| && p[n] == '-' && AllDigits(p[..n]) && DigitsValue(p[..n]) == t.lo)
      && (t.Range? ==> n < |p| - 1 && AllDigits(p[n + 1..]) && DigitsValue(p[n + 1..]) == t.hi)
      && (t.RangeFrom? ==> (|p| >= 4 && n < |p| - 2 && p[|p| - 1] == '+'
        && AllDigits(p[n + 1..|p| - 1]) && DigitsValue(p[n + 1..|p| - 1]) == t.hi))
  {
    var n := LeadingDigits(p);
    var d, r := p[..n], p[n..];
    assert p == d + r;
    NoCharInSuffix(p, ',', n);
    AfterEndOfPiece(r);
    if r != [] && r[0] == '-' {
      TokenWithDash(p);
    } else if r == [] {
      assert p == d;
    } else {
      assert r == "+";
      assert p[..|p| - 1] == d;
    }
  }

  lemma TokenWithDash(p: string)
    requires IsToken(p) && LeadingDigits(p) < |p| && p[LeadingDigits(p)] == '-'
    ensures var t, n := TokenOf(p), LeadingDigits(p);
      && (t.Range? || t.RangeFrom?) && 0 < n && AllDigits(p[..n]) && DigitsValue(p[..n]) == t.lo
      && (t.Range? ==> n < |p| - 1 && AllDigits(p[n + 1..]) && DigitsValue(p[n + 1..]) == t.hi)
      && (t.RangeFrom? ==> (|p| >= 4 && n < |p| - 2 && p[|p| - 1] == '+'
        && AllDigits(p[n + 1..|p| - 1]) && DigitsValue(p[n + 1..|p| - 1]) == t.hi))
  {
    var n := LeadingDigits(p);
    var m := LeadingDigits(p[n..][1..]);
    DashShape(p);
    DashPieces(p, n, m);
  }

  /** The digit run after the `-` reaches to the end of the piece, or to the `+` that ends it. */
  lemma DashPieces(p: string, n: nat, m: nat)
    requires n < |p| && n + 1 + m <= |p|
    requires p[n..][1 + m..] == [] || p[n..][1 + m..] == "+"
    ensures p[n..][1..][..m] == if n + 1 + m == |p| then p[n + 1..] else p[n + 1..|p| - 1]
    ensures n + 1 + m < |p| ==> |p| == n + 2 + m && p[|p| - 1] == '+'
  {
    assert p[n..][1..] == p[n + 1..];
    if n + 1 + m < |p| {
      assert |p[n..][1 + m..]| == 1;
      assert p[|p| - 1] == p[n..][1 + m..][0];
    }
  }

  /** After a token's first number and its `-` come a non-empty digit run and then nothing or a `+`. */
  lemma DashShape(p: string)
    requires IsToken(p) && LeadingDigits(p) < |p| && p[LeadingDigits(p)] == '-'
    ensures var n := LeadingDigits(p); var r := p[n..]; var m := LeadingDigits(r[1..]);
      n > 0 && m > 0 && (r[1 + m..] == [] || r[1 + m..] == "+")
  {
    var n := LeadingDigits(p);
    var r := p[n..];
    var m := LeadingDigits(r[1..]);
    assert MatchesFilter(p);
    assert AfterStart(r);
    NoCharInSuffix(p, ',', n);
    NoCharInSuffix(r, ',', 1 + m);
    AfterEndOfPiece(r[1 + m..]);
  }

  /** Within a comma-free piece, `(\+)?` followed by the end of the list leaves only "" or "+". */
  lemma AfterEndOfPiece(r: string)
    requires ',' !in r
    ensures AfterStart(r) && (r == [] || r[0] != '-') ==> r == [] || r == "+"
    ensures AfterEnd(r) ==> r == [] || r == "+"
  {
    if r != [] && r[0] == '+' {
      if |r| > 1 {
        assert r[1] in r;
        assert !AfterToken(r[1..]);
      }
      assert r == "+" + r[1..];
    } else if r != [] {
      assert r[0] in r;
      assert !AfterToken(r);
      assert !AfterEnd(r);
    }
    assert r == [] || r[0] != '-' ==> (AfterStart(r) <==> AfterEnd(r));
  }

  /** The pattern accepts nothing that holds a character other than a digit, `-`, `+` or `,`. */
  lemma {:induction false} MatchesOnlyFilterCharacters(s: string)
    requires MatchesFilter(s)
    ensures forall i | 0 <= i < |s| :: IsDigit(s[i]) || s[i] in "-+,"
  {
    MatchesChars(s);
  }

  lemma {:induction false} MatchesChars(s: string)
    requires MatchesFilter(s)
    ensures forall i | 0 <= i < |s| :: IsDigit(s[i]) || s[i] in "-+,"
    decreases |s|, 3
  {
    var n := LeadingDigits(s);
    AfterStartChars(s[n..]);
    assert s == s[..n] + s[n..];
  }

  lemma {:induction false} AfterStartChars(r: string)
    requires AfterStart(r)
    ensures forall i | 0 <= i < |r| :: IsDigit(r[i]) || r[i] in "-+,"
    decreases |r|, 2
  {
    if r != [] && r[0] == '-' {
      var m := LeadingDigits(r[1..]);
      AfterEndChars(r[1 + m..]);
      assert r == [r[0]] + r[1..][..m] + r[1 + m..];
    } else {
      AfterEndChars(r);
    }
  }

  lemma {:induction false} AfterEndChars(r: string)
    requires AfterEnd(r)
    ensures forall i | 0 <= i < |r| :: IsDigit(r[i]) || r[i] in "-+,"
    decreases |r|, 1
  {
    if r != [] && r[0] == '+' {
      AfterTokenChars(r[1..]);
      assert r == [r[0]] + r[1..];
    } else {
      AfterTokenChars(r);
    }
  }

  lemma {:induction false} AfterTokenChars(r: string)
    requires AfterToken(r)
    ensures forall i | 0 <= i < |r| :: IsDigit(r[i]) || r[i] in "-+,"
    decreases |r|, 0
  {
    if r != [] {
      MatchesChars(r[1..]);
      assert r == [r[0]] + r[1..];
    }
  }

  /** A comma (or the end) after a digit run does not lengthen the run. */
  lemma {:induction false} LeadingDigitsThenRest(t: string, r: string)
    requires r == [] || r[0] == ','
    ensures LeadingDigits(t + r) == LeadingDigits(t)
  {
    if t == [] {
      assert t + r == r;
    } else {
      assert (t + r)[0] == t[0] && (t + r)[1..] == t[1..] + r;
      LeadingDigitsThenRest(t[1..], r);
    }
  }

  lemma NoCharInSuffix(t: string, c: char, n: nat)
    requires c !in t && n <= |t|
    ensures c !in t[n..]
  {
    forall i | 0 <= i < |t[n..]|
      ensures t[n..][i] != c
    {
      assert t[n..][i] == t[n + i];
    }
  }

  /**
   * A comma-free piece followed by the rest of the list: the pattern accepts the
   * whole exactly when the piece is a token and the rest continues the list.
   */
  lemma MatchesThenRest(t: string, r: string)
    requires ',' !in t && (r == [] || r[0] == ',')
    ensures MatchesFilter(t + r) <==> MatchesFilter(t) && AfterToken(r)
  {
    LeadingDigitsThenRest(t, r);
    var n := LeadingDigits(t);
    assert (t + r)[n..] == t[n..] + r;
    if n > 0 {
      NoCharInSuffix(t, ',', n);
      AfterStartThenRest(t[n..], r);
    }
  }

  lemma AfterStartThenRest(t: string, r: string)
    requires ',' !in t && (r == [] || r[0] == ',')
    ensures AfterStart(t + r) <==> AfterStart(t) && AfterToken(r)
  {
    if t != [] && t[0] == '-' {
      DashThenRest(t, r);
    } else {
      assert t == [] ==> t + r == r;
      AfterEndThenRest(t, r);
    }
  }

  lemma DashThenRest(t: string, r: string)
    requires ',' !in t && (r == [] || r[0] == ',') && t != [] && t[0] == '-'
    ensures AfterStart(t + r) <==> AfterStart(t) && AfterToken(r)
  {
    assert (t + r)[0] == '-' && (t + r)[1..] == t[1..] + r;
    LeadingDigitsThenRest(t[1..], r);
    var m := LeadingDigits(t[1..]);
    assert (t + r)[1 + m..] == t[1 + m..] + r;
    NoCharInSuffix(t, ',', 1 + m);
    AfterEndThenRest(t[1 + m..], r);
  }

  lemma AfterEndThenRest(t: string, r: string)
    requires ',' !in t && (r == [] || r[0] == ',')
    ensures AfterEnd(t + r) <==> AfterEnd(t) && AfterToken(r)
  {
    if t != [] && t[0] == '+' {
      assert (t + r)[0] == '+' && (t + r)[1..] == t[1..] + r;
      NoCharInSuffix(t, ',', 1);
      AfterTokenThenRest(t[1..], r);
    } else {
      assert t == [] ==> t + r == r;
      AfterTokenThenRest(t, r);
    }
  }

  lemma AfterTokenThenRest(t: string, r: string)
    requires ',' !in t && (r == [] || r[0] == ',')
    ensures AfterToken(t + r) <==> t == [] && AfterToken(r)
  {
    if t == [] {
      assert t + r == r;
    } else {
      assert (t + r)[0] == t[0] && t[0] in t;
    }
  }

  /**
   * The pattern read list-wise: a string matches exactly when every piece of its
   * `split(',')` is a token (so "" and a string with an empty piece do not).
   */
  lemma {:induction false} MatchesBySplit(s: string)
    ensures MatchesFilter(s) <==> forall i | 0 <= i < |Split(s, ',')| :: IsToken(Split(s, ',')[i])
    decreases |s|
  {
    var parts := Split(s, ',');
    SplitJoinsBack(s, ',');
    if |parts| > 1 {
      var rest := Join(parts[1..], ',');
      MatchesFirstPiece(s);
      MatchesBySplit(rest);
      AllTokensCons(parts);
    } else {
      SplitOnePart(s, ',');
      assert s == Join(parts, ',') == parts[0];
      assert Split(s, ',') == parts;
    }
  }

  /** With a comma in it, a string matches when its first piece is a token and the text after the comma matches. */
  lemma MatchesFirstPiece(s: string)
    requires |Split(s, ',')| > 1
    ensures var parts := Split(s, ','); var rest := Join(parts[1..], ',');
      && |rest| < |s| && Split(rest, ',') == parts[1..]
      && (MatchesFilter(s) <==> IsToken(parts[0]) && MatchesFilter(rest))
  {
    var parts := Split(s, ',');
    SplitJoinsBack(s, ',');
    var t, rest := parts[0], Join(parts[1..], ',');
    assert s == t + [','] + rest;
    assert t + [','] + rest == t + ([','] + rest);
    MatchesThenRest(t, [','] + rest);
    assert ([','] + rest)[1..] == rest;
    SplitAfterSeparator(t, ',', rest);
  }

  lemma AllTokensCons(parts: seq<string>)
    requires parts != []
    ensures (forall i | 0 <= i < |parts| :: IsToken(parts[i]))
      <==> IsToken(parts[0]) && forall i | 0 <= i < |parts[1..]| :: IsToken(parts[1..][i])
  {
    if IsToken(parts[0]) && forall i | 0 <= i < |parts[1..]| :: IsToken(parts[1..][i]) {
      forall i | 0 <= i < |parts|
        ensures IsToken(parts[i])
      {
        if i > 0 {
          assert parts[i] == parts[1..][i - 1];
        }
      }
    }
  }

  /** Strings the store's filter input rejects, so they leave the list as it is. */
  lemma RejectedFilters()
    ensures !MatchesFilter("") && !MatchesFilter("1, 2, 3") && !MatchesFilter("-1,2,3")
    ensures !MatchesFilter("1--3") && !MatchesFilter("abc+,def+") && !MatchesFilter("1,")
  {
  }
}
