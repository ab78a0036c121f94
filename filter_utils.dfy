/**
 * `filterChallenges` (`stores/utils.ts`): when the whole filter string matches
 * the grammar, the challenges whose id one of its comma-separated pieces names
 * are kept, in their input order; any other string keeps the list as it is.
 */
module FilterUtils {
  import opened Wrappers
  import opened Challenges
  import opened JsStrings
  import opened JsNumbers
  import opened FilterGrammar

  /** `Math.max(...challengeData.map((c) => c.id))`; `None` stands for the `-Infinity` of an empty list. */
  function MaxId(cs: seq<Challenge>): (m: Option<int>)
    ensures m.None? <==> cs == []
    ensures m.Some? ==> (forall c | c in cs :: c.id <= m.value) && (exists c | c in cs :: c.id == m.value)
  {
    if cs == [] then None
    else
      var rest := MaxId(cs[1..]);
      assert forall c | c in cs :: c == cs[0] || c in cs[1..];
      if rest.None? || cs[0].id > rest.value then Some(cs[0].id)
      else
        var c :| c in cs[1..] && c.id == rest.value;
        assert c in cs;
        rest
  }

  /** The integers from `lo` to `hi`, both included, as the `for` loops add them. */
  function Interval(lo: int, hi: int): set<int>
    decreases hi - lo
  {
    if lo > hi then {} else Interval(lo, hi - 1) + {hi}
  }

  /** The interval holds exactly the integers between its ends, and nothing when `lo > hi`. */
  lemma {:induction false} IntervalMembers(lo: int, hi: int, x: int)
    ensures x in Interval(lo, hi) <==> lo <= x <= hi
    decreases hi - lo
  {
    if lo <= hi {
      IntervalMembers(lo, hi - 1, x);
    }
  }

  /** The ids one comma-separated piece adds to the set (the three branches of the `forEach`). */
  function PartIds(part: string, maxId: Option<int>): set<int> {
    if EndsWith(part, "+") then FromIds(JsNumber(part[..|part| - 1]), maxId)
    else if '-' in part then RangeIds(part)
    else SingleIds(JsNumber(part))
  }

  /** `a-b`: `Number` of the first two pieces of `split('-')`, and the ids between them. */
  function RangeIds(part: string): set<int>
    requires '-' in part
  {
    var pieces := Split(part, '-');
    SplitAtSeparator(part, '-');
    BetweenIds(JsNumber(pieces[0]), JsNumber(pieces[1]))
  }

  /** From `start` up to the largest id, when both are numbers. */
  function FromIds(start: Num, maxId: Option<int>): set<int> {
    if start.NaN? || maxId.None? then {} else Interval(start.value, maxId.value)
  }

  /** From `start` to `end`, when both are numbers. */
  function BetweenIds(start: Num, end: Num): set<int> {
    if start.NaN? || end.NaN? then {} else Interval(start.value, end.value)
  }

  /** The id itself, when it is a number. */
  function SingleIds(id: Num): set<int> {
    if id.NaN? then {} else {id.value}
  }

  /** The id set after the pieces `parts`, added one after another. */
  function IdsOf(parts: seq<string>, maxId: Option<int>): set<int> {
    if parts == [] then {}
    else IdsOf(parts[..|parts| - 1], maxId) + PartIds(parts[|parts| - 1], maxId)
  }

  /** `challengeData.filter((challenge) => ids.has(challenge.id))`. */
  function KeepIds(cs: seq<Challenge>, ids: set<int>): seq<Challenge> {
    if cs == [] then []
    else KeepIds(cs[..|cs| - 1], ids) + (if cs[|cs| - 1].id in ids then [cs[|cs| - 1]] else [])
  }

  /** What `filterChallenges(challengeData, filterString)` returns. */
  function FilterSpec(cs: seq<Challenge>, filterString: string): seq<Challenge> {
    if MatchesFilter(filterString) then KeepIds(cs, IdsOf(Split(filterString, ','), MaxId(cs)))
    else cs
  }

  /**
   * `filterChallenges`: a copy of the input unless the filter matches; then the
   * id set is built piece by piece and the challenges whose id is in it are kept.
   */
  method FilterChallenges(challengeData: seq<Challenge>, filterString: string) returns (filtered: seq<Challenge>)
    ensures filtered == FilterSpec(challengeData, filterString)
  {
    filtered := challengeData;
    if MatchesFilter(filterString) {
      var ids: set<int> := {};
      var parts := Split(filterString, ',');
      var maxId := MaxId(challengeData);
      var k := 0;
      while k < |parts|
        invariant 0 <= k <= |parts|
        invariant ids == IdsOf(parts[..k], maxId)
      {
        ids := AddPart(ids, parts[k], maxId);
        assert parts[..k + 1][..k] == parts[..k];
        k := k + 1;
      }
      assert parts[..k] == parts;
      filtered := KeepMatching(challengeData, ids);
    }
  }

  /** One turn of the `forEach`: the ids of one piece added to the set. */
  method AddPart(ids: set<int>, part: string, maxId: Option<int>) returns (r: set<int>)
    ensures r == ids + PartIds(part, maxId)
  {
    if EndsWith(part, "+") {
      var start := JsNumber(part[..|part| - 1]);
      r := AddFrom(ids, start, maxId);
    } else if '-' in part {
      var pieces := Split(part, '-');
      SplitAtSeparator(part, '-');
      var start, end := JsNumber(pieces[0]), JsNumber(pieces[1]);
      r := AddBetween(ids, start, end);
    } else {
      var id := JsNumber(part);
      r := AddSingle(ids, id);
    }
  }

  method AddFrom(ids: set<int>, start: Num, maxId: Option<int>) returns (r: set<int>)
    ensures r == ids + FromIds(start, maxId)
  {
    r := ids;
    if start.Finite? && maxId.Some? {
      r := AddRange(r, start.value, maxId.value);
    }
  }

  method AddSingle(ids: set<int>, id: Num) returns (r: set<int>)
    ensures r == ids + SingleIds(id)
  {
    r := ids;
    if id.Finite? {
      r := r + {id.value};
    }
  }

  method AddBetween(ids: set<int>, start: Num, end: Num) returns (r: set<int>)
    ensures r == ids + BetweenIds(start, end)
  {
    r := ids;
    if start.Finite? && end.Finite? {
      r := AddRange(r, start.value, end.value);
    }
  }

  /** `for (let i = lo; i <= hi; i++) ids.add(i)`. */
  method AddRange(ids: set<int>, lo: int, hi: int) returns (r: set<int>)
    ensures r == ids + Interval(lo, hi)
  {
    r := ids;
    var i := lo;
    while i <= hi
      invariant lo <= i && (i > lo ==> i <= hi + 1)
      invariant r == ids + Interval(lo, i - 1)
    {
      r := r + {i};
      i := i + 1;
    }
    assert i == lo || i == hi + 1;
  }

  /** `challengeData.filter((challenge) => ids.has(challenge.id))`. */
  method KeepMatching(challengeData: seq<Challenge>, ids: set<int>) returns (filtered: seq<Challenge>)
    ensures filtered == KeepIds(challengeData, ids)
  {
    filtered := [];
    var j := 0;
    while j < |challengeData|
      invariant 0 <= j <= |challengeData|
      invariant filtered == KeepIds(challengeData[..j], ids)
    {
      assert challengeData[..j + 1][..j] == challengeData[..j];
      if challengeData[j].id in ids {
        filtered := filtered + [challengeData[j]];
      }
      j := j + 1;
    }
    assert challengeData[..j] == challengeData;
  }

  /** A challenge is kept exactly when it is in the input and its id is in the set. */
  lemma {:induction false} KeepIdsMembers(cs: seq<Challenge>, ids: set<int>, c: Challenge)
    ensures c in KeepIds(cs, ids) <==> c in cs && c.id in ids
  {
    if cs != [] {
      var init, last := cs[..|cs| - 1], cs[|cs| - 1];
      KeepIdsMembers(init, ids, c);
      assert cs == init + [last];
    }
  }

  /** `a` is `b` with some elements left out, the rest in their order. */
  predicate SubsequenceOf<T(==)>(a: seq<T>, b: seq<T>)
    decreases |b|
  {
    if a == [] then true
    else if b == [] then false
    else if a[|a| - 1] == b[|b| - 1] then SubsequenceOf(a[..|a| - 1], b[..|b| - 1])
    else SubsequenceOf(a, b[..|b| - 1])
  }

  /** The kept challenges are an order-preserving subsequence of the input. */
  lemma {:induction false} KeepIdsSubsequence(cs: seq<Challenge>, ids: set<int>)
    ensures SubsequenceOf(KeepIds(cs, ids), cs)
  {
    if cs != [] {
      var init := cs[..|cs| - 1];
      KeepIdsSubsequence(init, ids);
      var r := KeepIds(cs, ids);
      if cs[|cs| - 1].id in ids {
        assert r[..|r| - 1] == KeepIds(init, ids);
      } else {
        assert r == KeepIds(init, ids);
        SubsequenceOfDrop(r, init, cs);
      }
    }
  }

  /** A subsequence of `b` without its last element is a subsequence of `b`. */
  lemma {:induction false} SubsequenceOfDrop<T>(a: seq<T>, init: seq<T>, b: seq<T>)
    requires b != [] && init == b[..|b| - 1] && SubsequenceOf(a, init)
    ensures SubsequenceOf(a, b)
    decreases |b|, 1
  {
    if a != [] && a[|a| - 1] == b[|b| - 1] {
      SubsequenceOfShrink(a, init);
    }
  }

  lemma {:induction false} SubsequenceOfShrink<T>(a: seq<T>, b: seq<T>)
    requires a != [] && SubsequenceOf(a, b)
    ensures SubsequenceOf(a[..|a| - 1], b)
    decreases |b|, 2
  {
    var a', b' := a[..|a| - 1], b[..|b| - 1];
    if a[|a| - 1] != b[|b| - 1] {
      SubsequenceOfShrink(a, b');
    }
    SubsequenceOfDrop(a', b', b);
  }

  /** No element is kept more often than the input holds it, however often its id is named. */
  lemma {:induction false} KeepIdsMultiset(cs: seq<Challenge>, ids: set<int>)
    ensures multiset(KeepIds(cs, ids)) <= multiset(cs)
    ensures |KeepIds(cs, ids)| <= |cs|
  {
    if cs != [] {
      var init := cs[..|cs| - 1];
      KeepIdsMultiset(init, ids);
      assert cs == init + [cs[|cs| - 1]];
    }
  }

  /** The ids a token names. */
  function TokenIds(t: Token, maxId: Option<int>): set<int> {
    match t
    case Single(n) => {n}
    case Range(lo, hi) => Interval(lo, hi)
    case From(lo) => if maxId.None? then {} else Interval(lo, maxId.value)
    case RangeFrom(_, _) => {}
  }

  /** Digit runs have no white space for `Number` to trim. */
  lemma TrimDigits(d: string)
    requires AllDigits(d)
    ensures Trim(d) == d
  {
    if d != [] {
      TrimDigitEnds(d);
    }
  }

  lemma DigitsHaveNo(d: string, c: char)
    requires AllDigits(d) && !IsDigit(c)
    ensures c !in d
  {
  }

  /**
   * What each token shape adds, read off the code's three branches: `n` adds `n`,
   * `a-b` adds `a` to `b`, `a+` adds `a` up to the largest id present, and `a-b+`
   * adds nothing because `Number("a-b")` is NaN.
   */
  lemma PartIdsOfToken(p: string, maxId: Option<int>)
    requires IsToken(p)
    ensures PartIds(p, maxId) == TokenIds(TokenOf(p), maxId)
  {
    var t := TokenOf(p);
    if t.Single? {
      TokenOfReads(p);
      SingleTokenIds(p, maxId);
    } else if t.From? {
      FromCase(p, maxId);
    } else if t.Range? {
      RangeCase(p, maxId);
    } else {
      RangeFromCase(p, maxId);
    }
  }

  lemma FromCase(p: string, maxId: Option<int>)
    requires IsToken(p) && TokenOf(p).From?
    ensures PartIds(p, maxId) == TokenIds(TokenOf(p), maxId)
  {
    TokenOfReads(p);
    var d := p[..|p| - 1];
    assert p == d + "+";
    FromTokenIds(d, maxId);
  }

  lemma RangeCase(p: string, maxId: Option<int>)
    requires IsToken(p) && TokenOf(p).Range?
    ensures PartIds(p, maxId) == TokenIds(TokenOf(p), maxId)
  {
    TokenOfReads(p);
    var n := LeadingDigits(p);
    var d, e := p[..n], p[n + 1..];
    assert p == d + "-" + e;
    RangeTokenIds(d, e, maxId);
  }

  lemma RangeFromCase(p: string, maxId: Option<int>)
    requires IsToken(p) && TokenOf(p).RangeFrom?
    ensures PartIds(p, maxId) == TokenIds(TokenOf(p), maxId)
  {
    TokenOfReads(p);
    var n := LeadingDigits(p);
    var d, e := p[..n], p[n + 1..|p| - 1];
    assert p == d + "-" + e + "+";
    RangeFromTokenIds(d, e, maxId);
  }

  lemma SingleTokenIds(d: string, maxId: Option<int>)
    requires d != [] && AllDigits(d)
    ensures PartIds(d, maxId) == {DigitsValue(d)}
  {
    TrimDigits(d);
    JsNumberDigits(d);
    DigitsHaveNo(d, '-');
    assert d[|d| - 1] != '+';
  }

  lemma FromTokenIds(d: string, maxId: Option<int>)
    requires d != [] && AllDigits(d)
    ensures PartIds(d + "+", maxId) == if maxId.None? then {} else Interval(DigitsValue(d), maxId.value)
  {
    var p := d + "+";
    assert p[..|p| - 1] == d;
    TrimDigits(d);
    JsNumberDigits(d);
  }

  lemma RangeTokenIds(d: string, e: string, maxId: Option<int>)
    requires d != [] && e != [] && AllDigits(d) && AllDigits(e)
    ensures PartIds(d + "-" + e, maxId) == Interval(DigitsValue(d), DigitsValue(e))
  {
    var p := d + "-" + e;
    assert p[|p| - 1] == e[|e| - 1];
    assert !EndsWith(p, "+");
    assert p[|d|] == '-';
    DigitsHaveNo(d, '-');
    DigitsHaveNo(e, '-');
    SplitAfterSeparator(d, '-', e);
    SplitWithoutSeparator(e, '-');
    assert Split(p, '-') == [d, e];
    TrimDigits(d);
    TrimDigits(e);
    JsNumberDigits(d);
    JsNumberDigits(e);
    assert PartIds(p, maxId) == RangeIds(p);
  }

  lemma RangeFromTokenIds(d: string, e: string, maxId: Option<int>)
    requires d != [] && e != [] && AllDigits(d) && AllDigits(e)
    ensures PartIds(d + "-" + e + "+", maxId) == {}
  {
    var p := d + "-" + e + "+";
    assert p[..|p| - 1] == d + "-" + e;
    RangeIsNaN(d, e);
  }

  /** `Number("a-b")` is NaN. */
  lemma RangeIsNaN(d: string, e: string)
    requires d != [] && e != [] && AllDigits(d) && AllDigits(e)
    ensures JsNumber(d + "-" + e) == NaN
  {
    var q := d + "-" + e;
    assert q[0] == d[0] && q[|q| - 1] == e[|e| - 1] && q[|d|] == '-';
    TrimDigitEnds(q);
    JsNumberDigits(q);
  }

  /** The tokens of a grammatical filter, piece by piece. */
  function TokensOf(parts: seq<string>): (ts: seq<Token>)
    requires forall i | 0 <= i < |parts| :: IsToken(parts[i])
    ensures |ts| == |parts| && forall i | 0 <= i < |parts| :: ts[i] == TokenOf(parts[i])
  {
    if parts == [] then []
    else TokensOf(parts[..|parts| - 1]) + [TokenOf(parts[|parts| - 1])]
  }

  /** The ids the tokens name between them. */
  function TokensIds(ts: seq<Token>, maxId: Option<int>): set<int> {
    if ts == [] then {}
    else TokensIds(ts[..|ts| - 1], maxId) + TokenIds(ts[|ts| - 1], maxId)
  }

  lemma {:induction false} IdsOfTokens(parts: seq<string>, maxId: Option<int>)
    requires forall i | 0 <= i < |parts| :: IsToken(parts[i])
    ensures IdsOf(parts, maxId) == TokensIds(TokensOf(parts), maxId)
  {
    if parts != [] {
      var init := parts[..|parts| - 1];
      IdsOfTokens(init, maxId);
      PartIdsOfToken(parts[|parts| - 1], maxId);
      assert TokensOf(parts)[..|parts| - 1] == TokensOf(init);
    }
  }

  lemma {:induction false} TokensIdsMembers(ts: seq<Token>, maxId: Option<int>, id: int)
    ensures id in TokensIds(ts, maxId) <==> exists i | 0 <= i < |ts| :: id in TokenIds(ts[i], maxId)
  {
    if ts != [] {
      var init := ts[..|ts| - 1];
      TokensIdsMembers(init, maxId, id);
      if id in TokensIds(init, maxId) {
        var i :| 0 <= i < |init| && id in TokenIds(init[i], maxId);
        assert init[i] == ts[i];
      }
      if exists i | 0 <= i < |ts| :: id in TokenIds(ts[i], maxId) {
        var i :| 0 <= i < |ts| && id in TokenIds(ts[i], maxId);
        if i < |init| {
          assert init[i] == ts[i];
        }
      }
    }
  }

  /** The tokens of a grammatical filter string. */
  function FilterTokens(filterString: string): seq<Token>
    requires MatchesFilter(filterString)
  {
    MatchesBySplit(filterString);
    assert forall i | 0 <= i < |Split(filterString, ',')| :: IsToken(Split(filterString, ',')[i]);
    TokensOf(Split(filterString, ','))
  }

  /** On a grammatical filter, the id set the code builds is the one its tokens name. */
  lemma FilterIdsAreTokenIds(cs: seq<Challenge>, filterString: string)
    requires MatchesFilter(filterString)
    ensures IdsOf(Split(filterString, ','), MaxId(cs)) == TokensIds(FilterTokens(filterString), MaxId(cs))
  {
    MatchesBySplit(filterString);
    IdsOfTokens(Split(filterString, ','), MaxId(cs));
  }

  /**
   * On a grammatical filter a challenge is kept exactly when it is in the input
   * and one of the filter's tokens names its id.
   */
  lemma FilterSelects(cs: seq<Challenge>, filterString: string, c: Challenge)
    requires MatchesFilter(filterString)
    ensures c in FilterSpec(cs, filterString) <==>
      c in cs && exists t | t in FilterTokens(filterString) :: c.id in TokenIds(t, MaxId(cs))
  {
    var ts := FilterTokens(filterString);
    FilterIdsAreTokenIds(cs, filterString);
    KeepIdsMembers(cs, TokensIds(ts, MaxId(cs)), c);
    TokensIdsMembers(ts, MaxId(cs), c.id);
    if exists t | t in ts :: c.id in TokenIds(t, MaxId(cs)) {
      var t :| t in ts && c.id in TokenIds(t, MaxId(cs));
      var i :| 0 <= i < |ts| && ts[i] == t;
    }
  }

  /** An open range `a+` names every present id from `a` on, and none below it. */
  lemma FromNamesAtLeast(cs: seq<Challenge>, lo: nat, c: Challenge)
    requires c in cs
    ensures c.id in TokenIds(From(lo), MaxId(cs)) <==> c.id >= lo
  {
    IntervalMembers(lo, MaxId(cs).value, c.id);
  }

  /** A string outside the grammar, such as these, keeps the whole list in its order. */
  lemma RejectedFiltersKeepAll(cs: seq<Challenge>)
    ensures FilterSpec(cs, "") == cs && FilterSpec(cs, "1, 2, 3") == cs && FilterSpec(cs, "-1,2,3") == cs
    ensures FilterSpec(cs, "1--3") == cs && FilterSpec(cs, "abc+,def+") == cs
  {
    RejectedFilters();
  }
}
