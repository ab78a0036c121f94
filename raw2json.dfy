/**
 * The older parser `parseBhaktiChallenges` of `scripts/raw2json.js`: it reads
 * the raw text line by line, opens a challenge at each title line, remembers
 * each first line of a doha and decides from it which book the latest
 * challenge belongs to, turns each second line into a verse of the latest
 * challenge, keeps every other line of an open challenge as a loose entry,
 * and finally sorts the challenges by id.
 */
module Raw2Json {
  import opened Wrappers
  import opened JsStrings
  import opened JsSort
  import opened RawText
  import opened LineLoop

  const Danda: string := "।"
  const DoubleDanda: string := "॥"

  /** The two books a challenge can be taken from, and the ending of a first line that marks the first. */
  const RadhaGovindGeet: string := "राधा गोविंद गीत"
  const ShyamaShyamGeet: string := "श्यामा श्याम गीत"
  const RadhaGovindRefrain: string := "गोविंद राधे"

  /**
   * What a challenge's `dohas` array holds: a verse built from a first and a
   * second line, or a line that is neither, kept as it stands.
   */
  datatype Entry =
    | Verse(line1: string, line2: string, challengeId: nat, sequence: nat, line: nat)
    | Loose(dohaText: string, dohaSequenceNumber: nat, dohaLineNumber: nat, challengeId: nat)

  datatype Challenge = Challenge(id: nat, title: string, book: string, dohas: seq<Entry>, category: Option<string>)

  /** The one way the loop stops: reading `line1` of a still-null `dohaToAdd`. */
  datatype ParseError = NoFirstLine(line: string)

  /** The loop's variables: the challenges so far and the first line `dohaToAdd` carries (`None` while it is null). */
  datatype Parser = Parser(challenges: seq<Challenge>, dohaToAdd: Option<string>)

  function Start(): Parser {
    Parser([], None)
  }

  /** The book a first line names: the first book when the line ends with the refrain, the second otherwise. */
  function BookOf(text: string): (book: string)
    ensures book == RadhaGovindGeet <==> EndsWith(text, RadhaGovindRefrain)
    ensures book == RadhaGovindGeet || book == ShyamaShyamGeet
  {
    if EndsWith(text, RadhaGovindRefrain) then RadhaGovindGeet else ShyamaShyamGeet
  }

  /** A first line, `text` before its danda: it becomes the pending first line and sets the latest challenge's book. */
  function ReadFirstLine(p: Parser, text: string): Parser
    requires p.challenges != []
  {
    var n := |p.challenges| - 1;
    Parser(p.challenges[..n] + [p.challenges[n].(book := BookOf(text))], Some(text + Danda))
  }

  /** `lastChallenge.dohas.push(e)`. */
  function Append(p: Parser, e: Entry): Parser
    requires p.challenges != []
  {
    var n := |p.challenges| - 1;
    var last := p.challenges[n];
    p.(challenges := p.challenges[..n] + [last.(dohas := last.dohas + [e])])
  }

  /** The entry one past the latest challenge's entries, of that challenge, built from a second line. */
  function NextVerse(p: Parser, v: VerseMatch): Entry
    requires p.challenges != [] && p.dohaToAdd.Some?
  {
    var last := p.challenges[|p.challenges| - 1];
    Verse(p.dohaToAdd.value, Trim(v.text) + DoubleDanda, last.id, |last.dohas| + 1, v.number)
  }

  /** The entry one past the latest challenge's entries, of that challenge, holding an unrecognised line. */
  function NextLoose(p: Parser, t: string): Entry
    requires p.challenges != []
  {
    var last := p.challenges[|p.challenges| - 1];
    Loose(Trim(t), |last.dohas| + 1, |last.dohas| + 1, last.id)
  }

  /** One pass of the loop body over `line`. */
  function Step(p: Parser, line: string, patterns: Patterns): Result<Parser, ParseError> {
    var t := Trim(line);
    if t == "" then Success(p)
    else match patterns.title(t)
      case Some(m) =>
        Success(p.(challenges := p.challenges + [Challenge(m.number, Trim(m.name), RadhaGovindGeet, [], Category(m.rest))]))
      case None => if p.challenges == [] then Success(p) else ReadOpen(p, t, patterns)
  }

  /** The loop body on a trimmed line `t` that is not a title, with a challenge open. */
  function ReadOpen(p: Parser, t: string, patterns: Patterns): Result<Parser, ParseError>
    requires p.challenges != []
  {
    match FirstLine(t, Danda)
    case Some(text) => Success(ReadFirstLine(p, text))
    case None =>
      match patterns.line2(t)
      case Some(v) => if p.dohaToAdd.None? then Failure(NoFirstLine(t)) else Success(Append(p, NextVerse(p, v)))
      case None => Success(Append(p, NextLoose(p, t)))
  }

  function StepOf(patterns: Patterns): (Parser, string) -> Result<Parser, ParseError> {
    (p: Parser, line: string) => Step(p, line, patterns)
  }

  function Run(lines: seq<string>, patterns: Patterns): Result<Parser, ParseError> {
    Fold(Start(), lines, StepOf(patterns))
  }

  /** `(a, b) => a.id - b.id`. */
  function ById(a: Challenge, b: Challenge): int {
    a.id - b.id
  }

  function IdOf(c: Challenge): int {
    c.id
  }

  /** What `parseBhaktiChallenges(rawText)` (and `parseBhaktiText`, which returns it) returns or throws. */
  function Parsed(rawText: string, patterns: Patterns): Result<seq<Challenge>, ParseError> {
    match Run(Lines(rawText), patterns)
    case Failure(e) => Failure(e)
    case Success(p) => Success(SortWith(p.challenges, ById))
  }

  /**
   * The body of the loop on one line, with the challenges built so far and the
   * pending `dohaToAdd`: it pushes a new challenge, records a first line and
   * the book, pushes a verse or a loose entry onto the latest challenge, or
   * throws.
   */
  method ReadLine(p: Parser, line: string, patterns: Patterns) returns (r: Result<Parser, ParseError>)
    ensures r == Step(p, line, patterns)
  {
    var challenges := p.challenges;
    var trimmedLine := Trim(line);
    if trimmedLine != "" {
      var title := patterns.title(trimmedLine);
      if title.Some? {
        var challenge := Challenge(title.value.number, Trim(title.value.name), RadhaGovindGeet, [], Category(title.value.rest));
        challenges := challenges + [challenge];
      } else if |challenges| > 0 {
        r := ReadDohaLine(p, trimmedLine, patterns);
        return;
      }
    }
    r := Success(p.(challenges := challenges));
  }

  /**
   * The part of the loop body for a line of an open challenge: a first line
   * sets `dohaToAdd` and the latest challenge's book, a second line pushes a
   * verse, and any other line a loose entry.
   */
  method ReadDohaLine(p: Parser, trimmedLine: string, patterns: Patterns) returns (r: Result<Parser, ParseError>)
    requires p.challenges != []
    ensures r == ReadOpen(p, trimmedLine, patterns)
  {
    var challenges, dohaToAdd := p.challenges, p.dohaToAdd;
    var n := |challenges| - 1;
    var lastChallenge := challenges[n];
    var dohaMatch1 := FirstLine(trimmedLine, Danda);
    var dohaMatch2 := patterns.line2(trimmedLine);
    if dohaMatch1.Some? {
      dohaToAdd := Some(dohaMatch1.value + Danda);
      var isRadhaGovindGeet := EndsWith(dohaMatch1.value, RadhaGovindRefrain);
      var book := if isRadhaGovindGeet then RadhaGovindGeet else ShyamaShyamGeet;
      challenges := challenges[..n] + [lastChallenge.(book := book)];
      assert Parser(challenges, dohaToAdd) == ReadFirstLine(p, dohaMatch1.value);
    } else if dohaMatch2.Some? {
      if dohaToAdd.None? {
        return Failure(NoFirstLine(trimmedLine));
      }
      var sequence := |lastChallenge.dohas| + 1;
      var verse := Verse(dohaToAdd.value, Trim(dohaMatch2.value.text) + DoubleDanda, lastChallenge.id,
        sequence, dohaMatch2.value.number);
      challenges := challenges[..n] + [lastChallenge.(dohas := lastChallenge.dohas + [verse])];
      assert verse == NextVerse(p, dohaMatch2.value);
    } else {
      var dohaText := Trim(trimmedLine);
      var dohaSequenceNumber := |lastChallenge.dohas| + 1;
      var dohaLineNumber := |lastChallenge.dohas| + 1;
      var entry := Loose(dohaText, dohaSequenceNumber, dohaLineNumber, lastChallenge.id);
      challenges := challenges[..n] + [lastChallenge.(dohas := lastChallenge.dohas + [entry])];
      assert entry == NextLoose(p, trimmedLine);
    }
    r := Success(Parser(challenges, dohaToAdd));
  }

  /** `parseBhaktiChallenges`: the loop over the lines of `rawText`, stopping if a line throws, then the sort by id. */
  method ParseBhaktiChallenges(rawText: string, patterns: Patterns) returns (r: Result<seq<Challenge>, ParseError>)
    ensures r == Parsed(rawText, patterns)
  {
    var lines := Lines(rawText);
    var parser := Start();
    for i := 0 to |lines|
      invariant Run(lines[..i], patterns) == Success(parser)
    {
      var next := ReadLine(parser, lines[i], patterns);
      RunOneMore(lines, i, patterns);
      if next.Failure? {
        RunStops(lines, i + 1, patterns);
        return Failure(next.error);
      }
      parser := next.value;
    }
    assert lines[..|lines|] == lines;
    r := Success(SortWith(parser.challenges, ById));
  }

  /** One more line: the loop over `lines[..k + 1]` is one more pass after the loop over `lines[..k]`. */
  lemma RunOneMore(lines: seq<string>, k: nat, patterns: Patterns)
    requires k < |lines| && Run(lines[..k], patterns).Success?
    ensures Run(lines[..k + 1], patterns) == Step(Run(lines[..k], patterns).value, lines[k], patterns)
  {
    FoldPrefix(Start(), lines, k, StepOf(patterns));
  }

  /** Once a line has thrown, the loop over all the lines throws the same. */
  lemma RunStops(lines: seq<string>, k: nat, patterns: Patterns)
    requires k <= |lines| && Run(lines[..k], patterns).Failure?
    ensures Run(lines, patterns) == Run(lines[..k], patterns)
  {
    FoldFailureSticks(Start(), lines, k, StepOf(patterns));
  }

  /** A line that is blank once trimmed, or any non-title line before the first title, leaves the variables as they were. */
  lemma StepSkips(p: Parser, line: string, patterns: Patterns)
    requires Trim(line) == "" || (p.challenges == [] && patterns.title(Trim(line)).None?)
    ensures Step(p, line, patterns) == Success(p)
  {
  }

  /** A title line opens one new, empty challenge of the first book after the others and touches nothing else. */
  lemma TitleOpensChallenge(p: Parser, line: string, patterns: Patterns)
    requires Trim(line) != "" && patterns.title(Trim(line)).Some?
    ensures var m, r := patterns.title(Trim(line)).value, Step(p, line, patterns);
      r.Success? && r.value.dohaToAdd == p.dohaToAdd
      && r.value.challenges == p.challenges + [Challenge(m.number, Trim(m.name), RadhaGovindGeet, [], Category(m.rest))]
  {
  }

  /**
   * The loop throws on a line exactly when, with a challenge open, the trimmed
   * line is neither a title nor a first line but is a second line, and no
   * first line has been seen yet; every other line is accepted.
   */
  lemma StepFails(p: Parser, line: string, patterns: Patterns)
    ensures var t := Trim(line);
      (Step(p, line, patterns).Failure? <==> (t != "" && patterns.title(t).None? && p.challenges != []
        && FirstLine(t, Danda).None? && patterns.line2(t).Some? && p.dohaToAdd.None?))
      && (Step(p, line, patterns).Failure? ==> Step(p, line, patterns).error == NoFirstLine(t))
  {
  }

  /**
   * A first line of an open challenge becomes the pending first line, with its
   * danda, and sets the latest challenge's book, to the first book exactly when
   * the line ends with the refrain; nothing else changes.
   */
  lemma FirstLineSetsBook(p: Parser, line: string, patterns: Patterns)
    requires var t := Trim(line); (t != "" && patterns.title(t).None? && p.challenges != []
      && FirstLine(t, Danda).Some?)
    ensures var text, r, n := FirstLine(Trim(line), Danda).value, Step(p, line, patterns), |p.challenges| - 1;
      && r.Success? && r.value.dohaToAdd == Some(text + Danda)
      && |r.value.challenges| == |p.challenges| && r.value.challenges[..n] == p.challenges[..n]
      && r.value.challenges[n] == p.challenges[n].(book := r.value.challenges[n].book)
      && (r.value.challenges[n].book == RadhaGovindGeet <==> EndsWith(text, RadhaGovindRefrain))
      && (r.value.challenges[n].book == ShyamaShyamGeet <==> !EndsWith(text, RadhaGovindRefrain))
  {
    var n := |p.challenges| - 1;
    var cs := Step(p, line, patterns).value.challenges;
    assert cs[n] == cs[n..][0];
  }

  /**
   * Any other line of an open challenge that does not throw adds one entry to
   * the latest challenge and to no other, numbered one past its entries and
   * belonging to it: a verse with the pending first line when the line is a
   * second line, the trimmed line itself otherwise.
   */
  lemma OtherLineAddsEntry(p: Parser, line: string, patterns: Patterns)
    requires var t := Trim(line); (t != "" && patterns.title(t).None? && p.challenges != []
      && FirstLine(t, Danda).None? && (patterns.line2(t).None? || p.dohaToAdd.Some?))
    ensures var t, r, n := Trim(line), Step(p, line, patterns), |p.challenges| - 1;
      && r.Success? && r.value.dohaToAdd == p.dohaToAdd
      && |r.value.challenges| == |p.challenges| && r.value.challenges[..n] == p.challenges[..n]
      && var before, after := p.challenges[n], r.value.challenges[n];
      && after == before.(dohas := after.dohas)
      && |after.dohas| == |before.dohas| + 1 && after.dohas[..|before.dohas|] == before.dohas
      && var e := after.dohas[|before.dohas|];
      && e.challengeId == before.id
      && (patterns.line2(t).Some? ==> (e.Verse? && e.line1 == p.dohaToAdd.value && e.sequence == |before.dohas| + 1
        && e.line == patterns.line2(t).value.number))
      && (patterns.line2(t).None? ==> e.Loose? && e.dohaText == t && e.dohaSequenceNumber == |before.dohas| + 1)
  {
    var t := Trim(line);
    assert Step(p, line, patterns) == ReadOpen(p, t, patterns);
    TrimTrimmed(line);
    if patterns.line2(t).Some? {
      var e := NextVerse(p, patterns.line2(t).value);
      assert ReadOpen(p, t, patterns) == Success(Append(p, e));
      AppendShape(p, e);
    } else {
      var e := NextLoose(p, t);
      assert ReadOpen(p, t, patterns) == Success(Append(p, e));
      AppendShape(p, e);
    }
  }

  /** Pushing onto the latest challenge's entries changes that challenge's entries alone. */
  lemma AppendShape(p: Parser, e: Entry)
    requires p.challenges != []
    ensures var n, q := |p.challenges| - 1, Append(p, e);
      && q.dohaToAdd == p.dohaToAdd && |q.challenges| == |p.challenges| && q.challenges[..n] == p.challenges[..n]
      && q.challenges[n] == p.challenges[n].(dohas := p.challenges[n].dohas + [e])
  {
    var n := |p.challenges| - 1;
    var cs := Append(p, e).challenges;
    assert cs[n] == cs[n..][0];
  }

  /** Trimming twice is trimming once. */
  lemma TrimTrimmed(s: string)
    ensures Trim(Trim(s)) == Trim(s)
  {
    var t := Trim(s);
    if t != [] {
      assert TrimEnd(t) == t;
      assert TrimStart(t) == t;
    }
  }

  /** The lines before the first title are ignored: the loop over `preamble + rest` ends as the loop over `rest` does. */
  lemma PreambleIgnored(preamble: seq<string>, rest: seq<string>, patterns: Patterns)
    requires forall i | 0 <= i < |preamble| :: patterns.title(Trim(preamble[i])).None?
    ensures Run(preamble + rest, patterns) == Run(rest, patterns)
  {
    forall i | 0 <= i < |preamble|
      ensures StepOf(patterns)(Start(), preamble[i]) == Success(Start())
    {
      StepSkips(Start(), preamble[i], patterns);
    }
    FoldIdle(Start(), preamble, StepOf(patterns));
    FoldAfterRestart(Start(), preamble, rest, StepOf(patterns));
  }

  /** The number an entry carries as its place in its challenge. */
  function Number(e: Entry): nat {
    if e.Verse? then e.sequence else e.dohaSequenceNumber
  }

  /**
   * Every entry of `c` is numbered by its place in the challenge (1, 2, 3, …)
   * and belongs to `c`; a verse ends its lines with the two dandas and a loose
   * entry's line number is its sequence number; the book is one of the two.
   */
  predicate NumberedEntries(c: Challenge) {
    (c.book == RadhaGovindGeet || c.book == ShyamaShyamGeet)
    && forall i | 0 <= i < |c.dohas| ::
      Number(c.dohas[i]) == i + 1 && c.dohas[i].challengeId == c.id
      && (c.dohas[i].Verse? ==> EndsWith(c.dohas[i].line1, Danda) && EndsWith(c.dohas[i].line2, DoubleDanda))
      && (c.dohas[i].Loose? ==> c.dohas[i].dohaLineNumber == c.dohas[i].dohaSequenceNumber)
  }

  /** What holds of the loop's variables between lines. */
  predicate WellFormed(p: Parser) {
    (forall c | c in p.challenges :: NumberedEntries(c))
    && (p.dohaToAdd.Some? ==> EndsWith(p.dohaToAdd.value, Danda))
  }

  lemma EndsWithAppended(text: string, suffix: string)
    ensures EndsWith(text + suffix, suffix)
  {
    assert (text + suffix)[|text|..] == suffix;
  }

  /** Replacing the latest challenge by a well-numbered one keeps every challenge well numbered. */
  lemma ReplaceLastKeepsNumbered(cs: seq<Challenge>, c': Challenge)
    requires cs != [] && (forall c | c in cs :: NumberedEntries(c)) && NumberedEntries(c')
    ensures forall c | c in cs[..|cs| - 1] + [c'] :: NumberedEntries(c)
  {
    var n := |cs| - 1;
    var after := cs[..n] + [c'];
    forall c | c in after
      ensures NumberedEntries(c)
    {
      var j :| 0 <= j < |after| && after[j] == c;
      if j < n {
        assert c == cs[j] && cs[j] in cs;
      }
    }
  }

  lemma AppendKeepsWellFormed(p: Parser, e: Entry)
    requires WellFormed(p) && p.challenges != []
    requires var last := p.challenges[|p.challenges| - 1];
      (Number(e) == |last.dohas| + 1 && e.challengeId == last.id
      && (e.Verse? ==> EndsWith(e.line1, Danda) && EndsWith(e.line2, DoubleDanda))
      && (e.Loose? ==> e.dohaLineNumber == e.dohaSequenceNumber))
    ensures WellFormed(Append(p, e))
  {
    var last := p.challenges[|p.challenges| - 1];
    assert last in p.challenges;
    ReplaceLastKeepsNumbered(p.challenges, last.(dohas := last.dohas + [e]));
  }

  lemma ReadFirstLineKeepsWellFormed(p: Parser, text: string)
    requires WellFormed(p) && p.challenges != []
    ensures WellFormed(ReadFirstLine(p, text))
  {
    var last := p.challenges[|p.challenges| - 1];
    assert last in p.challenges;
    ReplaceLastKeepsNumbered(p.challenges, last.(book := BookOf(text)));
    EndsWithAppended(text, Danda);
  }

  /** Each pass of the loop body keeps the variables well formed. */
  lemma StepKeepsWellFormed(p: Parser, line: string, patterns: Patterns)
    requires WellFormed(p) && Step(p, line, patterns).Success?
    ensures WellFormed(Step(p, line, patterns).value)
  {
    var t := Trim(line);
    if t != "" && patterns.title(t).None? && p.challenges != [] {
      assert Step(p, line, patterns) == ReadOpen(p, t, patterns);
      ReadOpenKeepsWellFormed(p, t, patterns);
    }
  }

  lemma ReadOpenKeepsWellFormed(p: Parser, t: string, patterns: Patterns)
    requires WellFormed(p) && p.challenges != [] && ReadOpen(p, t, patterns).Success?
    ensures WellFormed(ReadOpen(p, t, patterns).value)
  {
    if FirstLine(t, Danda).Some? {
      ReadFirstLineKeepsWellFormed(p, FirstLine(t, Danda).value);
    } else if patterns.line2(t).Some? {
      var v := patterns.line2(t).value;
      EndsWithAppended(Trim(v.text), DoubleDanda);
      AppendKeepsWellFormed(p, NextVerse(p, v));
    } else {
      AppendKeepsWellFormed(p, NextLoose(p, t));
    }
  }

  /** Whenever the loop gets through the lines, its variables are well formed. */
  lemma RunWellFormed(lines: seq<string>, patterns: Patterns)
    requires Run(lines, patterns).Success?
    ensures WellFormed(Run(lines, patterns).value)
  {
    forall p, line | WellFormed(p) && StepOf(patterns)(p, line).Success?
      ensures WellFormed(StepOf(patterns)(p, line).value)
    {
      StepKeepsWellFormed(p, line, patterns);
    }
    FoldKeeps(Start(), lines, StepOf(patterns), WellFormed);
  }

  lemma IdOfRanks()
    ensures IsKeyComparator(ById, IdOf)
  {
  }

  /**
   * On success the result holds the challenges the loop built, each exactly as
   * often, in ascending id order, with challenges that share an id kept in the
   * order the text gave them.
   */
  lemma ParsedSortedById(rawText: string, patterns: Patterns)
    requires Run(Lines(rawText), patterns).Success?
    ensures var built, r := Run(Lines(rawText), patterns).value.challenges, Parsed(rawText, patterns);
      && r.Success? && multiset(r.value) == multiset(built) && SortedByKey(r.value, IdOf)
      && forall id :: FilterKey(r.value, IdOf, id) == FilterKey(built, IdOf, id)
  {
    var built := Run(Lines(rawText), patterns).value.challenges;
    SortWithPermutes(built, ById);
    IdOfRanks();
    SortWithSorted(built, ById, IdOf);
    forall id
      ensures FilterKey(SortWith(built, ById), IdOf, id) == FilterKey(built, IdOf, id)
    {
      SortWithStable(built, ById, IdOf, id);
    }
  }

  /** Every challenge of the result is of one of the two books and has its entries numbered densely, each belonging to it. */
  lemma ParsedEntriesNumbered(rawText: string, patterns: Patterns)
    requires Parsed(rawText, patterns).Success?
    ensures forall c | c in Parsed(rawText, patterns).value :: NumberedEntries(c)
  {
    var lines := Lines(rawText);
    RunWellFormed(lines, patterns);
    var built := Run(lines, patterns).value.challenges;
    var r := Parsed(rawText, patterns).value;
    assert r == SortWith(built, ById);
    SortWithPermutes(built, ById);
    forall c | c in r
      ensures NumberedEntries(c)
    {
      assert c in multiset(built);
    }
  }
}
