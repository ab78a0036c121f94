/**
 * The seed parser `parseBhaktiChallenges` of `scripts/seed/raw2json.js`: it
 * reads the raw text line by line, opens a challenge at each title line,
 * remembers each first line of a doha, turns each second line into a doha of
 * the latest challenge, fails on any other line once a challenge is open, and
 * finally sorts the challenges by id.
 */
module SeedRaw2Json {
  import opened Wrappers
  import opened JsStrings
  import opened JsSort
  import opened RawText
  import opened LineLoop

  /** The two danda marks exactly as the file spells them. */
  const FirstDanda: string := "ред"
  const SecondDanda: string := "рее"

  datatype Doha = Doha(id: nat, line1: string, line2: string, challengeId: nat, sequence: nat, line: nat)

  datatype Challenge = Challenge(id: nat, title: string, dohas: seq<Doha>, category: Option<string>)

  /** The two ways the loop stops: the `Error` it throws, and reading `line1` of a still-null `dohaToAdd`. */
  datatype ParseError = Unrecognized(line: string) | NoFirstLine(line: string)

  /** The loop's variables: the challenges so far and the first line `dohaToAdd` carries (`None` while it is null). */
  datatype Parser = Parser(challenges: seq<Challenge>, dohaToAdd: Option<string>)

  /** The variables before the first line. */
  function Start(): Parser {
    Parser([], None)
  }

  /** One pass of the loop body over `line`. */
  function Step(p: Parser, line: string, patterns: Patterns): Result<Parser, ParseError> {
    var t := Trim(line);
    if t == "" then Success(p)
    else match patterns.title(t)
      case Some(m) =>
        Success(p.(challenges := p.challenges + [Challenge(m.number, Trim(m.name), [], Category(m.rest))]))
      case None =>
        if p.challenges == [] then Success(p)
        else match FirstLine(t, FirstDanda)
          case Some(text) => Success(p.(dohaToAdd := Some(text + FirstDanda)))
          case None =>
            match patterns.line2(t)
            case None => Failure(Unrecognized(t))
            case Some(v) => if p.dohaToAdd.None? then Failure(NoFirstLine(t)) else Success(AddDoha(p, v))
  }

  /**
   * A second line's doha appended to the latest challenge: numbered one past
   * that challenge's dohas, with the remembered first line, and its id built
   * from the challenge id and that number.
   */
  function AddDoha(p: Parser, v: VerseMatch): Parser
    requires p.challenges != [] && p.dohaToAdd.Some?
  {
    var n := |p.challenges| - 1;
    var last := p.challenges[n];
    var sequence := |last.dohas| + 1;
    var doha := Doha(DohaId(last.id, sequence), p.dohaToAdd.value, Trim(v.text) + SecondDanda,
      last.id, sequence, v.number);
    Parser(p.challenges[..n] + [last.(dohas := last.dohas + [doha])], Some(doha.line1))
  }

  /** The loop body as a function of the variables and the line. */
  function StepOf(patterns: Patterns): (Parser, string) -> Result<Parser, ParseError> {
    (p: Parser, line: string) => Step(p, line, patterns)
  }

  /** The loop run over `lines`, stopping at the first line that throws. */
  function Run(lines: seq<string>, patterns: Patterns): Result<Parser, ParseError> {
    Fold(Start(), lines, StepOf(patterns))
  }

  /** `(a, b) => a.id - b.id`. */
  function ById(a: Challenge, b: Challenge): int {
    a.id - b.id
  }

  function IdOf(c: Challenge): int {
    c.id
  }

  /** What `parseBhaktiChallenges(rawText)` returns or throws. */
  function Parsed(rawText: string, patterns: Patterns): Result<seq<Challenge>, ParseError> {
    match Run(Lines(rawText), patterns)
    case Failure(e) => Failure(e)
    case Success(p) => Success(SortWith(p.challenges, ById))
  }

  /**
   * The body of the loop of `parseBhaktiChallenges` on one line, with the
   * challenges built so far and the pending `dohaToAdd`: it pushes a new
   * challenge, replaces `dohaToAdd`, appends a doha to the latest challenge,
   * or throws.
   */
  method ReadLine(p: Parser, line: string, patterns: Patterns) returns (r: Result<Parser, ParseError>)
    ensures r == Step(p, line, patterns)
  {
    var challenges, dohaToAdd := p.challenges, p.dohaToAdd;
    var trimmedLine := Trim(line);
    if trimmedLine != "" {
      var title := patterns.title(trimmedLine);
      if title.Some? {
        var challenge := Challenge(title.value.number, Trim(title.value.name), [], Category(title.value.rest));
        challenges := challenges + [challenge];
      } else if |challenges| > 0 {
        var last := challenges[|challenges| - 1];
        var dohaMatch1 := FirstLine(trimmedLine, FirstDanda);
        var dohaMatch2 := patterns.line2(trimmedLine);
        if dohaMatch1.Some? {
          dohaToAdd := Some(dohaMatch1.value + FirstDanda);
        } else if dohaMatch2.Some? {
          if dohaToAdd.None? {
            return Failure(NoFirstLine(trimmedLine));
          }
          var sequence := |last.dohas| + 1;
          var doha := Doha(DohaId(last.id, sequence), dohaToAdd.value, Trim(dohaMatch2.value.text) + SecondDanda,
            last.id, sequence, dohaMatch2.value.number);
          dohaToAdd := Some(doha.line1);
          challenges := challenges[..|challenges| - 1] + [last.(dohas := last.dohas + [doha])];
          assert Parser(challenges, dohaToAdd) == AddDoha(p, dohaMatch2.value);
        } else {
          return Failure(Unrecognized(trimmedLine));
        }
      }
    }
    r := Success(Parser(challenges, dohaToAdd));
  }

  /**
   * `parseBhaktiChallenges` (and `raw2Json`, which returns its result): the
   * loop over the lines of `rawText`, stopping at the first line that throws,
   * then the sort by id.
   */
  method ParseBhaktiChallenges(rawText: string, patterns: Patterns) returns (r: Result<seq<Challenge>, ParseError>)
    ensures r == Parsed(rawText, patterns)
  {
    var lines := Lines(rawText);
    var parser := Start();
    for i := 0 to |lines|
      invariant Run(lines[..i], patterns) == Success(parser)
    {
      FoldPrefix(Start(), lines, i, StepOf(patterns));
      var next := ReadLine(parser, lines[i], patterns);
      if next.Failure? {
        FoldFailureSticks(Start(), lines, i + 1, StepOf(patterns));
        return Failure(next.error);
      }
      parser := next.value;
    }
    assert lines[..|lines|] == lines;
    r := Success(SortWith(parser.challenges, ById));
  }

  /** A line that is blank once trimmed, or any non-title line before the first title, leaves the variables as they were. */
  lemma StepSkips(p: Parser, line: string, patterns: Patterns)
    requires Trim(line) == "" || (p.challenges == [] && patterns.title(Trim(line)).None?)
    ensures Step(p, line, patterns) == Success(p)
  {
  }

  /** A title line opens one new, empty challenge after the others and touches nothing else. */
  lemma TitleOpensChallenge(p: Parser, line: string, patterns: Patterns)
    requires Trim(line) != "" && patterns.title(Trim(line)).Some?
    ensures var m, r := patterns.title(Trim(line)).value, Step(p, line, patterns);
      r.Success? && r.value.dohaToAdd == p.dohaToAdd
      && r.value.challenges == p.challenges + [Challenge(m.number, Trim(m.name), [], Category(m.rest))]
  {
  }

  /**
   * A first line of an open challenge is remembered, with its danda, as the
   * pending `dohaToAdd`; the challenges are left as they were.
   */
  lemma FirstLineRemembered(p: Parser, line: string, patterns: Patterns)
    requires var t := Trim(line); (t != "" && patterns.title(t).None? && p.challenges != []
      && FirstLine(t, FirstDanda).Some?)
    ensures Step(p, line, patterns) == Success(p.(dohaToAdd := Some(FirstLine(Trim(line), FirstDanda).value + FirstDanda)))
  {
  }

  /**
   * A first line followed by a second line adds one doha to the latest
   * challenge whose first line is the text of that first line, trimmed, with
   * its danda, and whose second line is the matched verse text with its
   * double danda.
   */
  lemma FirstThenSecondLine(p: Parser, first: string, second: string, patterns: Patterns)
    requires var t := Trim(first); (t != "" && patterns.title(t).None? && p.challenges != []
      && FirstLine(t, FirstDanda).Some?)
    requires var t := Trim(second); (t != "" && patterns.title(t).None?
      && FirstLine(t, FirstDanda).None? && patterns.line2(t).Some?)
    ensures var q := Step(p, first, patterns);
      && q.Success? && Step(q.value, second, patterns).Success?
      && var cs, n := Step(q.value, second, patterns).value.challenges, |p.challenges| - 1;
      && |cs| == |p.challenges| && cs[..n] == p.challenges[..n]
      && |cs[n].dohas| == |p.challenges[n].dohas| + 1
      && var d := cs[n].dohas[|p.challenges[n].dohas|];
      && d.line1 == FirstLine(Trim(first), FirstDanda).value + FirstDanda
      && d.line2 == Trim(patterns.line2(Trim(second)).value.text) + SecondDanda
  {
    FirstLineRemembered(p, first, patterns);
    var q := Step(p, first, patterns).value;
    SecondLineAddsDoha(q, second, patterns);
    var n := |p.challenges| - 1;
    var cs := Step(q, second, patterns).value.challenges;
    assert cs[n] == cs[n..][0];
  }

  /**
   * The loop fails on a line exactly when, with a challenge open, the trimmed
   * line is neither a title nor a first line: with `Unrecognized` when it is
   * not a second line either, and with `NoFirstLine` when it is a second line
   * but no first line has been seen yet.
   */
  lemma StepFails(p: Parser, line: string, patterns: Patterns)
    ensures var t := Trim(line); var other := t != "" && patterns.title(t).None? && p.challenges != []
      && FirstLine(t, FirstDanda).None?;
      && (Step(p, line, patterns) == Failure(Unrecognized(t)) <==> other && patterns.line2(t).None?)
      && (Step(p, line, patterns) == Failure(NoFirstLine(t)) <==> other && patterns.line2(t).Some? && p.dohaToAdd.None?)
      && (Step(p, line, patterns).Failure? <==> other && (patterns.line2(t).None? || p.dohaToAdd.None?))
  {
  }

  /**
   * A second line, with a first line remembered, adds one doha to the latest
   * challenge and to no other: its first line is the remembered one, its
   * sequence is one past the challenge's doha count, and it belongs to that
   * challenge.
   */
  lemma SecondLineAddsDoha(p: Parser, line: string, patterns: Patterns)
    requires var t := Trim(line); (t != "" && patterns.title(t).None? && p.challenges != []
      && FirstLine(t, FirstDanda).None? && patterns.line2(t).Some? && p.dohaToAdd.Some?)
    ensures var r, n := Step(p, line, patterns), |p.challenges| - 1;
      && r.Success? && |r.value.challenges| == |p.challenges|
      && r.value.challenges[..n] == p.challenges[..n]
      && var before, after := p.challenges[n], r.value.challenges[n];
      && after.id == before.id && after.title == before.title && after.category == before.category
      && |after.dohas| == |before.dohas| + 1 && after.dohas[..|before.dohas|] == before.dohas
      && var d := after.dohas[|before.dohas|];
      && d.line1 == p.dohaToAdd.value && d.sequence == |before.dohas| + 1 && d.challengeId == before.id
      && d.line == patterns.line2(Trim(line)).value.number
      && r.value.dohaToAdd == p.dohaToAdd
  {
    var n := |p.challenges| - 1;
    var cs := Step(p, line, patterns).value.challenges;
    assert cs[n] == cs[n..][0];
  }

  /** The lines before the first title are ignored: the loop over `preamble + rest` ends as the loop over `rest` does. */
  lemma PreambleIgnored(preamble: seq<string>, rest: seq<string>, patterns: Patterns)
    requires forall i | 0 <= i < |preamble| :: patterns.title(Trim(preamble[i])).None?
    ensures Run(preamble + rest, patterns) == Run(rest, patterns)
  {
    forall i | 0 <= i < |preamble|
      ensures StepOf(patterns)(Start(), preamble[i]) == Success(Start())
    {
      StepSkips(Start(), preamble[i], patterns);
    }
    FoldIdle(Start(), preamble, StepOf(patterns));
    FoldAfterRestart(Start(), preamble, rest, StepOf(patterns));
  }

  /**
   * Every doha of `c` is numbered by its place in the challenge (1, 2, 3, …),
   * belongs to `c`, carries the id built from the two numbers, and ends its
   * lines with the two dandas.
   */
  predicate NumberedDohas(c: Challenge) {
    forall i | 0 <= i < |c.dohas| ::
      c.dohas[i].sequence == i + 1 && c.dohas[i].challengeId == c.id && c.dohas[i].id == DohaId(c.id, i + 1)
      && EndsWith(c.dohas[i].line1, FirstDanda) && EndsWith(c.dohas[i].line2, SecondDanda)
  }

  /** What holds of the loop's variables between lines. */
  predicate WellFormed(p: Parser) {
    (forall c | c in p.challenges :: NumberedDohas(c))
    && (p.dohaToAdd.Some? ==> EndsWith(p.dohaToAdd.value, FirstDanda))
  }

  lemma EndsWithAppended(text: string, suffix: string)
    ensures EndsWith(text + suffix, suffix)
  {
    assert (text + suffix)[|text|..] == suffix;
  }

  /** Adding a correctly numbered doha to the latest challenge keeps every challenge numbered. */
  lemma AddDohaKeepsNumbered(cs: seq<Challenge>, doha: Doha)
    requires cs != [] && forall c | c in cs :: NumberedDohas(c)
    requires var last := cs[|cs| - 1]; var sequence := |last.dohas| + 1;
      (doha.sequence == sequence && doha.challengeId == last.id && doha.id == DohaId(last.id, sequence)
      && EndsWith(doha.line1, FirstDanda) && EndsWith(doha.line2, SecondDanda))
    ensures var n := |cs| - 1;
      forall c | c in cs[..n] + [cs[n].(dohas := cs[n].dohas + [doha])] :: NumberedDohas(c)
  {
    var n := |cs| - 1;
    var grown := cs[n].(dohas := cs[n].dohas + [doha]);
    assert cs[n] in cs;
    NumberedAppend(cs[n], doha);
    forall c | c in cs[..n] + [grown]
      ensures NumberedDohas(c)
    {
      if c != grown {
        PrefixMember(cs, n, c);
      }
    }
  }

  lemma PrefixMember(cs: seq<Challenge>, n: nat, c: Challenge)
    requires n <= |cs| && c in cs[..n]
    ensures c in cs
  {
    var j :| 0 <= j < n && cs[..n][j] == c;
    assert cs[j] == c;
  }

  /** A doha numbered next, belonging to `c` and ending its lines with the dandas, keeps `c` numbered. */
  lemma NumberedAppend(c: Challenge, doha: Doha)
    requires NumberedDohas(c)
    requires var sequence := |c.dohas| + 1;
      (doha.sequence == sequence && doha.challengeId == c.id && doha.id == DohaId(c.id, sequence)
      && EndsWith(doha.line1, FirstDanda) && EndsWith(doha.line2, SecondDanda))
    ensures NumberedDohas(c.(dohas := c.dohas + [doha]))
  {
    var grown := c.dohas + [doha];
    forall i | 0 <= i < |grown|
      ensures grown[i].sequence == i + 1 && grown[i].challengeId == c.id && grown[i].id == DohaId(c.id, i + 1)
        && EndsWith(grown[i].line1, FirstDanda) && EndsWith(grown[i].line2, SecondDanda)
    {
      if i < |c.dohas| {
        assert grown[i] == c.dohas[i];
      }
    }
  }

  lemma AddDohaKeepsWellFormed(p: Parser, v: VerseMatch)
    requires WellFormed(p) && p.challenges != [] && p.dohaToAdd.Some?
    ensures WellFormed(AddDoha(p, v))
  {
    var last := p.challenges[|p.challenges| - 1];
    var sequence := |last.dohas| + 1;
    var doha := Doha(DohaId(last.id, sequence), p.dohaToAdd.value, Trim(v.text) + SecondDanda,
      last.id, sequence, v.number);
    EndsWithAppended(Trim(v.text), SecondDanda);
    AddDohaKeepsNumbered(p.challenges, doha);
  }

  /** Each pass of the loop body keeps the variables well formed. */
  lemma StepKeepsWellFormed(p: Parser, line: string, patterns: Patterns)
    requires WellFormed(p) && Step(p, line, patterns).Success?
    ensures WellFormed(Step(p, line, patterns).value)
  {
    var t := Trim(line);
    if t == "" || patterns.title(t).Some? || p.challenges == [] {
    } else if FirstLine(t, FirstDanda).Some? {
      EndsWithAppended(FirstLine(t, FirstDanda).value, FirstDanda);
    } else {
      SecondLineKeepsWellFormed(p, line, patterns);
    }
  }

  lemma SecondLineKeepsWellFormed(p: Parser, line: string, patterns: Patterns)
    requires WellFormed(p) && Step(p, line, patterns).Success?
    requires var t := Trim(line); (t != "" && patterns.title(t).None? && p.challenges != []
      && FirstLine(t, FirstDanda).None?)
    ensures WellFormed(Step(p, line, patterns).value)
  {
    var v := patterns.line2(Trim(line)).value;
    assert Step(p, line, patterns) == Success(AddDoha(p, v));
    AddDohaKeepsWellFormed(p, v);
  }

  /** Whenever the loop gets through the lines, its variables are well formed. */
  lemma RunWellFormed(lines: seq<string>, patterns: Patterns)
    requires Run(lines, patterns).Success?
    ensures WellFormed(Run(lines, patterns).value)
  {
    forall p, line | WellFormed(p) && StepOf(patterns)(p, line).Success?
      ensures WellFormed(StepOf(patterns)(p, line).value)
    {
      StepKeepsWellFormed(p, line, patterns);
    }
    FoldKeeps(Start(), lines, StepOf(patterns), WellFormed);
  }

  lemma IdOfRanks()
    ensures IsKeyComparator(ById, IdOf)
  {
  }

  /**
   * On success the result holds the challenges the loop built, each exactly as
   * often, in ascending id order, with challenges that share an id kept in the
   * order the text gave them.
   */
  lemma ParsedSortedById(rawText: string, patterns: Patterns)
    requires Run(Lines(rawText), patterns).Success?
    ensures var built, r := Run(Lines(rawText), patterns).value.challenges, Parsed(rawText, patterns);
      && r.Success? && multiset(r.value) == multiset(built) && SortedByKey(r.value, IdOf)
      && forall id :: FilterKey(r.value, IdOf, id) == FilterKey(built, IdOf, id)
  {
    var built := Run(Lines(rawText), patterns).value.challenges;
    SortWithPermutes(built, ById);
    IdOfRanks();
    SortWithSorted(built, ById, IdOf);
    forall id
      ensures FilterKey(SortWith(built, ById), IdOf, id) == FilterKey(built, IdOf, id)
    {
      SortWithStable(built, ById, IdOf, id);
    }
  }

  /**
   * Every doha of the result is numbered densely within its challenge and
   * belongs to it, and among the first 99 of a challenge its id is
   * `challengeId * 100 + sequence`.
   */
  lemma ParsedDohasNumbered(rawText: string, patterns: Patterns)
    requires Parsed(rawText, patterns).Success?
    ensures forall c | c in Parsed(rawText, patterns).value :: NumberedDohas(c)
    ensures forall c, d | c in Parsed(rawText, patterns).value && d in c.dohas && d.sequence <= 99 ::
      d.id == d.challengeId * 100 + d.sequence
  {
    var lines := Lines(rawText);
    RunWellFormed(lines, patterns);
    var built := Run(lines, patterns).value.challenges;
    var r := Parsed(rawText, patterns).value;
    assert r == SortWith(built, ById);
    SortWithPermutes(built, ById);
    forall c | c in r
      ensures NumberedDohas(c)
    {
      assert c in multiset(built);
    }
    forall c, d | c in r && d in c.dohas && d.sequence <= 99
      ensures d.id == d.challengeId * 100 + d.sequence
    {
      var i :| 0 <= i < |c.dohas| && c.dohas[i] == d;
      DohaIdDecimal(c.id, i + 1);
    }
  }
}
