/**
 * What the two raw-text parsers (`scripts/seed/raw2json.js` and the older
 * `scripts/raw2json.js`) share: the text split into lines, the groups their
 * title and second-line patterns capture, the first-line pattern, the optional
 * category, and the doha id built from zero-padded numbers.
 */
module RawText {
  import opened Wrappers
  import opened JsStrings

  /** The groups of a title-line match: the name before the `|`, the challenge number, and the text after a second `|`. */
  datatype TitleMatch = TitleMatch(name: string, number: nat, rest: Option<string>)

  /** The groups of a second-line match: the verse text before the double danda and the verse number after it. */
  datatype VerseMatch = VerseMatch(text: string, number: nat)

  /**
   * The patterns a parser tries on each trimmed line: `title` stands for its
   * title regular expression and `line2` for its second-line one, each giving
   * the captured groups when the line matches and `None` when it does not.
   */
  datatype Patterns = Patterns(title: string -> Option<TitleMatch>, line2: string -> Option<VerseMatch>)

  /** `rawText.split("\n")`. */
  function Lines(rawText: string): (lines: seq<string>)
    ensures |lines| >= 1 && forall i | 0 <= i < |lines| :: '\n' !in lines[i]
  {
    SplitJoinsBack(rawText, '\n');
    Split(rawText, '\n')
  }

  /** `match[3] ? match[3].trim() : undefined`: an absent or empty group gives no category. */
  function Category(rest: Option<string>): (r: Option<string>)
    ensures r.Some? <==> rest.Some? && rest.value != ""
    ensures r.Some? ==> r.value == Trim(rest.value)
  {
    match rest
    case Some(text) => if text == "" then None else Some(Trim(text))
    case None => None
  }

  /**
   * The first-line pattern `(.+)\s*D$` (or its lazy form `(.+?)\s*D$`) on a
   * trimmed line, for the danda `D`: the line must end with `D` and hold at
   * least one character before it, and either form's first group, trimmed, is
   * everything before the danda, trimmed.
   */
  function FirstLine(t: string, danda: string): (r: Option<string>)
    ensures r.Some? <==> EndsWith(t, danda) && |t| > |danda|
    ensures r.Some? ==> r.value == Trim(t[..|t| - |danda|])
  {
    if EndsWith(t, danda) && |t| > |danda| then Some(Trim(t[..|t| - |danda|])) else None
  }

  /** `n.toString().padStart(width, '0')`: the digits of `n`, zero-filled on the left up to `width`. */
  function ZeroPadded(n: nat, width: nat): (s: string)
    ensures AllDigits(s) && DigitsValue(s) == n
    ensures |s| == if |ToDecimal(n)| >= width then |ToDecimal(n)| else width
  {
    var digits := ToDecimal(n);
    if |digits| >= width then digits
    else
      LeadingZeros(width - |digits|, digits);
      PadStart(digits, width, '0')
  }

  /**
   * The doha id of `scripts/seed/raw2json.js`: `parseInt` of the challenge id
   * padded to three digits followed by the sequence padded to two.
   */
  function DohaId(challengeId: nat, sequence: nat): nat {
    DigitsValue(ZeroPadded(challengeId, 3) + ZeroPadded(sequence, 2))
  }

  /** The challenge id is shifted left by as many decimal places as the padded sequence has digits. */
  lemma DohaIdShifts(challengeId: nat, sequence: nat)
    ensures DohaId(challengeId, sequence) == challengeId * Pow10(|ZeroPadded(sequence, 2)|) + sequence
  {
    DigitsValueConcat(ZeroPadded(challengeId, 3), ZeroPadded(sequence, 2));
  }

  /** For the first 99 dohas of a challenge the id is `challengeId * 100 + sequence`. */
  lemma DohaIdDecimal(challengeId: nat, sequence: nat)
    requires sequence <= 99
    ensures DohaId(challengeId, sequence) == challengeId * 100 + sequence
  {
    DohaIdShifts(challengeId, sequence);
    ToDecimalLength(sequence, 2);
    assert Pow10(2) == 100;
  }

  /**
   * Past the 99th doha the padded sequence takes three digits and ids collide
   * across challenges: the 101st doha of challenge 1 and the first doha of
   * challenge 11 are both numbered 1101.
   */
  lemma DohaIdCollision()
    ensures DohaId(1, 101) == DohaId(11, 1) == 1101
  {
    DohaIdShifts(1, 101);
    ToDecimalLength(101, 3);
    assert Pow10(3) == 1000;
    DohaIdDecimal(11, 1);
  }

  /** Within the first 99 dohas of each challenge, two dohas share an id exactly when they share challenge and sequence. */
  lemma DohaIdsDistinct(c1: nat, s1: nat, c2: nat, s2: nat)
    requires s1 <= 99 && s2 <= 99
    ensures DohaId(c1, s1) == DohaId(c2, s2) <==> c1 == c2 && s1 == s2
  {
    DohaIdDecimal(c1, s1);
    DohaIdDecimal(c2, s2);
    if c1 < c2 {
      assert c1 * 100 + 100 <= c2 * 100;
    } else if c2 < c1 {
      assert c2 * 100 + 100 <= c1 * 100;
    }
  }
}
