/**
 * The sorting helpers of the store (`stores/utils.ts`): challenges ordered by id,
 * ascending for the sort order "asc" and descending for any other string, and
 * the dohas of the ordered challenges flattened block by block, each block
 * ordered by `sequence`. Every sort is JavaScript's stable `Array.prototype.sort`
 * on a copy, so the inputs are never changed (the model works on values).
 */
module SortUtils {
  import opened Challenges
  import opened JsSort

  /** The comparator the store hands to `sort` for a given sort order. */
  function IdComparator(sortOrder: string): (Challenge, Challenge) -> int {
    (a: Challenge, b: Challenge) => if sortOrder == "asc" then a.id - b.id else b.id - a.id
  }

  function AscendingId(c: Challenge): int {
    c.id
  }

  function DescendingId(c: Challenge): int {
    -c.id
  }

  /** The key the comparator of `sortOrder` orders by. */
  function IdRank(sortOrder: string): Challenge -> int {
    if sortOrder == "asc" then AscendingId else DescendingId
  }

  /** The challenges of `cs` whose id is `id`, in their order in `cs`. */
  function WithId(cs: seq<Challenge>, id: int): seq<Challenge> {
    FilterKey(cs, AscendingId, id)
  }

  /** Ordered by id: ascending for "asc", descending otherwise. */
  predicate OrderedById(cs: seq<Challenge>, sortOrder: string) {
    forall i, j | 0 <= i < j < |cs| ::
      if sortOrder == "asc" then cs[i].id <= cs[j].id else cs[i].id >= cs[j].id
  }

  lemma IdComparatorRanks(sortOrder: string)
    ensures IsKeyComparator(IdComparator(sortOrder), IdRank(sortOrder))
  {
  }

  /** Selecting by the rank of either order is selecting by id. */
  lemma WithRank(cs: seq<Challenge>, sortOrder: string, k: int)
    ensures FilterKey(cs, IdRank(sortOrder), k)
      == WithId(cs, if sortOrder == "asc" then k else -k)
  {
    if sortOrder != "asc" {
      FilterKeyNegated(cs, AscendingId, DescendingId, -k);
    }
  }

  /** The parent-only sort (`sortChallenges` at line 18). */
  function SortChallengeList(cs: seq<Challenge>, sortOrder: string): seq<Challenge> {
    SortWith(cs, IdComparator(sortOrder))
  }

  /**
   * The parent-only sort gives a permutation of the input, ordered by id, and is
   * stable: challenges sharing an id keep their order.
   */
  lemma SortChallengeListSorts(cs: seq<Challenge>, sortOrder: string)
    ensures var r := SortChallengeList(cs, sortOrder);
      && multiset(r) == multiset(cs)
      && OrderedById(r, sortOrder)
      && forall id :: WithId(r, id) == WithId(cs, id)
  {
    var cmp, rank := IdComparator(sortOrder), IdRank(sortOrder);
    var r := SortWith(cs, cmp);
    SortWithPermutes(cs, cmp);
    IdComparatorRanks(sortOrder);
    SortWithSorted(cs, cmp, rank);
    forall id
      ensures WithId(r, id) == WithId(cs, id)
    {
      var k := if sortOrder == "asc" then id else -id;
      SortWithStable(cs, cmp, rank, k);
      WithRank(r, sortOrder, k);
      WithRank(cs, sortOrder, k);
    }
  }

  /** The comparator for the dohas of one challenge. */
  function SequenceComparator(): (Doha, Doha) -> int {
    (a: Doha, b: Doha) => a.sequence - b.sequence
  }

  function BySequence(d: Doha): int {
    d.sequence
  }

  /** `[...challenge.dohas].sort((a, b) => a.sequence - b.sequence)`. */
  function SortedDohas(c: Challenge): seq<Doha> {
    SortWith(c.dohas, SequenceComparator())
  }

  /**
   * A challenge's dohas, all of them, ordered by sequence; dohas that share a
   * sequence keep the order they had in the challenge.
   */
  lemma SortedDohasSorted(c: Challenge)
    ensures var r := SortedDohas(c);
      && multiset(r) == multiset(c.dohas)
      && (forall i, j | 0 <= i < j < |r| :: r[i].sequence <= r[j].sequence)
      && forall k :: FilterKey(r, BySequence, k) == FilterKey(c.dohas, BySequence, k)
  {
    assert IsKeyComparator(SequenceComparator(), BySequence);
    SortWithPermutes(c.dohas, SequenceComparator());
    SortWithSorted(c.dohas, SequenceComparator(), BySequence);
    forall k {
      SortWithStable(c.dohas, SequenceComparator(), BySequence, k);
    }
  }

  function DohasOf(c: Challenge): multiset<Doha> {
    multiset(c.dohas)
  }

  /** All the dohas of all the challenges, with multiplicity. */
  function AllDohas(cs: seq<Challenge>): multiset<Doha> {
    Gather(cs, DohasOf)
  }

  /** The sum of the challenges' dohas counts. */
  function DohaCount(cs: seq<Challenge>): nat {
    if cs == [] then 0 else |cs[0].dohas| + DohaCount(cs[1..])
  }

  /** `flatMap` of the sorted dohas, challenge after challenge. */
  function FlattenDohas(cs: seq<Challenge>): seq<Doha> {
    if cs == [] then [] else SortedDohas(cs[0]) + FlattenDohas(cs[1..])
  }

  /** The flattened list holds every doha of every challenge, once each. */
  lemma {:induction false} FlattenDohasContents(cs: seq<Challenge>)
    ensures multiset(FlattenDohas(cs)) == AllDohas(cs)
    ensures |FlattenDohas(cs)| == DohaCount(cs)
  {
    if cs != [] {
      SortedDohasSorted(cs[0]);
      FlattenDohasContents(cs[1..]);
    }
  }

  /** What `sortChallenges` (line 3) returns. */
  datatype SortedChallenges = SortedChallenges(challenges: seq<Challenge>, dohas: seq<Doha>)

  /** `sortChallenges` (line 3): the challenges as `SortChallengeList` orders them, and their dohas. */
  function SortChallenges(cs: seq<Challenge>, sortOrder: string): SortedChallenges {
    var sorted := SortChallengeList(cs, sortOrder);
    SortedChallenges(sorted, FlattenDohas(sorted))
  }

  /**
   * `sortChallenges` keeps every challenge, ordered by id, and lists all their
   * dohas, as many as the challenges hold between them.
   */
  lemma SortChallengesContents(cs: seq<Challenge>, sortOrder: string)
    ensures var r := SortChallenges(cs, sortOrder);
      && multiset(r.challenges) == multiset(cs) && OrderedById(r.challenges, sortOrder)
      && multiset(r.dohas) == AllDohas(cs) && |r.dohas| == DohaCount(cs)
  {
    var sorted := SortChallengeList(cs, sortOrder);
    SortChallengeListSorts(cs, sortOrder);
    GatherSortWith(cs, IdComparator(sortOrder), DohasOf);
    DohaCountIsSize(cs);
    DohaCountIsSize(sorted);
    FlattenDohasContents(sorted);
  }

  lemma {:induction false} DohaCountIsSize(cs: seq<Challenge>)
    ensures DohaCount(cs) == |AllDohas(cs)|
  {
    if cs != [] {
      DohaCountIsSize(cs[1..]);
    }
  }

  /** `sortChallengesAndFlattenDohas` gives the dohas `sortChallenges` gives. */
  function SortChallengesAndFlattenDohas(cs: seq<Challenge>, sortOrder: string): (r: seq<Doha>)
    ensures r == SortChallenges(cs, sortOrder).dohas
  {
    FlattenDohas(SortChallengeList(cs, sortOrder))
  }

  /** Flattening distributes over concatenation of challenge lists. */
  lemma {:induction false} FlattenDohasAppend(a: seq<Challenge>, b: seq<Challenge>)
    ensures FlattenDohas(a + b) == FlattenDohas(a) + FlattenDohas(b)
  {
    if a == [] {
      assert a + b == b;
    } else {
      FlattenDohasAppend(a[1..], b);
      FlattenDohasCons(a, b);
    }
  }

  lemma FlattenDohasCons(a: seq<Challenge>, b: seq<Challenge>)
    requires a != []
    ensures FlattenDohas(a + b) == SortedDohas(a[0]) + FlattenDohas(a[1..] + b)
  {
    assert (a + b)[1..] == a[1..] + b && (a + b)[0] == a[0];
  }

  /**
   * The dohas are the challenges' blocks in the sorted challenge order: challenge
   * `i`'s dohas, ordered by sequence, sit between the blocks before and after it.
   */
  lemma FlattenDohasBlocks(cs: seq<Challenge>, i: nat)
    requires i < |cs|
    ensures FlattenDohas(cs) == FlattenDohas(cs[..i]) + SortedDohas(cs[i]) + FlattenDohas(cs[i + 1..])
  {
    assert cs == cs[..i] + ([cs[i]] + cs[i + 1..]);
    FlattenDohasAppend(cs[..i], [cs[i]] + cs[i + 1..]);
    FlattenDohasAppend([cs[i]], cs[i + 1..]);
    assert FlattenDohas([cs[i]]) == SortedDohas(cs[i]) + FlattenDohas([]);
  }

  /** Sorting twice is sorting once with the second order: the first sort leaves no trace. */
  lemma Resort(cs: seq<Challenge>, first: string, second: string)
    ensures SortChallengeList(SortChallengeList(cs, first), second) == SortChallengeList(cs, second)
  {
    var once := SortChallengeList(cs, first);
    var a, b := SortChallengeList(once, second), SortChallengeList(cs, second);
    var rank := IdRank(second);
    SortChallengeListSorts(cs, first);
    SortChallengeListSorts(once, second);
    SortChallengeListSorts(cs, second);
    IdComparatorRanks(second);
    SortWithSorted(once, IdComparator(second), rank);
    SortWithSorted(cs, IdComparator(second), rank);
    forall k
      ensures FilterKey(a, rank, k) == FilterKey(b, rank, k)
    {
      WithRank(a, second, k);
      WithRank(b, second, k);
    }
    SortedUnique(a, b, rank);
  }

  /** So re-deriving from a sorted selection is deriving from the unsorted one. */
  lemma ResortChallenges(cs: seq<Challenge>, first: string, second: string)
    ensures SortChallenges(SortChallenges(cs, first).challenges, second) == SortChallenges(cs, second)
  {
    Resort(cs, first, second);
  }

  /** With distinct ids, any order other than "asc" lists the challenges in exactly the reverse of "asc". */
  lemma DescendingReversesAscending(cs: seq<Challenge>, sortOrder: string)
    requires DistinctIds(cs) && sortOrder != "asc"
    ensures SortChallengeList(cs, sortOrder) == Reverse(SortChallengeList(cs, "asc"))
  {
    var up, down := SortChallengeList(cs, "asc"), SortChallengeList(cs, sortOrder);
    var back := Reverse(up);
    SortChallengeListSorts(cs, "asc");
    SortChallengeListSorts(cs, sortOrder);
    IdComparatorRanks(sortOrder);
    SortWithSorted(cs, IdComparator(sortOrder), DescendingId);
    SortedReverse(up, AscendingId, DescendingId);
    ReversedSelections(cs, up, down);
    SortedUnique(down, back, DescendingId);
  }

  /** Two reorderings of distinct-id challenges: the second selects by descending key what the reverse of the first does. */
  lemma ReversedSelections(cs: seq<Challenge>, up: seq<Challenge>, down: seq<Challenge>)
    requires DistinctIds(cs)
    requires forall id :: WithId(up, id) == WithId(cs, id)
    requires forall id :: WithId(down, id) == WithId(cs, id)
    ensures forall k :: FilterKey(down, DescendingId, k) == FilterKey(Reverse(up), DescendingId, k)
  {
    forall k
      ensures FilterKey(down, DescendingId, k) == FilterKey(Reverse(up), DescendingId, k)
    {
      WithIdAtMostOne(cs, -k);
      ReversedSelection(cs, up, down, k);
    }
  }

  lemma ReversedSelection(cs: seq<Challenge>, up: seq<Challenge>, down: seq<Challenge>, k: int)
    requires |WithId(cs, -k)| <= 1
    requires WithId(up, -k) == WithId(cs, -k) && WithId(down, -k) == WithId(cs, -k)
    ensures FilterKey(down, DescendingId, k) == FilterKey(Reverse(up), DescendingId, k)
  {
    ReverseShort(WithId(cs, -k));
    FilterKeyReverse(up, DescendingId, k);
    DescendingSelects(up, k);
    DescendingSelects(down, k);
  }

  /** With distinct ids, at most one challenge has a given id. */
  lemma WithIdAtMostOne(cs: seq<Challenge>, id: int)
    requires DistinctIds(cs)
    ensures |WithId(cs, id)| <= 1
  {
    assert DistinctKeys(cs, AscendingId);
    DistinctKeysFilter(cs, AscendingId, id);
  }

  /** Selecting by the descending key `k` is selecting by id `-k`. */
  lemma {:induction false} DescendingSelects(s: seq<Challenge>, k: int)
    ensures FilterKey(s, DescendingId, k) == WithId(s, -k)
  {
    if s != [] {
      DescendingSelects(s[1..], k);
    }
  }

  /**
   * Flipping the order to descending reverses the order of the blocks of dohas
   * and leaves each block in its sequence order.
   */
  lemma DescendingReversesBlocks(cs: seq<Challenge>, sortOrder: string)
    requires DistinctIds(cs) && sortOrder != "asc"
    ensures SortChallenges(cs, sortOrder).dohas == FlattenDohas(Reverse(SortChallenges(cs, "asc").challenges))
  {
    DescendingReversesAscending(cs, sortOrder);
  }

  /** Each doha records the id of the challenge that holds it. */
  predicate DohasBelong(cs: seq<Challenge>) {
    forall i, d | 0 <= i < |cs| && d in cs[i].dohas :: d.challengeId == cs[i].id
  }

  /** Wherever two neighbouring dohas belong to one challenge, their sequence numbers ascend. */
  predicate SequenceAscendsWithinChallenge(r: seq<Doha>) {
    forall i | 0 <= i < |r| - 1 :: r[i].challengeId == r[i + 1].challengeId ==> r[i].sequence <= r[i + 1].sequence
  }

  /**
   * When the ids are distinct and each doha names its challenge, the flattened
   * dohas of either order run through each challenge in ascending sequence.
   */
  lemma SortedDohasAscendWithinChallenge(cs: seq<Challenge>, sortOrder: string)
    requires DistinctIds(cs) && DohasBelong(cs)
    ensures SequenceAscendsWithinChallenge(SortChallenges(cs, sortOrder).dohas)
  {
    var sorted := SortChallengeList(cs, sortOrder);
    SortChallengeListSorts(cs, sortOrder);
    IdComparatorRanks(sortOrder);
    assert DistinctKeys(cs, IdRank(sortOrder));
    SortWithDistinct(cs, IdComparator(sortOrder), IdRank(sortOrder));
    assert DistinctIds(sorted);
    forall i, d | 0 <= i < |sorted| && d in sorted[i].dohas
      ensures d.challengeId == sorted[i].id
    {
      assert sorted[i] in multiset(cs);
    }
    FlattenAscends(sorted);
  }

  lemma {:induction false} FlattenAscends(cs: seq<Challenge>)
    requires DistinctIds(cs) && DohasBelong(cs)
    ensures SequenceAscendsWithinChallenge(FlattenDohas(cs))
  {
    if cs != [] {
      var b, rest := SortedDohas(cs[0]), FlattenDohas(cs[1..]);
      FlattenAscends(cs[1..]);
      SortedDohasSorted(cs[0]);
      if b != [] && rest != [] {
        BlockBoundary(cs);
      }
      AscendsAppend(b, rest);
    }
  }

  lemma AscendsAppend(b: seq<Doha>, rest: seq<Doha>)
    requires forall i, j | 0 <= i < j < |b| :: b[i].sequence <= b[j].sequence
    requires SequenceAscendsWithinChallenge(rest)
    requires b != [] && rest != [] ==> b[|b| - 1].challengeId != rest[0].challengeId
    ensures SequenceAscendsWithinChallenge(b + rest)
  {
    var r := b + rest;
    forall i | 0 <= i < |r| - 1 && r[i].challengeId == r[i + 1].challengeId
      ensures r[i].sequence <= r[i + 1].sequence
    {
      if i + 1 < |b| {
        assert r[i] == b[i] && r[i + 1] == b[i + 1];
      } else {
        assert r[i] == rest[i - |b|] && r[i + 1] == rest[i + 1 - |b|];
      }
    }
  }

  /** The last doha of the first block and the first of the next belong to different challenges. */
  lemma BlockBoundary(cs: seq<Challenge>)
    requires DistinctIds(cs) && DohasBelong(cs) && cs != []
    requires SortedDohas(cs[0]) != [] && FlattenDohas(cs[1..]) != []
    ensures SortedDohas(cs[0])[|SortedDohas(cs[0])| - 1].challengeId != FlattenDohas(cs[1..])[0].challengeId
  {
    var b, rest := SortedDohas(cs[0]), FlattenDohas(cs[1..]);
    var last, next := b[|b| - 1], rest[0];
    SortedDohasSorted(cs[0]);
    assert last in multiset(cs[0].dohas);
    assert last.challengeId == cs[0].id;
    var k := FlattenMember(cs[1..], next);
    assert cs[1..][k] == cs[k + 1];
  }

  /** Every doha of the flattened list lies in one of the challenges. */
  lemma {:induction false} FlattenMember(cs: seq<Challenge>, d: Doha) returns (k: nat)
    requires d in FlattenDohas(cs)
    ensures k < |cs| && d in cs[k].dohas
  {
    var b, rest := SortedDohas(cs[0]), FlattenDohas(cs[1..]);
    assert FlattenDohas(cs) == b + rest;
    if d in b {
      SortedDohasSorted(cs[0]);
      assert d in multiset(b);
      k := 0;
    } else {
      assert d in rest;
      var j := FlattenMember(cs[1..], d);
      assert cs[1..][j] == cs[j + 1];
      k := j + 1;
    }
  }
}
