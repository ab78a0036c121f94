/**
 * The three-card rotation hook (`hooks/useCardPriorities.ts`): the order in
 * which the three card slots are stacked, each card's priority (its place in
 * that order), and the index of the doha each card shows. `shuffle` sends the
 * top card to the back and moves the data indices on so the deck reads the
 * dohas in sequence.
 */
module CardPriorityHook {
  const DeckSize: int := 3

  /** The values of the hook's shared cells. */
  datatype Deck = Deck(
    cardIndexOrder: seq<int>,
    priorityOne: int,
    priorityTwo: int,
    priorityThree: int,
    dataIndexOne: int,
    dataIndexTwo: int,
    dataIndexThree: int
  )

  /** `findIndex(p => p === x)`: the first position holding `x`, or -1. */
  function FindIndex(s: seq<int>, x: int): int {
    if s == [] then -1
    else if s[0] == x then 0
    else
      var k := FindIndex(s[1..], x);
      if k == -1 then -1 else k + 1
  }

  /** `FindIndex` answers -1 exactly when `x` is absent, and otherwise a position of `x` with none before it. */
  lemma {:induction false} FindIndexFinds(s: seq<int>, x: int)
    ensures var r := FindIndex(s, x);
      (r == -1 <==> x !in s) && (r != -1 ==> 0 <= r < |s| && s[r] == x && x !in s[..r])
  {
    if s != [] && s[0] != x {
      FindIndexFinds(s[1..], x);
      assert s == [s[0]] + s[1..];
      var k := FindIndex(s[1..], x);
      if k != -1 {
        assert s[..k + 1] == [s[0]] + s[1..][..k];
      }
    }
  }

  /** The cells as the hook creates them. */
  function Initial(): Deck {
    Deck([0, 1, 2], 0, 1, 2, 0, 1, 2)
  }

  /**
   * What `shuffle` leaves in the cells: the order rotated left by one, each
   * card's priority its place in the new order, and the data indices moved on
   * by the rule keyed on the new top card: card 0 on top points card 2 two dohas
   * past card 0, card 2 on top moves cards 0 and 1 on by a deck, and card 1 on
   * top changes nothing.
   */
  function Shuffled(d: Deck): (r: Deck)
    requires d.cardIndexOrder != []
    ensures |r.cardIndexOrder| == |d.cardIndexOrder|
    ensures r.cardIndexOrder[0] == 0 ==>
      (r.dataIndexOne, r.dataIndexTwo, r.dataIndexThree) == (d.dataIndexOne, d.dataIndexTwo, d.dataIndexOne + 2)
    ensures r.cardIndexOrder[0] == 2 ==>
      (r.dataIndexOne, r.dataIndexTwo, r.dataIndexThree) == (d.dataIndexOne + 3, d.dataIndexTwo + 3, d.dataIndexThree)
    ensures r.cardIndexOrder[0] != 0 && r.cardIndexOrder[0] != 2 ==>
      (r.dataIndexOne, r.dataIndexTwo, r.dataIndexThree) == (d.dataIndexOne, d.dataIndexTwo, d.dataIndexThree)
  {
    var before := d.cardIndexOrder;
    var order := before[1..] + [before[0]];
    var moved := Deck(order, FindIndex(order, 0), FindIndex(order, 1), FindIndex(order, 2),
      d.dataIndexOne, d.dataIndexTwo, d.dataIndexThree);
    if order[0] == 0 then moved.(dataIndexThree := d.dataIndexOne + DeckSize - 1)
    else if order[0] == DeckSize - 1 then
      moved.(dataIndexOne := d.dataIndexOne + DeckSize, dataIndexTwo := d.dataIndexTwo + DeckSize)
    else moved
  }

  /** The top card goes to the back and the others move up one place, so the order keeps its cards. */
  lemma ShuffleRotates(d: Deck)
    requires d.cardIndexOrder != []
    ensures var o, r := d.cardIndexOrder, Shuffled(d).cardIndexOrder;
      multiset(r) == multiset(o) && r[|r| - 1] == o[0] && r[..|r| - 1] == o[1..]
  {
    var o := d.cardIndexOrder;
    assert o == [o[0]] + o[1..];
  }

  /** After a shuffle each card's priority is its place in the new order. */
  lemma ShufflePriorities(d: Deck)
    requires d.cardIndexOrder != []
    ensures var r := Shuffled(d);
      (0 in d.cardIndexOrder ==> 0 <= r.priorityOne < |r.cardIndexOrder| && r.cardIndexOrder[r.priorityOne] == 0)
      && (1 in d.cardIndexOrder ==> 0 <= r.priorityTwo < |r.cardIndexOrder| && r.cardIndexOrder[r.priorityTwo] == 1)
      && (2 in d.cardIndexOrder ==> 0 <= r.priorityThree < |r.cardIndexOrder| && r.cardIndexOrder[r.priorityThree] == 2)
  {
    var o := d.cardIndexOrder;
    assert o == [o[0]] + o[1..];
    var next := Shuffled(d).cardIndexOrder;
    assert forall c :: c in o <==> c in next;
    FindIndexFinds(next, 0);
    FindIndexFinds(next, 1);
    FindIndexFinds(next, 2);
  }

  /** The deck with every data index moved on by `j`. */
  function MovedOn(d: Deck, j: int): Deck {
    d.(dataIndexOne := d.dataIndexOne + j, dataIndexTwo := d.dataIndexTwo + j, dataIndexThree := d.dataIndexThree + j)
  }

  /** `shuffle` called `n` times. */
  function ShuffledTimes(d: Deck, n: nat): Deck
    requires d.cardIndexOrder != []
    decreases n
  {
    if n == 0 then d else ShuffledTimes(Shuffled(d), n - 1)
  }

  /**
   * The deck of block `k` with card `top` on top: the order is the rotation
   * of [0, 1, 2] that starts at `top`, the priorities are the cards' places in
   * it, and the data indices are the dohas `k, k+1, k+2`, except that with
   * card 2 on top the third card still shows the last doha of the previous
   * block.
   */
  function Cycle(k: int, top: int): Deck {
    if top == 0 then Deck([0, 1, 2], 0, 1, 2, k, k + 1, k + 2)
    else if top == 1 then Deck([1, 2, 0], 2, 0, 1, k, k + 1, k + 2)
    else Deck([2, 0, 1], 1, 2, 0, k, k + 1, k - 1)
  }

  /** The card on top of the deck, or -1 for an empty order. */
  function Top(d: Deck): int {
    if d.cardIndexOrder == [] then -1 else d.cardIndexOrder[0]
  }

  /**
   * The states the hook can reach: a block `k` that is a non-negative multiple
   * of three, and a top card that is 2 only once the first block is past.
   */
  predicate Reachable(d: Deck) {
    var k, top := d.dataIndexOne, Top(d);
    k >= 0 && k % 3 == 0 && 0 <= top < 3 && (top == 2 ==> k >= 3) && d == Cycle(k, top)
  }

  lemma InitialReachable()
    ensures Reachable(Initial())
  {
  }

  /** A position holding `x` with no `x` before it is the one `FindIndex` finds. */
  lemma FindIndexAt(s: seq<int>, x: int, i: int)
    requires 0 <= i < |s| && s[i] == x && x !in s[..i]
    ensures FindIndex(s, x) == i
  {
    FindIndexFinds(s, x);
  }

  /** One shuffle from the order `d.cardIndexOrder`, which leaves the order `next` with cards 0, 1, 2 at `p0`, `p1`, `p2`. */
  lemma ShuffleStep(d: Deck, next: seq<int>, p0: int, p1: int, p2: int)
    requires d.cardIndexOrder != [] && next == d.cardIndexOrder[1..] + [d.cardIndexOrder[0]]
    requires 0 <= p0 < |next| && 0 <= p1 < |next| && 0 <= p2 < |next|
    requires next[p0] == 0 && next[p1] == 1 && next[p2] == 2
    requires 0 !in next[..p0] && 1 !in next[..p1] && 2 !in next[..p2]
    ensures Shuffled(d).cardIndexOrder == next
    ensures (Shuffled(d).priorityOne, Shuffled(d).priorityTwo, Shuffled(d).priorityThree) == (p0, p1, p2)
  {
    FindIndexAt(next, 0, p0);
    FindIndexAt(next, 1, p1);
    FindIndexAt(next, 2, p2);
  }

  /**
   * The hook's cycle written out state by state: the order steps through the
   * three rotations of [0, 1, 2] and the data indices of a block `k` advance
   * by a deck when card 2 comes to the top.
   */
  function Advance(d: Deck): Deck {
    var k, top := d.dataIndexOne, Top(d);
    if top == 0 then Cycle(k, 1)
    else if top == 1 then Cycle(k + 3, 2)
    else Cycle(k, 0)
  }

  /** On every reachable state `shuffle` takes the step `Advance` writes out. */
  lemma ShuffleIsAdvance(d: Deck)
    requires Reachable(d)
    ensures Shuffled(d) == Advance(d)
  {
    var top := Top(d);
    if top == 0 {
      ShuffleStep(d, [1, 2, 0], 2, 0, 1);
    } else if top == 1 {
      ShuffleStep(d, [2, 0, 1], 1, 2, 0);
    } else {
      ShuffleStep(d, [0, 1, 2], 0, 1, 2);
    }
  }

  /** `shuffle` keeps the hook in a reachable state and never moves a data index back. */
  lemma ShuffleKeepsReachable(d: Deck)
    requires Reachable(d)
    ensures Reachable(Shuffled(d))
    ensures Shuffled(d).dataIndexOne >= d.dataIndexOne
    ensures Shuffled(d).dataIndexTwo >= d.dataIndexTwo
    ensures Shuffled(d).dataIndexThree >= d.dataIndexThree
  {
    ShuffleIsAdvance(d);
  }

  /** `Advance` taken `n` times. */
  function AdvancedTimes(d: Deck, n: nat): Deck
    decreases n
  {
    if n == 0 then d else AdvancedTimes(Advance(d), n - 1)
  }

  /** The cycle stays among the reachable states. */
  lemma AdvanceKeepsReachable(d: Deck)
    requires Reachable(d)
    ensures Reachable(Advance(d))
  {
  }

  /** From a reachable state, `n` shuffles take the hook through the first `n` steps of the cycle. */
  lemma {:induction false} ShuffledTimesIsAdvanced(d: Deck, n: nat)
    requires Reachable(d)
    decreases n
    ensures ShuffledTimes(d, n) == AdvancedTimes(d, n)
  {
    if n > 0 {
      var a := Advance(d);
      ShuffleIsAdvance(d);
      AdvanceKeepsReachable(d);
      ShuffledTimesIsAdvanced(a, n - 1);
      assert ShuffledTimes(d, n) == ShuffledTimes(a, n - 1);
    }
  }

  /** A reachable state moved on by one block of three dohas is reachable. */
  lemma ShiftKeepsReachable(d: Deck)
    requires Reachable(d)
    ensures Reachable(MovedOn(d, 3))
  {
  }

  /** Three steps of the cycle from a reachable state move every data index on by three and change nothing else. */
  lemma AdvanceThrice(d: Deck)
    requires Reachable(d)
    ensures Advance(Advance(Advance(d))) == MovedOn(d, 3)
  {
  }

  /** From a reachable state, `k` rounds of the cycle move every data index on by `3k` and change nothing else. */
  lemma {:induction false} AdvancedRounds(d: Deck, k: nat)
    requires Reachable(d)
    decreases k
    ensures AdvancedTimes(d, 3 * k) == MovedOn(d, 3 * k)
  {
    if k > 0 {
      var n := 3 * (k - 1);
      var a1 := Advance(d);
      var a2 := Advance(a1);
      assert AdvancedTimes(d, 3 + n) == AdvancedTimes(a1, 2 + n) == AdvancedTimes(a2, 1 + n)
        == AdvancedTimes(Advance(a2), n);
      AdvanceThrice(d);
      ShiftKeepsReachable(d);
      AdvancedRounds(MovedOn(d, 3), k - 1);
      assert MovedOn(MovedOn(d, 3), n) == MovedOn(d, 3 * k);
    }
  }

  /** From any reachable state, `3k` shuffles bring back the order and priorities and move every data index on by `3k`. */
  lemma ShufflesFromReachable(d: Deck, k: nat)
    requires Reachable(d)
    ensures ShuffledTimes(d, 3 * k) == MovedOn(d, 3 * k)
  {
    ShuffledTimesIsAdvanced(d, 3 * k);
    AdvancedRounds(d, k);
  }

  /** After `3k` shuffles the hook is back to its first order and shows dohas `3k, 3k+1, 3k+2`. */
  lemma AfterThreeK(k: nat)
    ensures ShuffledTimes(Initial(), 3 * k) == Deck([0, 1, 2], 0, 1, 2, 3 * k, 3 * k + 1, 3 * k + 2)
  {
    InitialReachable();
    InitialMovedOn(3 * k);
    ShufflesFromReachable(Initial(), k);
  }

  lemma InitialMovedOn(j: int)
    ensures MovedOn(Initial(), j) == Deck([0, 1, 2], 0, 1, 2, j, j + 1, j + 2)
  {
  }

  /** The trace the hook's tests walk through. */
  lemma ShuffleTrace()
    ensures var d := ShuffledTimes(Initial(), 1);
      (d.priorityOne, d.priorityTwo, d.priorityThree) == (2, 0, 1)
      && (d.dataIndexOne, d.dataIndexTwo, d.dataIndexThree) == (0, 1, 2)
    ensures var d := ShuffledTimes(Initial(), 2);
      (d.priorityOne, d.priorityTwo, d.priorityThree) == (1, 2, 0)
      && (d.dataIndexOne, d.dataIndexTwo, d.dataIndexThree) == (3, 4, 2)
    ensures var d := ShuffledTimes(Initial(), 3);
      (d.priorityOne, d.priorityTwo, d.priorityThree) == (0, 1, 2)
      && (d.dataIndexOne, d.dataIndexTwo, d.dataIndexThree) == (3, 4, 5)
    ensures var d := ShuffledTimes(Initial(), 5);
      (d.dataIndexOne, d.dataIndexTwo, d.dataIndexThree) == (6, 7, 5)
  {
    var d1 := Shuffled(Initial());
    assert d1.cardIndexOrder == [1, 2, 0];
    var d2 := Shuffled(d1);
    assert d2.cardIndexOrder == [2, 0, 1];
    var d3 := Shuffled(d2);
    assert d3.cardIndexOrder == [0, 1, 2];
    var d4 := Shuffled(d3);
    assert d4.cardIndexOrder == [1, 2, 0];
    var d5 := Shuffled(d4);
    assert ShuffledTimes(Initial(), 1) == ShuffledTimes(d1, 0);
    assert ShuffledTimes(Initial(), 2) == ShuffledTimes(d1, 1) == ShuffledTimes(d2, 0);
    assert ShuffledTimes(Initial(), 3) == ShuffledTimes(d2, 1) == ShuffledTimes(d3, 0);
    assert ShuffledTimes(Initial(), 5) == ShuffledTimes(d3, 2) == ShuffledTimes(d4, 1) == d5;
  }

  /** The hook's shared cells. */
  class CardPriorities {
    var cardIndexOrder: seq<int>
    var priorityOne: int
    var priorityTwo: int
    var priorityThree: int
    var dataIndexOne: int
    var dataIndexTwo: int
    var dataIndexThree: int

    function Cells(): Deck
      reads this
    {
      Deck(cardIndexOrder, priorityOne, priorityTwo, priorityThree, dataIndexOne, dataIndexTwo, dataIndexThree)
    }

    ghost predicate Valid()
      reads this
    {
      Reachable(Cells())
    }

    /** `useCardPriorities()`: the order [0, 1, 2], priorities 0, 1, 2 and data indices 0, 1, 2. */
    constructor()
      ensures Cells() == Initial() && Valid()
    {
      cardIndexOrder := [0, 1, 2];
      priorityOne, priorityTwo, priorityThree := 0, 1, 2;
      dataIndexOne, dataIndexTwo, dataIndexThree := 0, 1, 2;
    }

    /** `shuffle`: the cells are overwritten one after another; from a reachable state it reaches another. */
    method Shuffle()
      requires cardIndexOrder != []
      modifies this
      ensures Cells() == Shuffled(old(Cells()))
      ensures old(Valid()) ==> Valid()
    {
      ghost var after := Shuffled(Cells());
      if Valid() {
        ShuffleKeepsReachable(Cells());
      }
      var newCardIndexOrder := cardIndexOrder[1..] + [cardIndexOrder[0]];
      cardIndexOrder := newCardIndexOrder;
      priorityOne := FindIndex(cardIndexOrder, 0);
      priorityTwo := FindIndex(cardIndexOrder, 1);
      priorityThree := FindIndex(cardIndexOrder, 2);
      if newCardIndexOrder[0] == 0 {
        dataIndexThree := dataIndexOne + DeckSize - 1;
      } else if newCardIndexOrder[0] == DeckSize - 1 {
        dataIndexOne := dataIndexOne + DeckSize;
        dataIndexTwo := dataIndexTwo + DeckSize;
      }
      assert Cells() == after;
    }
  }
}
