/**
 * The challenge store (`stores/challenges.ts`): the content state of the deck and
 * the actions that replace its fields. The device storage read and the remote
 * fetch are inputs of the actions; the two bundled JSON lists are a constant of
 * the store.
 */
module ChallengeStore {
  import opened Wrappers
  import opened Challenges
  import opened JsStrings
  import opened JsNumbers
  import opened JsSort
  import opened SortUtils
  import opened FilterGrammar
  import opened FilterUtils

  datatype Language = Hindi | English

  datatype Mode = Quiz | Default

  /** The store's sort order, `'asc' | 'desc'`. */
  datatype SortOrder = Asc | Desc

  /** The string the sorting helpers compare against "asc". */
  function Name(o: SortOrder): string {
    match o
    case Asc => "asc"
    case Desc => "desc"
  }

  /** The sort order argument, "asc" when it is left `undefined`. */
  function OrderOrAsc(o: Option<SortOrder>): SortOrder {
    if o.Some? then o.value else Asc
  }

  /** The two challenge lists bundled with the app. */
  datatype Bundle = Bundle(english: seq<Challenge>, hindi: seq<Challenge>)

  function Bundled(bundle: Bundle, language: Language): seq<Challenge> {
    match language
    case English => bundle.english
    case Hindi => bundle.hindi
  }

  /** What reading the item `challengesData_<language>` from device storage gave. */
  datatype StorageRead =
    | Stored(list: seq<Challenge>)  // an item that parsed to a list, possibly an empty one
    | Absent                        // no item, or an empty one
    | ReadFailed                    // the read or the parse threw

  /** The fields `loadChallengesData` returns; `Nothing` is its empty object. */
  datatype LoadedState =
    | Nothing
    | Loaded(challengesData: seq<Challenge>, selectedChallenges: seq<Challenge>, dohas: seq<Doha>)

  /** A defaulted parameter: `None` is an argument left `undefined`. */
  function OrDefault(o: Option<string>, default: string): string {
    if o.Some? then o.value else default
  }

  /** `loadChallengesData`, on what storage answered. */
  function LoadChallengesData(
    language: Language,
    storage: StorageRead,
    bundle: Bundle,
    sortOrder: Option<SortOrder>,
    filterString: Option<string>
  ): LoadedState
  {
    var order, filter := Name(OrderOrAsc(sortOrder)), OrDefault(filterString, "");
    var challengesData := if storage.Stored? then storage.list else Bundled(bundle, language);
    if challengesData == [] then Nothing
    else
      var current := if filter != "" then FilterSpec(challengesData, filter) else challengesData;
      var sorted := SortChallenges(current, order);
      Loaded(challengesData, sorted.challenges, sorted.dohas)
  }

  /**
   * A load takes the stored list whenever storage gave one (even an empty one),
   * otherwise the bundled list of the language; it returns nothing when that
   * list is empty; otherwise the list, the filtered selection ordered by id and
   * the selection's dohas block by block. The sort order defaults to ascending
   * and the filter to "", which selects everything.
   */
  lemma LoadChallengesDataContents(
    language: Language,
    storage: StorageRead,
    bundle: Bundle,
    sortOrder: Option<SortOrder>,
    filterString: Option<string>
  )
    ensures var r := LoadChallengesData(language, storage, bundle, sortOrder, filterString);
      && (storage.Stored? ==>
        (r.Nothing? <==> storage.list == []) && (r.Loaded? ==> r.challengesData == storage.list))
      && (!storage.Stored? ==>
        (r.Nothing? <==> Bundled(bundle, language) == [])
        && (r.Loaded? ==> r.challengesData == Bundled(bundle, language)))
      && (r.Loaded? ==>
        multiset(r.selectedChallenges) == multiset(FilterSpec(r.challengesData, OrDefault(filterString, "")))
        && OrderedById(r.selectedChallenges, Name(OrderOrAsc(sortOrder)))
        && r.dohas == FlattenDohas(r.selectedChallenges)
        && multiset(r.dohas) == AllDohas(r.selectedChallenges))
  {
    var order, filter := Name(OrderOrAsc(sortOrder)), OrDefault(filterString, "");
    var challengesData := if storage.Stored? then storage.list else Bundled(bundle, language);
    if challengesData != [] {
      var current := if filter != "" then FilterSpec(challengesData, filter) else challengesData;
      assert current == FilterSpec(challengesData, filter) by {
        if filter == "" {
          RejectedFiltersKeepAll(challengesData);
        }
      }
      var sorted := SortChallenges(current, order);
      SortChallengesContents(current, order);
      FlattenDohasContents(sorted.challenges);
    }
  }

  /** A read error falls back to the bundled list exactly as a missing item does. */
  lemma {:induction false} ReadErrorFallsBack(
    language: Language,
    bundle: Bundle,
    sortOrder: Option<SortOrder>,
    filterString: Option<string>
  )
    ensures LoadChallengesData(language, ReadFailed, bundle, sortOrder, filterString)
      == LoadChallengesData(language, Absent, bundle, sortOrder, filterString)
    ensures LoadChallengesData(language, Absent, bundle, sortOrder, filterString)
      == LoadChallengesData(language, Stored(Bundled(bundle, language)), bundle, sortOrder, filterString)
  {
  }

  /** The selection a filter makes is part of the loaded list, each challenge at most as often. */
  lemma FilterSpecMultiset(cs: seq<Challenge>, filterString: string)
    ensures multiset(FilterSpec(cs, filterString)) <= multiset(cs)
  {
    if MatchesFilter(filterString) {
      KeepIdsMultiset(cs, IdsOf(Split(filterString, ','), MaxId(cs)));
    }
  }

  /**
   * `pop` then `unshift`: the last card moves to the front and every other card
   * one place later; popping an empty list gives `undefined`, which is then the
   * only card.
   */
  function Backwards(ds: seq<Option<Doha>>): seq<Option<Doha>> {
    if ds == [] then [None] else [ds[|ds| - 1]] + ds[..|ds| - 1]
  }

  /** Going back keeps every card of a non-empty deck, each as often as before. */
  lemma BackwardsKeepsCards(ds: seq<Option<Doha>>)
    requires ds != []
    ensures multiset(Backwards(ds)) == multiset(ds)
  {
    assert ds == ds[..|ds| - 1] + [ds[|ds| - 1]];
  }

  /** `goBackwards` applied `k` times. */
  function BackwardsTimes(ds: seq<Option<Doha>>, k: nat): seq<Option<Doha>> {
    if k == 0 then ds else Backwards(BackwardsTimes(ds, k - 1))
  }

  /** After `k` steps back, `k` at most the deck's length, the deck is rotated right by `k`. */
  lemma {:induction false} BackwardsRotates(ds: seq<Option<Doha>>, k: nat)
    requires k <= |ds|
    ensures BackwardsTimes(ds, k) == ds[|ds| - k..] + ds[..|ds| - k]
  {
    var n := |ds|;
    if k == 0 {
      assert ds[n..] + ds[..n] == ds;
    } else {
      var m := n - k;
      BackwardsRotates(ds, k - 1);
      var prev := BackwardsTimes(ds, k - 1);
      assert prev == ds[m + 1..] + ds[..m + 1];
      BackwardsStep(ds, m + 1);
      calc {
        BackwardsTimes(ds, k);
        Backwards(prev);
        ds[m..] + ds[..m];
      }
    }
  }

  /** As many steps back as there are cards bring the deck back to where it was. */
  lemma BackwardsFullCircle(ds: seq<Option<Doha>>)
    ensures BackwardsTimes(ds, |ds|) == ds
  {
    BackwardsRotates(ds, |ds|);
    assert ds[0..] + ds[..0] == ds;
  }

  /** One step back on a deck cut at `j` moves the cut one card earlier. */
  lemma BackwardsStep(ds: seq<Option<Doha>>, j: nat)
    requires 0 < j <= |ds|
    ensures Backwards(ds[j..] + ds[..j]) == ds[j - 1..] + ds[..j - 1]
  {
    var a, b := ds[j..], ds[..j];
    var prev := a + b;
    assert prev[|prev| - 1] == ds[j - 1];
    assert prev[..|prev| - 1] == a + ds[..j - 1] by {
      assert b == ds[..j - 1] + [ds[j - 1]];
    }
    assert ds[j - 1..] == [ds[j - 1]] + a;
  }

  /** The cards of a deck that are not `undefined`. */
  function Defined(ds: seq<Option<Doha>>): seq<Doha> {
    if ds == [] then [] else (if ds[0].Some? then [ds[0].value] else []) + Defined(ds[1..])
  }

  /** A list of dohas as deck cards. */
  function Lift(ds: seq<Doha>): (r: seq<Option<Doha>>)
    ensures |r| == |ds| && forall i | 0 <= i < |ds| :: r[i] == Some(ds[i])
  {
    seq(|ds|, i requires 0 <= i < |ds| => Some(ds[i]))
  }

  /** Reading back the defined cards of a lifted list gives the list. */
  lemma {:induction false} DefinedLift(ds: seq<Doha>)
    ensures Defined(Lift(ds)) == ds
    ensures None !in Lift(ds)
  {
    if ds != [] {
      DefinedLift(ds[1..]);
      assert Lift(ds)[1..] == Lift(ds[1..]);
    }
  }

  /** Each doha occurs among the defined cards as often as its card occurs in the deck. */
  lemma {:induction false} DefinedCount(ds: seq<Option<Doha>>, d: Doha)
    ensures multiset(Defined(ds))[d] == multiset(ds)[Some(d)]
  {
    if ds != [] {
      DefinedCount(ds[1..], d);
      assert ds == [ds[0]] + ds[1..];
    }
  }

  /** Reordering the deck does not change which dohas it holds. */
  lemma DefinedPermutation(a: seq<Option<Doha>>, b: seq<Option<Doha>>)
    requires multiset(a) == multiset(b)
    ensures multiset(Defined(a)) == multiset(Defined(b))
  {
    forall d
      ensures multiset(Defined(a))[d] == multiset(Defined(b))[d]
    {
      DefinedCount(a, d);
      DefinedCount(b, d);
    }
  }

  /** `flatMap` of the dohas as the challenges hold them, as the initial state builds the deck. */
  function RawDohas(cs: seq<Challenge>): seq<Doha> {
    if cs == [] then [] else cs[0].dohas + RawDohas(cs[1..])
  }

  lemma {:induction false} RawDohasContents(cs: seq<Challenge>)
    ensures multiset(RawDohas(cs)) == AllDohas(cs)
  {
    if cs != [] {
      RawDohasContents(cs[1..]);
    }
  }

  /** Sorting the challenges moves their dohas around but keeps all of them. */
  lemma SortKeepsDohas(cs: seq<Challenge>, sortOrder: string)
    ensures AllDohas(SortChallenges(cs, sortOrder).challenges) == AllDohas(cs)
  {
    GatherSortWith(cs, IdComparator(sortOrder), DohasOf);
  }

  /**
   * The deck holds the dohas of the selected challenges, each once: either every
   * card is defined, or the deck is the single `undefined` card `goBackwards`
   * leaves behind on an empty selection.
   */
  predicate DeckHolds(ds: seq<Option<Doha>>, selected: seq<Challenge>) {
    if ds == [None] then AllDohas(selected) == multiset{}
    else None !in ds && multiset(Defined(ds)) == AllDohas(selected)
  }

  lemma LiftedDeckHolds(ds: seq<Doha>, selected: seq<Challenge>)
    requires multiset(ds) == AllDohas(selected)
    ensures DeckHolds(Lift(ds), selected)
  {
    DefinedLift(ds);
  }

  lemma BackwardsKeepsDeck(ds: seq<Option<Doha>>, selected: seq<Challenge>)
    requires DeckHolds(ds, selected)
    ensures DeckHolds(Backwards(ds), selected)
  {
    if ds == [] {
      assert Defined(ds) == [];
    } else if ds != [None] {
      BackwardsKeepsCards(ds);
      DefinedPermutation(ds, Backwards(ds));
    }
  }

  lemma ShuffleKeepsDeck(ds: seq<Option<Doha>>, random: (Option<Doha>, Option<Doha>) -> int, selected: seq<Challenge>)
    requires DeckHolds(ds, selected)
    ensures DeckHolds(SortWith(ds, random), selected)
  {
    var r := SortWith(ds, random);
    SortWithPermutes(ds, random);
    if ds == [None] {
      assert multiset(r) == multiset{None};
      assert r == [None] by {
        assert |r| == 1 && r[0] in multiset(r);
      }
    } else {
      assert None !in multiset(r);
      DefinedPermutation(ds, r);
    }
  }

  /** The sort order `toggleSort` switches to. */
  function Toggled(sortOrder: SortOrder): (r: SortOrder)
    ensures r != sortOrder
  {
    if sortOrder == Asc then Desc else Asc
  }

  /**
   * Toggling twice brings back the sort order and orders the selection as one
   * sort in that order does, whatever order it was in before.
   */
  lemma ToggleSortTwice(cs: seq<Challenge>, sortOrder: SortOrder)
    ensures Toggled(Toggled(sortOrder)) == sortOrder
    ensures SortChallenges(SortChallenges(cs, Name(Toggled(sortOrder))).challenges, Name(Toggled(Toggled(sortOrder))))
      == SortChallenges(cs, Name(sortOrder))
  {
    ResortChallenges(cs, Name(Toggled(sortOrder)), Name(sortOrder));
  }

  /** The fields of the store's state (`ChallengeStoreState`). */
  datatype StoreState = StoreState(
    language: Language,
    sortOrder: SortOrder,
    challengesData: seq<Challenge>,
    selectedChallenges: seq<Challenge>,
    dohas: seq<Option<Doha>>,
    dataIndexOne: Num,
    dataIndexTwo: Num,
    dataIndexThree: Num,
    filterString: string,
    mode: Mode,
    randomized: bool,
    isFetchingChallenges: bool
  )

  /** The selection is drawn from the loaded list, and the deck holds the selection's dohas. */
  predicate ValidState(s: StoreState) {
    multiset(s.selectedChallenges) <= multiset(s.challengesData)
    && DeckHolds(s.dohas, s.selectedChallenges)
  }

  /** `set(updatedState)`: the fields a load returned replace the state's; an empty object changes nothing. */
  function Merge(s: StoreState, l: LoadedState): StoreState {
    match l
    case Nothing => s
    case Loaded(data, selected, dohas) =>
      s.(challengesData := data, selectedChallenges := selected, dohas := Lift(dohas))
  }

  /** Taking in what a load returned keeps the state valid. */
  lemma LoadKeepsValid(
    s: StoreState,
    language: Language,
    storage: StorageRead,
    bundle: Bundle,
    sortOrder: Option<SortOrder>,
    filterString: Option<string>
  )
    requires ValidState(s)
    ensures ValidState(Merge(s, LoadChallengesData(language, storage, bundle, sortOrder, filterString)))
  {
    var l := LoadChallengesData(language, storage, bundle, sortOrder, filterString);
    LoadChallengesDataContents(language, storage, bundle, sortOrder, filterString);
    if l.Loaded? {
      FilterSpecMultiset(l.challengesData, OrDefault(filterString, ""));
      LiftedDeckHolds(l.dohas, l.selectedChallenges);
    }
  }

  /** A selection filtered from the loaded list and sorted, with its dohas as the deck, keeps the state valid. */
  lemma SelectionKeepsValid(s: StoreState, filter: string, sortOrder: SortOrder)
    ensures var sorted := SortChallenges(FilterSpec(s.challengesData, filter), Name(sortOrder));
      ValidState(s.(selectedChallenges := sorted.challenges, dohas := Lift(sorted.dohas)))
  {
    var filtered := FilterSpec(s.challengesData, filter);
    FilterSpecMultiset(s.challengesData, filter);
    SortKeepsDohas(filtered, Name(sortOrder));
    var sorted := SortChallenges(filtered, Name(sortOrder));
    SortChallengesContents(filtered, Name(sortOrder));
    LiftedDeckHolds(sorted.dohas, sorted.challenges);
  }

  /** Re-sorting the selection, with its dohas as the deck, keeps the state valid. */
  lemma ResortKeepsValid(s: StoreState, sortOrder: SortOrder)
    requires ValidState(s)
    ensures var sorted := SortChallenges(s.selectedChallenges, Name(sortOrder));
      ValidState(s.(selectedChallenges := sorted.challenges, dohas := Lift(sorted.dohas)))
  {
    SortKeepsDohas(s.selectedChallenges, Name(sortOrder));
    var sorted := SortChallenges(s.selectedChallenges, Name(sortOrder));
    SortChallengesContents(s.selectedChallenges, Name(sortOrder));
    LiftedDeckHolds(sorted.dohas, sorted.challenges);
  }

  /** The answer of one remote query: its `result` list, or a failed request. */
  datatype Reply = Replied(result: seq<Challenge>) | RequestFailed

  datatype FetchError = FetchFailed | SaveFailed

  /** Both queries returned a non-empty list. */
  predicate BothReplied(english: Reply, hindi: Reply) {
    english.Replied? && english.result != [] && hindi.Replied? && hindi.result != []
  }

  class Store {
    const bundle: Bundle
    var language: Language
    var sortOrder: SortOrder
    var challengesData: seq<Challenge>
    var selectedChallenges: seq<Challenge>
    var dohas: seq<Option<Doha>>
    var dataIndexOne: Num
    var dataIndexTwo: Num
    var dataIndexThree: Num
    var filterString: string
    var mode: Mode
    var randomized: bool
    var isFetchingChallenges: bool

    function State(): StoreState
      reads this
    {
      StoreState(language, sortOrder, challengesData, selectedChallenges, dohas,
        dataIndexOne, dataIndexTwo, dataIndexThree, filterString, mode, randomized, isFetchingChallenges)
    }

    ghost predicate Valid()
      reads this
    {
      ValidState(State())
    }

    /** `createChallengeStore()`: the Hindi list, unsorted and unfiltered, and the first three cards. */
    constructor(bundle: Bundle)
      ensures this.bundle == bundle
      ensures State() == StoreState(Hindi, Asc, bundle.hindi, bundle.hindi, Lift(RawDohas(bundle.hindi)),
        Finite(0), Finite(1), Finite(2), "", Default, false, false)
      ensures Valid()
    {
      this.bundle := bundle;
      language := Hindi;
      sortOrder := Asc;
      challengesData := bundle.hindi;
      selectedChallenges := bundle.hindi;
      dohas := Lift(RawDohas(bundle.hindi));
      dataIndexOne := Finite(0);
      dataIndexTwo := Finite(1);
      dataIndexThree := Finite(2);
      filterString := "";
      mode := Default;
      randomized := false;
      isFetchingChallenges := false;
      RawDohasContents(bundle.hindi);
      LiftedDeckHolds(RawDohas(bundle.hindi), bundle.hindi);
    }

    /** `goBackwards`: the last card is popped and put in front. */
    method GoBackwards()
      modifies this
      ensures old(Valid()) ==> Valid()
      ensures State() == old(State()).(dohas := Backwards(old(dohas)))
    {
      ghost var next := State().(dohas := Backwards(dohas));
      if Valid() {
        BackwardsKeepsDeck(dohas, selectedChallenges);
      }
      var deck := dohas;
      var last: Option<Doha> := None;
      if deck != [] {
        last := deck[|deck| - 1];
        deck := deck[..|deck| - 1];
      }
      assert [last] + deck == next.dohas;
      dohas := [last] + deck;
      assert State() == next;
    }

    method SetMode(mode: Mode)
      modifies this
      ensures State() == old(State()).(mode := mode)
    {
      this.mode := mode;
    }

    /** `setDataIndexOne`: the index taken with JavaScript's `%` by the deck's length. */
    method SetDataIndexOne(index: int)
      modifies this
      ensures State() == old(State()).(dataIndexOne := JsRem(index, |old(dohas)|))
    {
      dataIndexOne := JsRem(index, |dohas|);
    }

    method SetDataIndexTwo(index: int)
      modifies this
      ensures State() == old(State()).(dataIndexTwo := JsRem(index, |old(dohas)|))
    {
      dataIndexTwo := JsRem(index, |dohas|);
    }

    method SetDataIndexThree(index: int)
      modifies this
      ensures State() == old(State()).(dataIndexThree := JsRem(index, |old(dohas)|))
    {
      dataIndexThree := JsRem(index, |dohas|);
    }

    /**
     * `setFilterString`: the loaded list (not the previous selection) is filtered
     * and sorted in the current order; the filter is kept and shuffling is off.
     */
    method SetFilterString(filter: string)
      modifies this
      ensures Valid()
      ensures State() == old(State()).(
        selectedChallenges := SortChallenges(FilterSpec(old(challengesData), filter), Name(old(sortOrder))).challenges,
        dohas := Lift(SortChallenges(FilterSpec(old(challengesData), filter), Name(old(sortOrder))).dohas),
        filterString := filter,
        randomized := false)
    {
      ghost var before := State();
      SelectionKeepsValid(before, filter, sortOrder);
      var filteredChallenges := FilterChallenges(challengesData, filter);
      var sorted := SortChallenges(filteredChallenges, Name(sortOrder));
      selectedChallenges, dohas, filterString, randomized := sorted.challenges, Lift(sorted.dohas), filter, false;
      assert State() == before.(selectedChallenges := sorted.challenges, dohas := Lift(sorted.dohas),
        filterString := filter, randomized := false);
    }

    /** `toggleSort`: the other order, and the current selection sorted in it. */
    method ToggleSort()
      modifies this
      ensures old(Valid()) ==> Valid()
      ensures State() == old(State()).(
        sortOrder := Toggled(old(sortOrder)),
        selectedChallenges := SortChallenges(old(selectedChallenges), Name(Toggled(old(sortOrder)))).challenges,
        dohas := Lift(SortChallenges(old(selectedChallenges), Name(Toggled(old(sortOrder)))).dohas))
    {
      ghost var before := State();
      var newSortOrder := Toggled(sortOrder);
      var sorted := SortChallenges(selectedChallenges, Name(newSortOrder));
      ghost var after := before.(sortOrder := newSortOrder, selectedChallenges := sorted.challenges, dohas := Lift(sorted.dohas));
      if ValidState(before) {
        ResortKeepsValid(before, newSortOrder);
      }
      sortOrder, selectedChallenges, dohas := newSortOrder, sorted.challenges, Lift(sorted.dohas);
      assert State() == after;
    }

    /**
     * `setRandomized`: on, the deck is reordered by the `random` comparator and
     * so keeps its cards; off, it is rebuilt from the selection in the current order.
     */
    method SetRandomized(randomized: bool, random: (Option<Doha>, Option<Doha>) -> int)
      modifies this
      ensures old(Valid()) ==> Valid()
      ensures randomized ==> multiset(dohas) == multiset(old(dohas)) && |dohas| == |old(dohas)|
      ensures State() == old(State()).(
        randomized := randomized,
        dohas := if randomized then SortWith(old(dohas), random)
          else Lift(SortChallenges(old(selectedChallenges), Name(old(sortOrder))).dohas))
    {
      var deck := dohas;
      if randomized {
        if Valid() {
          ShuffleKeepsDeck(deck, random, selectedChallenges);
        }
        SortWithPermutes(deck, random);
        deck := SortWith(deck, random);
      } else {
        var sorted := SortChallenges(selectedChallenges, Name(sortOrder));
        SortChallengesContents(selectedChallenges, Name(sortOrder));
        LiftedDeckHolds(sorted.dohas, selectedChallenges);
        deck := Lift(sorted.dohas);
      }
      this.randomized, dohas := randomized, deck;
    }

    /**
     * `setLanguage`: the language, and whatever loading it returned. Loading reads
     * only the sort order and the filter, so setting the language first and then
     * loading as `initializeChallenges` does gives the same state.
     */
    method SetLanguage(language: Language, storage: StorageRead)
      modifies this
      ensures old(Valid()) ==> Valid()
      ensures State() == Merge(old(State()).(language := language),
        LoadChallengesData(language, storage, bundle, Some(old(sortOrder)), Some(old(filterString))))
    {
      this.language := language;
      InitializeChallenges(storage);
    }

    /** `initializeChallenges`: whatever loading the current language returned. */
    method InitializeChallenges(storage: StorageRead)
      modifies this
      ensures old(Valid()) ==> Valid()
      ensures State() == Merge(old(State()),
        LoadChallengesData(old(language), storage, bundle, Some(old(sortOrder)), Some(old(filterString))))
    {
      var updatedState := LoadChallengesData(language, storage, bundle, Some(sortOrder), Some(filterString));
      ghost var before := State();
      if Valid() {
        LoadKeepsValid(before, language, storage, bundle, Some(sortOrder), Some(filterString));
      }
      if updatedState.Loaded? {
        challengesData, selectedChallenges, dohas :=
          updatedState.challengesData, updatedState.selectedChallenges, Lift(updatedState.dohas);
      }
      assert State() == Merge(before, updatedState);
    }

    /**
     * `fetchRemoteChallenges` with the network and the storage writes as inputs:
     * both queries must return a non-empty list, and both writes must succeed,
     * for the store to reload the current language from what was written. The
     * busy flag is set for the duration and is off again whatever the outcome.
     */
    method FetchRemoteChallenges(english: Reply, hindi: Reply, writesSucceed: bool) returns (r: Result<(), FetchError>)
      modifies this
      ensures old(Valid()) ==> Valid()
      ensures r.Success? <==> BothReplied(english, hindi) && writesSucceed
      ensures r == Failure(FetchFailed) <==> !BothReplied(english, hindi)
      ensures r.Failure? ==> State() == old(State()).(isFetchingChallenges := false)
      ensures r.Success? ==> State() == Merge(old(State()).(isFetchingChallenges := false),
        LoadChallengesData(old(language),
          Stored(if old(language) == English then english.result else hindi.result),
          bundle, Some(old(sortOrder)), Some(old(filterString))))
    {
      isFetchingChallenges := true;
      if !BothReplied(english, hindi) {
        isFetchingChallenges := false;
        return Failure(FetchFailed);
      }
      isFetchingChallenges := false;
      if !writesSucceed {
        return Failure(SaveFailed);
      }
      var written := Stored(if language == English then english.result else hindi.result);
      InitializeChallenges(written);
      r := Success(());
    }
  }
}
