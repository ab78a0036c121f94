# Bhakti Challenge app: deck content, filters and raw-text parsers in Dafny

The Bhakti Challenge app is a flashcard app. Its cards are *dohas*, two-line
verses. Each doha belongs to a numbered *challenge*. This project models the
logic behind the deck:

- **The challenge store** (`stores/challenges.ts`), module `ChallengeStore`, class `Store`.
  - The store holds:
    - the language;
    - the sort order;
    - the loaded challenge list;
    - the selected challenges;
    - the deck of dohas;
    - three card data indices;
    - the filter string;
    - the mode, and the randomized and fetching flags.
  - Its actions replace these fields.
  - `loadChallengesData` chooses the list from device storage or from the list bundled with the app. It filters that list and sorts it.
- **The sorting helpers** (`stores/utils.ts`), module `SortUtils`.
  - Challenges are ordered by id, ascending or descending.
  - The deck is every challenge's dohas, each challenge's dohas by sequence, concatenated in challenge order.
- **The id filter** (`stores/utils.ts`), modules `FilterGrammar` and `FilterUtils`.
  - The filter language is ids, ranges `a-b` and open ranges `a+`, separated by commas.
  - `FilterGrammar` recognises the filter's regular expression as a recursive grammar.
  - `FilterUtils` models the parsing loop as methods and proves them against specification functions.
- **The card rotation of the card stack** (`hooks/useCardPriorities.ts`), module `CardPriorityHook`, class `CardPriorities`.
  - `shuffle` rotates the order of the three on-screen cards.
  - It recomputes each card's position.
  - It moves the data indices forward by one deck's worth of cards.
- **The two raw-text parsers** that turn the challenge book into JSON: modules `SeedRaw2Json` (`scripts/seed/raw2json.js`) and `Raw2Json` (`scripts/raw2json.js`).
  - Each reads the text line by line and opens a challenge at each title line.
  - Each pairs a first line with the second line of each doha.
  - Each sorts the result by id.
  - What they share is in `RawText`.
  - Their line loop, with its early exit on a thrown error, is in `LineLoop`.

Some JavaScript behaviour matters to the results and is written out in its own modules:

- **`JsNumbers`:**
  - `%` truncates, so the remainder takes the sign of the dividend.
  - A remainder by zero is `NaN`.
  - `Number(...)` of a string gives a value or `NaN`.
- **`JsStrings`:** `split`, `trim`, `endsWith`, `padStart`, `toString` and decimal digit values.
- **`JsSort`:** `Array.prototype.sort`, which is stable. It is an insertion sort driven by the caller's comparator.

The properties proved include:

- **Sorting:**
  - a sort keeps every element;
  - it orders by the comparator's key;
  - it is stable;
  - a stable sorted order is unique;
  - for distinct ids, descending order is the reverse of ascending.
- **The filter:**
  - a filter matches its regular expression exactly when every comma-separated piece is a token;
  - the filter keeps a challenge exactly when some token names the challenge's id;
  - a filter that does not match keeps every challenge.
- **The store:**
  - the store's deck always holds exactly the dohas of the selected challenges;
  - the selected challenges always come from the loaded list;
  - going backwards `n` times rotates the deck by `n`;
  - toggling the sort twice restores the order.
- **Card rotation:**
  - every three shuffles move all three data indices on by three;
  - the card positions found by `findIndex` point back at their cards.
- **The parsers:**
  - each parser keeps its challenges well formed: sequences count up from 1, and ids follow from challenge and sequence;
  - each parser's output is sorted by id and holds the challenges it built.

## Model

| member | source | states |
|---|---|---|
| JsNumbers.JsRem | stores/challenges.ts:128-139 | `index % dohas.length` is `NaN` exactly when the deck is empty. Otherwise the remainder is smaller than the divisor in magnitude and adds back to the dividend with the truncated quotient. It takes the dividend's sign. |
| JsNumbers.JsRemNonNegative | stores/challenges.ts:130 | For a non-negative index and a non-empty deck, the index wraps around to `index mod length`. |
| JsNumbers.JsRemMinusOne | stores/challenges.ts:130 | An index of -1 stays -1 (it does not wrap to the last card) whenever the deck holds two cards or more. |
| JsNumbers.JsNumberDigits | stores/utils.ts:55 | `Number(part)` of a piece that is all digits after trimming is the piece's decimal value. A piece that starts with a digit and holds a non-digit is `NaN`. |
| JsStrings.TrimEnd | scripts/seed/raw2json.js:21 | The result is a prefix of the input. Only white space was removed, and it does not end in white space. |
| JsStrings.TrimStart | scripts/seed/raw2json.js:21 | The result is a suffix of the input. Only white space was removed, and it does not start with white space. |
| JsStrings.Trim | scripts/seed/raw2json.js:21 | The trimmed line is no longer than the line and has no white space at either end. |
| JsStrings.TrimDropsOuterWhiteSpace | scripts/seed/raw2json.js:21 | `trim` returns a middle slice of the line. Everything before and after the slice is white space, and the slice neither starts nor ends with white space. So exactly the outer white space is dropped. |
| JsStrings.SplitJoinsBack | scripts/seed/raw2json.js:15 | `split` returns at least one piece, and no piece holds the separator. Joining the pieces with the separator gives back the input. |
| JsStrings.SplitJoin | stores/utils.ts:39 | Splitting a join of separator-free pieces gives back the pieces, so `split` and `join` are inverses. |
| JsStrings.SplitAfterSeparator | stores/utils.ts:39 | The text up to the first separator is the first piece, and the rest is split the same way. |
| JsStrings.PadStart | scripts/seed/raw2json.js:57 | `padStart(len, fill)` is as long as the longer of the input and `len`. It ends with the input, and everything before the input is `fill`. |
| JsStrings.ToDecimal | scripts/seed/raw2json.js:57 | `toString()` of a non-negative integer gives digits whose decimal value is that integer, with no leading zero unless the integer is 0. |
| JsStrings.DigitsValueConcat | scripts/seed/raw2json.js:57 | The value of two digit strings side by side is the first value shifted by the second's length plus the second value. |
| JsStrings.LeadingZeros | scripts/seed/raw2json.js:57 | Zeros put in front of digits do not change the value `parseInt` reads. |
| JsSort.SortWithPermutes | stores/utils.ts:5-7 | Sorting keeps every element as often as it occurred, and the length. |
| JsSort.SortWithSorted | stores/utils.ts:5-7 | A comparator that subtracts keys yields a result ascending by key. |
| JsSort.SortWithStable | stores/utils.ts:5-7 | The sort is stable: for each key, the elements with that key keep their relative order. |
| JsSort.SortedUnique | stores/utils.ts:5-7 | Two sequences sorted by the same key, with the same elements per key in the same order, are equal. So any stable sort gives this result. |
| JsSort.SortWithDistinct | scripts/seed/raw2json.js:72 | Distinct keys stay distinct after sorting. |
| JsSort.GatherSortWith | stores/utils.ts:10 | Sorting challenges does not change the multiset of what they hold between them. |
| LineLoop.FoldFailureSticks | scripts/seed/raw2json.js:20-69 | Once a line throws, the lines after it change nothing: the loop is left with that error. |
| LineLoop.FoldPrefix | scripts/seed/raw2json.js:20-69 | Reading one more line applies one more step to the state the earlier lines left, or keeps their error. |
| LineLoop.FoldKeeps | scripts/seed/raw2json.js:20-69 | A property that each step keeps holds of the loop's final state. |
| LineLoop.FoldAfterRestart | scripts/seed/raw2json.js:20-69 | Lines that bring the loop back to its starting state can be dropped. |
| FilterGrammar.LeadingDigits | stores/utils.ts:36 | The count of the leading digits: they are all digits, and the character after them is not a digit. |
| FilterGrammar.MatchesBySplit | stores/utils.ts:36-39 | A filter matches `^\d+(-\d+)?(\+)?(,\d+(-\d+)?(\+)?)*$` exactly when each comma-separated piece is a token `\d+(-\d+)?(\+)?`. |
| FilterGrammar.MatchesOnlyFilterCharacters | stores/utils.ts:36 | A matching filter holds only digits, `-`, `+` and `,`. |
| FilterGrammar.TokenOfReads | stores/utils.ts:40-58 | The token read from a piece carries the decimal values of its digit runs. `5` is a single id, `5+` is "from 5", `1-3` is a range, and `1-3+` is a range followed by `+`. |
| FilterGrammar.RejectedFilters | stores/utils.ts:36 | The pattern rejects these filters: an empty filter, filters with spaces, negative numbers, a doubled dash, letters, and a trailing comma. |
| FilterUtils.MaxId | stores/utils.ts:43 | `Math.max` over the ids is absent exactly when there are no challenges. Otherwise it is an id of some challenge and at least every id. |
| FilterUtils.IntervalMembers | stores/utils.ts:50-52 | The loop `for (i = lo; i <= hi; i++)` adds exactly the integers from `lo` to `hi`. |
| FilterUtils.FilterChallenges | stores/utils.ts:34-65 | The filtering method returns the specification `FilterSpec`. Without a match, all challenges are returned. With a match, the challenges whose id one of the pieces adds are kept, in order. |
| FilterUtils.AddPart | stores/utils.ts:39-59 | One piece adds exactly its ids to the set. |
| FilterUtils.AddFrom | stores/utils.ts:40-46 | `start+` adds the ids from `start` up to the greatest challenge id. It adds nothing when `start` is `NaN` or there are no challenges. |
| FilterUtils.AddBetween | stores/utils.ts:47-53 | `start-end` adds the ids from `start` to `end`. It adds nothing when either is `NaN`. |
| FilterUtils.AddSingle | stores/utils.ts:54-58 | A single piece adds its number, or nothing when it is `NaN`. |
| FilterUtils.AddRange | stores/utils.ts:43-45 | The counting loop adds the interval from `lo` to `hi`. |
| FilterUtils.KeepMatching | stores/utils.ts:61 | The final `filter` keeps the challenges whose id is in the set, in order. |
| FilterUtils.KeepIdsMembers | stores/utils.ts:61 | A challenge is kept exactly when it is in the list and its id is in the set. |
| FilterUtils.KeepIdsSubsequence | stores/utils.ts:61 | The kept challenges are a subsequence of the list, in its order. |
| FilterUtils.KeepIdsMultiset | stores/utils.ts:61 | Filtering adds no challenge and duplicates none. |
| FilterUtils.PartIdsOfToken | stores/utils.ts:39-59 | The ids a matching piece adds are exactly those its token names. |
| FilterUtils.SingleTokenIds | stores/utils.ts:54-58 | A digit piece adds the one id it spells. |
| FilterUtils.FromTokenIds | stores/utils.ts:40-46 | `d+` adds the ids from `d` to the greatest challenge id. It adds none when there are no challenges. |
| FilterUtils.RangeTokenIds | stores/utils.ts:47-53 | `d-e` adds the ids from `d` to `e`. It adds none when `d > e`. |
| FilterUtils.RangeFromTokenIds | stores/utils.ts:40-46 | `d-e+` passes the pattern but adds no id, because `Number("d-e")` is `NaN`. |
| FilterUtils.RangeIsNaN | stores/utils.ts:41 | `Number` of `d-e` is `NaN`. |
| FilterUtils.FilterSelects | stores/utils.ts:34-65 | For a matching filter, a challenge is selected exactly when it is in the list and some token of the filter names its id. |
| FilterUtils.FromNamesAtLeast | stores/utils.ts:43-45 | A challenge in the list falls under `lo+` exactly when its id is at least `lo`. |
| FilterUtils.RejectedFiltersKeepAll | stores/utils.ts:64 | Filters the pattern rejects, among them the empty one, keep every challenge in its order. |
| SortUtils.IdComparatorRanks | stores/utils.ts:5-7 | The comparator is the difference of ranks: the id for `asc` and minus the id for any other order. |
| SortUtils.SortChallengeListSorts | stores/utils.ts:18-27 | The sorted list holds the same challenges. It is ordered by id in the requested direction. Challenges sharing an id keep their order. |
| SortUtils.SortedDohasSorted | stores/utils.ts:10 | A challenge's dohas are sorted to ascending `sequence`, with the same dohas. The sort is stable: dohas sharing a `sequence` keep their order in the challenge. |
| SortUtils.FlattenDohasContents | stores/utils.ts:10 | `flatMap` yields every doha of every challenge, as many as they hold. |
| SortUtils.SortChallengesContents | stores/utils.ts:3-16 | `sortChallenges` returns the same challenges ordered by id, and exactly their dohas. |
| SortUtils.SortChallengesAndFlattenDohas | stores/utils.ts:29-32 | `sortChallengesAndFlattenDohas` yields the same deck as the `dohas` of `sortChallenges`. |
| SortUtils.Resort | stores/utils.ts:18-27 | Sorting a sorted list again in any order gives what sorting the original list in that order gives. |
| SortUtils.ResortChallenges | stores/utils.ts:3-16 | The same holds for challenges and deck together: a re-sort forgets the previous order. |
| SortUtils.DescendingReversesAscending | stores/utils.ts:5-7 | With distinct ids, the descending list is the ascending list reversed. |
| SortUtils.DescendingReversesBlocks | stores/utils.ts:10 | With distinct ids, the descending deck is the ascending challenges' blocks in reverse order. Each block stays in sequence order. |
| SortUtils.SortedDohasAscendWithinChallenge | stores/utils.ts:10 | When ids are distinct and each doha belongs to its challenge, two dohas of one challenge appear in the deck in sequence order. |
| RawText.Lines | scripts/seed/raw2json.js:15 | The text splits into at least one line, and no line holds a newline. |
| RawText.Category | scripts/seed/raw2json.js:29 | A category exists exactly when the third group matched and is non-empty. It is that group trimmed. |
| RawText.FirstLine | scripts/seed/raw2json.js:44-47 | A trimmed line is a first line exactly when it ends with the danda and has text before it. Its text is that text, trimmed. |
| RawText.ZeroPadded | scripts/seed/raw2json.js:57 | A number padded with zeros reads back as the number, at the padded width. |
| RawText.DohaIdShifts | scripts/seed/raw2json.js:57 | A doha id is the challenge id shifted by the padded sequence's width, plus the sequence. |
| RawText.DohaIdDecimal | scripts/seed/raw2json.js:57 | For sequences up to 99 the doha id is `challengeId * 100 + sequence`. |
| RawText.DohaIdsDistinct | scripts/seed/raw2json.js:57 | For sequences up to 99, two dohas share an id exactly when they share challenge and sequence. |
| RawText.DohaIdCollision | scripts/seed/raw2json.js:57 | Past 99 dohas, ids collide across challenges: challenge 1 sequence 101 and challenge 11 sequence 1 both get 1101. |
| SeedRaw2Json.ReadLine | scripts/seed/raw2json.js:21-68 | One pass of the loop body does what the step function `Step` specifies. |
| SeedRaw2Json.ParseBhaktiChallenges | scripts/seed/raw2json.js:7-75 | The parser returns the specification `Parsed`: the line loop's challenges sorted by id, or the first error. |
| SeedRaw2Json.StepSkips | scripts/seed/raw2json.js:21-42 | Blank lines, and lines before the first title line, change nothing. |
| SeedRaw2Json.TitleOpensChallenge | scripts/seed/raw2json.js:24-40 | A title line appends a challenge with the matched number, the trimmed title, no dohas and the category. |
| SeedRaw2Json.FirstLineRemembered | scripts/seed/raw2json.js:44-51 | A first line in an open challenge makes its trimmed text, with the danda, the pending `dohaToAdd`. The challenges stay as they were. |
| SeedRaw2Json.FirstThenSecondLine | scripts/seed/raw2json.js:44-64 | A first line followed by a second line adds to the latest challenge only one doha. Its `line1` is the first line's trimmed text with the danda, and its `line2` is the matched verse text, trimmed, with the double danda. |
| SeedRaw2Json.StepFails | scripts/seed/raw2json.js:46-67 | Inside a challenge, a line that is no doha line throws "Unrecognized". A second line before any first line fails on the null `dohaToAdd`. No other line fails. |
| SeedRaw2Json.SecondLineAddsDoha | scripts/seed/raw2json.js:52-64 | A second line appends to the latest challenge a doha holding the pending first line. The sequence is the next number, the challenge id is the challenge's own, and the line number is the matched one. Nothing else changes. |
| SeedRaw2Json.PreambleIgnored | scripts/seed/raw2json.js:42 | Lines before the first title line do not affect the result. |
| SeedRaw2Json.StepKeepsWellFormed | scripts/seed/raw2json.js:46-64 | Each step keeps the challenges well formed. |
| SeedRaw2Json.RunWellFormed | scripts/seed/raw2json.js:20-69 | After the loop, every challenge is well formed. Its dohas carry sequences 1, 2, 3, ... and its own id. Each doha's id is the padded concatenation, and its lines end with their dandas. |
| SeedRaw2Json.ParsedSortedById | scripts/seed/raw2json.js:72 | The output holds exactly the challenges built, in ascending id order. Challenges sharing an id keep the order they were read in. |
| SeedRaw2Json.ParsedDohasNumbered | scripts/seed/raw2json.js:54-57 | In the output, every challenge's dohas are numbered 1, 2, 3, .... Up to sequence 99, a doha's id is `challengeId * 100 + sequence`. |
| Raw2Json.BookOf | scripts/raw2json.js:52-60 | A first line ending in the Radha Govind refrain marks the book "राधा गोविंद गीत". Any other first line marks "श्यामा श्याम गीत". |
| Raw2Json.ReadLine | scripts/raw2json.js:23-86 | One pass of the loop body does what the step function `Step` specifies. |
| Raw2Json.ReadDohaLine | scripts/raw2json.js:46-85 | The branch for a line inside a challenge does what `ReadOpen` specifies. |
| Raw2Json.ParseBhaktiChallenges | scripts/raw2json.js:9-92 | The parser returns the specification `Parsed`: the line loop's challenges sorted by id, or the first error. |
| Raw2Json.StepSkips | scripts/raw2json.js:24-46 | Blank lines, and lines before the first title line, change nothing. |
| Raw2Json.TitleOpensChallenge | scripts/raw2json.js:27-44 | A title line appends a challenge with the matched number, the trimmed title, the default book, no entries and the category. |
| Raw2Json.StepFails | scripts/raw2json.js:61-71 | The only failure is a second line read while no first line is pending. |
| Raw2Json.FirstLineSetsBook | scripts/raw2json.js:50-60 | A first line makes its text, with the danda, the pending first line. It sets the latest challenge's book by its refrain and changes nothing else. |
| Raw2Json.OtherLineAddsEntry | scripts/raw2json.js:61-84 | Inside a challenge, a second line appends a verse numbered by position, and any other line appends a loose entry holding the line. Nothing else changes. |
| Raw2Json.PreambleIgnored | scripts/raw2json.js:46 | Lines before the first title line do not affect the result. |
| Raw2Json.StepKeepsWellFormed | scripts/raw2json.js:46-85 | Each step keeps the challenges well formed. |
| Raw2Json.RunWellFormed | scripts/raw2json.js:23-86 | After the loop, every challenge's entries are numbered 1, 2, 3, ... and carry its id. Each challenge's book is one of the two. |
| Raw2Json.ParsedSortedById | scripts/raw2json.js:89 | The output holds exactly the challenges built, in ascending id order. Challenges sharing an id keep their reading order. |
| Raw2Json.ParsedEntriesNumbered | scripts/raw2json.js:63-77 | In the output, every challenge's entries are numbered 1, 2, 3, .... A loose entry's line number equals its sequence number. |
| CardPriorityHook.FindIndexFinds | hooks/useCardPriorities.ts:35-37 | `findIndex` is -1 exactly when the card is absent. Otherwise it is the first position holding the card. |
| CardPriorityHook.Shuffled | hooks/useCardPriorities.ts:27-51 | Card 0 coming to the front sets the third data index to the first plus 2. Card 2 coming to the front moves the first two data indices on by 3. Otherwise no index changes. |
| CardPriorityHook.ShuffleRotates | hooks/useCardPriorities.ts:27-31 | The new order is the old one rotated left by one, with the same cards. |
| CardPriorityHook.ShufflePriorities | hooks/useCardPriorities.ts:35-37 | After a shuffle, each present card's priority is its position in the new order. |
| CardPriorityHook.InitialReachable | hooks/useCardPriorities.ts:7-13 | The initial values are a reachable state. |
| CardPriorityHook.ShuffleKeepsReachable | hooks/useCardPriorities.ts:15-59 | A shuffle keeps the state reachable, and no data index decreases. |
| CardPriorityHook.ShufflesFromReachable | hooks/useCardPriorities.ts:15-59 | From a reachable state, every three shuffles restore the card order and priorities and move each data index on by 3. |
| CardPriorityHook.AfterThreeK | hooks/useCardPriorities.ts:46-50 | After `3k` shuffles from the start, the data indices are `3k`, `3k+1` and `3k+2`. |
| CardPriorityHook.ShuffleTrace | hooks/useCardPriorities.spec.ts:15-63 | After 1, 2, 3 and 5 shuffles from the start, priorities and data indices take the concrete values listed. |
| CardPriorityHook.CardPriorities.constructor | hooks/useCardPriorities.ts:6-13 | The hook starts with order `[0, 1, 2]`, priorities 0, 1, 2 and data indices 0, 1, 2. |
| CardPriorityHook.CardPriorities.Shuffle | hooks/useCardPriorities.ts:15-59 | `shuffle` updates the shared values to the `Shuffled` state of the old ones and keeps them reachable. |
| ChallengeStore.LoadChallengesDataContents | stores/challenges.ts:231-271 | Stored data wins, whatever the language. Without it, the bundled list of the language is used. An empty list returns the empty object. Otherwise the selection is the filtered list ordered by id (ascending by default), and the deck is its dohas, block by block. |
| ChallengeStore.ReadErrorFallsBack | stores/challenges.ts:239-252 | A storage error loads what an absent item loads, namely the bundled list. |
| ChallengeStore.FilterSpecMultiset | stores/challenges.ts:101 | Filtering selects only challenges of the loaded list. |
| ChallengeStore.BackwardsKeepsCards | stores/challenges.ts:72-80 | Going backwards on a non-empty deck keeps its cards. |
| ChallengeStore.BackwardsRotates | stores/challenges.ts:72-80 | Going backwards `k` times puts the last `k` cards in front. |
| ChallengeStore.BackwardsFullCircle | stores/challenges.ts:72-80 | Going backwards once per card restores the deck. |
| ChallengeStore.RawDohasContents | stores/challenges.ts:63 | The initial deck holds every doha of the bundled Hindi challenges. |
| ChallengeStore.Toggled | stores/challenges.ts:118 | Toggling always changes the sort order. |
| ChallengeStore.ToggleSortTwice | stores/challenges.ts:116-127 | Toggling the sort twice restores the order, the selection and the deck of the first sort. |
| ChallengeStore.LiftedDeckHolds | stores/challenges.ts:104-105 | A deck built from the sorted selection holds exactly the selection's dohas. |
| ChallengeStore.BackwardsKeepsDeck | stores/challenges.ts:72-80 | Going backwards keeps the deck equal, as cards, to the selection's dohas. |
| ChallengeStore.ShuffleKeepsDeck | stores/challenges.ts:88 | A random reordering keeps the deck equal, as cards, to the selection's dohas. |
| ChallengeStore.LoadKeepsValid | stores/challenges.ts:140-143 | Taking in a load's fields keeps the store's invariant. |
| ChallengeStore.SelectionKeepsValid | stores/challenges.ts:99-110 | A new filter selects from the loaded list, and its deck holds the selection's dohas. |
| ChallengeStore.ResortKeepsValid | stores/challenges.ts:116-127 | Re-sorting keeps the store's invariant. |
| ChallengeStore.Store.constructor | stores/challenges.ts:56-70 | A new store is Hindi, ascending, unfiltered and in default mode, with the bundled Hindi challenges and their dohas, and it is valid. |
| ChallengeStore.Store.GoBackwards | stores/challenges.ts:72-80 | The last card moves to the front. An empty deck becomes `[undefined]`. Nothing else changes, and the invariant is kept. |
| ChallengeStore.Store.SetMode | stores/challenges.ts:81-83 | Only the mode changes. |
| ChallengeStore.Store.SetRandomized | stores/challenges.ts:84-98 | On, the deck is reordered by the random comparator and keeps its cards. Off, the deck is rebuilt from the selection in the current order. The invariant is kept. |
| ChallengeStore.Store.SetFilterString | stores/challenges.ts:99-110 | The selection becomes the loaded list filtered and sorted, the deck becomes its dohas, the filter is stored and randomized is cleared. The invariant holds after. |
| ChallengeStore.Store.SetLanguage | stores/challenges.ts:111-114 | The language changes, and the fields of a load for that language are taken in. |
| ChallengeStore.Store.ToggleSort | stores/challenges.ts:116-127 | The order flips, and the selection and deck are re-sorted in it. The invariant is kept. |
| ChallengeStore.Store.SetDataIndexOne | stores/challenges.ts:128-131 | The first data index becomes the index modulo the deck length, in JavaScript's truncating sense. |
| ChallengeStore.Store.SetDataIndexTwo | stores/challenges.ts:132-135 | The second data index likewise. |
| ChallengeStore.Store.SetDataIndexThree | stores/challenges.ts:136-139 | The third data index likewise. |
| ChallengeStore.Store.InitializeChallenges | stores/challenges.ts:140-143 | The fields of a load for the current language, order and filter are taken in. |
| ChallengeStore.Store.FetchRemoteChallenges | stores/challenges.ts:144-226 | The action succeeds exactly when both languages returned non-empty lists and both writes succeeded. It fails with a fetch error exactly when a list is missing or empty. On success it reloads from the list just stored for the current language. On either failure only the fetching flag, cleared, differs. |

## Left out

- `initProps` of `createChallengeStore`: the store always starts from its defaults, and the initial-props override is not modelled.
- Device storage, the network and toasts are inputs, not state:
  - a load takes the result of reading the stored item (`Stored`, `Absent` or `ReadFailed`);
  - a fetch takes the two replies and whether the writes succeeded;
  - what is written to device storage is not itself modelled as state.
- Partial write failure in `fetchRemoteChallenges`: the Hindi list written but the English one not is not modelled. The writes either both succeed or the action fails.
- Interleaving of the asynchronous actions is not modelled. Each action runs to completion.
- The intermediate `isFetchingChallenges: true` of a fetch is not modelled. Only its final value is.
- `Math.random`: the random reorder is any comparator at all, fed to the same stable sort. The model claims nothing about the distribution.
- Logging (`console.log`, `console.error`) and the `"worklet"` annotation have no effect on state and are left out.
- Numbers are integers:
  - `-0`, fractional and non-finite numbers are left out, except that `NaN` is modelled where a remainder by zero or `Number(...)` yields it;
  - `parseInt` and `Number` are exact on long digit strings, whereas JavaScript loses precision beyond 2^53.
- The title and second-line patterns of both parsers are abstract (`Patterns`): any function from a line to its captured groups. The first-line pattern, trimming, padding and the error paths are concrete.
- The unused `language` parameter of the seed parser, and the wrapper functions `raw2Json` and `parseBhaktiText`, only call the parser and are not modelled.
- The module-level file read and write of `scripts/raw2json.js` (lines 1-2 and 104-107) are left out.
- `Math.max` in the `start+` loop is the greatest id, taken once, not re-evaluated on each iteration. Its value is the same on each pass.
- In-place sorting is modelled on values, as a function from the old order to the new one.
  - The store and the sorting helpers sort a fresh copy (`[...challenges]`, `[...challenge.dohas]`, `[...state.dohas]`).
  - Both parsers sort their `challenges` array in place (scripts/seed/raw2json.js:72, scripts/raw2json.js:89). That array is local to the parser and is returned right after the sort, so no other reference observes the change.
- `stores/utils.ts` declares `sortChallenges` twice, at lines 3 and 18:
  - the store uses the first form (`{challenges, dohas}`), modelled as `SortUtils.SortChallenges`;
  - `sortChallengesAndFlattenDohas` uses the second (a list), modelled as `SortUtils.SortChallengeList`.
- JavaScript's `.` in the raw-text patterns does not match `\r`, U+2028 or U+2029. The first-line pattern is modelled as if it did, so a line holding those characters inside it is treated as a match.
