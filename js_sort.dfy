/**
 * `Array.prototype.sort(compare)` on a copy of an array. Since ES2019 the sort is
 * required to be stable, so for a comparator derived from a numeric key the
 * result is the one stable ordering of the input (see `SortedUnique`); the model
 * computes it with an insertion sort that places each element before the first
 * one it does not compare greater than.
 */
module JsSort {

  /** Inserts `x` in front of the first element of `t` that `x` does not compare greater than. */
  function Insert<T>(x: T, t: seq<T>, cmp: (T, T) -> int): seq<T> {
    if t == [] then [x]
    else if cmp(x, t[0]) <= 0 then [x] + t
    else [t[0]] + Insert(x, t[1..], cmp)
  }

  /** Inserting adds `x` and keeps every element of `t`. */
  lemma {:induction false} InsertPermutes<T>(x: T, t: seq<T>, cmp: (T, T) -> int)
    ensures multiset(Insert(x, t, cmp)) == multiset([x] + t)
    ensures |Insert(x, t, cmp)| == |t| + 1
  {
    if t != [] && cmp(x, t[0]) > 0 {
      InsertPermutes(x, t[1..], cmp);
      assert t == [t[0]] + t[1..];
    }
  }

  /** `[...s].sort(cmp)`. */
  function SortWith<T>(s: seq<T>, cmp: (T, T) -> int): seq<T> {
    if s == [] then [] else Insert(s[0], SortWith(s[1..], cmp), cmp)
  }

  /** The sort always returns a permutation of `s`, whatever the comparator answers. */
  lemma {:induction false} SortWithPermutes<T>(s: seq<T>, cmp: (T, T) -> int)
    ensures multiset(SortWith(s, cmp)) == multiset(s)
    ensures |SortWith(s, cmp)| == |s|
  {
    if s != [] {
      SortWithPermutes(s[1..], cmp);
      InsertPermutes(s[0], SortWith(s[1..], cmp), cmp);
      assert s == [s[0]] + s[1..];
    }
  }

  /** `cmp(a, b)` is `key(a) - key(b)`, the shape of every comparator in the store. */
  ghost predicate IsKeyComparator<T(!new)>(cmp: (T, T) -> int, key: T -> int) {
    forall a, b :: cmp(a, b) == key(a) - key(b)
  }

  predicate SortedByKey<T>(s: seq<T>, key: T -> int) {
    forall i, j | 0 <= i < j < |s| :: key(s[i]) <= key(s[j])
  }

  /** The elements of `s` whose key is `k`, in their order in `s`. */
  function FilterKey<T>(s: seq<T>, key: T -> int, k: int): seq<T>
  {
    if s == [] then []
    else (if key(s[0]) == k then [s[0]] else []) + FilterKey(s[1..], key, k)
  }

  /** Everything `FilterKey` keeps comes from `s` and has key `k`. */
  lemma {:induction false} FilterKeySound<T>(s: seq<T>, key: T -> int, k: int, x: T)
    requires x in FilterKey(s, key, k)
    ensures x in s && key(x) == k
  {
    if !(key(s[0]) == k && x == s[0]) {
      FilterKeySound(s[1..], key, k, x);
    }
  }

  lemma {:induction false} FilterKeyComplete<T>(s: seq<T>, key: T -> int, x: T)
    requires x in s
    ensures x in FilterKey(s, key, key(x))
  {
    if s[0] != x {
      FilterKeyComplete(s[1..], key, x);
    }
  }

  lemma {:induction false} FilterKeyAppend<T>(a: seq<T>, b: seq<T>, key: T -> int, k: int)
    ensures FilterKey(a + b, key, k) == FilterKey(a, key, k) + FilterKey(b, key, k)
  {
    if a == [] {
      assert a + b == b;
    } else {
      var c := a + b;
      var h := if key(a[0]) == k then [a[0]] else [];
      assert c[0] == a[0] && c[1..] == a[1..] + b;
      FilterKeyAppend(a[1..], b, key, k);
      assert FilterKey(c, key, k) == h + FilterKey(c[1..], key, k);
      assert FilterKey(a, key, k) == h + FilterKey(a[1..], key, k);
    }
  }

  /** The sort puts the keys in ascending order. */
  lemma {:induction false} SortWithSorted<T(!new)>(s: seq<T>, cmp: (T, T) -> int, key: T -> int)
    requires IsKeyComparator(cmp, key)
    ensures SortedByKey(SortWith(s, cmp), key)
  {
    if s != [] {
      SortWithSorted(s[1..], cmp, key);
      InsertSorted(s[0], SortWith(s[1..], cmp), cmp, key);
    }
  }

  lemma {:induction false} InsertSorted<T(!new)>(x: T, t: seq<T>, cmp: (T, T) -> int, key: T -> int)
    requires IsKeyComparator(cmp, key) && SortedByKey(t, key)
    ensures SortedByKey(Insert(x, t, cmp), key)
  {
    if t != [] && cmp(x, t[0]) > 0 {
      var y, t' := t[0], t[1..];
      var r' := Insert(x, t', cmp);
      assert Insert(x, t, cmp) == [y] + r';
      assert SortedByKey(t', key) by {
        assert forall i | 0 <= i < |t'| :: t'[i] == t[i + 1];
      }
      InsertSorted(x, t', cmp, key);
      forall j | 0 <= j < |r'|
        ensures key(y) <= key(r'[j])
      {
        InsertFrom(x, t', cmp, j);
        if r'[j] != x {
          var i :| 0 <= i < |t'| && t'[i] == r'[j];
          assert t[i + 1] == r'[j];
        }
      }
      SortedCons(y, r', key);
    } else if t != [] {
      SortedCons(x, t, key);
    }
  }

  /** Each element of `Insert(x, t, cmp)` is `x` or an element of `t`. */
  lemma InsertFrom<T>(x: T, t: seq<T>, cmp: (T, T) -> int, j: nat)
    requires j < |Insert(x, t, cmp)|
    ensures Insert(x, t, cmp)[j] == x || Insert(x, t, cmp)[j] in t
  {
    var r := Insert(x, t, cmp);
    InsertPermutes(x, t, cmp);
    assert r[j] in multiset(r);
  }

  /** Putting an element no greater than any other in front keeps a sequence sorted. */
  lemma SortedCons<T>(y: T, r: seq<T>, key: T -> int)
    requires SortedByKey(r, key)
    requires forall j | 0 <= j < |r| :: key(y) <= key(r[j])
    ensures SortedByKey([y] + r, key)
  {
    var s := [y] + r;
    forall i, j | 0 <= i < j < |s|
      ensures key(s[i]) <= key(s[j])
    {
      assert s[j] == r[j - 1];
      if i > 0 {
        assert s[i] == r[i - 1];
      }
    }
  }

  /** The sort is stable: the elements sharing a key keep their relative order. */
  lemma {:induction false} SortWithStable<T(!new)>(s: seq<T>, cmp: (T, T) -> int, key: T -> int, k: int)
    requires IsKeyComparator(cmp, key)
    ensures FilterKey(SortWith(s, cmp), key, k) == FilterKey(s, key, k)
  {
    if s != [] {
      var x, s' := s[0], s[1..];
      var t := SortWith(s', cmp);
      assert SortWith(s, cmp) == Insert(x, t, cmp);
      assert s == [x] + s';
      SortWithStable(s', cmp, key, k);
      InsertStable(x, t, cmp, key, k);
      FilterKeyAppend([x], s', key, k);
      FilterKeyAppend([x], t, key, k);
    }
  }

  lemma {:induction false} InsertStable<T(!new)>(x: T, t: seq<T>, cmp: (T, T) -> int, key: T -> int, k: int)
    requires IsKeyComparator(cmp, key)
    ensures FilterKey(Insert(x, t, cmp), key, k) == FilterKey([x] + t, key, k)
  {
    if t != [] && cmp(x, t[0]) > 0 {
      assert key(x) != key(t[0]);
      InsertStableStep(x, t, Insert(x, t[1..], cmp), key, k);
      InsertStable(x, t[1..], cmp, key, k);
    }
  }

  /** One step of `InsertStable`: `x` passes over `t[0]`, whose key differs. */
  lemma InsertStableStep<T>(x: T, t: seq<T>, rest: seq<T>, key: T -> int, k: int)
    requires t != [] && key(x) != key(t[0])
    ensures FilterKey([t[0]] + rest, key, k) == FilterKey([x] + t, key, k)
      <== FilterKey(rest, key, k) == FilterKey([x] + t[1..], key, k)
  {
    var t', y := t[1..], t[0];
    assert t == [y] + t';
    FilterKeyAppend([y], rest, key, k);
    FilterKeyAppend([x], t', key, k);
    FilterKeyAppend([x], t, key, k);
    FilterKeyAppend([y], t', key, k);
    FilterKeySingle(x, key, k);
    FilterKeySingle(y, key, k);
    var fx, fy, ft := FilterKey([x], key, k), FilterKey([y], key, k), FilterKey(t', key, k);
    if FilterKey(rest, key, k) == FilterKey([x] + t', key, k) {
      calc {
        FilterKey([y] + rest, key, k);
        fy + (fx + ft);
        { if fx == [] { assert fx + ft == ft; } else { assert fy == [] && fy + ft == ft; } }
        fx + (fy + ft);
        FilterKey([x] + t, key, k);
      }
    }
  }

  lemma FilterKeySingle<T>(y: T, key: T -> int, k: int)
    ensures FilterKey([y], key, k) == if key(y) == k then [y] else []
  {
    assert [y][1..] == [];
  }

  /**
   * Uniqueness of the stable order: two sequences sorted by the same key that
   * list the elements of every key in the same order are equal. So any stable
   * sort, whichever algorithm the engine uses, returns `SortWith`'s result.
   */
  lemma {:induction false} SortedUnique<T>(a: seq<T>, b: seq<T>, key: T -> int)
    requires SortedByKey(a, key) && SortedByKey(b, key)
    requires forall k :: FilterKey(a, key, k) == FilterKey(b, key, k)
    ensures a == b
  {
    if a != [] && b == [] {
      FilterKeyComplete(a, key, a[0]);
      assert false;
    } else if a == [] && b != [] {
      FilterKeyComplete(b, key, b[0]);
      assert false;
    } else if a != [] {
      SortedHeadsEqual(a, b, key);
      FilterKeyTails(a, b, key);
      SortedUnique(a[1..], b[1..], key);
      assert a == [a[0]] + a[1..] && b == [b[0]] + b[1..];
    }
  }

  /** Both sorted sequences start with the same element: it has the least key, and comes first among that key's elements. */
  lemma SortedHeadsEqual<T>(a: seq<T>, b: seq<T>, key: T -> int)
    requires a != [] && b != []
    requires SortedByKey(a, key) && SortedByKey(b, key)
    requires forall k :: FilterKey(a, key, k) == FilterKey(b, key, k)
    ensures a[0] == b[0]
  {
    var ka, kb := key(a[0]), key(b[0]);
    FilterKeyComplete(b, key, b[0]);
    FilterKeySound(a, key, kb, b[0]);
    FilterKeyComplete(a, key, a[0]);
    FilterKeySound(b, key, ka, a[0]);
    assert ka == kb;
    assert FilterKey(a, key, ka)[0] == a[0];
    assert FilterKey(b, key, kb)[0] == b[0];
  }

  lemma FilterKeyTails<T>(a: seq<T>, b: seq<T>, key: T -> int)
    requires a != [] && b != [] && a[0] == b[0]
    requires forall k :: FilterKey(a, key, k) == FilterKey(b, key, k)
    ensures forall k :: FilterKey(a[1..], key, k) == FilterKey(b[1..], key, k)
  {
    forall k
      ensures FilterKey(a[1..], key, k) == FilterKey(b[1..], key, k)
    {
      var h := if key(a[0]) == k then [a[0]] else [];
      var fa, fb := FilterKey(a[1..], key, k), FilterKey(b[1..], key, k);
      assert FilterKey(a, key, k) == h + fa;
      assert FilterKey(b, key, k) == h + fb;
      assert (h + fa)[|h|..] == fa;
      assert (h + fb)[|h|..] == fb;
    }
  }

  function Reverse<T>(s: seq<T>): (r: seq<T>)
    ensures |r| == |s| && forall i | 0 <= i < |s| :: r[i] == s[|s| - 1 - i]
  {
    if s == [] then [] else Reverse(s[1..]) + [s[0]]
  }

  /** A sequence of at most one element is its own reverse. */
  lemma ReverseShort<T>(s: seq<T>)
    requires |s| <= 1
    ensures Reverse(s) == s
  {
    if s != [] {
      assert s[1..] == [];
    }
  }

  /** Reversing a sequence sorted by a key sorts it by the negated key. */
  lemma SortedReverse<T(!new)>(s: seq<T>, key: T -> int, negated: T -> int)
    requires SortedByKey(s, key)
    requires forall x :: negated(x) == -key(x)
    ensures SortedByKey(Reverse(s), negated)
  {
    var r := Reverse(s);
    forall i, j | 0 <= i < j < |r|
      ensures negated(r[i]) <= negated(r[j])
    {
      assert key(s[|s| - 1 - j]) <= key(s[|s| - 1 - i]);
    }
  }

  lemma {:induction false} FilterKeyReverse<T>(s: seq<T>, key: T -> int, k: int)
    ensures FilterKey(Reverse(s), key, k) == Reverse(FilterKey(s, key, k))
  {
    if s != [] {
      FilterKeyReverse(s[1..], key, k);
      FilterKeyAppend(Reverse(s[1..]), [s[0]], key, k);
      var f := if key(s[0]) == k then [s[0]] else [];
      assert FilterKey([s[0]], key, k) == f;
      ReverseAppend(f, FilterKey(s[1..], key, k));
      assert Reverse(f) == f;
    }
  }

  lemma {:induction false} ReverseAppend<T>(a: seq<T>, b: seq<T>)
    ensures Reverse(a + b) == Reverse(b) + Reverse(a)
  {
    var l, r := Reverse(a + b), Reverse(b) + Reverse(a);
    assert |l| == |r|;
    forall i | 0 <= i < |l|
      ensures l[i] == r[i]
    {
      if i < |b| {
        assert r[i] == Reverse(b)[i];
      } else {
        assert r[i] == Reverse(a)[i - |b|];
      }
    }
  }

  /** Filtering on a negated key is filtering on the key for the negated value. */
  lemma {:induction false} FilterKeyNegated<T(!new)>(s: seq<T>, key: T -> int, negated: T -> int, k: int)
    requires forall x :: negated(x) == -key(x)
    ensures FilterKey(s, negated, -k) == FilterKey(s, key, k)
  {
    if s != [] {
      FilterKeyNegated(s[1..], key, negated, k);
    }
  }

  /** The union of the multisets `f` gives for the elements of `s`. */
  function Gather<T, U>(s: seq<T>, f: T -> multiset<U>): multiset<U> {
    if s == [] then multiset{} else f(s[0]) + Gather(s[1..], f)
  }

  lemma {:induction false} GatherInsert<T, U>(x: T, t: seq<T>, cmp: (T, T) -> int, f: T -> multiset<U>)
    ensures Gather(Insert(x, t, cmp), f) == f(x) + Gather(t, f)
  {
    if t != [] && cmp(x, t[0]) > 0 {
      GatherInsert(x, t[1..], cmp, f);
      assert ([t[0]] + Insert(x, t[1..], cmp))[1..] == Insert(x, t[1..], cmp);
    } else if t != [] {
      assert ([x] + t)[1..] == t;
    }
  }

  /** Sorting does not change what is gathered from the elements. */
  lemma {:induction false} GatherSortWith<T, U>(s: seq<T>, cmp: (T, T) -> int, f: T -> multiset<U>)
    ensures Gather(SortWith(s, cmp), f) == Gather(s, f)
  {
    if s != [] {
      GatherSortWith(s[1..], cmp, f);
      GatherInsert(s[0], SortWith(s[1..], cmp), cmp, f);
    }
  }

  /** No two elements of `s` share a key. */
  predicate DistinctKeys<T>(s: seq<T>, key: T -> int) {
    forall i, j | 0 <= i < j < |s| :: key(s[i]) != key(s[j])
  }

  /** With distinct keys, each key selects at most one element. */
  lemma {:induction false} DistinctKeysFilter<T>(s: seq<T>, key: T -> int, k: int)
    requires DistinctKeys(s, key)
    ensures |FilterKey(s, key, k)| <= 1
  {
    if s != [] {
      assert DistinctKeys(s[1..], key) by {
        forall i, j | 0 <= i < j < |s[1..]|
          ensures key(s[1..][i]) != key(s[1..][j])
        {
          assert s[1..][i] == s[i + 1] && s[1..][j] == s[j + 1];
        }
      }
      DistinctKeysFilter(s[1..], key, k);
      var rest := FilterKey(s[1..], key, k);
      if key(s[0]) == k && rest != [] {
        FilterKeySound(s[1..], key, k, rest[0]);
        assert false;
      }
    }
  }

  /** Conversely, when each key selects at most one element, the keys are distinct. */
  lemma FilterDistinctKeys<T>(s: seq<T>, key: T -> int)
    requires forall k :: |FilterKey(s, key, k)| <= 1
    ensures DistinctKeys(s, key)
  {
    forall i, j | 0 <= i < j < |s|
      ensures key(s[i]) != key(s[j])
    {
      if key(s[i]) == key(s[j]) {
        TwoSelected(s, key, i, j);
        assert false;
      }
    }
  }

  /** Two elements sharing a key are both selected by it. */
  lemma TwoSelected<T>(s: seq<T>, key: T -> int, i: nat, j: nat)
    requires i < j < |s| && key(s[i]) == key(s[j])
    ensures |FilterKey(s, key, key(s[i]))| >= 2
  {
    var k := key(s[i]);
    assert s == s[..j] + s[j..];
    FilterKeyAppend(s[..j], s[j..], key, k);
    assert s[i] in s[..j];
    FilterKeyComplete(s[..j], key, s[i]);
    assert s[j..][0] == s[j];
    FilterKeyComplete(s[j..], key, s[j]);
  }

  /** A stable sort keeps the keys distinct when they were. */
  lemma SortWithDistinct<T(!new)>(s: seq<T>, cmp: (T, T) -> int, key: T -> int)
    requires IsKeyComparator(cmp, key) && DistinctKeys(s, key)
    ensures DistinctKeys(SortWith(s, cmp), key)
  {
    forall k
      ensures |FilterKey(SortWith(s, cmp), key, k)| <= 1
    {
      SortWithStable(s, cmp, key, k);
      DistinctKeysFilter(s, key, k);
    }
    FilterDistinctKeys(SortWith(s, cmp), key);
  }
}
