/** The array operations the storefront's components compose: `filter`,
    `slice(0, k)`, a stable `sort` by a comparator that only compares a small
    rank, and the first-occurrence de-duplication of `Array.from(new Set(...))`. */
module Seqs {
  import opened Wrappers

  /** `s.filter(p)`: the elements of `s` that satisfy `p`, in their order in `s`. */
  function Filter<T(!new)>(s: seq<T>, p: T -> bool): (r: seq<T>)
    ensures |r| <= |s|
    ensures forall x :: x in r <==> x in s && p(x)
  {
    if s == [] then [] else (if p(s[0]) then [s[0]] else []) + Filter(s[1..], p)
  }

  /** `Filter` keeps every copy of a matching element and no copy of any
      other: its multiplicities are those of `s`, cut down to `p`. */
  lemma {:induction false} FilterMultiplicity<T(!new)>(s: seq<T>, p: T -> bool)
    ensures forall x :: multiset(Filter(s, p))[x] == if p(x) then multiset(s)[x] else 0
  {
    if s != [] {
      FilterMultiplicity(s[1..], p);
      assert s == [s[0]] + s[1..];
    }
  }

  lemma {:induction false} FilterAppend<T(!new)>(a: seq<T>, b: seq<T>, p: T -> bool)
    ensures Filter(a + b, p) == Filter(a, p) + Filter(b, p)
  {
    if a == [] {
      assert a + b == b;
    } else {
      var h := if p(a[0]) then [a[0]] else [];
      assert (a + b)[0] == a[0] && (a + b)[1..] == a[1..] + b;
      FilterAppend(a[1..], b, p);
      calc {
        Filter(a + b, p);
        h + Filter(a[1..] + b, p);
        h + (Filter(a[1..], p) + Filter(b, p));
        (h + Filter(a[1..], p)) + Filter(b, p);
      }
    }
  }

  /** Filtering by a predicate every element satisfies changes nothing. */
  lemma {:induction false} FilterAll<T(!new)>(s: seq<T>, p: T -> bool)
    requires forall i :: 0 <= i < |s| ==> p(s[i])
    ensures Filter(s, p) == s
  {
    if s != [] {
      FilterAll(s[1..], p);
    }
  }

  /** Filtering twice by the same predicate is filtering once. */
  lemma FilterIdempotent<T(!new)>(s: seq<T>, p: T -> bool)
    ensures Filter(Filter(s, p), p) == Filter(s, p)
  {
    var r := Filter(s, p);
    forall i | 0 <= i < |r| ensures p(r[i]) {
      assert r[i] in r;
    }
    FilterAll(r, p);
  }

  /** `r` is obtained from `s` by deleting elements: its elements occur in
      `s` in the same order. */
  ghost predicate IsSubsequence<T>(r: seq<T>, s: seq<T>)
    decreases |s|
  {
    r == [] || (s != [] && ((r[0] == s[0] && IsSubsequence(r[1..], s[1..])) || IsSubsequence(r, s[1..])))
  }

  /** `Filter` keeps the order of the input: its result is a sub-sequence. */
  lemma {:induction false} FilterIsSubsequence<T(!new)>(s: seq<T>, p: T -> bool)
    ensures IsSubsequence(Filter(s, p), s)
  {
    if s != [] {
      FilterIsSubsequence(s[1..], p);
      var r := Filter(s, p);
      if p(s[0]) {
        assert r[0] == s[0] && r[1..] == Filter(s[1..], p);
      } else {
        assert r == Filter(s[1..], p);
      }
    }
  }

  /** Filtering by a predicate no element satisfies leaves nothing. */
  lemma {:induction false} FilterNone<T(!new)>(s: seq<T>, p: T -> bool)
    requires forall i :: 0 <= i < |s| ==> !p(s[i])
    ensures Filter(s, p) == []
  {
    if s != [] {
      FilterNone(s[1..], p);
    }
  }

  /** `s.slice(0, k)`. */
  function Take<T(!new)>(s: seq<T>, k: nat): (r: seq<T>)
    ensures |r| <= k && |r| <= |s|
    ensures |r| == k || |r| == |s|
    ensures r == s[..|r|]
  {
    if k < |s| then s[..k] else s
  }

  // ---------------------------------------------------------------------
  // Stable sorting by a rank. `Array.prototype.sort` is stable; when the
  // comparator only compares a rank of each element, its result is the
  // rank-ordered permutation in which equal-rank elements keep their order.

  /** Place `x` before the first element of `t` whose rank is not smaller. */
  function Insert<T(!new)>(x: T, t: seq<T>, rank: T -> nat): seq<T> {
    if t == [] || rank(x) <= rank(t[0]) then [x] + t else [t[0]] + Insert(x, t[1..], rank)
  }

  function SortByRank<T(!new)>(s: seq<T>, rank: T -> nat): seq<T> {
    if s == [] then [] else Insert(s[0], SortByRank(s[1..], rank), rank)
  }

  ghost predicate SortedByRank<T(!new)>(r: seq<T>, rank: T -> nat) {
    forall i, j :: 0 <= i < j < |r| ==> rank(r[i]) <= rank(r[j])
  }

  /** The elements of rank exactly `k`. */
  function HasRank<T(!new)>(rank: T -> nat, k: nat): T -> bool {
    x => rank(x) == k
  }

  lemma {:induction false} InsertPermutation<T(!new)>(x: T, t: seq<T>, rank: T -> nat)
    ensures multiset(Insert(x, t, rank)) == multiset(t) + multiset{x}
  {
    if !(t == [] || rank(x) <= rank(t[0])) {
      InsertPermutation(x, t[1..], rank);
      assert t == [t[0]] + t[1..];
    }
  }

  lemma SortedCons<T(!new)>(h: T, r: seq<T>, rank: T -> nat)
    requires SortedByRank(r, rank)
    requires forall y :: y in r ==> rank(h) <= rank(y)
    ensures SortedByRank([h] + r, rank)
  {
    forall i, j | 0 <= i < j < |[h] + r| ensures rank(([h] + r)[i]) <= rank(([h] + r)[j]) {
      assert ([h] + r)[j] == r[j - 1];
      if i > 0 {
        assert ([h] + r)[i] == r[i - 1];
      }
    }
  }

  lemma {:induction false} InsertSorted<T(!new)>(x: T, t: seq<T>, rank: T -> nat)
    requires SortedByRank(t, rank)
    ensures SortedByRank(Insert(x, t, rank), rank)
  {
    if t == [] || rank(x) <= rank(t[0]) {
      SortedCons(x, t, rank);
    } else {
      var r := Insert(x, t[1..], rank);
      assert SortedByRank(t[1..], rank);
      InsertSorted(x, t[1..], rank);
      InsertPermutation(x, t[1..], rank);
      forall y | y in r ensures rank(t[0]) <= rank(y) {
        assert y in multiset(r);
        if y != x {
          assert y in t[1..];
        }
      }
      SortedCons(t[0], r, rank);
    }
  }

  /** The sort orders by rank and is a permutation of its input. */
  lemma {:induction false} SortByRankSortedPermutation<T(!new)>(s: seq<T>, rank: T -> nat)
    ensures SortedByRank(SortByRank(s, rank), rank)
    ensures multiset(SortByRank(s, rank)) == multiset(s)
    ensures |SortByRank(s, rank)| == |s|
  {
    if s != [] {
      SortByRankSortedPermutation(s[1..], rank);
      InsertSorted(s[0], SortByRank(s[1..], rank), rank);
      InsertPermutation(s[0], SortByRank(s[1..], rank), rank);
      assert s == [s[0]] + s[1..];
    }
  }

  lemma {:induction false} InsertKeepsClasses<T(!new)>(x: T, t: seq<T>, rank: T -> nat, k: nat)
    ensures Filter(Insert(x, t, rank), HasRank(rank, k))
         == (if rank(x) == k then [x] else []) + Filter(t, HasRank(rank, k))
  {
    var p := HasRank(rank, k);
    if t == [] || rank(x) <= rank(t[0]) {
      assert ([x] + t)[1..] == t;
    } else {
      InsertKeepsClasses(x, t[1..], rank, k);
      assert ([t[0]] + Insert(x, t[1..], rank))[1..] == Insert(x, t[1..], rank);
    }
  }

  /** Stability: for every rank, the elements of that rank appear in the
      result in the same order as in the input. */
  lemma {:induction false} SortByRankStable<T(!new)>(s: seq<T>, rank: T -> nat, k: nat)
    ensures Filter(SortByRank(s, rank), HasRank(rank, k)) == Filter(s, HasRank(rank, k))
  {
    if s != [] {
      SortByRankStable(s[1..], rank, k);
      InsertKeepsClasses(s[0], SortByRank(s[1..], rank), rank, k);
    }
  }

  lemma HeadRankIsLeast<T(!new)>(r: seq<T>, rank: T -> nat, x: T)
    requires SortedByRank(r, rank) && x in r
    ensures rank(r[0]) <= rank(x)
  {
    var i :| 0 <= i < |r| && r[i] == x;
    assert i == 0 || rank(r[0]) <= rank(r[i]);
  }

  /** Equal rank classes force equal heads. */
  lemma SameClassesSameHead<T(!new)>(r: seq<T>, t: seq<T>, rank: T -> nat)
    requires SortedByRank(r, rank) && SortedByRank(t, rank)
    requires forall k: nat :: Filter(r, HasRank(rank, k)) == Filter(t, HasRank(rank, k))
    requires r != [] && t != []
    ensures r[0] == t[0]
  {
    var a, b := r[0], t[0];
    assert a in Filter(r, HasRank(rank, rank(a)));
    assert b in Filter(t, HasRank(rank, rank(b)));
    HeadRankIsLeast(t, rank, a);
    HeadRankIsLeast(r, rank, b);
    var k: nat := rank(a);
    assert Filter(r, HasRank(rank, k))[0] == a;
    assert Filter(t, HasRank(rank, k))[0] == b;
  }

  lemma SameClassTail<T(!new)>(r: seq<T>, t: seq<T>, rank: T -> nat, k: nat)
    requires Filter(r, HasRank(rank, k)) == Filter(t, HasRank(rank, k))
    requires r != [] && t != [] && r[0] == t[0]
    ensures Filter(r[1..], HasRank(rank, k)) == Filter(t[1..], HasRank(rank, k))
  {
    var x, y := Filter(r[1..], HasRank(rank, k)), Filter(t[1..], HasRank(rank, k));
    if rank(r[0]) == k {
      assert HasRank(rank, k)(r[0]);
      assert [r[0]] + x == [r[0]] + y;
      assert x == ([r[0]] + x)[1..] && y == ([r[0]] + y)[1..];
    } else {
      assert !HasRank(rank, k)(r[0]);
    }
  }

  /** Removing the same head keeps the rank classes equal. */
  lemma SameClassesTails<T(!new)>(r: seq<T>, t: seq<T>, rank: T -> nat)
    requires forall k: nat :: Filter(r, HasRank(rank, k)) == Filter(t, HasRank(rank, k))
    requires r != [] && t != [] && r[0] == t[0]
    ensures forall k: nat :: Filter(r[1..], HasRank(rank, k)) == Filter(t[1..], HasRank(rank, k))
  {
    forall k: nat ensures Filter(r[1..], HasRank(rank, k)) == Filter(t[1..], HasRank(rank, k)) {
      SameClassTail(r, t, rank, k);
    }
  }

  lemma HasOwnClass<T(!new)>(r: seq<T>, rank: T -> nat)
    requires r != []
    ensures Filter(r, HasRank(rank, rank(r[0]))) != []
  {
    assert r[0] in Filter(r, HasRank(rank, rank(r[0])));
  }

  /** Two rank-sorted sequences with the same elements of every rank, in the
      same order, are equal. */
  lemma {:induction false} SortedClassesDetermine<T(!new)>(r: seq<T>, t: seq<T>, rank: T -> nat)
    requires SortedByRank(r, rank) && SortedByRank(t, rank)
    requires forall k: nat :: Filter(r, HasRank(rank, k)) == Filter(t, HasRank(rank, k))
    ensures r == t
    decreases |r|
  {
    if r == [] && t == [] {
    } else if r == [] {
      HasOwnClass(t, rank);
      assert false;
    } else if t == [] {
      HasOwnClass(r, rank);
      assert false;
    } else {
      SameClassesSameHead(r, t, rank);
      SameClassesTails(r, t, rank);
      assert SortedByRank(r[1..], rank) && SortedByRank(t[1..], rank);
      SortedClassesDetermine(r[1..], t[1..], rank);
      assert r == [r[0]] + r[1..] && t == [t[0]] + t[1..];
    }
  }

  /** `SortByRank` is the only rank-sorted order that keeps the input order
      within each rank: any stable sort by this rank returns exactly it. */
  lemma StableSortIsUnique<T(!new)>(s: seq<T>, r: seq<T>, rank: T -> nat)
    requires SortedByRank(r, rank)
    requires forall k: nat :: Filter(r, HasRank(rank, k)) == Filter(s, HasRank(rank, k))
    ensures r == SortByRank(s, rank)
  {
    var t := SortByRank(s, rank);
    SortByRankSortedPermutation(s, rank);
    forall k: nat ensures Filter(r, HasRank(rank, k)) == Filter(t, HasRank(rank, k)) {
      SortByRankStable(s, rank, k);
    }
    SortedClassesDetermine(r, t, rank);
  }

  /** Sorting an already sorted sequence changes nothing, so re-running the
      sort on every render is harmless. */
  lemma SortByRankIdempotent<T(!new)>(s: seq<T>, rank: T -> nat)
    ensures SortByRank(SortByRank(s, rank), rank) == SortByRank(s, rank)
  {
    var t := SortByRank(s, rank);
    SortByRankSortedPermutation(s, rank);
    StableSortIsUnique(t, t, rank);
  }

  /** Inserting `x` after the prefix of smaller rank. */
  lemma {:induction false} InsertAt<T(!new)>(x: T, t: seq<T>, rank: T -> nat, k: nat)
    requires k <= |t|
    requires forall i :: 0 <= i < k ==> rank(t[i]) < rank(x)
    requires k == |t| || rank(x) <= rank(t[k])
    ensures Insert(x, t, rank) == t[..k] + [x] + t[k..]
  {
    if k > 0 {
      InsertAt(x, t[1..], rank, k - 1);
      assert t[1..][..k - 1] == t[1..k];
      assert t[1..][k - 1..] == t[k..];
      assert t[..k] == [t[0]] + t[1..k];
    }
  }

  // ---------------------------------------------------------------------
  // `Array.from(new Set(s))`: the distinct elements in first-occurrence order.

  ghost predicate Distinct<T(!new)>(s: seq<T>) {
    forall i, j :: 0 <= i < j < |s| ==> s[i] != s[j]
  }

  /** The position of the first occurrence of `x` in `s`. */
  function FirstIndex<T(==,!new)>(s: seq<T>, x: T): (i: nat)
    requires x in s
    ensures i < |s| && s[i] == x
    ensures forall j :: 0 <= j < i ==> s[j] != x
  {
    if s[0] == x then 0 else 1 + FirstIndex(s[1..], x)
  }

  function Dedup<T(==,!new)>(s: seq<T>): (r: seq<T>)
    ensures forall x :: x in r <==> x in s
    ensures Distinct(r)
    ensures |r| <= |s|
  {
    if s == [] then []
    else
      var d := Dedup(s[..|s| - 1]);
      assert forall x :: x in s <==> x in s[..|s| - 1] || x == s[|s| - 1] by {
        assert s == s[..|s| - 1] + [s[|s| - 1]];
      }
      if s[|s| - 1] in d then d else d + [s[|s| - 1]]
  }

  lemma FirstIndexPrefix<T(!new)>(s: seq<T>, y: T, x: T)
    requires x in s
    ensures x in s + [y] && FirstIndex(s + [y], x) == FirstIndex(s, x)
  {
    var i := FirstIndex(s, x);
    var j := FirstIndex(s + [y], x);
    assert (s + [y])[i] == x;
  }

  /** The distinct elements keep the order of their first occurrences. */
  lemma {:induction false} DedupFirstOccurrenceOrder<T(!new)>(s: seq<T>)
    ensures forall i, j :: 0 <= i < j < |Dedup(s)| ==>
      FirstIndex(s, Dedup(s)[i]) < FirstIndex(s, Dedup(s)[j])
  {
    if s != [] {
      var init, y := s[..|s| - 1], s[|s| - 1];
      assert s == init + [y];
      DedupFirstOccurrenceOrder(init);
      var d := Dedup(init);
      forall x | x in init ensures FirstIndex(s, x) == FirstIndex(init, x) {
        FirstIndexPrefix(init, y, x);
      }
      if y !in d {
        assert FirstIndex(s, y) == |init|;
      }
    }
  }

  /** The values of the `Some` elements, in order (`filter(x => x !== null)`). */
  function Somes<T(!new)>(s: seq<Option<T>>): (r: seq<T>)
    ensures |r| <= |s|
    ensures forall x :: x in r <==> Some(x) in s
  {
    if s == [] then []
    else
      var init := Somes(s[..|s| - 1]);
      assert forall o :: o in s <==> o in s[..|s| - 1] || o == s[|s| - 1] by {
        assert s == s[..|s| - 1] + [s[|s| - 1]];
      }
      match s[|s| - 1]
      case Some(v) => init + [v]
      case None => init
  }

  /** Dropping the `None`s after de-duplicating is de-duplicating the values. */
  lemma {:induction false} SomesOfDedup<T(!new)>(s: seq<Option<T>>)
    ensures Somes(Dedup(s)) == Dedup(Somes(s))
  {
    if s != [] {
      var init, y := s[..|s| - 1], s[|s| - 1];
      SomesOfDedup(init);
      var d := Dedup(init);
      if y in d {
        assert Somes(Dedup(s)) == Somes(d);
      } else {
        var d' := d + [y];
        assert d'[..|d'| - 1] == d;
        assert Somes(Dedup(s)) == Somes(d');
        match y
        case None =>
        case Some(v) =>
          assert v !in Somes(init);
      }
      match y
      case None =>
      case Some(v) =>
        assert v in Somes(s[..|s| - 1]) <==> y in d;
        assert (Somes(init) + [v])[..|Somes(init) + [v]| - 1] == Somes(init);
    }
  }
}
