/**
 * The stable sort the analyzer applies twice (recommendation priorities in
 * the report, urgency tags in the status summary): Python's `list.sort` with
 * a key taking one of three ranks 0, 1, 2. A stable sort on three ranks is
 * the concatenation of the per-rank subsequences, and the lemmas below show
 * this is sorted, a permutation, stable, and the only sequence with those
 * properties.
 */
module Ranking {

  /** The elements of `xs` whose rank is `k`, in their original order. */
  function WithRank<T>(xs: seq<T>, rank: T -> nat, k: nat): (r: seq<T>)
    ensures |r| <= |xs|
    ensures forall i :: 0 <= i < |r| ==> rank(r[i]) == k
  {
    if xs == [] then []
    else (if rank(xs[0]) == k then [xs[0]] else []) + WithRank(xs[1..], rank, k)
  }

  /** Every element's rank is one of 0, 1, 2. */
  predicate ThreeRanks<T>(xs: seq<T>, rank: T -> nat) {
    forall i :: 0 <= i < |xs| ==> rank(xs[i]) <= 2
  }

  predicate SortedByRank<T>(xs: seq<T>, rank: T -> nat) {
    forall i, j :: 0 <= i < j < |xs| ==> rank(xs[i]) <= rank(xs[j])
  }

  /** `sorted(xs, key=rank)` for ranks 0..2. */
  function SortByRank<T>(xs: seq<T>, rank: T -> nat): seq<T> {
    WithRank(xs, rank, 0) + WithRank(xs, rank, 1) + WithRank(xs, rank, 2)
  }

  /** The first `n` elements, or all of them if there are fewer: Python's `xs[:n]`. */
  function Take<T>(xs: seq<T>, n: nat): (r: seq<T>)
    ensures |r| == if n <= |xs| then n else |xs|
    ensures r <= xs
  {
    if n <= |xs| then xs[..n] else xs
  }

  lemma {:induction false} WithRankAppend<T>(a: seq<T>, b: seq<T>, rank: T -> nat, k: nat)
    ensures WithRank(a + b, rank, k) == WithRank(a, rank, k) + WithRank(b, rank, k)
  {
    if a == [] {
      assert a + b == b;
    } else {
      assert (a + b)[0] == a[0];
      assert (a + b)[1..] == a[1..] + b;
      WithRankAppend(a[1..], b, rank, k);
    }
  }

  lemma {:induction false} WithRankNone<T>(xs: seq<T>, rank: T -> nat, k: nat)
    requires forall i :: 0 <= i < |xs| ==> rank(xs[i]) != k
    ensures WithRank(xs, rank, k) == []
  {
    if xs != [] {
      WithRankNone(xs[1..], rank, k);
    }
  }

  lemma {:induction false} WithRankAll<T>(xs: seq<T>, rank: T -> nat, k: nat)
    requires forall i :: 0 <= i < |xs| ==> rank(xs[i]) == k
    ensures WithRank(xs, rank, k) == xs
  {
    if xs != [] {
      WithRankAll(xs[1..], rank, k);
      assert [xs[0]] + xs[1..] == xs;
    }
  }

  /** An element of rank `k` is kept by the filter for `k`. */
  lemma {:induction false} WithRankContains<T>(xs: seq<T>, rank: T -> nat, x: T)
    requires x in xs
    ensures x in WithRank(xs, rank, rank(x))
  {
    if xs[0] != x {
      WithRankContains(xs[1..], rank, x);
    }
  }

  /** Each element of `xs` lands in the subsequence of its own rank, so the three together are a permutation. */
  lemma {:induction false} SortByRankPermutation<T>(xs: seq<T>, rank: T -> nat)
    requires ThreeRanks(xs, rank)
    ensures multiset(SortByRank(xs, rank)) == multiset(xs)
  {
    ThreeCounts(xs, rank);
  }

  /** The three per-rank filters together hold every element exactly as often as `xs` does. */
  lemma {:induction false} ThreeCounts<T>(xs: seq<T>, rank: T -> nat)
    requires ThreeRanks(xs, rank)
    ensures multiset(WithRank(xs, rank, 0)) + multiset(WithRank(xs, rank, 1)) + multiset(WithRank(xs, rank, 2))
         == multiset(xs)
  {
    if xs != [] {
      var t := xs[1..];
      ThreeCounts(t, rank);
      assert xs == [xs[0]] + t;
      assert rank(xs[0]) <= 2;
    }
  }

  /** The result lists every rank-0 element before every rank-1 element before every rank-2 element. */
  lemma SortByRankSorted<T>(xs: seq<T>, rank: T -> nat)
    ensures SortedByRank(SortByRank(xs, rank), rank)
  {
    var a, b, c := WithRank(xs, rank, 0), WithRank(xs, rank, 1), WithRank(xs, rank, 2);
    var r := a + b + c;
    forall i, j | 0 <= i < j < |r| ensures rank(r[i]) <= rank(r[j]) {
      if i < |a| { assert rank(r[i]) == 0; }
      else if i < |a| + |b| { assert rank(r[i]) == 1 && j >= |a|; }
      else { assert rank(r[j]) == 2; }
    }
  }

  /** Stability: the elements of any one rank appear in the result in the same order as in the input. */
  lemma SortByRankStable<T>(xs: seq<T>, rank: T -> nat, k: nat)
    requires ThreeRanks(xs, rank)
    ensures WithRank(SortByRank(xs, rank), rank, k) == WithRank(xs, rank, k)
  {
    var a, b, c := WithRank(xs, rank, 0), WithRank(xs, rank, 1), WithRank(xs, rank, 2);
    WithRankAppend(a + b, c, rank, k);
    WithRankAppend(a, b, rank, k);
    if k == 0 {
      WithRankAll(a, rank, 0); WithRankNone(b, rank, 0); WithRankNone(c, rank, 0);
    } else if k == 1 {
      WithRankNone(a, rank, 1); WithRankAll(b, rank, 1); WithRankNone(c, rank, 1);
    } else if k == 2 {
      WithRankNone(a, rank, 2); WithRankNone(b, rank, 2); WithRankAll(c, rank, 2);
    } else {
      WithRankNone(a, rank, k); WithRankNone(b, rank, k); WithRankNone(c, rank, k);
      WithRankNone(xs, rank, k);
    }
  }

  /** A sequence sorted by rank is already the concatenation of its three rank classes. */
  lemma {:induction false} SortedIsSortByRank<T>(ys: seq<T>, rank: T -> nat)
    requires ThreeRanks(ys, rank) && SortedByRank(ys, rank)
    ensures SortByRank(ys, rank) == ys
  {
    if ys != [] {
      var t := ys[1..];
      SortedIsSortByRank(t, rank);
      var r0 := rank(ys[0]);
      assert forall i :: 0 <= i < |t| ==> r0 <= rank(t[i]) by {
        forall i | 0 <= i < |t| ensures r0 <= rank(t[i]) { assert t[i] == ys[i + 1]; }
      }
      if r0 == 1 {
        WithRankNone(t, rank, 0);
      } else if r0 == 2 {
        WithRankNone(t, rank, 0);
        WithRankNone(t, rank, 1);
      }
      assert ys == [ys[0]] + t;
    }
  }

  /**
   * Uniqueness: any rearrangement that is sorted by rank and keeps the order
   * within each rank is exactly `SortByRank(xs, rank)`; so the model of the
   * stable sort is the only possible one.
   */
  lemma SortByRankUnique<T>(xs: seq<T>, ys: seq<T>, rank: T -> nat)
    requires ThreeRanks(ys, rank) && SortedByRank(ys, rank)
    requires forall k :: 0 <= k <= 2 ==> WithRank(ys, rank, k) == WithRank(xs, rank, k)
    ensures ys == SortByRank(xs, rank)
  {
    SortedIsSortByRank(ys, rank);
    assert WithRank(ys, rank, 0) == WithRank(xs, rank, 0);
    assert WithRank(ys, rank, 1) == WithRank(xs, rank, 1);
    assert WithRank(ys, rank, 2) == WithRank(xs, rank, 2);
  }

  /** Taking a prefix keeps a sub-multiset of the elements. */
  lemma TakeSubset<T>(xs: seq<T>, n: nat)
    ensures multiset(Take(xs, n)) <= multiset(xs)
  {
    if n <= |xs| {
      assert xs == xs[..n] + xs[n..];
    }
  }

  // ---------------------------------------------------------------------
  // Sorting tagged records: tagging commutes with the per-rank filters

  /** `[f(x) for x in xs]`. */
  function MapSeq<T, U>(xs: seq<T>, f: T -> U): (r: seq<U>)
    ensures |r| == |xs|
    ensures forall i :: 0 <= i < |xs| ==> r[i] == f(xs[i])
  {
    if xs == [] then [] else [f(xs[0])] + MapSeq(xs[1..], f)
  }

  /** Filtering the tagged records by rank tags the filtered records, when the tag carries the rank. */
  lemma {:induction false} WithRankMap<T, U>(xs: seq<T>, f: T -> U, rankOfTagged: U -> nat, rank: T -> nat, k: nat)
    requires forall i :: 0 <= i < |xs| ==> rankOfTagged(f(xs[i])) == rank(xs[i])
    ensures WithRank(MapSeq(xs, f), rankOfTagged, k) == MapSeq(WithRank(xs, rank, k), f)
  {
    if xs != [] {
      assert MapSeq(xs, f)[1..] == MapSeq(xs[1..], f);
      WithRankMap(xs[1..], f, rankOfTagged, rank, k);
      var head := if rank(xs[0]) == k then [xs[0]] else [];
      MapAppend(head, WithRank(xs[1..], rank, k), f);
    }
  }

  lemma MapAppend<T, U>(a: seq<T>, b: seq<T>, f: T -> U)
    ensures MapSeq(a + b, f) == MapSeq(a, f) + MapSeq(b, f)
  {
  }

  /** Sorting the tagged records by rank is tagging the sorted records. */
  lemma SortByRankMap<T, U>(xs: seq<T>, f: T -> U, rankOfTagged: U -> nat, rank: T -> nat)
    requires forall i :: 0 <= i < |xs| ==> rankOfTagged(f(xs[i])) == rank(xs[i])
    ensures SortByRank(MapSeq(xs, f), rankOfTagged) == MapSeq(SortByRank(xs, rank), f)
  {
    var a, b, c := WithRank(xs, rank, 0), WithRank(xs, rank, 1), WithRank(xs, rank, 2);
    WithRankMap(xs, f, rankOfTagged, rank, 0);
    WithRankMap(xs, f, rankOfTagged, rank, 1);
    WithRankMap(xs, f, rankOfTagged, rank, 2);
    MapAppend(a, b, f);
    MapAppend(a + b, c, f);
  }

  lemma MapTake<T, U>(xs: seq<T>, n: nat, f: T -> U)
    ensures MapSeq(Take(xs, n), f) == Take(MapSeq(xs, f), n)
  {
  }
}
