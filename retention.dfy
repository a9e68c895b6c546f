/**
 * The retention filter two stores apply after every insertion: keep, in
 * order, only the records stamped strictly after a cutoff instant. The
 * trend store uses a cutoff one year back, the integration cache thirty
 * days back.
 */
module Retention {

  /** The records of `xs` stamped strictly after `cutoff`, in their original order. */
  function Newer<T>(xs: seq<T>, stamp: T -> int, cutoff: int): (r: seq<T>)
    ensures |r| <= |xs|
    ensures forall k :: 0 <= k < |r| ==> stamp(r[k]) > cutoff
  {
    if xs == [] then []
    else Newer(xs[..|xs| - 1], stamp, cutoff) + (if stamp(xs[|xs| - 1]) > cutoff then [xs[|xs| - 1]] else [])
  }

  lemma NewerSnoc<T>(xs: seq<T>, x: T, stamp: T -> int, cutoff: int)
    ensures Newer(xs + [x], stamp, cutoff) == Newer(xs, stamp, cutoff) + (if stamp(x) > cutoff then [x] else [])
  {
    assert (xs + [x])[..|xs|] == xs;
  }

  /** Filtering only removes records: the result is a sub-multiset of the input. */
  lemma {:induction false} NewerSubset<T>(xs: seq<T>, stamp: T -> int, cutoff: int)
    ensures multiset(Newer(xs, stamp, cutoff)) <= multiset(xs)
  {
    if xs != [] {
      var init := xs[..|xs| - 1];
      assert xs == init + [xs[|xs| - 1]];
      NewerSubset(init, stamp, cutoff);
    }
  }

  /** No record stamped after the cutoff is lost. */
  lemma {:induction false} NewerKeeps<T>(xs: seq<T>, stamp: T -> int, cutoff: int, x: T)
    requires x in xs && stamp(x) > cutoff
    ensures x in Newer(xs, stamp, cutoff)
  {
    var init := xs[..|xs| - 1];
    assert xs == init + [xs[|xs| - 1]];
    if x != xs[|xs| - 1] {
      NewerKeeps(init, stamp, cutoff, x);
    }
  }

  /** A list whose records are all recent passes through unchanged. */
  lemma {:induction false} NewerAllRecent<T>(xs: seq<T>, stamp: T -> int, cutoff: int)
    requires forall k :: 0 <= k < |xs| ==> stamp(xs[k]) > cutoff
    ensures Newer(xs, stamp, cutoff) == xs
  {
    if xs != [] {
      NewerAllRecent(xs[..|xs| - 1], stamp, cutoff);
      assert xs[..|xs| - 1] + [xs[|xs| - 1]] == xs;
    }
  }

  /** The comprehension that keeps the recent records, one record at a time. */
  method KeepNewer<T>(xs: seq<T>, stamp: T -> int, cutoff: int) returns (kept: seq<T>)
    ensures kept == Newer(xs, stamp, cutoff)
  {
    kept := [];
    var i := 0;
    while i < |xs|
      invariant 0 <= i <= |xs|
      invariant kept == Newer(xs[..i], stamp, cutoff)
    {
      assert xs[..i + 1] == xs[..i] + [xs[i]];
      NewerSnoc(xs[..i], xs[i], stamp, cutoff);
      if stamp(xs[i]) > cutoff {
        kept := kept + [xs[i]];
      }
      i := i + 1;
    }
    assert xs[..i] == xs;
  }

  // ---------------------------------------------------------------------
  // Selection by an arbitrary test, as the date-range queries use it

  /** The elements of `xs` that pass `p`, in their original order. */
  function Keep<T>(xs: seq<T>, p: T -> bool): (r: seq<T>)
    ensures |r| <= |xs|
    ensures forall k :: 0 <= k < |r| ==> p(r[k])
  {
    if xs == [] then []
    else Keep(xs[..|xs| - 1], p) + (if p(xs[|xs| - 1]) then [xs[|xs| - 1]] else [])
  }

  /** An element survives exactly when it was there and passes the test. */
  lemma {:induction false} KeepMember<T>(xs: seq<T>, p: T -> bool, x: T)
    ensures x in Keep(xs, p) <==> x in xs && p(x)
  {
    if xs != [] {
      var init := xs[..|xs| - 1];
      assert xs == init + [xs[|xs| - 1]];
      KeepMember(init, p, x);
    }
  }

  /** Two passes with two tests select what one pass with both tests selects. */
  lemma {:induction false} KeepKeep<T>(xs: seq<T>, p: T -> bool, q: T -> bool, both: T -> bool)
    requires forall x :: both(x) == (p(x) && q(x))
    ensures Keep(Keep(xs, p), q) == Keep(xs, both)
  {
    if xs != [] {
      var init := xs[..|xs| - 1];
      var last := xs[|xs| - 1];
      KeepKeep(init, p, q, both);
      var once := Keep(init, p);
      if p(last) {
        assert Keep(xs, p) == once + [last];
        assert (once + [last])[..|once|] == once;
      } else {
        assert Keep(xs, p) == once;
      }
    }
  }
}
