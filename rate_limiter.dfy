/**
 * Sliding-window request admission per user. The limiter keeps, for every
 * user it has seen, the times of that user's admitted requests; a request is
 * admitted when fewer than `maxRequests` of them are younger than
 * `timeWindow` seconds. The clock is the `now` argument, in seconds.
 */
module RateLimiting {

  const DEFAULT_MAX_REQUESTS: int := 60
  const DEFAULT_TIME_WINDOW: int := 60

  /**
   * The timestamps of `ts` that are still inside the window at `now`
   * (`now - t < window`), in their original order; an entry exactly
   * `window` seconds old is dropped.
   */
  function Pruned(ts: seq<int>, now: int, window: int): (r: seq<int>)
    ensures |r| <= |ts|
  {
    if ts == [] then []
    else Pruned(ts[..|ts| - 1], now, window) + (if now - ts[|ts| - 1] < window then [ts[|ts| - 1]] else [])
  }

  /** Every entry that survives pruning is younger than the window. */
  lemma {:induction false} PrunedRecent(ts: seq<int>, now: int, window: int)
    ensures forall k :: 0 <= k < |Pruned(ts, now, window)| ==> now - Pruned(ts, now, window)[k] < window
  {
    if ts != [] {
      PrunedRecent(ts[..|ts| - 1], now, window);
    }
  }

  /** Pruning only removes entries: the result is a sub-multiset of the input. */
  lemma {:induction false} PrunedSubset(ts: seq<int>, now: int, window: int)
    ensures multiset(Pruned(ts, now, window)) <= multiset(ts)
  {
    if ts != [] {
      var init := ts[..|ts| - 1];
      assert ts == init + [ts[|ts| - 1]];
      PrunedSubset(init, now, window);
    }
  }

  /** Pruning a window extended by one entry prunes the old part and tests the new entry alone. */
  lemma PrunedSnoc(ts: seq<int>, t: int, now: int, window: int)
    ensures Pruned(ts + [t], now, window) == Pruned(ts, now, window) + (if now - t < window then [t] else [])
  {
    assert (ts + [t])[..|ts|] == ts;
  }

  /** Nothing still inside the window is lost by pruning. */
  lemma {:induction false} PrunedKeepsRecent(ts: seq<int>, now: int, window: int, t: int)
    requires t in ts && now - t < window
    ensures t in Pruned(ts, now, window)
  {
    var init := ts[..|ts| - 1];
    assert ts == init + [ts[|ts| - 1]];
    if t != ts[|ts| - 1] {
      PrunedKeepsRecent(init, now, window, t);
    }
  }

  /** An entry whose age is exactly the window is evicted. */
  lemma {:induction false} PrunedDropsAtWindowAge(ts: seq<int>, now: int, window: int)
    requires forall k :: 0 <= k < |ts| ==> now - ts[k] == window
    ensures Pruned(ts, now, window) == []
  {
    if ts != [] {
      PrunedDropsAtWindowAge(ts[..|ts| - 1], now, window);
    }
  }

  /** A window whose every entry is younger than `window` is kept whole. */
  lemma {:induction false} PrunedAllRecent(ts: seq<int>, now: int, window: int)
    requires forall k :: 0 <= k < |ts| ==> now - ts[k] < window
    ensures Pruned(ts, now, window) == ts
  {
    if ts != [] {
      PrunedAllRecent(ts[..|ts| - 1], now, window);
      assert ts == ts[..|ts| - 1] + [ts[|ts| - 1]];
    }
  }

  /** A window whose every entry is at least `window` old is emptied. */
  lemma {:induction false} PrunedAllStale(ts: seq<int>, now: int, window: int)
    requires forall k :: 0 <= k < |ts| ==> now - ts[k] >= window
    ensures Pruned(ts, now, window) == []
  {
    if ts != [] {
      PrunedAllStale(ts[..|ts| - 1], now, window);
    }
  }

  /** The list comprehension that drops the entries at least `window` seconds old, one entry at a time. */
  method PruneWindow(ts: seq<int>, now: int, window: int) returns (kept: seq<int>)
    ensures kept == Pruned(ts, now, window)
  {
    kept := [];
    var i := 0;
    while i < |ts|
      invariant 0 <= i <= |ts|
      invariant kept == Pruned(ts[..i], now, window)
    {
      assert ts[..i + 1] == ts[..i] + [ts[i]];
      PrunedSnoc(ts[..i], ts[i], now, window);
      if now - ts[i] < window {
        kept := kept + [ts[i]];
      }
      i := i + 1;
    }
    assert ts[..i] == ts;
  }

  class RateLimiter {
    const maxRequests: int
    const timeWindow: int
    /** `requests[user_id]`: the admitted request times of each user seen so far. */
    var requests: map<string, seq<int>>

    /** No user's window ever holds more than `maxRequests` entries. */
    ghost predicate Valid()
      reads this
    {
      forall u :: u in requests ==> |requests[u]| <= if maxRequests < 0 then 0 else maxRequests
    }

    /** The user's window as the `defaultdict(list)` presents it: empty for a user never seen. */
    function Window(userId: string): seq<int>
      reads this
    {
      if userId in requests then requests[userId] else []
    }

    constructor (maxRequests: int := DEFAULT_MAX_REQUESTS, timeWindow: int := DEFAULT_TIME_WINDOW)
      ensures Valid()
      ensures this.maxRequests == maxRequests && this.timeWindow == timeWindow
      ensures requests == map[]
    {
      this.maxRequests := maxRequests;
      this.timeWindow := timeWindow;
      requests := map[];
    }

    /**
     * Prunes the user's window, then rejects if it is full or admits and
     * records `now`. The pruned window is stored back either way; no other
     * user's window changes.
     */
    method IsAllowed(userId: string, now: int) returns (allowed: bool)
      requires Valid()
      modifies this
      ensures Valid()
      ensures allowed == (|Pruned(old(Window(userId)), now, timeWindow)| < maxRequests)
      ensures allowed ==> requests == old(requests)[userId := Pruned(old(Window(userId)), now, timeWindow) + [now]]
      ensures !allowed ==> requests == old(requests)[userId := Pruned(old(Window(userId)), now, timeWindow)]
      ensures Window(userId) == Pruned(old(Window(userId)), now, timeWindow) + (if allowed then [now] else [])
      ensures |Window(userId)| <= |old(Window(userId))| + 1
      ensures timeWindow > 0 ==> forall k :: 0 <= k < |Window(userId)| ==> now - Window(userId)[k] < timeWindow
    {
      var previous := Window(userId);
      var kept := PruneWindow(previous, now, timeWindow);
      PrunedRecent(previous, now, timeWindow);
      assert |previous| <= if maxRequests < 0 then 0 else maxRequests;
      if |kept| >= maxRequests {
        requests := requests[userId := kept];
        return false;
      }
      var added := kept + [now];
      assert forall k :: 0 <= k < |kept| ==> added[k] == kept[k];
      requests := requests[userId := added];
      return true;
    }
  }

  /**
   * Three requests at the same second pass a limit of 3 per 60 s, a fourth
   * is refused, and one 61 s later passes again.
   */
  method ThreeThenDeniedThenAllowed(start: int) returns (a1: bool, a2: bool, a3: bool, a4: bool, a5: bool)
    ensures a1 && a2 && a3 && !a4 && a5
  {
    var limiter := new RateLimiter(3, 60);
    a1 := limiter.IsAllowed("u", start);
    assert limiter.Window("u") == [start];
    PrunedAllRecent([start], start, 60);
    a2 := limiter.IsAllowed("u", start);
    assert limiter.Window("u") == [start, start];
    PrunedAllRecent([start, start], start, 60);
    a3 := limiter.IsAllowed("u", start);
    assert limiter.Window("u") == [start, start, start];
    PrunedAllRecent([start, start, start], start, 60);
    a4 := limiter.IsAllowed("u", start);
    PrunedAllStale([start, start, start], start + 61, 60);
    a5 := limiter.IsAllowed("u", start + 61);
  }
}
