/** Failure-carrying values shared by every component of the model. */
module Common {

  /** A value that may be absent: Python's `None` versus a present value. */
  datatype Option<T> = None | Some(value: T)

  /** The outcome of an operation that raises in the source. */
  datatype Result<T, E> = Ok(value: T) | Err(error: E)

  /** Seconds in one minute, hour and day (the unit of every clock in the model). */
  const MINUTE: nat := 60
  const HOUR: nat := 3600
  const DAY: nat := 86400

  function Min(a: int, b: int): int { if a <= b then a else b }

  // ---------------------------------------------------------------------
  // The numpy reductions the analyzers apply to lists of integers

  function Sum(xs: seq<int>): int {
    if xs == [] then 0 else Sum(xs[..|xs| - 1]) + xs[|xs| - 1]
  }

  /** `np.mean` of a non-empty list, exactly. */
  function Mean(xs: seq<int>): real
    requires xs != []
  {
    Sum(xs) as real / |xs| as real
  }

  /** Python's `max` of a non-empty list: an element no smaller than any other. */
  function Max(xs: seq<int>): (m: int)
    requires xs != []
    ensures m in xs
    ensures forall i :: 0 <= i < |xs| ==> xs[i] <= m
  {
    if |xs| == 1 then xs[0]
    else
      var rest := Max(xs[1..]);
      if xs[0] >= rest then xs[0] else rest
  }
}
