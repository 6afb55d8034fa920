// Time and counting, shared by the store models.

/** Instants and durations are whole nanoseconds, as in the source's `time` values. */
module Clock {
  type Instant = int
  type Duration = int

  const SECOND: Duration := 1_000_000_000
  /** The zero value of the source's time type, 1 January of year 1, counted from the Unix epoch. */
  const ZERO_TIME: Instant := -62_135_596_800_000_000_000
  const HOUR: Duration := 3600 * SECOND

  ghost predicate Ordered(ts: seq<Instant>) {
    forall i, j :: 0 <= i < j < |ts| ==> ts[i] <= ts[j]
  }
}

module Wrappers {
  datatype Option<+T> = None | Some(value: T)
}

/** How many of the verdicts with index in [lo, hi) are positive. */
module Tally {
  function Count(verdicts: seq<bool>, lo: nat, hi: nat): (n: nat)
    requires lo <= hi <= |verdicts|
    ensures n <= hi - lo
  {
    if lo == hi then 0
    else Count(verdicts, lo, hi - 1) + if verdicts[hi - 1] then 1 else 0
  }

  lemma {:induction false} CountSplits(verdicts: seq<bool>, lo: nat, mid: nat, hi: nat)
    requires lo <= mid <= hi <= |verdicts|
    ensures Count(verdicts, lo, hi) == Count(verdicts, lo, mid) + Count(verdicts, mid, hi)
    decreases hi
  {
    if mid < hi {
      CountSplits(verdicts, lo, mid, hi - 1);
    }
  }

  lemma {:induction false} CountOfPrefix(verdicts: seq<bool>, longer: seq<bool>, lo: nat, hi: nat)
    requires lo <= hi <= |verdicts| && verdicts <= longer
    ensures Count(verdicts, lo, hi) == Count(longer, lo, hi)
    decreases hi
  {
    if lo < hi {
      CountOfPrefix(verdicts, longer, lo, hi - 1);
    }
  }
}
