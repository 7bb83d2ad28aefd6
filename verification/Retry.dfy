/** The retry policy for refused mappings (internal/autoforward/watcher.go:329-339, 692-707), in 64-bit durations. */
module Retry {
  newtype int64 = x: int | -0x8000_0000_0000_0000 <= x < 0x8000_0000_0000_0000

  const DEFAULT_MIN: int64 := 1_000_000_000
  const DEFAULT_MAX: int64 := 30_000_000_000

  function Pow2(k: nat): (r: nat)
    ensures r >= 1
  {
    if k == 0 then 1 else 2 * Pow2(k - 1)
  }

  function Min(a: int, b: int): int { if a <= b then a else b }

  /** Doubling from `least`, capped at `most`, over unbounded integers. */
  function Backoff(least: int, most: int, failures: int): int {
    Min(least * Pow2(if failures >= 1 then failures - 1 else 0), most)
  }

  /** What the loop holds after k rounds. */
  function Doubled(least: int, k: nat): int { if k == 0 then least else 2 * Doubled(least, k - 1) }

  lemma {:induction false} DoubledIs(least: int, k: nat)
    ensures Doubled(least, k) == least * Pow2(k)
  {
    if k > 0 { DoubledIs(least, k - 1); }
  }

  lemma {:induction false} Pow2Grows(j: nat, k: nat)
    requires j <= k
    ensures Pow2(j) <= Pow2(k)
  {
    if j < k { Pow2Grows(j, k - 1); }
  }

  lemma Scaled(least: int, a: int, b: int)
    requires least > 0 && a <= b
    ensures least * a <= least * b
  {
  }

  /** More failures never mean a shorter wait, and the bounds hold. */
  lemma BackoffGrows(least: int, most: int, j: int, k: int)
    requires 0 < least <= most && j <= k
    ensures least <= Backoff(least, most, j) <= Backoff(least, most, k) <= most
  {
    var a, b := if j >= 1 then j - 1 else 0, if k >= 1 then k - 1 else 0;
    Pow2Grows(a, b);
    Scaled(least, Pow2(a), Pow2(b));
    Scaled(least, 1, Pow2(a));
  }

  /** The first wait is the shorter bound, and each failure after it doubles the wait up to the longer one. */
  lemma BackoffDoubles(least: int, most: int, k: int)
    requires 0 < least <= most
    ensures k <= 1 ==> Backoff(least, most, k) == least
    ensures k >= 1 ==> Backoff(least, most, k + 1) == Min(2 * Backoff(least, most, k), most)
  {
    if k >= 1 {
      DoubledIs(least, k - 1);
      DoubledIs(least, k);
      Scaled(least, 1, Pow2(k - 1));
    }
  }

  /** Once the cap is passed it is passed for good. */
  lemma Saturated(least: int, most: int, reached: nat, failures: int)
    requires least > 0 && reached < failures && Doubled(least, reached) >= most
    ensures Backoff(least, most, failures) == most
  {
    DoubledIs(least, reached);
    Pow2Grows(reached, failures - 1);
    Scaled(least, Pow2(reached), Pow2(failures - 1));
  }

  lemma Reached(least: int, most: int, failures: int)
    ensures Backoff(least, most, failures) == Min(Doubled(least, if failures >= 1 then failures - 1 else 0), most)
  {
    DoubledIs(least, if failures >= 1 then failures - 1 else 0);
  }

  class Policy {
    var least: int64
    var most: int64

    constructor (least: int64, most: int64)
      ensures this.least == least && this.most == most
    {
      this.least, this.most := least, most;
    }

    /** ensureRetryPolicy: both bounds positive and in order; bounds that already are stay. */
    method Normalise()
      modifies this
      ensures 0 < least <= most
      ensures least == if old(least) <= 0 then DEFAULT_MIN else old(least)
      ensures var wanted := if old(most) <= 0 then DEFAULT_MAX else old(most); most == if wanted < least then least else wanted
      ensures 0 < old(least) <= old(most) ==> least == old(least) && most == old(most)
    {
      if least <= 0 { least := DEFAULT_MIN; }
      if most <= 0 { most := DEFAULT_MAX; }
      if most < least { most := least; }
    }

    /** retryDelay doubles in a loop that stops before it can overflow. */
    method Delay(failures: int64) returns (delay: int64)
      ensures least <= 0 || most <= 0 ==> delay == 0
      ensures least > 0 && most > 0 ==> delay as int == Backoff(least as int, most as int, failures as int)
    {
      if least <= 0 || most <= 0 { return 0; }
      delay := least;
      var index: int64 := 1;
      while index < failures && delay < most
        invariant 1 <= index && (failures >= 1 ==> index <= failures) && (failures < 1 ==> index == 1)
        invariant 0 < delay && delay as int == Doubled(least as int, index as int - 1)
        decreases failures as int - index as int
      {
        if delay > most / 2 {
          Saturated(least as int, most as int, index as int, failures as int);
          return most;
        }
        delay := delay * 2;
        index := index + 1;
      }
      if index < failures {
        Saturated(least as int, most as int, index as int - 1, failures as int);
      } else {
        Reached(least as int, most as int, failures as int);
      }
      if delay > most { return most; }
    }
  }
}
