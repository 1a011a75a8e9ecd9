/**
 * The shortage detector: from the sample history it picks an averaging
 * baseline, computes the average swap-in and swap-out rates since then, and
 * tests the node's virtual-memory utilization against its capacity.
 * Times are nanoseconds; the source's float rate arithmetic is exact real
 * arithmetic here, and its unsigned subtractions wrap modulo 2^64.
 */
module ShortageDetector {
  import opened Wrappers
  import opened Machine
  import opened StatsCollector

  /** The shortest baseline age the detector accepts: five seconds. */
  const MinTimeInterval: int := 5_000_000_000

  const NanosPerSecond: real := 1_000_000_000.0

  /** How much older sample `i` is than the newest sample. */
  function Age(stats: seq<Stats>, i: nat): int
    requires i < |stats|
  {
    stats[0].time - stats[i].time
  }

  /**
   * The last index the baseline scan visits when it has reached index `i`:
   * the first index from `i` on whose age reaches the window, or the last
   * index of the history.
   */
  function ScanEnd(stats: seq<Stats>, window: int, i: nat): (e: nat)
    requires 1 <= i < |stats|
    ensures i <= e < |stats|
    ensures forall k :: i <= k < e ==> Age(stats, k) < window
    ensures Age(stats, e) >= window || e == |stats| - 1
    decreases |stats| - i
  {
    if Age(stats, i) >= window || i == |stats| - 1 then i else ScanEnd(stats, window, i + 1)
  }

  lemma {:induction false} ScanEndIs(stats: seq<Stats>, window: int, i: nat, e: nat)
    requires 1 <= i <= e < |stats|
    requires forall k :: i <= k < e ==> Age(stats, k) < window
    requires Age(stats, e) >= window || e == |stats| - 1
    ensures ScanEnd(stats, window, i) == e
    decreases e - i
  {
    if i < e {
      ScanEndIs(stats, window, i + 1, e);
    }
  }

  /** The last index in `lo..hi` whose sample is at least five seconds old. */
  function LastOldEnough(stats: seq<Stats>, lo: nat, hi: int): (r: Option<nat>)
    requires hi < |stats|
    ensures r.Some? ==> lo <= r.value <= hi && Age(stats, r.value) >= MinTimeInterval
    ensures r.Some? ==> forall k :: r.value < k <= hi ==> Age(stats, k) < MinTimeInterval
    ensures r.None? ==> forall k :: lo <= k <= hi ==> Age(stats, k) < MinTimeInterval
    decreases hi - lo
  {
    if hi < lo then None
    else if Age(stats, hi) >= MinTimeInterval then Some(hi)
    else LastOldEnough(stats, lo, hi - 1)
  }

  /**
   * The averaging baseline: among the samples the scan visits (index 1 up to
   * the first one at least `window` old), the last that is at least five
   * seconds old.
   */
  function Baseline(stats: seq<Stats>, window: int): (r: Option<nat>)
    requires |stats| >= 2
  {
    LastOldEnough(stats, 1, ScanEnd(stats, window, 1))
  }

  /** Index `k` is visited by the scan: no earlier index from 1 on reached the window. */
  ghost predicate Scanned(stats: seq<Stats>, window: int, k: int) {
    1 <= k < |stats| && forall m :: 1 <= m < k ==> Age(stats, m) < window
  }

  /**
   * The baseline, stated without the scan: it is a visited sample at least
   * five seconds old and no later visited sample is; there is none exactly
   * when no visited sample is five seconds old.
   */
  lemma BaselineCharacterized(stats: seq<Stats>, window: int)
    requires |stats| >= 2
    ensures Baseline(stats, window).Some? ==>
      var j := Baseline(stats, window).value;
      Scanned(stats, window, j) && Age(stats, j) >= MinTimeInterval &&
      forall k :: j < k < |stats| && Scanned(stats, window, k) ==> Age(stats, k) < MinTimeInterval
    ensures Baseline(stats, window).None? <==>
      forall k :: Scanned(stats, window, k) ==> Age(stats, k) < MinTimeInterval
  {
    var e := ScanEnd(stats, window, 1);
    forall k | Scanned(stats, window, k) ensures k <= e {
    }
    forall k | 1 <= k <= e ensures Scanned(stats, window, k) {
    }
  }

  /** The average rate, per second, of a counter that grew by `delta` in `dtNanos` nanoseconds. */
  function AverageRate(delta: nat, dtNanos: int): real
    requires dtNanos > 0
  {
    (delta as real) / ((dtNanos as real) / NanosPerSecond)
  }

  /** A rate exceeds its threshold exactly when the cross-multiplied counts do. */
  lemma AverageRateExceeds(delta: nat, dtNanos: int, max: real)
    requires dtNanos > 0
    ensures AverageRate(delta, dtNanos) > max <==> (delta as real) * NanosPerSecond > max * (dtNanos as real)
  {
    var dt := (dtNanos as real) / NanosPerSecond;
    assert dt > 0.0;
    assert AverageRate(delta, dtNanos) * dt == delta as real;
    assert (delta as real) * NanosPerSecond == AverageRate(delta, dtNanos) * (dtNanos as real);
  }

  /** The high-traffic condition: both average rates since the baseline strictly above their thresholds. */
  function HighTraffic(first: Stats, base: Stats, maxSwapIn: real, maxSwapOut: real): bool
    requires first.time > base.time
  {
    var dt := first.time - base.time;
    AverageRate(Uint64(first.swapIn - base.swapIn), dt) > maxSwapIn &&
    AverageRate(Uint64(first.swapOut - base.swapOut), dt) > maxSwapOut
  }

  /** `totalMemory + uint64(float64(totalSwap) * factor)`, wrapping as `uint64`. */
  function MaxVirtualMemory(totalMemory: nat, totalSwap: nat, factor: real): nat
    requires factor >= 0.0
  {
    Uint64(totalMemory + ((totalSwap as real) * factor).Floor)
  }

  /** Used memory plus used swap, wrapping as `uint64`. */
  function UsedVirtualMemory(first: Stats, totalMemory: nat): nat {
    Uint64(Uint64(totalMemory - first.free - first.buffers - first.cache) + Uint64(first.swapUsedBytes))
  }

  /** The high-utilization condition: used virtual memory strictly above capacity. */
  function HighUtilization(first: Stats, totalMemory: nat, totalSwap: nat, factor: real): bool
    requires factor >= 0.0
  {
    UsedVirtualMemory(first, totalMemory) > MaxVirtualMemory(totalMemory, totalSwap, factor)
  }

  /**
   * Without wrap-around (free, buffers and cache fit in the total, and sums
   * stay below 2^64) utilization is the plain comparison of used memory plus
   * swap against memory plus the allowed share of swap.
   */
  lemma HighUtilizationWithoutWrap(first: Stats, totalMemory: nat, totalSwap: nat, factor: real)
    requires factor >= 0.0
    requires first.free + first.buffers + first.cache <= totalMemory
    requires 0 <= first.swapUsedBytes
    requires totalMemory + first.swapUsedBytes < TwoTo64
    requires totalMemory + ((totalSwap as real) * factor).Floor < TwoTo64
    ensures HighUtilization(first, totalMemory, totalSwap, factor) <==>
      totalMemory - first.free - first.buffers - first.cache + first.swapUsedBytes >
      totalMemory + ((totalSwap as real) * factor).Floor
  {
    var used := totalMemory - first.free - first.buffers - first.cache;
    assert Uint64(used) == used;
    assert Uint64(first.swapUsedBytes) == first.swapUsedBytes;
    assert Uint64(used + first.swapUsedBytes) == used + first.swapUsedBytes;
    assert ((totalSwap as real) * factor).Floor >= 0;
  }

  class ShortageDetectorImpl {
    const sc: StatsCollectorImpl
    const maxAverageSwapInPagesPerSecond: real
    const maxAverageSwapOutPagesPerSecond: real
    const swapUtilizationThresholdFactor: real
    const averageWindowSizeSeconds: int
    const totalSwapMemoryBytes: nat
    const totalMemoryBytes: nat

    /** `NewShortageDetectorImpl` with its seven parameters. */
    constructor (sc: StatsCollectorImpl, maxSwapIn: real, maxSwapOut: real, factor: real,
                 window: int, totalMemory: nat, totalSwap: nat)
      requires factor >= 0.0
      ensures this.sc == sc && maxAverageSwapInPagesPerSecond == maxSwapIn
      ensures maxAverageSwapOutPagesPerSecond == maxSwapOut
      ensures swapUtilizationThresholdFactor == factor && averageWindowSizeSeconds == window
      ensures totalMemoryBytes == totalMemory && totalSwapMemoryBytes == totalSwap
    {
      this.sc := sc;
      maxAverageSwapInPagesPerSecond := maxSwapIn;
      maxAverageSwapOutPagesPerSecond := maxSwapOut;
      swapUtilizationThresholdFactor := factor;
      averageWindowSizeSeconds := window;
      totalMemoryBytes := totalMemory;
      totalSwapMemoryBytes := totalSwap;
    }

    /** The verdict on a history: `None` where the detector reports an error, else whether to evict. */
    function Decide(stats: seq<Stats>): (r: Option<bool>)
      requires swapUtilizationThresholdFactor >= 0.0
      ensures r.None? <==> |stats| < 2 || Baseline(stats, averageWindowSizeSeconds).None?
    {
      if |stats| < 2 then None
      else match Baseline(stats, averageWindowSizeSeconds)
        case None => None
        case Some(b) =>
          Some(HighTraffic(stats[0], stats[b], maxAverageSwapInPagesPerSecond, maxAverageSwapOutPagesPerSecond) ||
               HighUtilization(stats[0], totalMemoryBytes, totalSwapMemoryBytes, swapUtilizationThresholdFactor))
    }

    /**
     * Decides whether the node is short of memory. Fewer than two samples,
     * or no baseline, give `(false, error)`; otherwise the verdict is high
     * traffic or high utilization, with no error. The history is only read.
     */
    method ShouldEvict() returns (evict: bool, err: Option<string>)
      requires swapUtilizationThresholdFactor >= 0.0
      ensures |sc.statsList| < 2 ==> !evict && err.Some?
      ensures |sc.statsList| >= 2 && Baseline(sc.statsList, averageWindowSizeSeconds).None? ==> !evict && err.Some?
      ensures |sc.statsList| >= 2 && Baseline(sc.statsList, averageWindowSizeSeconds).Some? ==>
        var stats := sc.statsList;
        var base := stats[Baseline(stats, averageWindowSizeSeconds).value];
        stats[0].time > base.time && err.None? &&
        evict == (HighTraffic(stats[0], base, maxAverageSwapInPagesPerSecond, maxAverageSwapOutPagesPerSecond) ||
                  HighUtilization(stats[0], totalMemoryBytes, totalSwapMemoryBytes, swapUtilizationThresholdFactor))
      ensures err.None? <==> Decide(sc.statsList).Some?
      ensures err.None? ==> evict == Decide(sc.statsList).value
      ensures err.Some? ==> !evict
    {
      var stats := sc.GetStatsList();
      if |stats| < 2 {
        return false, Some("not enough Stats to detect shortage");
      }
      var firstStat := stats[0];
      var secondNewest: Option<nat> := None;
      var i := 1;
      while i < |stats|
        invariant 1 <= i <= |stats|
        invariant forall k :: 1 <= k < i ==> Age(stats, k) < averageWindowSizeSeconds
        invariant secondNewest == LastOldEnough(stats, 1, i - 1)
      {
        if firstStat.time - stats[i].time >= MinTimeInterval {
          secondNewest := Some(i);
        }
        if firstStat.time - stats[i].time >= averageWindowSizeSeconds {
          break;
        }
        i := i + 1;
      }
      ScanEndIs(stats, averageWindowSizeSeconds, 1, if i < |stats| then i else |stats| - 1);
      assert secondNewest == Baseline(stats, averageWindowSizeSeconds);
      if secondNewest.None? {
        return false, Some("not enough Stats to detect shortage");
      }
      var base := stats[secondNewest.value];
      var highTrafficCondition := HighTraffic(firstStat, base, maxAverageSwapInPagesPerSecond, maxAverageSwapOutPagesPerSecond);
      var highUtilizationCondition := HighUtilization(firstStat, totalMemoryBytes, totalSwapMemoryBytes, swapUtilizationThresholdFactor);
      return highTrafficCondition || highUtilizationCondition, None;
    }
  }

  /**
   * The threshold is strict: a swap-in rate exactly at its maximum never
   * raises the high-traffic condition, whatever the swap-out rate.
   */
  lemma RateAtThresholdDoesNotTrigger(first: Stats, base: Stats, maxSwapOut: real)
    requires first.time > base.time
    requires first.swapIn >= base.swapIn && first.swapIn - base.swapIn < TwoTo64
    ensures !HighTraffic(first, base, AverageRate(first.swapIn - base.swapIn, first.time - base.time), maxSwapOut)
  {
  }

  /**
   * One page above the threshold triggers: when the swap-in count is one
   * more than a rate exactly at `maxSwapIn` would give, high traffic holds
   * exactly when the swap-out rate is above its own threshold.
   */
  lemma OneAboveThresholdTriggers(first: Stats, base: Stats, maxSwapIn: real, maxSwapOut: real)
    requires first.time > base.time
    requires 0 < first.swapIn - base.swapIn < TwoTo64
    requires ((first.swapIn - base.swapIn - 1) as real) * NanosPerSecond == maxSwapIn * ((first.time - base.time) as real)
    ensures HighTraffic(first, base, maxSwapIn, maxSwapOut) <==>
      AverageRate(Uint64(first.swapOut - base.swapOut), first.time - base.time) > maxSwapOut
  {
    AverageRateExceeds(first.swapIn - base.swapIn, first.time - base.time, maxSwapIn);
  }

  /**
   * Two samples ten seconds apart whose counters grew by 3000 and 2500 pages
   * give rates of 300 and 250 per second, above thresholds of 200.
   */
  lemma TenSecondStorm(first: Stats, base: Stats)
    requires first.time - base.time == 10_000_000_000
    requires first.swapIn == base.swapIn + 3000 && first.swapOut == base.swapOut + 2500
    ensures HighTraffic(first, base, 200.0, 200.0)
  {
    AverageRateExceeds(3000, 10_000_000_000, 200.0);
    AverageRateExceeds(2500, 10_000_000_000, 200.0);
  }
}
