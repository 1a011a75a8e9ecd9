/**
 * The node-wide sample history: a bounded, newest-first list of swap and
 * memory samples that a periodic gather prepends to and the eviction
 * controller flushes.
 */
module StatsCollector {
  import opened Wrappers
  import opened Machine

  /**
   * One sample. Counters are the kernel's cumulative swap-in and swap-out
   * page counts; `time` is the sampling instant in nanoseconds. The
   * `free`, `buffers` and `cache` fields are those of the virtual-memory
   * read that the shortage detector uses.
   */
  datatype Stats = Stats(
    availableMemoryBytes: int,
    inactiveFileBytes: int,
    swapUsedBytes: int,
    swapIn: nat,
    swapOut: nat,
    free: nat,
    buffers: nat,
    cache: nat,
    time: int
  )

  /** What the three operating-system reads return. */
  datatype SwapReading = SwapReading(sin: nat, sout: nat, used: nat)
  datatype VirtualMemReading = VirtualMemReading(available: nat, free: nat, buffers: nat, cached: nat)
  datatype VirtualMemExReading = VirtualMemExReading(inactiveFile: nat)

  const DefaultStatsListMaxSize: nat := 10000

  /** The sample built from the three reads taken at instant `now`. */
  function SampleOf(swap: SwapReading, vm: VirtualMemReading, vmEx: VirtualMemExReading, now: int): Stats {
    Stats(
      availableMemoryBytes := Int64(vm.available),
      inactiveFileBytes := Int64(vmEx.inactiveFile),
      swapUsedBytes := Int64(swap.used),
      swapIn := swap.sin,
      swapOut := swap.sout,
      free := vm.free,
      buffers := vm.buffers,
      cache := vm.cached,
      time := now)
  }

  /**
   * The history after a gather: `s` in front of `list`, cut to `cap`
   * entries. The new sample comes first, the rest is what was there except
   * that the oldest entries beyond the cap are gone.
   */
  function Prepended(list: seq<Stats>, s: Stats, cap: nat): (r: seq<Stats>)
    requires cap > 0
    ensures |r| <= cap
    ensures 0 < |r| <= |list| + 1 && r[0] == s
    ensures r[1..] == list[..|r| - 1]
    ensures |list| < cap ==> |r| == |list| + 1
    ensures |list| >= cap ==> |r| == cap
  {
    var l := [s] + list;
    if |l| > cap then l[..cap] else l
  }

  class StatsCollectorImpl {
    var statsList: seq<Stats>
    const statsListMaxSize: nat

    /** The list never holds more than the cap, and the cap admits at least one sample. */
    ghost predicate Valid()
      reads this
    {
      0 < statsListMaxSize && |statsList| <= statsListMaxSize
    }

    /** `NewStatsCollectorImpl`: an empty history with the default cap. */
    constructor ()
      ensures Valid()
      ensures statsList == [] && statsListMaxSize == DefaultStatsListMaxSize
    {
      statsList := [];
      statsListMaxSize := DefaultStatsListMaxSize;
    }

    /**
     * Takes one sample. The operating-system reads are inputs; when any of
     * them failed the history is left as it was.
     */
    method GatherStats(swap: Result<SwapReading, string>, vm: Result<VirtualMemReading, string>,
                       vmEx: Result<VirtualMemExReading, string>, now: int)
      requires Valid()
      modifies this`statsList
      ensures Valid()
      ensures swap.Err? || vm.Err? || vmEx.Err? ==> statsList == old(statsList)
      ensures swap.Ok? && vm.Ok? && vmEx.Ok? ==>
        statsList == Prepended(old(statsList), SampleOf(swap.value, vm.value, vmEx.value, now), statsListMaxSize)
    {
      if swap.Err? {
        return;
      }
      if vm.Err? {
        return;
      }
      if vmEx.Err? {
        return;
      }
      var newStats := SampleOf(swap.value, vm.value, vmEx.value, now);
      statsList := [newStats] + statsList;
      if |statsList| > statsListMaxSize {
        statsList := statsList[..statsListMaxSize];
      }
    }

    /** The current history; nothing changes. */
    method GetStatsList() returns (list: seq<Stats>)
      ensures list == statsList
    {
      list := statsList;
    }

    /** Empties the history. */
    method FlushStats()
      requires Valid()
      modifies this`statsList
      ensures Valid()
      ensures statsList == []
    {
      statsList := [];
    }
  }
}
