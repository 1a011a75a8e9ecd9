/**
 * The eviction ranking: three-way pod comparators (limit exceeders first,
 * then request exceeders, then lower priority, then larger usage above
 * request), their lexicographic composition, and an in-place sort by it.
 * A comparator returns a negative number when its first pod should be
 * evicted before its second.
 */
module RankUtils {
  import opened Wrappers
  import opened Machine
  import opened Kube
  import opened PodStatsCollector

  /** `cmpFunc`: negative when `p1` ranks before `p2`, zero when tied, positive otherwise. */
  type CmpFunc = (Pod, Pod) -> int

  /** `summaryFunc`: the usage summary of a pod, or `None` when no stats were found. */
  type SummaryFunc = Pod -> Option<PodSummary>

  // ----- Resource limits -----

  /** The sum of the `name` limits of the containers that set one. */
  function SumLimits(cs: seq<Container>, name: string): int {
    if |cs| == 0 then 0
    else
      var last := cs[|cs| - 1];
      SumLimits(cs[..|cs| - 1], name) + (if name in last.limits then last.limits[name] else 0)
  }

  /** `start`, replaced in turn by every `name` limit of `cs` that is larger than the value so far. */
  function RaisedTo(start: int, cs: seq<Container>, name: string): int {
    if |cs| == 0 then start
    else
      var last := cs[|cs| - 1];
      var m := RaisedTo(start, cs[..|cs| - 1], name);
      if name in last.limits && m < last.limits[name] then last.limits[name] else m
  }

  /** What `GetResourceLimitsQuantity` computes. */
  function LimitsQuantity(pod: Pod, name: string): int {
    var q := RaisedTo(SumLimits(pod.containers, name), pod.initContainers, name);
    if pod.overhead.Some? && name in pod.overhead.value && q != 0 then q + pod.overhead.value[name] else q
  }

  /** The raised value is the maximum of the start and the limits of `cs`, and is one of them. */
  lemma {:induction false} RaisedToIsMax(start: int, cs: seq<Container>, name: string)
    ensures RaisedTo(start, cs, name) >= start
    ensures forall i :: 0 <= i < |cs| && name in cs[i].limits ==> RaisedTo(start, cs, name) >= cs[i].limits[name]
    ensures RaisedTo(start, cs, name) == start ||
      exists i :: 0 <= i < |cs| && name in cs[i].limits && RaisedTo(start, cs, name) == cs[i].limits[name]
    decreases |cs|
  {
    if |cs| > 0 {
      var init := cs[..|cs| - 1];
      RaisedToIsMax(start, init, name);
      var m := RaisedTo(start, init, name);
      if m != start && RaisedTo(start, cs, name) == m {
        var i :| 0 <= i < |init| && name in init[i].limits && m == init[i].limits[name];
        assert cs[i] == init[i];
      }
    }
  }

  /**
   * The pod's limit for `name` is at least the sum of its containers'
   * limits and at least every init container's limit (for a non-negative
   * overhead); the overhead is added exactly when the pod declares one for
   * `name` and the total before it is non-zero.
   */
  lemma LimitsQuantityBounds(pod: Pod, name: string)
    requires pod.overhead.Some? && name in pod.overhead.value ==> pod.overhead.value[name] >= 0
    ensures LimitsQuantity(pod, name) >= SumLimits(pod.containers, name)
    ensures forall i :: 0 <= i < |pod.initContainers| && name in pod.initContainers[i].limits ==>
      LimitsQuantity(pod, name) >= pod.initContainers[i].limits[name]
    ensures var q := RaisedTo(SumLimits(pod.containers, name), pod.initContainers, name);
      LimitsQuantity(pod, name) == q + (if pod.overhead.Some? && name in pod.overhead.value && q != 0 then pod.overhead.value[name] else 0)
  {
    RaisedToIsMax(SumLimits(pod.containers, name), pod.initContainers, name);
  }

  /** `GetResourceLimitsQuantity`: summed container limits, raised to any larger init container limit, plus overhead when non-zero. */
  method GetResourceLimitsQuantity(pod: Pod, resourceName: string) returns (requestQuantity: int)
    ensures requestQuantity == LimitsQuantity(pod, resourceName)
  {
    requestQuantity := 0;
    var i := 0;
    while i < |pod.containers|
      invariant 0 <= i <= |pod.containers|
      invariant requestQuantity == SumLimits(pod.containers[..i], resourceName)
    {
      assert pod.containers[..i + 1][..i] == pod.containers[..i];
      var container := pod.containers[i];
      if resourceName in container.limits {
        requestQuantity := requestQuantity + container.limits[resourceName];
      }
      i := i + 1;
    }
    assert pod.containers[..i] == pod.containers;
    ghost var total := requestQuantity;
    i := 0;
    while i < |pod.initContainers|
      invariant 0 <= i <= |pod.initContainers|
      invariant requestQuantity == RaisedTo(total, pod.initContainers[..i], resourceName)
    {
      assert pod.initContainers[..i + 1][..i] == pod.initContainers[..i];
      var container := pod.initContainers[i];
      if resourceName in container.limits {
        if requestQuantity < container.limits[resourceName] {
          requestQuantity := container.limits[resourceName];
        }
      }
      i := i + 1;
    }
    assert pod.initContainers[..i] == pod.initContainers;
    if pod.overhead.Some? {
      if resourceName in pod.overhead.value && requestQuantity != 0 {
        requestQuantity := requestQuantity + pod.overhead.value[resourceName];
      }
    }
  }

  // ----- Comparators -----

  /** `cmpBool`: true ranks before false. */
  function CmpBool(a: bool, b: bool): (r: int)
    ensures r == 0 <==> a == b
    ensures r < 0 <==> a && !b
    ensures r > 0 <==> !a && b
    ensures -1 <= r <= 1
  {
    if a == b then 0 else if !b then -1 else 1
  }

  /** `priority`: the sign of the priority difference, so the lower priority ranks first. */
  function Priority(p1: Pod, p2: Pod): (r: int)
    ensures r < 0 <==> p1.priority < p2.priority
    ensures r == 0 <==> p1.priority == p2.priority
    ensures -1 <= r <= 1
  {
    if p1.priority == p2.priority then 0
    else if p1.priority > p2.priority then 1
    else -1
  }

  /** `memoryAndSwapUsage`: working set plus swap, each converted to `int64` first. */
  function MemoryAndSwapUsage(memoryWorkingSetBytes: nat, memorySwapCurrentBytes: nat): (r: int)
    ensures memoryWorkingSetBytes < TwoTo63 && memorySwapCurrentBytes < TwoTo63 ==>
      r == memoryWorkingSetBytes + memorySwapCurrentBytes
  {
    Int64(memoryWorkingSetBytes) + Int64(memorySwapCurrentBytes)
  }

  /** A pod's usage summed over working set and swap. */
  function PodUsage(s: PodSummary): int {
    MemoryAndSwapUsage(s.memoryWorkingSetBytes, s.memorySwapCurrentBytes)
  }

  /** The summary of the container called `name`, the zero summary when there is none. */
  function ContainerUsage(s: PodSummary, name: string): int {
    var c := if name in s.containers then s.containers[name] else EmptyContainerSummary;
    MemoryAndSwapUsage(c.memoryWorkingSetBytes, c.memorySwapCurrentBytes)
  }

  /** The pod uses more than its memory request. */
  predicate ExceedsRequests(pod: Pod, s: PodSummary) {
    PodUsage(s) > pod.memoryRequest
  }

  /** Container `c` sets a memory limit and its usage is above it. */
  predicate ContainerExceedsLimit(c: Container, s: PodSummary) {
    ResourceMemory in c.limits && ContainerUsage(s, c.name) > c.limits[ResourceMemory]
  }

  /** Some container of `cs` is above its own memory limit. */
  predicate SomeContainerExceedsLimit(cs: seq<Container>, s: PodSummary) {
    exists i | 0 <= i < |cs| :: ContainerExceedsLimit(cs[i], s)
  }

  /** Some container or init container of the pod is above its own memory limit. */
  predicate ExceedsLimits(pod: Pod, s: PodSummary) {
    SomeContainerExceedsLimit(pod.containers, s) || SomeContainerExceedsLimit(pod.initContainers, s)
  }

  /** `hasContainerExceedMemoryLimits`: the search over the containers, then over the init containers. */
  method HasContainerExceedMemoryLimits(pod: Pod, summary: PodSummary) returns (r: bool)
    ensures r == ExceedsLimits(pod, summary)
  {
    r := SearchExceedingContainer(pod.containers, summary);
    if r {
      return;
    }
    r := SearchExceedingContainer(pod.initContainers, summary);
  }

  /** One search loop of `hasContainerExceedMemoryLimits`: true at the first container above its limit. */
  method SearchExceedingContainer(cs: seq<Container>, summary: PodSummary) returns (r: bool)
    ensures r == SomeContainerExceedsLimit(cs, summary)
  {
    var i := 0;
    while i < |cs|
      invariant 0 <= i <= |cs|
      invariant forall k :: 0 <= k < i ==> !ContainerExceedsLimit(cs[k], summary)
    {
      var container := cs[i];
      if ResourceMemory in container.limits {
        var usage := ContainerUsage(summary, container.name);
        if usage > container.limits[ResourceMemory] {
          return true;
        }
      }
      i := i + 1;
    }
    return false;
  }

  /**
   * `exceedMemoryLimits(summary)`: a pod without stats ranks before a pod
   * with stats and ties with another pod without; between two pods with
   * stats, one exceeding a container limit ranks first.
   */
  function ExceedMemoryLimits(summary: SummaryFunc, p1: Pod, p2: Pod): (r: int)
    ensures summary(p1).None? && summary(p2).None? ==> r == 0
    ensures summary(p1).None? && summary(p2).Some? ==> r < 0
    ensures summary(p1).Some? && summary(p2).None? ==> r > 0
    ensures summary(p1).Some? && summary(p2).Some? ==>
      var e1 := ExceedsLimits(p1, summary(p1).value);
      var e2 := ExceedsLimits(p2, summary(p2).value);
      (r < 0 <==> e1 && !e2) && (r == 0 <==> e1 == e2)
  {
    var s1 := summary(p1);
    var s2 := summary(p2);
    if s1.None? || s2.None? then CmpBool(s1.None?, s2.None?)
    else CmpBool(ExceedsLimits(p1, s1.value), ExceedsLimits(p2, s2.value))
  }

  /**
   * `exceedMemoryRequests(summary)`: the same treatment of missing stats;
   * between two pods with stats, one using more than its request ranks first.
   */
  function ExceedMemoryRequests(summary: SummaryFunc, p1: Pod, p2: Pod): (r: int)
    ensures summary(p1).None? && summary(p2).None? ==> r == 0
    ensures summary(p1).None? && summary(p2).Some? ==> r < 0
    ensures summary(p1).Some? && summary(p2).None? ==> r > 0
    ensures summary(p1).Some? && summary(p2).Some? ==>
      var e1 := ExceedsRequests(p1, summary(p1).value);
      var e2 := ExceedsRequests(p2, summary(p2).value);
      (r < 0 <==> e1 && !e2) && (r == 0 <==> e1 == e2)
  {
    var s1 := summary(p1);
    var s2 := summary(p2);
    if s1.None? || s2.None? then CmpBool(s1.None?, s2.None?)
    else CmpBool(ExceedsRequests(p1, s1.value), ExceedsRequests(p2, s2.value))
  }

  /** Usage above the request; negative when below it. */
  function NetUsage(pod: Pod, s: PodSummary): int {
    PodUsage(s) - pod.memoryRequest
  }

  /**
   * `memory(summary)`: the same treatment of missing stats; between two
   * pods with stats, the larger usage above request ranks first.
   */
  function Memory(summary: SummaryFunc, p1: Pod, p2: Pod): (r: int)
    ensures summary(p1).None? && summary(p2).None? ==> r == 0
    ensures summary(p1).None? && summary(p2).Some? ==> r < 0
    ensures summary(p1).Some? && summary(p2).None? ==> r > 0
    ensures summary(p1).Some? && summary(p2).Some? ==>
      var n1 := NetUsage(p1, summary(p1).value);
      var n2 := NetUsage(p2, summary(p2).value);
      (r < 0 <==> n1 > n2) && (r == 0 <==> n1 == n2)
    ensures -1 <= r <= 1
  {
    var s1 := summary(p1);
    var s2 := summary(p2);
    if s1.None? || s2.None? then CmpBool(s1.None?, s2.None?)
    else
      var n1 := NetUsage(p1, s1.value);
      var n2 := NetUsage(p2, s2.value);
      if n2 == n1 then 0 else if n2 > n1 then 1 else -1
  }

  // ----- Comparator laws -----

  /** Swapping the pods flips the sign. */
  ghost predicate Antisymmetric(c: CmpFunc) {
    forall p, q :: c(p, q) < 0 <==> c(q, p) > 0
  }

  /** "Ranks no later than" is transitive. */
  ghost predicate TransitiveLeq(c: CmpFunc) {
    forall p, q, r :: c(p, q) <= 0 && c(q, r) <= 0 ==> c(p, r) <= 0
  }

  /** A consistent three-way comparison: it orders pods by a total preorder. */
  ghost predicate ThreeWay(c: CmpFunc) {
    Antisymmetric(c) && TransitiveLeq(c)
  }

  ghost predicate AllThreeWay(cmps: seq<CmpFunc>) {
    forall i :: 0 <= i < |cmps| ==> ThreeWay(cmps[i])
  }

  /** What `multiSorter.Less` decides: the first non-zero comparator among all but the last, else the last. */
  function LexLess(cmps: seq<CmpFunc>, p1: Pod, p2: Pod): bool
    requires |cmps| >= 1
  {
    var c := cmps[0](p1, p2);
    if |cmps| == 1 then c < 0
    else if c < 0 then true
    else if c > 0 then false
    else LexLess(cmps[1..], p1, p2)
  }

  /** The order a sort needs: asymmetric, and "not less" is transitive. */
  ghost predicate StrictWeakOrder(cmps: seq<CmpFunc>)
    requires |cmps| >= 1
  {
    (forall p, q :: LexLess(cmps, p, q) ==> !LexLess(cmps, q, p)) &&
    (forall p, q, r :: !LexLess(cmps, p, q) && !LexLess(cmps, q, r) ==> !LexLess(cmps, p, r))
  }

  lemma {:induction false} LexLessAsymmetric(cmps: seq<CmpFunc>, p: Pod, q: Pod)
    requires |cmps| >= 1 && AllThreeWay(cmps)
    ensures LexLess(cmps, p, q) ==> !LexLess(cmps, q, p)
    decreases |cmps|
  {
    assert ThreeWay(cmps[0]);
    if |cmps| > 1 {
      assert AllThreeWay(cmps[1..]) by {
        forall i | 0 <= i < |cmps[1..]| ensures ThreeWay(cmps[1..][i]) {
          assert cmps[1..][i] == cmps[i + 1];
        }
      }
      LexLessAsymmetric(cmps[1..], p, q);
    }
  }

  /** Strictly-before followed by no-later is strictly before. */
  lemma StrictThenLeq(c: CmpFunc, p: Pod, q: Pod, r: Pod)
    requires ThreeWay(c)
    requires c(p, q) < 0 && c(q, r) <= 0
    ensures c(p, r) < 0
  {
  }

  lemma {:induction false} LexLessNegativelyTransitive(cmps: seq<CmpFunc>, p: Pod, q: Pod, r: Pod)
    requires |cmps| >= 1 && AllThreeWay(cmps)
    requires !LexLess(cmps, p, q) && !LexLess(cmps, q, r)
    ensures !LexLess(cmps, p, r)
    decreases |cmps|
  {
    var c := cmps[0];
    assert ThreeWay(c);
    assert c(r, q) <= 0 && c(q, p) <= 0;
    assert c(r, p) <= 0;
    if |cmps| > 1 && c(p, r) == 0 {
      if c(r, q) < 0 {
        StrictThenLeq(c, r, q, p);
      }
      if c(q, p) < 0 {
        StrictThenLeq(c, q, p, r);
      }
      assert c(p, q) == 0 && c(q, r) == 0;
      assert AllThreeWay(cmps[1..]) by {
        forall i | 0 <= i < |cmps[1..]| ensures ThreeWay(cmps[1..][i]) {
          assert cmps[1..][i] == cmps[i + 1];
        }
      }
      LexLessNegativelyTransitive(cmps[1..], p, q, r);
    }
  }

  /** Composing consistent comparators lexicographically gives an order a sort can use. */
  lemma LexLessStrictWeakOrder(cmps: seq<CmpFunc>)
    requires |cmps| >= 1 && AllThreeWay(cmps)
    ensures StrictWeakOrder(cmps)
  {
    forall p, q ensures LexLess(cmps, p, q) ==> !LexLess(cmps, q, p) {
      LexLessAsymmetric(cmps, p, q);
    }
    forall p, q, r | !LexLess(cmps, p, q) && !LexLess(cmps, q, r) ensures !LexLess(cmps, p, r) {
      LexLessNegativelyTransitive(cmps, p, q, r);
    }
  }

  /** A stats-based boolean comparator is a comparison of ranks: no stats, then true, then false. */
  function BoolRank(s: Option<PodSummary>, b: bool): int {
    if s.None? then 0 else if b then 1 else 2
  }

  lemma ExceedMemoryLimitsThreeWay(summary: SummaryFunc)
    ensures ThreeWay((p1, p2) => ExceedMemoryLimits(summary, p1, p2))
  {
    forall p, q
      ensures var rp := BoolRank(summary(p), summary(p).Some? && ExceedsLimits(p, summary(p).value));
              var rq := BoolRank(summary(q), summary(q).Some? && ExceedsLimits(q, summary(q).value));
              (ExceedMemoryLimits(summary, p, q) < 0 <==> rp < rq) && (ExceedMemoryLimits(summary, p, q) == 0 <==> rp == rq)
    {
    }
  }

  lemma ExceedMemoryRequestsThreeWay(summary: SummaryFunc)
    ensures ThreeWay((p1, p2) => ExceedMemoryRequests(summary, p1, p2))
  {
    forall p, q
      ensures var rp := BoolRank(summary(p), summary(p).Some? && ExceedsRequests(p, summary(p).value));
              var rq := BoolRank(summary(q), summary(q).Some? && ExceedsRequests(q, summary(q).value));
              (ExceedMemoryRequests(summary, p, q) < 0 <==> rp < rq) && (ExceedMemoryRequests(summary, p, q) == 0 <==> rp == rq)
    {
    }
  }

  lemma PriorityThreeWay()
    ensures ThreeWay((p1, p2) => Priority(p1, p2))
  {
  }

  lemma MemoryThreeWay(summary: SummaryFunc)
    ensures ThreeWay((p1, p2) => Memory(summary, p1, p2))
  {
  }

  // ----- The sorter -----

  /** No pod of `s` ranks strictly before an earlier one. */
  ghost predicate SortedBy(cmps: seq<CmpFunc>, s: seq<Pod>)
    requires |cmps| >= 1
  {
    SortedRange(cmps, s, 0, |s|)
  }

  /** `SortedBy` for the pods at indices `lo..hi`. */
  ghost predicate SortedRange(cmps: seq<CmpFunc>, s: seq<Pod>, lo: int, hi: int)
    requires |cmps| >= 1
  {
    forall k, l :: 0 <= lo <= k < l < hi <= |s| ==> !LexLess(cmps, s[l], s[k])
  }

  /**
   * The state of the insertion of the pod now at `j`, taken from index `i`:
   * the pods before it and the pods after it (up to `i`) are sorted, no pod
   * after it ranks before a pod before it, and it ranks strictly before
   * every pod after it.
   */
  ghost predicate Inserting(cmps: seq<CmpFunc>, s: seq<Pod>, j: int, i: int)
    requires |cmps| >= 1
  {
    0 <= j <= i < |s| &&
    SortedRange(cmps, s, 0, j) && SortedRange(cmps, s, j + 1, i + 1) &&
    (forall k, l :: 0 <= k < j < l <= i ==> !LexLess(cmps, s[l], s[k])) &&
    (forall l :: j < l <= i ==> LexLess(cmps, s[j], s[l]))
  }

  /** Swapping the inserted pod with a predecessor it ranks before moves the insertion one place left. */
  lemma InsertionStep(cmps: seq<CmpFunc>, s: seq<Pod>, j: int, i: int)
    requires |cmps| >= 1 && Inserting(cmps, s, j, i) && j > 0
    requires LexLess(cmps, s[j], s[j - 1])
    ensures Inserting(cmps, s[j - 1 := s[j]][j := s[j - 1]], j - 1, i)
  {
  }

  /** The insertion ends sorted once the pod is first or does not rank before its predecessor. */
  lemma InsertionCloses(cmps: seq<CmpFunc>, s: seq<Pod>, j: int, i: int)
    requires |cmps| >= 1 && StrictWeakOrder(cmps)
    requires Inserting(cmps, s, j, i)
    requires j > 0 ==> !LexLess(cmps, s[j], s[j - 1])
    ensures SortedRange(cmps, s, 0, i + 1)
  {
    forall k, l | 0 <= k < l <= i ensures !LexLess(cmps, s[l], s[k]) {
      if l == j && k < j - 1 {
        assert !LexLess(cmps, s[j - 1], s[k]);
      } else if k == j {
        assert LexLess(cmps, s[j], s[l]);
      }
    }
  }

  /** `multiSorter`: the pods being sorted and the comparators, in order of precedence. */
  class MultiSorter {
    var pods: array<Pod>
    const cmp: seq<CmpFunc>

    /** `orderedBy`: a sorter over the given comparators, with no pods yet. */
    constructor OrderedBy(cmp: seq<CmpFunc>)
      ensures this.cmp == cmp && pods.Length == 0
    {
      this.cmp := cmp;
      pods := new Pod[0];
    }

    method Len() returns (n: int)
      ensures n == pods.Length
    {
      n := pods.Length;
    }

    /** `Less(i, j)`: the comparator loop, with the last comparator as the final decider. */
    method Less(i: int, j: int) returns (r: bool)
      requires |cmp| >= 1
      requires 0 <= i < pods.Length && 0 <= j < pods.Length
      ensures r == LexLess(cmp, pods[i], pods[j])
    {
      var p1, p2 := pods[i], pods[j];
      var k := 0;
      while k < |cmp| - 1
        invariant 0 <= k <= |cmp| - 1
        invariant LexLess(cmp[k..], p1, p2) == LexLess(cmp, p1, p2)
      {
        var cmpResult := cmp[k](p1, p2);
        assert cmp[k..][1..] == cmp[k + 1..];
        if cmpResult < 0 {
          return true;
        }
        if cmpResult > 0 {
          return false;
        }
        k := k + 1;
      }
      return cmp[k](p1, p2) < 0;
    }

    method Swap(i: int, j: int)
      requires 0 <= i < pods.Length && 0 <= j < pods.Length
      modifies pods
      ensures pods[..] == old(pods[..])[i := old(pods[j])][j := old(pods[i])]
      ensures multiset(pods[..]) == multiset(old(pods[..]))
    {
      pods[i], pods[j] := pods[j], pods[i];
    }

    /**
     * `Sort`: reorders `ps` in place into an order in which no pod ranks
     * strictly before an earlier one. The source delegates to the standard
     * library sort, which needs the comparator order to be a strict weak
     * order; this is the insertion sort that library uses on short inputs.
     */
    method Sort(ps: array<Pod>)
      requires |cmp| >= 1 && StrictWeakOrder(cmp)
      modifies this`pods, ps
      ensures pods == ps
      ensures multiset(ps[..]) == multiset(old(ps[..]))
      ensures SortedBy(cmp, ps[..])
    {
      pods := ps;
      var i := 0;
      while i < ps.Length
        invariant pods == ps
        invariant 0 <= i <= ps.Length
        invariant multiset(ps[..]) == multiset(old(ps[..]))
        invariant SortedRange(cmp, ps[..], 0, i)
      {
        InsertAt(i);
        i := i + 1;
      }
    }

    /** One pass of the insertion sort: the pod at `i` moves left past every pod it ranks before. */
    method InsertAt(i: int)
      requires |cmp| >= 1 && StrictWeakOrder(cmp)
      requires 0 <= i < pods.Length && SortedRange(cmp, pods[..], 0, i)
      modifies pods
      ensures multiset(pods[..]) == multiset(old(pods[..]))
      ensures SortedRange(cmp, pods[..], 0, i + 1)
    {
      var j := i;
      while j > 0
        invariant multiset(pods[..]) == multiset(old(pods[..]))
        invariant Inserting(cmp, pods[..], j, i)
      {
        var less := Less(j, j - 1);
        if !less {
          break;
        }
        InsertionStep(cmp, pods[..], j, i);
        Swap(j, j - 1);
        j := j - 1;
      }
      InsertionCloses(cmp, pods[..], j, i);
    }
  }
}
