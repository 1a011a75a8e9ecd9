/**
 * The eviction controller's cycle: ask the shortage detector for a
 * verdict, keep the node's eviction taint in line with it (flushing the
 * sample history when the node starts evicting), and while the node is
 * short of memory evict the first pod of the ranked, filtered list of
 * running pods. The cluster is given as the results its API calls return;
 * the calls the cycle makes on it are recorded in order.
 */
module EvictionController {
  import opened Wrappers
  import opened Seqs
  import opened Kube
  import opened StatsCollector
  import opened ShortageDetector
  import opened PodFilter
  import opened PodStatsCollector
  import opened RankUtils
  import opened PodRanker
  import opened Taints

  /** A call the cycle makes on the cluster: a node taint patch or a pod eviction. */
  datatype Action = PatchTaints(nodeName: string, taints: seq<Taint>) | EvictPod(pod: Pod)

  /** The pod has container statuses and every one of them is terminated. */
  predicate AllContainersTerminated(statuses: seq<ContainerStatus>) {
    |statuses| > 0 && forall i :: 0 <= i < |statuses| ==> statuses[i].state.terminated
  }

  /** The keep rule of `listRunningPodsOnNode`. */
  predicate IsRunning(pod: Pod) {
    !AllContainersTerminated(pod.containerStatuses) && pod.phase != Failed && pod.phase != Succeeded
  }

  function RunningPods(list: seq<Pod>): seq<Pod> {
    Filter(IsRunning, list)
  }

  /** A pod is listed as running exactly when it is in the API's list and passes the keep rule; the order is kept. */
  lemma RunningPodsProperties(list: seq<Pod>, more: seq<Pod>)
    ensures forall p :: p in RunningPods(list) <==> p in list && IsRunning(p)
    ensures RunningPods(list + more) == RunningPods(list) + RunningPods(more)
  {
    FilterMembers(IsRunning, list);
    FilterAppend(IsRunning, list, more);
  }

  /**
   * The taint patch of a cycle: remove the taint when the node is tainted
   * but need not evict, add it when the node must evict but is not yet
   * tainted, nothing otherwise.
   */
  function TaintTransition(node: Node, evicting: bool, shouldEvict: bool): (r: seq<Action>)
    ensures |r| <= 1
    ensures |r| == 1 <==> evicting != shouldEvict
    ensures |r| == 1 ==> r[0].PatchTaints? && r[0].nodeName == node.name
    ensures |r| == 1 ==> HasEvictionTaint(r[0].taints) == shouldEvict
  {
    if evicting && !shouldEvict then
      RemovedTaintsProperties(node.taints);
      [PatchTaints(node.name, RemovedTaints(node.taints))]
    else if !evicting && shouldEvict then
      AddedTaintsHaveEvictionTaint(node.taints);
      [PatchTaints(node.name, AddedTaints(node.taints))]
    else []
  }

  /**
   * `p` is the pod the cycle evicts from `candidates`: with summaries, a
   * pod no other candidate ranks before; when listing them failed, the
   * unsorted first candidate.
   */
  ghost predicate RanksFirst(p: Pod, candidates: seq<Pod>, summaries: Result<seq<PodSummary>, string>) {
    |candidates| > 0 && p in candidates &&
    (summaries.Err? ==> p == candidates[0]) &&
    (summaries.Ok? ==> forall q | q in candidates :: !LexLess(RankComparators(summaries.value), q, p))
  }

  class EvictionControllerImpl {
    const statsCollector: StatsCollectorImpl
    const shortageDetector: ShortageDetectorImpl
    const podFilter: PodFilterImpl
    const nodeName: string
    /** The calls made on the cluster so far. */
    var actions: seq<Action>

    ghost predicate Valid()
      reads this, statsCollector
    {
      shortageDetector.sc == statsCollector &&
      shortageDetector.swapUtilizationThresholdFactor >= 0.0 &&
      statsCollector.Valid()
    }

    /**
     * `NewEvictionController`: a fresh sample history, a detector reading
     * it, and the filter for the agent's namespace.
     */
    constructor (nodeName: string, maxSwapIn: real, maxSwapOut: real, factor: real,
                 window: int, totalMemory: nat, totalSwap: nat, waspNs: string)
      requires factor >= 0.0
      ensures Valid() && fresh(statsCollector) && statsCollector.statsList == []
      ensures this.nodeName == nodeName && podFilter.waspNs == waspNs && actions == []
      ensures shortageDetector.averageWindowSizeSeconds == window
    {
      var sc := new StatsCollectorImpl();
      statsCollector := sc;
      shortageDetector := new ShortageDetectorImpl(sc, maxSwapIn, maxSwapOut, factor, window, totalMemory, totalSwap);
      podFilter := new PodFilterImpl(waspNs);
      this.nodeName := nodeName;
      actions := [];
    }

    /** `listRunningPodsOnNode`, given the result of the API's pod list for this node. */
    method ListRunningPodsOnNode(list: Result<seq<Pod>, string>) returns (pods: seq<Pod>, err: Option<string>)
      ensures list.Err? ==> pods == [] && err == Some(list.error)
      ensures list.Ok? ==> err.None? && pods == RunningPods(list.value)
    {
      if list.Err? {
        return [], Some(list.error);
      }
      var items := list.value;
      pods := [];
      var i := 0;
      while i < |items|
        invariant 0 <= i <= |items|
        invariant pods == Filter(IsRunning, items[..i])
      {
        var pod := items[i];
        var statuses := pod.containerStatuses;
        var allContainersTerminated := false;
        if |statuses| > 0 {
          allContainersTerminated := true;
          var k := 0;
          while k < |statuses|
            invariant 0 <= k <= |statuses|
            invariant allContainersTerminated && forall m :: 0 <= m < k ==> statuses[m].state.terminated
          {
            if !statuses[k].state.terminated {
              allContainersTerminated := false;
              break;
            }
            k := k + 1;
          }
        }
        assert items[..i + 1] == items[..i] + [pod];
        FilterSnoc(IsRunning, items[..i], pod);
        var phase := pod.phase;
        var toAppendPod := !allContainersTerminated && phase != Failed && phase != Succeeded;
        if toAppendPod {
          pods := pods + [pod];
        }
        i := i + 1;
      }
      assert items[..i] == items;
      return pods, None;
    }

    /**
     * `handleMemorySwapEviction`, given what the node lookup, the taint
     * patch, the pod list and the summary list return. A detector error
     * or a failed node lookup ends the cycle with nothing done. Otherwise
     * the taint follows the verdict, the history is flushed exactly when
     * the node starts evicting (whether or not the patch succeeds), and
     * when the node must evict and some candidate remains, exactly one pod
     * is evicted: the first in ranking order.
     */
    method HandleMemorySwapEviction(node: Result<Node, string>, patchError: Option<string>,
                                    podList: Result<seq<Pod>, string>,
                                    summaries: Result<seq<PodSummary>, string>)
      requires Valid()
      modifies this`actions, statsCollector`statsList
      ensures Valid()
      ensures var d := shortageDetector.Decide(old(statsCollector.statsList));
        d.None? || node.Err? ==> actions == old(actions) && statsCollector.statsList == old(statsCollector.statsList)
      ensures var d := shortageDetector.Decide(old(statsCollector.statsList));
        d.Some? && node.Ok? ==>
          var evicting := HasEvictionTaint(node.value.taints);
          var taintCalls := TaintTransition(node.value, evicting, d.value);
          |actions| >= |old(actions)| + |taintCalls| &&
          actions[..|old(actions)| + |taintCalls|] == old(actions) + taintCalls &&
          statsCollector.statsList == (if !evicting && d.value then [] else old(statsCollector.statsList))
      ensures var d := shortageDetector.Decide(old(statsCollector.statsList));
        d.Some? && node.Ok? ==>
          var taintCalls := TaintTransition(node.value, HasEvictionTaint(node.value.taints), d.value);
          var evictions := actions[|old(actions)| + |taintCalls|..];
          var candidates := if podList.Ok? then Filtered(RunningPods(podList.value), podFilter.waspNs) else [];
          (!d.value || podList.Err? || |candidates| == 0 ==> evictions == []) &&
          (d.value && podList.Ok? && |candidates| > 0 ==>
             |evictions| == 1 && evictions[0].EvictPod? && RanksFirst(evictions[0].pod, candidates, summaries))
    {
      var shouldEvict, err := shortageDetector.ShouldEvict();
      if err.Some? {
        return;
      }
      if node.Err? {
        return;
      }
      var n := node.value;
      var evicting := NodeHasEvictionTaint(n);
      UpdateTaint(n, evicting, shouldEvict, patchError);
      if !shouldEvict {
        return;
      }
      EvictFirstCandidate(podList, summaries);
    }

    /** The taint switch of the cycle, and the flush when the node starts evicting. */
    method UpdateTaint(n: Node, evicting: bool, shouldEvict: bool, patchError: Option<string>)
      requires Valid()
      modifies this`actions, statsCollector`statsList
      ensures Valid()
      ensures actions == old(actions) + TaintTransition(n, evicting, shouldEvict)
      ensures statsCollector.statsList == (if !evicting && shouldEvict then [] else old(statsCollector.statsList))
    {
      if evicting && !shouldEvict {
        var patched, patchErr := RemoveWaspEvictionTaint(n, patchError);
        actions := actions + [PatchTaints(n.name, patched)];
      } else if !evicting && shouldEvict {
        var patched, patchErr := AddWaspEvictionTaint(n, patchError);
        actions := actions + [PatchTaints(n.name, patched)];
        statsCollector.FlushStats();
      }
    }

    /** The eviction half of a cycle that must evict: list, filter, rank, evict the first. */
    method EvictFirstCandidate(podList: Result<seq<Pod>, string>, summaries: Result<seq<PodSummary>, string>)
      modifies this`actions
      ensures var candidates := if podList.Ok? then Filtered(RunningPods(podList.value), podFilter.waspNs) else [];
        (podList.Err? || |candidates| == 0 ==> actions == old(actions)) &&
        (podList.Ok? && |candidates| > 0 ==>
           |actions| == |old(actions)| + 1 && actions[..|old(actions)|] == old(actions) &&
           actions[|old(actions)|].EvictPod? && RanksFirst(actions[|old(actions)|].pod, candidates, summaries))
    {
      var pods, listErr := ListRunningPodsOnNode(podList);
      if listErr.Some? {
        return;
      }
      var filteredPods := podFilter.FilterPods(pods);
      if |filteredPods| == 0 {
        return;
      }
      var ranked := new Pod[|filteredPods|](i requires 0 <= i < |filteredPods| => filteredPods[i]);
      assert ranked[..] == filteredPods;
      var rankErr := RankPods(ranked, summaries);
      EvictedRanksFirst(ranked[..], filteredPods, summaries);
      actions := actions + [EvictPod(ranked[0])];
    }
  }

  /** The pod at the head of the ranked candidates is one the cycle may evict. */
  lemma EvictedRanksFirst(ranked: seq<Pod>, candidates: seq<Pod>, summaries: Result<seq<PodSummary>, string>)
    requires |candidates| > 0 && multiset(ranked) == multiset(candidates)
    requires summaries.Err? ==> ranked == candidates
    requires summaries.Ok? ==> SortedBy(RankComparators(summaries.value), ranked)
    ensures |ranked| > 0 && RanksFirst(ranked[0], candidates, summaries)
  {
    assert |ranked| == |multiset(ranked)| == |candidates|;
    assert ranked[0] in multiset(candidates);
    if summaries.Ok? {
      var cmps := RankComparators(summaries.value);
      RankOrderIsStrictWeak(summaries.value);
      forall q | q in candidates ensures !LexLess(cmps, q, ranked[0]) {
        assert q in multiset(ranked);
        var j :| 0 <= j < |ranked| && ranked[j] == q;
        if j == 0 {
          assert !LexLess(cmps, ranked[0], ranked[0]);
        }
      }
    }
  }
}
