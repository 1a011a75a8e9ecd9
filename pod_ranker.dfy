/**
 * `RankPods`: orders the candidate pods in place so that the first one is
 * the best to evict. Pods are looked up in the pod summaries by UID and
 * compared by the four comparators of the ranking, in order.
 */
module PodRanker {
  import opened Wrappers
  import opened Kube
  import opened PodStatsCollector
  import opened RankUtils

  /** No summary before index `i` has UID `uid`. */
  predicate FirstWithUid(podSummary: seq<PodSummary>, uid: string, i: int) {
    forall k :: 0 <= k < i && k < |podSummary| ==> podSummary[k].uid != uid
  }

  /**
   * The summary lookup closure: the first summary with the pod's UID. Its
   * usage fields are plain integers, so the check that they are set always
   * passes.
   */
  function SummaryOf(podSummary: seq<PodSummary>, pod: Pod): (r: Option<PodSummary>)
    ensures r.Some? ==> r.value.uid == pod.uid
    ensures r.Some? ==> exists i :: 0 <= i < |podSummary| && podSummary[i] == r.value && FirstWithUid(podSummary, pod.uid, i)
    ensures r.None? ==> forall k :: 0 <= k < |podSummary| ==> podSummary[k].uid != pod.uid
  {
    if |podSummary| == 0 then None
    else if podSummary[0].uid == pod.uid then Some(podSummary[0])
    else
      var r := SummaryOf(podSummary[1..], pod);
      assert forall k :: 1 <= k < |podSummary| ==> podSummary[k] == podSummary[1..][k - 1];
      r
  }

  /** The loop of the lookup closure. */
  method LookupSummary(podSummary: seq<PodSummary>, pod: Pod) returns (ps: PodSummary, found: bool)
    ensures found == SummaryOf(podSummary, pod).Some?
    ensures found ==> ps == SummaryOf(podSummary, pod).value
  {
    var i := 0;
    while i < |podSummary|
      invariant 0 <= i <= |podSummary|
      invariant SummaryOf(podSummary[i..], pod) == SummaryOf(podSummary, pod)
    {
      assert podSummary[i..][1..] == podSummary[i + 1..];
      if podSummary[i].uid == pod.uid {
        return podSummary[i], true;
      }
      i := i + 1;
    }
    return PodSummary("", "", 0, 0, map[]), false;
  }

  /** The comparators of the ranking: limit exceeders, request exceeders, priority, usage above request. */
  function RankComparators(podSummary: seq<PodSummary>): (cmps: seq<CmpFunc>)
    ensures |cmps| == 4
  {
    var summary: SummaryFunc := pod => SummaryOf(podSummary, pod);
    [(p1, p2) => ExceedMemoryLimits(summary, p1, p2),
     (p1, p2) => ExceedMemoryRequests(summary, p1, p2),
     (p1, p2) => Priority(p1, p2),
     (p1, p2) => Memory(summary, p1, p2)]
  }

  /** The ranking order is one a sort can use. */
  lemma RankOrderIsStrictWeak(podSummary: seq<PodSummary>)
    ensures StrictWeakOrder(RankComparators(podSummary))
  {
    var summary: SummaryFunc := pod => SummaryOf(podSummary, pod);
    var cmps := RankComparators(podSummary);
    ExceedMemoryLimitsThreeWay(summary);
    ExceedMemoryRequestsThreeWay(summary);
    PriorityThreeWay();
    MemoryThreeWay(summary);
    assert cmps[0] == (p1, p2) => ExceedMemoryLimits(summary, p1, p2);
    assert cmps[1] == (p1, p2) => ExceedMemoryRequests(summary, p1, p2);
    assert cmps[2] == (p1, p2) => Priority(p1, p2);
    assert cmps[3] == (p1, p2) => Memory(summary, p1, p2);
    assert AllThreeWay(cmps);
    LexLessStrictWeakOrder(cmps);
  }

  /**
   * `RankPods`. When listing the summaries fails, the error is returned and
   * the pods are untouched; otherwise they are permuted into ranking order.
   */
  method RankPods(pods: array<Pod>, listed: Result<seq<PodSummary>, string>) returns (err: Option<string>)
    modifies pods
    ensures listed.Err? ==> err == Some(listed.error) && pods[..] == old(pods[..])
    ensures listed.Ok? ==> err.None? && multiset(pods[..]) == multiset(old(pods[..]))
    ensures listed.Ok? ==> SortedBy(RankComparators(listed.value), pods[..])
  {
    if listed.Err? {
      return Some(listed.error);
    }
    var podSummary := listed.value;
    RankOrderIsStrictWeak(podSummary);
    var sorter := new MultiSorter.OrderedBy(RankComparators(podSummary));
    sorter.Sort(pods);
    return None;
  }

  /** In ranking order, every pod without a summary comes before every pod with one. */
  lemma MissingStatsFirst(podSummary: seq<PodSummary>, s: seq<Pod>, i: int, j: int)
    requires SortedBy(RankComparators(podSummary), s)
    requires 0 <= i < j < |s|
    requires SummaryOf(podSummary, s[i]).Some?
    ensures SummaryOf(podSummary, s[j]).Some?
  {
    var cmps := RankComparators(podSummary);
    var summary: SummaryFunc := pod => SummaryOf(podSummary, pod);
    assert !LexLess(cmps, s[j], s[i]);
    assert cmps[0](s[j], s[i]) == ExceedMemoryLimits(summary, s[j], s[i]) >= 0;
  }

  /** Among pods with summaries, every pod over a container limit comes before every pod that is not. */
  lemma LimitExceedersFirst(podSummary: seq<PodSummary>, s: seq<Pod>, i: int, j: int)
    requires SortedBy(RankComparators(podSummary), s)
    requires 0 <= i < j < |s|
    requires SummaryOf(podSummary, s[i]).Some? && SummaryOf(podSummary, s[j]).Some?
    requires ExceedsLimits(s[j], SummaryOf(podSummary, s[j]).value)
    ensures ExceedsLimits(s[i], SummaryOf(podSummary, s[i]).value)
  {
    var cmps := RankComparators(podSummary);
    var summary: SummaryFunc := pod => SummaryOf(podSummary, pod);
    assert !LexLess(cmps, s[j], s[i]);
    assert cmps[0](s[j], s[i]) == ExceedMemoryLimits(summary, s[j], s[i]) >= 0;
  }
}
