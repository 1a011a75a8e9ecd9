/**
 * The eviction candidates filter: a pod may be evicted unless it lives in
 * the agent's own namespace, in a namespace reserved for the platform
 * (prefix `openshift` or `kube-system`), or is a critical pod.
 */
module PodFilter {
  import opened Strs
  import opened Kube
  import opened Seqs

  /** The namespace prefixes whose pods are never evicted. */
  const ExcludedPrefixesForNamespaces: seq<string> := ["openshift", "kube-system"]

  /** `namespace` starts with one of `prefixes`. */
  predicate HasPrefixIn(namespace: string, prefixes: seq<string>) {
    exists i | 0 <= i < |prefixes| :: StartsWith(namespace, prefixes[i])
  }

  /** The keep rule of the filter loop. */
  predicate Eligible(pod: Pod, waspNs: string) {
    pod.namespace != waspNs && !HasPrefixIn(pod.namespace, ExcludedPrefixesForNamespaces) && !pod.critical
  }

  /** The eligible pods of `pods`, in their order. */
  function Filtered(pods: seq<Pod>, waspNs: string): seq<Pod> {
    Filter(pod => Eligible(pod, waspNs), pods)
  }

  /** A pod is in the output exactly when it is in the input and eligible; the output is no longer than the input. */
  lemma FilteredMembers(pods: seq<Pod>, waspNs: string)
    ensures forall p :: p in Filtered(pods, waspNs) <==> p in pods && Eligible(p, waspNs)
    ensures |Filtered(pods, waspNs)| <= |pods|
  {
    FilterMembers(pod => Eligible(pod, waspNs), pods);
  }

  /** Filtering keeps the survivors in their input order: it distributes over concatenation. */
  lemma FilteredAppend(a: seq<Pod>, b: seq<Pod>, waspNs: string)
    ensures Filtered(a + b, waspNs) == Filtered(a, waspNs) + Filtered(b, waspNs)
  {
    FilterAppend(pod => Eligible(pod, waspNs), a, b);
  }

  /** Filtering twice is filtering once. */
  lemma FilteredIdempotent(pods: seq<Pod>, waspNs: string)
    ensures Filtered(Filtered(pods, waspNs), waspNs) == Filtered(pods, waspNs)
  {
    FilterIdempotent(pod => Eligible(pod, waspNs), pods);
  }

  class PodFilterImpl {
    const waspNs: string

    /** `NewPodFilterImpl`. */
    constructor (waspNs: string)
      ensures this.waspNs == waspNs
    {
      this.waspNs := waspNs;
    }

    /** `FilterPods`: the eligible pods, in input order; nothing survives an empty input. */
    method FilterPods(pods: seq<Pod>) returns (filteredPods: seq<Pod>)
      ensures filteredPods == Filtered(pods, waspNs)
      ensures pods == [] ==> filteredPods == []
    {
      filteredPods := [];
      var i := 0;
      while i < |pods|
        invariant 0 <= i <= |pods|
        invariant filteredPods == Filtered(pods[..i], waspNs)
      {
        var pod := pods[i];
        var excluded := HasExcludedPrefix(pod.namespace, ExcludedPrefixesForNamespaces);
        assert pods[..i + 1] == pods[..i] + [pod];
        FilterSnoc(p => Eligible(p, waspNs), pods[..i], pod);
        if pod.namespace != waspNs && !excluded && !pod.critical {
          filteredPods := filteredPods + [pod];
        }
        i := i + 1;
      }
      assert pods[..i] == pods;
    }
  }

  /**
   * `hasExcludedPrefix`: whether the namespace starts with one of the
   * prefixes. The limited-swap manager has an identical copy.
   */
  method HasExcludedPrefix(namespace: string, excludedPrefixes: seq<string>) returns (r: bool)
    ensures r <==> HasPrefixIn(namespace, excludedPrefixes)
  {
    var i := 0;
    while i < |excludedPrefixes|
      invariant 0 <= i <= |excludedPrefixes|
      invariant forall j :: 0 <= j < i ==> !StartsWith(namespace, excludedPrefixes[j])
    {
      if StartsWith(namespace, excludedPrefixes[i]) {
        return true;
      }
      i := i + 1;
    }
    return false;
  }

  /** With the fixed prefix list, a namespace is excluded exactly when it starts with `openshift` or `kube-system`. */
  lemma ExcludedNamespaces(namespace: string)
    ensures HasPrefixIn(namespace, ExcludedPrefixesForNamespaces) <==>
      StartsWith(namespace, "openshift") || StartsWith(namespace, "kube-system")
  {
    var ps := ExcludedPrefixesForNamespaces;
    assert |ps| == 2 && ps[0] == "openshift" && ps[1] == "kube-system";
    if StartsWith(namespace, "openshift") {
      assert StartsWith(namespace, ps[0]);
    }
    if StartsWith(namespace, "kube-system") {
      assert StartsWith(namespace, ps[1]);
    }
  }
}
