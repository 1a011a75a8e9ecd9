/**
 * The node taint that marks a node under memory pressure, its toleration,
 * and the taint lists the agent patches onto the node to add or remove it.
 * The eviction controller carries an identical private copy of these
 * functions; both are modelled by this module.
 */
module Taints {
  import opened Wrappers
  import opened Kube
  import opened Seqs

  const WaspTaint: string := "waspEvictionTaint"

  /** `GenerateTaint`: the eviction taint, key `waspEvictionTaint` with effect NoSchedule. */
  function GenerateTaint(): (t: Taint)
    ensures t.key == WaspTaint && t.effect == NoSchedule && t.value == ""
  {
    Taint(WaspTaint, "", NoSchedule)
  }

  /** `GenerateToleration`: the toleration of exactly that taint. */
  function GenerateToleration(): (t: Toleration)
    ensures t.key == WaspTaint && t.effect == Some(NoSchedule)
    ensures t.key == GenerateTaint().key && t.effect == Some(GenerateTaint().effect)
  {
    Toleration(WaspTaint, "", "", Some(NoSchedule))
  }

  /** The taint the eviction test looks for: the wasp key with effect NoSchedule. */
  predicate IsEvictionTaint(t: Taint) {
    t.key == WaspTaint && t.effect == NoSchedule
  }

  predicate HasEvictionTaint(taints: seq<Taint>) {
    exists i | 0 <= i < |taints| :: IsEvictionTaint(taints[i])
  }

  /** `NodeHasEvictionTaint`: the search loop over the node's taints. */
  method NodeHasEvictionTaint(node: Node) returns (r: bool)
    ensures r == HasEvictionTaint(node.taints)
  {
    var i := 0;
    while i < |node.taints|
      invariant 0 <= i <= |node.taints|
      invariant forall k :: 0 <= k < i ==> !IsEvictionTaint(node.taints[k])
    {
      var taint := node.taints[i];
      if taint.key == WaspTaint && taint.effect == NoSchedule {
        return true;
      }
      i := i + 1;
    }
    return false;
  }

  /** The list `AddWaspEvictionTaint` patches: the old list with the eviction taint appended, unconditionally. */
  function AddedTaints(taints: seq<Taint>): (r: seq<Taint>)
    ensures |r| == |taints| + 1 && r[..|taints|] == taints && r[|taints|] == GenerateTaint()
  {
    taints + [GenerateTaint()]
  }

  /** How many eviction taints a list holds. */
  function EvictionTaintCount(taints: seq<Taint>): nat {
    if |taints| == 0 then 0
    else EvictionTaintCount(taints[..|taints| - 1]) + (if IsEvictionTaint(taints[|taints| - 1]) then 1 else 0)
  }

  /** A list holds an eviction taint exactly when it holds at least one. */
  lemma {:induction false} EvictionTaintCountPositive(taints: seq<Taint>)
    ensures HasEvictionTaint(taints) <==> EvictionTaintCount(taints) > 0
    decreases |taints|
  {
    if |taints| > 0 {
      var init := taints[..|taints| - 1];
      EvictionTaintCountPositive(init);
      assert forall k :: 0 <= k < |init| ==> init[k] == taints[k];
      if HasEvictionTaint(taints) && !IsEvictionTaint(taints[|taints| - 1]) {
        var i :| 0 <= i < |taints| && IsEvictionTaint(taints[i]);
        assert IsEvictionTaint(init[i]);
      }
    }
  }

  /**
   * After adding, the node has the eviction taint; adding does not check
   * for one already present, so a tainted node ends up with one more.
   */
  lemma AddedTaintsHaveEvictionTaint(taints: seq<Taint>)
    ensures HasEvictionTaint(AddedTaints(taints))
    ensures EvictionTaintCount(AddedTaints(taints)) == EvictionTaintCount(taints) + 1
    ensures HasEvictionTaint(taints) ==> EvictionTaintCount(AddedTaints(taints)) >= 2
  {
    var r := AddedTaints(taints);
    assert IsEvictionTaint(r[|taints|]);
    assert r[..|r| - 1] == taints;
    EvictionTaintCountPositive(taints);
  }

  /** The keep test of the removal loop: any taint whose key is not the wasp key, whatever its effect. */
  predicate KeptOnRemove(t: Taint) {
    t.key != WaspTaint
  }

  /** The list `RemoveWaspEvictionTaint` patches. */
  function RemovedTaints(taints: seq<Taint>): seq<Taint> {
    Filter(KeptOnRemove, taints)
  }

  /** The loop of `RemoveWaspEvictionTaint` that builds `newTaints`. */
  method RemoveLoop(taints: seq<Taint>) returns (newTaints: seq<Taint>)
    ensures newTaints == RemovedTaints(taints)
  {
    newTaints := [];
    var i := 0;
    while i < |taints|
      invariant 0 <= i <= |taints|
      invariant newTaints == Filter(KeptOnRemove, taints[..i])
    {
      var taint := taints[i];
      assert taints[..i + 1] == taints[..i] + [taint];
      FilterSnoc(KeptOnRemove, taints[..i], taint);
      if taint.key != WaspTaint {
        newTaints := newTaints + [taint];
      }
      i := i + 1;
    }
    assert taints[..i] == taints;
  }

  /**
   * After removing, no taint with the wasp key is left, so the node no
   * longer has the eviction taint; a taint is kept exactly when its key
   * differs, in its original order.
   */
  lemma RemovedTaintsProperties(taints: seq<Taint>)
    ensures forall i :: 0 <= i < |RemovedTaints(taints)| ==> RemovedTaints(taints)[i].key != WaspTaint
    ensures !HasEvictionTaint(RemovedTaints(taints))
    ensures forall t :: t in RemovedTaints(taints) <==> t in taints && t.key != WaspTaint
  {
    FilterKeeps(KeptOnRemove, taints);
    FilterMembers(KeptOnRemove, taints);
  }

  /** Removal keeps the relative order of the remaining taints. */
  lemma RemovedTaintsAppend(a: seq<Taint>, b: seq<Taint>)
    ensures RemovedTaints(a + b) == RemovedTaints(a) + RemovedTaints(b)
  {
    FilterAppend(KeptOnRemove, a, b);
  }

  /** Removing twice is removing once, and a list without the wasp key is left as it is. */
  lemma RemovedTaintsIdempotent(taints: seq<Taint>)
    ensures RemovedTaints(RemovedTaints(taints)) == RemovedTaints(taints)
    ensures (forall i :: 0 <= i < |taints| ==> taints[i].key != WaspTaint) ==> RemovedTaints(taints) == taints
  {
    FilterIdempotent(KeptOnRemove, taints);
    if forall i :: 0 <= i < |taints| ==> taints[i].key != WaspTaint {
      FilterAllKept(KeptOnRemove, taints);
    }
  }

  /** Adding then removing drops every wasp-keyed taint, the added one included. */
  lemma RemoveUndoesAdd(taints: seq<Taint>)
    ensures RemovedTaints(AddedTaints(taints)) == RemovedTaints(taints)
  {
    FilterSnoc(KeptOnRemove, taints, GenerateTaint());
  }

  /**
   * `AddWaspEvictionTaint`: the taints it sends to the node and the error it
   * returns, given the outcome of the patch call.
   */
  method AddWaspEvictionTaint(node: Node, patchError: Option<string>) returns (patched: seq<Taint>, err: Option<string>)
    ensures patched == AddedTaints(node.taints)
    ensures err.Some? <==> patchError.Some?
    ensures patchError.Some? ==> err == Some("failed to patch node: " + patchError.value)
  {
    patched := node.taints + [GenerateTaint()];
    if patchError.Some? {
      return patched, Some("failed to patch node: " + patchError.value);
    }
    return patched, None;
  }

  /** `RemoveWaspEvictionTaint`: likewise, with the filtered list. */
  method RemoveWaspEvictionTaint(node: Node, patchError: Option<string>) returns (patched: seq<Taint>, err: Option<string>)
    ensures patched == RemovedTaints(node.taints)
    ensures err.Some? <==> patchError.Some?
    ensures patchError.Some? ==> err == Some("failed to patch node: " + patchError.value)
  {
    patched := RemoveLoop(node.taints);
    if patchError.Some? {
      return patched, Some("failed to patch node: " + patchError.value);
    }
    return patched, None;
  }
}
