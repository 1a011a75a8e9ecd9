/**
 * The limited-swap manager: pods scheduled onto this node are queued by
 * key; a worker takes one key at a time and sets `memory.swap.max` of each
 * running container of that pod. Pods that are not Burstable, critical
 * pods, pods in excluded namespaces, containers without a memory request
 * and limit and containers whose request equals their limit get no swap;
 * any other container gets a share of the node's swap proportional to its
 * memory request. The work queue and the cgroup writes are recorded as
 * logs of the calls made on them; the pod lister, the container runtime's
 * cgroup lookup and the outcome of each write are inputs.
 */
module LimitedSwap {
  import opened Wrappers
  import opened Strs
  import opened Seqs
  import opened Machine
  import opened Kube
  import opened PodFilter

  const CgroupPathBase: string := "/host/sys/fs/cgroup"
  const SwapMaxFile: string := "memory.swap.max"
  const CrioPrefix: string := "cri-o://"

  /** What the worker does with a key once it is processed. */
  datatype EnqueueState = Immediate | Forget | BackOff

  /** A call on the rate-limited work queue. */
  datatype QueueCall = AddCall(key: string) | AddRateLimitedCall(key: string) | ForgetCall(key: string) | DoneCall(key: string)

  /** A write of `swapLimit` to `memory.swap.max` in the cgroup directory `dirPath`. */
  datatype SwapWrite = SwapWrite(dirPath: string, swapLimit: int)

  /** The answer of the pod lister for a key. */
  datatype PodLookup = Found(pod: Pod) | NotFound | LookupFailed(error: string)

  /** The rate-limited work queue, as the log of the calls made on it. */
  class WorkQueue {
    var calls: seq<QueueCall>

    constructor ()
      ensures calls == []
    {
      calls := [];
    }

    method Add(key: string)
      modifies this`calls
      ensures calls == old(calls) + [AddCall(key)]
    {
      calls := calls + [AddCall(key)];
    }

    method AddRateLimited(key: string)
      modifies this`calls
      ensures calls == old(calls) + [AddRateLimitedCall(key)]
    {
      calls := calls + [AddRateLimitedCall(key)];
    }

    method Forget(key: string)
      modifies this`calls
      ensures calls == old(calls) + [ForgetCall(key)]
    {
      calls := calls + [ForgetCall(key)];
    }

    method Done(key: string)
      modifies this`calls
      ensures calls == old(calls) + [DoneCall(key)]
    {
      calls := calls + [DoneCall(key)];
    }
  }

  // ---------------------------------------------------------------------
  // Which pods get queued
  // ---------------------------------------------------------------------

  /** The `Add` calls for the pods of `pods` on node `nodeName`, in list order. */
  function KeysOnNode(pods: seq<Pod>, nodeName: string): seq<QueueCall> {
    if |pods| == 0 then []
    else
      var p := pods[|pods| - 1];
      KeysOnNode(pods[..|pods| - 1], nodeName) + (if p.nodeName == nodeName then [AddCall(MetaNamespaceKey(p))] else [])
  }

  /**
   * A full resync adds exactly the keys of the pods on the node, one call
   * per such pod.
   */
  lemma {:induction false} KeysOnNodeMembers(pods: seq<Pod>, nodeName: string)
    ensures |KeysOnNode(pods, nodeName)| == |Filter((p: Pod) => p.nodeName == nodeName, pods)|
    ensures forall c :: c in KeysOnNode(pods, nodeName) <==>
      c.AddCall? && exists p :: p in pods && p.nodeName == nodeName && c.key == MetaNamespaceKey(p)
    decreases |pods|
  {
    if |pods| > 0 {
      var init := pods[..|pods| - 1];
      var p := pods[|pods| - 1];
      KeysOnNodeMembers(init, nodeName);
      assert pods == init + [p];
      FilterSnoc((p: Pod) => p.nodeName == nodeName, init, p);
      forall c: QueueCall | c.AddCall? && exists q :: q in pods && q.nodeName == nodeName && c.key == MetaNamespaceKey(q)
        ensures c in KeysOnNode(pods, nodeName)
      {
        var q :| q in pods && q.nodeName == nodeName && c.key == MetaNamespaceKey(q);
        if q != p {
          assert q in init;
        }
      }
    }
  }

  // ---------------------------------------------------------------------
  // Container status lookup
  // ---------------------------------------------------------------------

  /** The first status named `name`. */
  function FindStatus(statuses: seq<ContainerStatus>, name: string): (r: Option<ContainerStatus>)
    ensures r.Some? ==> r.value in statuses && r.value.name == name
    ensures r.None? <==> forall k :: 0 <= k < |statuses| ==> statuses[k].name != name
  {
    if |statuses| == 0 then None
    else if statuses[0].name == name then Some(statuses[0])
    else
      assert forall k :: 1 <= k < |statuses| ==> statuses[k] == statuses[1..][k - 1];
      FindStatus(statuses[1..], name)
  }

  /** The status of a container: among the container statuses first, then among the init container statuses. */
  function StatusOf(pod: Pod, name: string): (r: Option<ContainerStatus>)
    ensures r.Some? ==> r.value.name == name && (r.value in pod.containerStatuses || r.value in pod.initContainerStatuses)
    ensures FindStatus(pod.containerStatuses, name).Some? ==> r == FindStatus(pod.containerStatuses, name)
    ensures r.None? <==>
      (forall k :: 0 <= k < |pod.containerStatuses| ==> pod.containerStatuses[k].name != name) &&
      (forall k :: 0 <= k < |pod.initContainerStatuses| ==> pod.initContainerStatuses[k].name != name)
  {
    var s := FindStatus(pod.containerStatuses, name);
    if s.Some? then s else FindStatus(pod.initContainerStatuses, name)
  }

  /** The search loop over one list of statuses. */
  method SearchStatus(statuses: seq<ContainerStatus>, name: string) returns (r: Option<ContainerStatus>)
    ensures r == FindStatus(statuses, name)
  {
    var i := 0;
    while i < |statuses|
      invariant 0 <= i <= |statuses|
      invariant FindStatus(statuses[i..], name) == FindStatus(statuses, name)
    {
      assert statuses[i..][1..] == statuses[i + 1..];
      if statuses[i].name == name {
        return Some(statuses[i]);
      }
      i := i + 1;
    }
    return None;
  }

  /** `getContainerState`: the state of the container's status, and whether there is one. */
  method GetContainerState(pod: Pod, container: Container) returns (state: ContainerState, exist: bool)
    ensures exist <==> StatusOf(pod, container.name).Some?
    ensures exist ==> state == StatusOf(pod, container.name).value.state
    ensures !exist ==> state == ContainerState(false, false, false)
  {
    var s := SearchStatus(pod.containerStatuses, container.name);
    if s.Some? {
      return s.value.state, true;
    }
    s := SearchStatus(pod.initContainerStatuses, container.name);
    if s.Some? {
      return s.value.state, true;
    }
    return ContainerState(false, false, false), false;
  }

  /** `getContainerUID`: the container ID of the container's status without its `cri-o://` prefix. */
  method GetContainerUID(pod: Pod, container: Container) returns (r: Result<string, string>)
    ensures StatusOf(pod, container.name).Some? ==> r == Ok(TrimPrefix(StatusOf(pod, container.name).value.containerID, CrioPrefix))
    ensures StatusOf(pod, container.name).None? ==>
      r == Err("cannot find ContainerUID PodName: " + pod.name + " containerName: " + container.name)
  {
    var s := SearchStatus(pod.containerStatuses, container.name);
    if s.Some? {
      return Ok(TrimPrefix(s.value.containerID, CrioPrefix));
    }
    s := SearchStatus(pod.initContainerStatuses, container.name);
    if s.Some? {
      return Ok(TrimPrefix(s.value.containerID, CrioPrefix));
    }
    return Err("cannot find ContainerUID PodName: " + pod.name + " containerName: " + container.name);
  }

  // ---------------------------------------------------------------------
  // The swap limit of a container
  // ---------------------------------------------------------------------

  /** Go's `int64(x)` of a finite float in range: truncation toward zero. */
  function TruncateToInt(x: real): (r: int)
    ensures x >= 0.0 ==> r as real <= x < r as real + 1.0
    ensures x < 0.0 ==> r as real - 1.0 < x <= r as real
  {
    if x >= 0.0 then x.Floor else -((-x).Floor)
  }

  /**
   * `calcSwapForBurstablePods`: the container's share of the swap, in
   * proportion to its memory request against the node's memory, truncated
   * toward zero.
   */
  function CalcSwapForBurstablePods(containerMemoryRequest: int, nodeTotalMemory: int, totalPodsSwapAvailable: int): int
    requires nodeTotalMemory > 0
  {
    var containerMemoryProportion := containerMemoryRequest as real / nodeTotalMemory as real;
    var swapAllocation := containerMemoryProportion * totalPodsSwapAvailable as real;
    TruncateToInt(swapAllocation)
  }

  /** The floor of an exact quotient of naturals is integer division. */
  lemma FloorOfQuotient(a: nat, b: int)
    requires b > 0
    ensures (a as real / b as real).Floor == a / b
  {
    var q, r := a / b, a % b;
    assert a == q * b + r;
    assert a as real == q as real * b as real + r as real;
    assert a as real / b as real == q as real + r as real / b as real;
    assert 0.0 <= r as real / b as real < 1.0;
  }

  /** For requests and swap that are not negative, the share is `request * swap / memory`, rounded down. */
  lemma CalcSwapIsFloorOfShare(request: nat, memory: int, swap: nat)
    requires memory > 0
    ensures CalcSwapForBurstablePods(request, memory, swap) == (request * swap) / memory
  {
    assert (request as real / memory as real) * swap as real == (request * swap) as real / memory as real;
    FloorOfQuotient(request * swap, memory);
  }

  /** The share of the node's memory a request makes, as the source computes it before scaling. */
  lemma ProportionBounds(request: nat, memory: int)
    requires 0 < memory && request <= memory
    ensures 0.0 <= request as real / memory as real <= 1.0
    ensures request == memory ==> request as real / memory as real == 1.0
  {
    assert request as real <= memory as real;
  }

  /** The floor of a real is monotonic. */
  lemma FloorMonotonic(x: real, y: real)
    requires x <= y
    ensures x.Floor <= y.Floor
  {
    assert x.Floor as real <= x <= y;
  }

  /**
   * A container requesting no more than the node's memory gets between no
   * swap and all of it; no request gives no swap and a request of the whole
   * memory gives the whole swap.
   */
  lemma CalcSwapBounds(request: nat, memory: int, swap: nat)
    requires 0 < memory && request <= memory
    ensures 0 <= CalcSwapForBurstablePods(request, memory, swap) <= swap
    ensures request == 0 ==> CalcSwapForBurstablePods(request, memory, swap) == 0
    ensures request == memory ==> CalcSwapForBurstablePods(request, memory, swap) == swap
  {
    var p := request as real / memory as real;
    ProportionBounds(request, memory);
    var x := p * swap as real;
    assert 0.0 <= x by {
      assert 0.0 <= p && 0.0 <= swap as real;
    }
    assert x <= swap as real by {
      assert (1.0 - p) * swap as real >= 0.0;
    }
    FloorMonotonic(x, swap as real);
    FloorMonotonic(0.0, x);
    assert CalcSwapForBurstablePods(request, memory, swap) == x.Floor;
  }

  /** A larger request never gets less swap. */
  lemma CalcSwapMonotonic(r1: nat, r2: nat, memory: int, swap: nat)
    requires 0 < memory && r1 <= r2
    ensures CalcSwapForBurstablePods(r1, memory, swap) <= CalcSwapForBurstablePods(r2, memory, swap)
  {
    var p1, p2 := r1 as real / memory as real, r2 as real / memory as real;
    assert p1 <= p2 by {
      assert (r2 as real - r1 as real) / memory as real >= 0.0;
      assert p2 - p1 == (r2 as real - r1 as real) / memory as real;
    }
    assert p1 * swap as real <= p2 * swap as real by {
      assert (p2 - p1) * swap as real >= 0.0;
    }
    assert 0.0 <= p1 by {
      assert 0.0 <= r1 as real;
    }
    assert 0.0 <= p1 * swap as real;
    FloorMonotonic(p1 * swap as real, p2 * swap as real);
  }

  /** A quarter of the memory gets a quarter of the swap: 25 GiB of 100 GiB with 10 GiB of swap gets 2.5 GiB. */
  lemma QuarterOfMemoryQuarterOfSwap()
    ensures CalcSwapForBurstablePods(25 * 0x4000_0000, 100 * 0x4000_0000, 10 * 0x4000_0000) == 2684354560
  {
    CalcSwapIsFloorOfShare(25 * 0x4000_0000, 100 * 0x4000_0000, 10 * 0x4000_0000);
  }

  /** Every container of the pod is held to zero swap: not Burstable, critical, or in an excluded namespace. */
  predicate SetAllContainersSwapToZero(pod: Pod) {
    pod.qos != Burstable || pod.critical || HasPrefixIn(pod.namespace, ExcludedPrefixesForNamespaces)
  }

  /** The container gets zero swap: no memory request and limit, a request equal to the limit, or a zero-swap pod. */
  predicate ZeroSwap(container: Container, setAllToZero: bool) {
    var request, limit := MemoryOf(container.requests), MemoryOf(container.limits);
    (request == 0 && limit == 0) || request == limit || setAllToZero
  }

  /** The container's status says it runs: present, not waiting, running. */
  predicate Started(s: Option<ContainerStatus>) {
    s.Some? && !s.value.state.waiting && s.value.state.running
  }

  /** The containers whose swap limit is written: started and not terminated. */
  predicate Writable(pod: Pod, container: Container) {
    var s := StatusOf(pod, container.name);
    Started(s) && !s.value.state.terminated
  }

  /** The environment of `execute`: node sizes, the runtime's cgroup lookup and the outcome of each write. */
  datatype Env = Env(
    memoryCapacity: int,                        // int64 of the node's memory
    swapCapacity: int,                          // int64 of the node's swap
    cgroupPathOf: string -> Result<string, string>,
    writeSucceeds: (string, int) -> bool)

  /** The queue calls and the cgroup writes one stretch of `execute` makes. */
  datatype Effects = Effects(calls: seq<QueueCall>, writes: seq<SwapWrite>)

  /**
   * The loop body of `execute` for one container. A container that has no
   * status, waits or does not run is retried later; a terminated one is
   * skipped; any other gets one write. When the runtime cannot tell its
   * cgroup, the key is retried and the write still goes to the empty path.
   */
  function ContainerEffects(key: string, pod: Pod, container: Container, setAllToZero: bool, env: Env): (e: Effects)
    requires env.memoryCapacity > 0
    ensures |e.writes| == (if Writable(pod, container) then 1 else 0)
    ensures forall c | c in e.calls :: c == AddRateLimitedCall(key)
  {
    var s := StatusOf(pod, container.name);
    if !Started(s) then Effects([AddRateLimitedCall(key)], [])
    else if s.value.state.terminated then Effects([], [])
    else
      var found := env.cgroupPathOf(TrimPrefix(s.value.containerID, CrioPrefix));
      var dirPath := if found.Ok? then found.value else "";
      var swapLimit :=
        if ZeroSwap(container, setAllToZero) then 0
        else CalcSwapForBurstablePods(MemoryOf(container.requests), env.memoryCapacity, env.swapCapacity);
      var pathCalls := if found.Err? then [AddRateLimitedCall(key)] else [];
      var writeCalls := if env.writeSucceeds(dirPath, swapLimit) then [] else [AddRateLimitedCall(key)];
      Effects(pathCalls + writeCalls, [SwapWrite(dirPath, swapLimit)])
  }

  /** The loop of `execute` over `containers`, one container after the other. */
  function ContainersEffects(key: string, pod: Pod, containers: seq<Container>, setAllToZero: bool, env: Env): (e: Effects)
    requires env.memoryCapacity > 0
  {
    if |containers| == 0 then Effects([], [])
    else
      var prev := ContainersEffects(key, pod, containers[..|containers| - 1], setAllToZero, env);
      var last := ContainerEffects(key, pod, containers[|containers| - 1], setAllToZero, env);
      Effects(prev.calls + last.calls, prev.writes + last.writes)
  }

  /** One more container of the loop adds that container's effects after those already made. */
  lemma ContainersEffectsStep(key: string, pod: Pod, containers: seq<Container>, i: nat, setAllToZero: bool, env: Env,
                              calls0: seq<QueueCall>, writes0: seq<SwapWrite>)
    requires env.memoryCapacity > 0 && i < |containers|
    ensures var prev := ContainersEffects(key, pod, containers[..i], setAllToZero, env);
      var last := ContainerEffects(key, pod, containers[i], setAllToZero, env);
      var next := ContainersEffects(key, pod, containers[..i + 1], setAllToZero, env);
      calls0 + prev.calls + last.calls == calls0 + next.calls &&
      writes0 + prev.writes + last.writes == writes0 + next.writes
  {
    assert containers[..i + 1][..i] == containers[..i];
  }

  /** The containers `execute` visits: the containers, then the init containers. */
  function AllContainers(pod: Pod): seq<Container> {
    pod.containers + pod.initContainers
  }

  /**
   * The loop writes once per writable container, in order; the only queue
   * call it makes is to retry the key; in a zero-swap pod every write is
   * zero; and with requests within the node's memory no write exceeds the
   * node's swap.
   */
  lemma {:induction false} ContainersEffectsProperties(key: string, pod: Pod, containers: seq<Container>,
                                                      setAllToZero: bool, env: Env)
    requires env.memoryCapacity > 0
    ensures var e := ContainersEffects(key, pod, containers, setAllToZero, env);
      |e.writes| == |Filter((c: Container) => Writable(pod, c), containers)| &&
      (forall c | c in e.calls :: c == AddRateLimitedCall(key)) &&
      (setAllToZero ==> forall w | w in e.writes :: w.swapLimit == 0) &&
      (env.swapCapacity >= 0 && (forall c | c in containers :: 0 <= MemoryOf(c.requests) <= env.memoryCapacity) ==>
         forall w | w in e.writes :: 0 <= w.swapLimit <= env.swapCapacity)
    decreases |containers|
  {
    if |containers| > 0 {
      var init := containers[..|containers| - 1];
      var c := containers[|containers| - 1];
      assert containers == init + [c];
      ContainersEffectsProperties(key, pod, init, setAllToZero, env);
      FilterSnoc((c: Container) => Writable(pod, c), init, c);
      if Writable(pod, c) && !ZeroSwap(c, setAllToZero) && env.swapCapacity >= 0 && 0 <= MemoryOf(c.requests) <= env.memoryCapacity {
        CalcSwapBounds(MemoryOf(c.requests), env.memoryCapacity, env.swapCapacity);
      }
    }
  }

  /** The effects of `execute` for a key the lister answered with `lookup`. */
  function ExecuteEffects(key: string, lookup: PodLookup, env: Env): Effects
    requires env.memoryCapacity > 0
  {
    if lookup.Found? then
      ContainersEffects(key, lookup.pod, AllContainers(lookup.pod), SetAllContainersSwapToZero(lookup.pod), env)
    else Effects([], [])
  }

  /** The error and the enqueue state `execute` returns: only a failed lookup asks for a retry. */
  function ExecuteResult(lookup: PodLookup): (r: (Option<string>, EnqueueState))
    ensures r.1 != Immediate
    ensures r.0.Some? <==> r.1 == BackOff
  {
    match lookup
    case Found(_) => (None, Forget)
    case NotFound => (None, Forget)
    case LookupFailed(error) => (Some(error), BackOff)
  }

  /** The queue call the worker makes for an enqueue state. */
  function Requeue(key: string, state: EnqueueState): QueueCall {
    match state
    case BackOff => AddRateLimitedCall(key)
    case Forget => ForgetCall(key)
    case Immediate => AddCall(key)
  }

  /**
   * A processed key is never put back at once: the worker either forgets it
   * or retries it rate-limited, after any retries its containers asked for,
   * and marks it done last.
   */
  lemma ProcessedKeyEnds(key: string, lookup: PodLookup, env: Env)
    requires env.memoryCapacity > 0
    ensures var calls := ExecuteEffects(key, lookup, env).calls + [Requeue(key, ExecuteResult(lookup).1), DoneCall(key)];
      AddCall(key) !in calls && calls[|calls| - 1] == DoneCall(key) &&
      (lookup.LookupFailed? ==> calls == [AddRateLimitedCall(key), DoneCall(key)]) &&
      (lookup.NotFound? ==> calls == [ForgetCall(key), DoneCall(key)])
  {
    if lookup.Found? {
      var pod := lookup.pod;
      ContainersEffectsProperties(key, pod, AllContainers(pod), SetAllContainersSwapToZero(pod), env);
    }
  }

  class LimitedSwapManager {
    const nodeName: string
    /** The node's swap and memory totals, as unsigned 64-bit values. */
    const swapCapacity: nat
    const memoryCapacity: nat
    const podQueue: WorkQueue
    /** The swap limits written so far. */
    var writes: seq<SwapWrite>

    /** The environment of a worker pass with the node totals converted to `int64`. */
    function EnvOf(cgroupPathOf: string -> Result<string, string>, writeSucceeds: (string, int) -> bool): Env {
      Env(Int64(memoryCapacity), Int64(swapCapacity), cgroupPathOf, writeSucceeds)
    }

    /** `NewLimitedSwapManager`, given the node's swap and memory totals. */
    constructor (nodeName: string, swapTotal: nat, memoryTotal: nat)
      requires swapTotal < TwoTo64 && memoryTotal < TwoTo64
      ensures this.nodeName == nodeName && swapCapacity == swapTotal && memoryCapacity == memoryTotal
      ensures fresh(podQueue) && podQueue.calls == [] && writes == []
    {
      this.nodeName := nodeName;
      swapCapacity := swapTotal;
      memoryCapacity := memoryTotal;
      podQueue := new WorkQueue();
      writes := [];
    }

    /** `updatePod`: a pod is queued when it has just been scheduled onto this node. */
    method UpdatePod(oldPod: Pod, curPod: Pod)
      modifies podQueue`calls
      ensures podQueue.calls == old(podQueue.calls) +
        (if oldPod.nodeName != nodeName && curPod.nodeName == nodeName then [AddCall(MetaNamespaceKey(curPod))] else [])
    {
      if oldPod.nodeName != nodeName && curPod.nodeName == nodeName {
        podQueue.Add(MetaNamespaceKey(curPod));
      }
    }

    /** `createPod` (registered as the delete handler): a pod on this node is queued. */
    method CreatePod(pod: Pod)
      modifies podQueue`calls
      ensures podQueue.calls == old(podQueue.calls) + (if pod.nodeName == nodeName then [AddCall(MetaNamespaceKey(pod))] else [])
    {
      if pod.nodeName == nodeName {
        podQueue.Add(MetaNamespaceKey(pod));
      }
    }

    /** `enqueueAllPods`: every pod on this node is queued, in list order; a failed list queues nothing. */
    method EnqueueAllPods(list: Result<seq<Pod>, string>)
      modifies podQueue`calls
      ensures list.Err? ==> podQueue.calls == old(podQueue.calls)
      ensures list.Ok? ==> podQueue.calls == old(podQueue.calls) + KeysOnNode(list.value, nodeName)
    {
      if list.Err? {
        return;
      }
      var pods := list.value;
      var i := 0;
      while i < |pods|
        invariant 0 <= i <= |pods|
        invariant podQueue.calls == old(podQueue.calls) + KeysOnNode(pods[..i], nodeName)
      {
        var p := pods[i];
        assert pods[..i + 1][..i] == pods[..i];
        if p.nodeName == nodeName {
          podQueue.Add(MetaNamespaceKey(p));
        }
        i := i + 1;
      }
      assert pods[..i] == pods;
    }

    /**
     * `Execute`: one worker step on the key `Get` returned, or the end of
     * the worker when the queue shut down.
     */
    method Execute(next: Option<string>, podByKey: string -> PodLookup,
                   cgroupPathOf: string -> Result<string, string>, writeSucceeds: (string, int) -> bool)
      returns (more: bool)
      requires Int64(memoryCapacity) > 0
      modifies podQueue`calls, this`writes
      ensures next.None? ==> !more && podQueue.calls == old(podQueue.calls) && writes == old(writes)
      ensures next.Some? ==> more
      ensures next.Some? ==>
        var key := next.value;
        var e := ExecuteEffects(key, podByKey(key), EnvOf(cgroupPathOf, writeSucceeds));
        podQueue.calls == old(podQueue.calls) + e.calls + [Requeue(key, ExecuteResult(podByKey(key)).1), DoneCall(key)] &&
        writes == old(writes) + e.writes
    {
      if next.None? {
        return false;
      }
      var key := next.value;
      var err, enqueueState := ExecuteKey(key, podByKey(key), cgroupPathOf, writeSucceeds);
      RequeueByState(key, enqueueState);
      podQueue.Done(key);
      return true;
    }

    /** The switch of `Execute` on the enqueue state `execute` returned. */
    method RequeueByState(key: string, enqueueState: EnqueueState)
      modifies podQueue`calls
      ensures podQueue.calls == old(podQueue.calls) + [Requeue(key, enqueueState)]
    {
      match enqueueState {
        case BackOff => podQueue.AddRateLimited(key);
        case Forget => podQueue.Forget(key);
        case Immediate => podQueue.Add(key);
      }
    }

    /**
     * `execute`: a pod that is gone is forgotten, a failed lookup is
     * retried with its error, and otherwise every container visited in
     * turn before the key is forgotten.
     */
    method ExecuteKey(key: string, lookup: PodLookup,
                      cgroupPathOf: string -> Result<string, string>, writeSucceeds: (string, int) -> bool)
      returns (err: Option<string>, state: EnqueueState)
      requires Int64(memoryCapacity) > 0
      modifies podQueue`calls, this`writes
      ensures (err, state) == ExecuteResult(lookup)
      ensures var e := ExecuteEffects(key, lookup, EnvOf(cgroupPathOf, writeSucceeds));
        podQueue.calls == old(podQueue.calls) + e.calls && writes == old(writes) + e.writes
    {
      if lookup.NotFound? {
        return None, Forget;
      } else if lookup.LookupFailed? {
        return Some(lookup.error), BackOff;
      }
      var pod := lookup.pod;
      var env := EnvOf(cgroupPathOf, writeSucceeds);
      var excluded := HasExcludedPrefix(pod.namespace, ExcludedPrefixesForNamespaces);
      var setAllContainersSwapToZero := pod.qos != Burstable || pod.critical || excluded;
      VisitContainers(key, pod, AllContainers(pod), setAllContainersSwapToZero, env);
      return None, Forget;
    }

    /** The loop of `execute` over the pod's containers. */
    method VisitContainers(key: string, pod: Pod, containers: seq<Container>, setAllContainersSwapToZero: bool, env: Env)
      requires env.memoryCapacity > 0
      requires env.memoryCapacity == Int64(memoryCapacity) && env.swapCapacity == Int64(swapCapacity)
      modifies podQueue`calls, this`writes
      ensures var e := ContainersEffects(key, pod, containers, setAllContainersSwapToZero, env);
        podQueue.calls == old(podQueue.calls) + e.calls && writes == old(writes) + e.writes
    {
      ghost var calls0, writes0 := podQueue.calls, writes;
      var i := 0;
      while i < |containers|
        invariant 0 <= i <= |containers|
        invariant podQueue.calls == calls0 + ContainersEffects(key, pod, containers[..i], setAllContainersSwapToZero, env).calls
        invariant writes == writes0 + ContainersEffects(key, pod, containers[..i], setAllContainersSwapToZero, env).writes
      {
        var container := containers[i];
        ContainersEffectsStep(key, pod, containers, i, setAllContainersSwapToZero, env, calls0, writes0);
        VisitContainer(key, pod, container, setAllContainersSwapToZero, env);
        i := i + 1;
      }
      assert containers[..i] == containers;
    }

    /** The loop body of `execute` for one container. */
    method VisitContainer(key: string, pod: Pod, container: Container, setAllContainersSwapToZero: bool, env: Env)
      requires env.memoryCapacity > 0
      requires env.memoryCapacity == Int64(memoryCapacity) && env.swapCapacity == Int64(swapCapacity)
      modifies podQueue`calls, this`writes
      ensures var e := ContainerEffects(key, pod, container, setAllContainersSwapToZero, env);
        podQueue.calls == old(podQueue.calls) + e.calls && writes == old(writes) + e.writes
    {
      var containerState, exist := GetContainerState(pod, container);
      if !exist || containerState.waiting || !containerState.running {
        podQueue.AddRateLimited(key);
        return;
      } else if containerState.terminated {
        return;
      }
      // The status was found just above, so looking up the container ID cannot fail.
      var containerUID := GetContainerUID(pod, container);
      var found := env.cgroupPathOf(containerUID.value);
      var dirPath := "";
      if found.Err? {
        podQueue.AddRateLimited(key);
      } else {
        dirPath := found.value;
      }
      var request, limit := MemoryOf(container.requests), MemoryOf(container.limits);
      var containerDoesNotRequestMemory := request == 0 && limit == 0;
      var memoryRequestEqualsToLimit := request == limit;
      if containerDoesNotRequestMemory || memoryRequestEqualsToLimit || setAllContainersSwapToZero {
        SetSwapLimit(dirPath, 0, env.writeSucceeds);
        if !env.writeSucceeds(dirPath, 0) {
          podQueue.AddRateLimited(key);
        }
        return;
      }
      var swapLimit := CalcSwapForBurstablePods(request, Int64(memoryCapacity), Int64(swapCapacity));
      SetSwapLimit(dirPath, swapLimit, env.writeSucceeds);
      if !env.writeSucceeds(dirPath, swapLimit) {
        podQueue.AddRateLimited(key);
        return;
      }
    }

    /** `setSwapLimit`: writes the limit to `memory.swap.max` under `dirPath`; whether it succeeds is an input. */
    method SetSwapLimit(dirPath: string, swapLimit: int, writeSucceeds: (string, int) -> bool)
      modifies this`writes
      ensures writes == old(writes) + [SwapWrite(dirPath, swapLimit)]
    {
      writes := writes + [SwapWrite(dirPath, swapLimit)];
    }
  }
}
