/**
 * Per-pod memory and swap summaries assembled from cadvisor container
 * records. cadvisor reports one record per cgroup; records of terminated
 * containers whose cgroups linger are dropped, at most one record is kept
 * per container of a pod, and the kept records are folded into one
 * summary per pod UID that the collector keeps between calls. cadvisor's
 * map of records is given as a sequence of (cgroup, record) entries, in
 * the order the map is walked; the label getters are read as the fields of
 * `Labels`.
 */
module PodStatsCollector {
  import opened Wrappers
  import opened Strs
  import opened Seqs
  import opened Machine
  import opened CgroupManager

  datatype ContainerSummary = ContainerSummary(memorySwapMaxBytes: nat, memorySwapCurrentBytes: nat, memoryWorkingSetBytes: nat)

  datatype PodSummary = PodSummary(
    uid: string,
    cgroupKey: string,
    memoryWorkingSetBytes: nat,
    memorySwapCurrentBytes: nat,
    containers: map<string, ContainerSummary>)

  /** Go's zero value, what a lookup of an absent container name yields. */
  const EmptyContainerSummary: ContainerSummary := ContainerSummary(0, 0, 0)

  /** The kubelet's name of a pod's infrastructure container. */
  const PodInfraContainerName: string := "POD"

  /** Size above which a memory or swap limit counts as unlimited (2^62, below the maximum because the kernel rounds). */
  const MaxMemorySize: nat := 0x4000_0000_0000_0000

  // ---------------------------------------------------------------------
  // cadvisor records
  // ---------------------------------------------------------------------

  /** The pod and container a record belongs to, as its labels say. */
  datatype Labels = Labels(podName: string, podNamespace: string, podUID: string, containerName: string)

  datatype NetworkInterface = NetworkInterface(name: string, rxBytes: nat, rxErrors: nat, txBytes: nat, txErrors: nat)

  datatype MemorySample = MemorySample(usage: nat, workingSet: nat, rss: nat, swap: nat)

  /** One sample of a record; `None` for a record part cadvisor left nil. */
  datatype StatsSample = StatsSample(
    cpuInstUsage: Option<nat>,               // CpuInst.Usage.Total
    memory: Option<MemorySample>,
    network: Option<seq<NetworkInterface>>)

  datatype ContainerSpec = ContainerSpec(
    creationTime: int,                       // nanoseconds
    hasCpu: bool,
    hasMemory: bool,
    hasNetwork: bool,
    memoryLimit: nat,
    swapLimit: nat,
    labels: Labels)

  /** A cadvisor record: its spec and its samples, oldest first; a sample may be nil. */
  datatype ContainerInfo = ContainerInfo(spec: ContainerSpec, stats: seq<Option<StatsSample>>)

  /** An entry of cadvisor's map: a cgroup name and its record. */
  datatype CgroupInfo = CgroupInfo(cgroup: string, info: ContainerInfo)

  /** `latestContainerStats`: the last sample, when there is one and it is not nil. */
  function LatestContainerStats(info: ContainerInfo): (r: Option<StatsSample>)
    ensures r.Some? <==> |info.stats| > 0 && info.stats[|info.stats| - 1].Some?
    ensures r.Some? ==> Some(r.value) == info.stats[|info.stats| - 1]
  {
    if |info.stats| < 1 then None
    else info.stats[|info.stats| - 1]
  }

  /** `isMemoryUnlimited`. */
  predicate IsMemoryUnlimited(v: nat) {
    v > MaxMemorySize
  }

  /** The memory part of the stats the record converts to: working set, and the bytes left below the limit. */
  datatype MemoryStats = MemoryStats(workingSetBytes: nat, availableBytes: Option<nat>)

  /** The swap part: swap in use, and the swap left below the swap limit. */
  datatype SwapStats = SwapStats(swapUsageBytes: nat, swapAvailableBytes: Option<nat>)

  /** The memory half of `cadvisorInfoToCPUandMemoryStats`; `None` is the nil it returns without a sample. */
  function MemoryStatsOf(info: ContainerInfo): Option<MemoryStats> {
    var cstat := LatestContainerStats(info);
    if cstat.None? then None
    else if info.spec.hasMemory && cstat.value.memory.Some? then
      var m := cstat.value.memory.value;
      Some(MemoryStats(m.workingSet,
        if !IsMemoryUnlimited(info.spec.memoryLimit) then Some(Uint64(info.spec.memoryLimit - m.workingSet)) else None))
    else Some(MemoryStats(0, None))
  }

  /** `cadvisorInfoToSwapStats`; `None` is its nil. */
  function SwapStatsOf(info: ContainerInfo): Option<SwapStats> {
    var cstat := LatestContainerStats(info);
    if cstat.None? then None
    else if info.spec.hasMemory && cstat.value.memory.Some? then
      var m := cstat.value.memory.value;
      Some(SwapStats(m.swap,
        if !IsMemoryUnlimited(info.spec.swapLimit) then Some(Uint64(info.spec.swapLimit - m.swap)) else None))
    else None
  }

  /**
   * Available bytes are reported exactly when the record has memory
   * figures and a limit that is not unlimited; they are the limit less the
   * working set, wrapping around as an unsigned subtraction does.
   */
  lemma MemoryAvailableBytes(info: ContainerInfo)
    ensures MemoryStatsOf(info).None? <==> LatestContainerStats(info).None?
    ensures var r := MemoryStatsOf(info); var cstat := LatestContainerStats(info);
      r.Some? ==>
        (r.value.availableBytes.Some? <==>
           info.spec.hasMemory && cstat.value.memory.Some? && info.spec.memoryLimit <= MaxMemorySize) &&
        (r.value.availableBytes.Some? ==>
           var ws := cstat.value.memory.value.workingSet;
           r.value.availableBytes.value < TwoTo64 &&
           (ws <= info.spec.memoryLimit ==> r.value.availableBytes.value + ws == info.spec.memoryLimit))
  {
  }

  /**
   * Swap available bytes are reported exactly when the record has memory
   * figures and a swap limit that is not unlimited; they are the swap limit
   * less the swap in use.
   */
  lemma SwapAvailableBytes(info: ContainerInfo)
    ensures var r := SwapStatsOf(info); var cstat := LatestContainerStats(info);
      (r.Some? <==> cstat.Some? && info.spec.hasMemory && cstat.value.memory.Some?) &&
      (r.Some? ==>
         r.value.swapUsageBytes == cstat.value.memory.value.swap &&
         (r.value.swapAvailableBytes.Some? <==> info.spec.swapLimit <= MaxMemorySize) &&
         (r.value.swapAvailableBytes.Some? && cstat.value.memory.value.swap <= info.spec.swapLimit ==>
            r.value.swapAvailableBytes.value + cstat.value.memory.value.swap == info.spec.swapLimit))
  {
  }

  /** `hasMemoryAndCPUInstUsage`; a nil memory sample reads as zero RSS. */
  predicate HasMemoryAndCpuInstUsage(info: ContainerInfo) {
    var cstat := LatestContainerStats(info);
    info.spec.hasCpu && info.spec.hasMemory && cstat.Some? && cstat.value.cpuInstUsage.Some? &&
    cstat.value.cpuInstUsage.value != 0 && cstat.value.memory.Some? && cstat.value.memory.value.rss != 0
  }

  predicate InterfaceActive(iface: NetworkInterface) {
    iface.rxErrors != 0 || iface.txErrors != 0 || iface.rxBytes != 0 || iface.txBytes != 0
  }

  /** The latest sample shows traffic on some interface (the interfaces reported only for a record with network). */
  predicate NetworkActive(info: ContainerInfo, cstat: StatsSample) {
    info.spec.hasNetwork && cstat.network.Some? &&
    exists i | 0 <= i < |cstat.network.value| :: InterfaceActive(cstat.network.value[i])
  }

  /** The decision of `isContainerTerminated`, in the order the source takes its tests. */
  predicate ContainerTerminated(info: ContainerInfo) {
    var cstat := LatestContainerStats(info);
    if !info.spec.hasCpu && !info.spec.hasMemory && !info.spec.hasNetwork then true
    else if cstat.None? then true
    else if NetworkActive(info, cstat.value) then false
    else if cstat.value.cpuInstUsage.None? || cstat.value.memory.None? then true
    else cstat.value.cpuInstUsage.value == 0 && cstat.value.memory.value.rss == 0
  }

  /** `isContainerTerminated`, with its loop over the interfaces. */
  method IsContainerTerminated(info: ContainerInfo) returns (r: bool)
    ensures r == ContainerTerminated(info)
  {
    if !info.spec.hasCpu && !info.spec.hasMemory && !info.spec.hasNetwork {
      return true;
    }
    var cstat := LatestContainerStats(info);
    if cstat.None? {
      return true;
    }
    if cstat.value.network.Some? && info.spec.hasNetwork {
      var interfaces := cstat.value.network.value;
      var i := 0;
      while i < |interfaces|
        invariant 0 <= i <= |interfaces|
        invariant forall k :: 0 <= k < i ==> !InterfaceActive(interfaces[k])
      {
        var iStat := interfaces[i];
        if iStat.rxErrors != 0 || iStat.txErrors != 0 || iStat.rxBytes != 0 || iStat.txBytes != 0 {
          return false;
        }
        i := i + 1;
      }
    }
    if cstat.value.cpuInstUsage.None? || cstat.value.memory.None? {
      return true;
    }
    return cstat.value.cpuInstUsage.value == 0 && cstat.value.memory.value.rss == 0;
  }

  /** A record with CPU and memory usage is never taken for a terminated container. */
  lemma UsageMeansNotTerminated(info: ContainerInfo)
    requires HasMemoryAndCpuInstUsage(info)
    ensures !ContainerTerminated(info)
  {
  }

  /** `ByCreationTime.Less`: older first; on equal creation times, before any record with usage. */
  predicate ByCreationTimeLess(a: CgroupInfo, b: CgroupInfo) {
    if a.info.spec.creationTime == b.info.spec.creationTime then HasMemoryAndCpuInstUsage(b.info)
    else a.info.spec.creationTime < b.info.spec.creationTime
  }

  /**
   * On distinct creation times the order is by creation time; the
   * tie-break makes a record with usage less than itself, so the order is
   * not irreflexive.
   */
  lemma ByCreationTimeLessOrder(a: CgroupInfo, b: CgroupInfo)
    ensures a.info.spec.creationTime != b.info.spec.creationTime ==>
      (ByCreationTimeLess(a, b) <==> a.info.spec.creationTime < b.info.spec.creationTime) &&
      (ByCreationTimeLess(a, b) <==> !ByCreationTimeLess(b, a))
    ensures ByCreationTimeLess(a, a) <==> HasMemoryAndCpuInstUsage(a.info)
  {
  }

  // ---------------------------------------------------------------------
  // Keeping one record per container
  // ---------------------------------------------------------------------

  /** `PodReference`: the pod a record belongs to. */
  datatype PodRef = PodRef(name: string, namespace: string, uid: string)

  /** `containerID`: a container of a pod. */
  datatype ContainerKey = ContainerKey(podRef: PodRef, containerName: string)

  /** `isPodManagedContainer`: the record has both a pod name and a pod namespace label. */
  predicate IsPodManagedContainer(info: ContainerInfo) {
    info.spec.labels.podName != "" && info.spec.labels.podNamespace != ""
  }

  /** `buildPodRef`. */
  function RefOf(info: ContainerInfo): PodRef {
    PodRef(info.spec.labels.podName, info.spec.labels.podNamespace, info.spec.labels.podUID)
  }

  function IdOf(info: ContainerInfo): ContainerKey {
    ContainerKey(RefOf(info), info.spec.labels.containerName)
  }

  /** The last component of a cgroup name: of the systemd name for a `.slice`, of the path otherwise. */
  function PodCgroupKey(cgroup: string): string {
    if IsSystemdStyleName(cgroup) then Last(CgroupNameOf(cgroup)) else Base(cgroup)
  }

  /** The entries' records by the last component of their cgroup names; a later entry overwrites an earlier one. */
  function ByPodCgroupKey(entries: seq<CgroupInfo>): map<string, ContainerInfo> {
    if |entries| == 0 then map[]
    else
      var e := entries[|entries| - 1];
      ByPodCgroupKey(entries[..|entries| - 1])[PodCgroupKey(e.cgroup) := e.info]
  }

  /** Every entry is filed under its pod cgroup key, and every filed record comes from such an entry. */
  lemma {:induction false} ByPodCgroupKeyProperties(entries: seq<CgroupInfo>)
    ensures forall e | e in entries :: PodCgroupKey(e.cgroup) in ByPodCgroupKey(entries)
    ensures forall k | k in ByPodCgroupKey(entries) ::
      exists e :: e in entries && PodCgroupKey(e.cgroup) == k && e.info == ByPodCgroupKey(entries)[k]
    decreases |entries|
  {
    if |entries| > 0 {
      var init := entries[..|entries| - 1];
      var e := entries[|entries| - 1];
      assert entries == init + [e];
      ByPodCgroupKeyProperties(init);
      var m := ByPodCgroupKey(entries);
      forall k | k in m
        ensures exists e' :: e' in entries && PodCgroupKey(e'.cgroup) == k && e'.info == m[k]
      {
        if k != PodCgroupKey(e.cgroup) {
          var e' :| e' in init && PodCgroupKey(e'.cgroup) == k && e'.info == ByPodCgroupKey(init)[k];
          assert e' in entries;
        }
      }
    }
  }

  /** The test that puts an entry into the group of container `id`. */
  predicate InGroup(id: ContainerKey, e: CgroupInfo) {
    IsPodManagedContainer(e.info) && IdOf(e.info) == id
  }

  /** The entries of container `id`, in input order. */
  function GroupOf(entries: seq<CgroupInfo>, id: ContainerKey): seq<CgroupInfo> {
    Filter(e => InGroup(id, e), entries)
  }

  /** The containers of the pod-managed entries, each once, in order of first appearance. */
  function Ids(entries: seq<CgroupInfo>): seq<ContainerKey> {
    if |entries| == 0 then []
    else
      var prev := Ids(entries[..|entries| - 1]);
      var e := entries[|entries| - 1];
      prev + (if IsPodManagedContainer(e.info) && IdOf(e.info) !in prev then [IdOf(e.info)] else [])
  }

  /** A container is listed exactly when some pod-managed entry belongs to it. */
  lemma {:induction false} IdsMembers(entries: seq<CgroupInfo>)
    ensures forall id :: id in Ids(entries) <==> exists e :: e in entries && InGroup(id, e)
    decreases |entries|
  {
    if |entries| > 0 {
      var init := entries[..|entries| - 1];
      var e := entries[|entries| - 1];
      assert entries == init + [e];
      IdsMembers(init);
      forall id | id in Ids(entries)
        ensures exists e' :: e' in entries && InGroup(id, e')
      {
        if id in Ids(init) {
          var e' :| e' in init && InGroup(id, e');
          assert e' in entries;
        } else {
          assert InGroup(id, e);
        }
      }
      forall id | exists e' :: e' in entries && InGroup(id, e')
        ensures id in Ids(entries)
      {
        var e' :| e' in entries && InGroup(id, e');
        if e' != e {
          assert e' in init;
        }
      }
    }
  }

  /**
   * The latest-created record with usage; among records created at the
   * same time, the later entry.
   */
  function LatestWithUsage(group: seq<CgroupInfo>): (r: Option<CgroupInfo>)
    ensures r.Some? ==> r.value in group && HasMemoryAndCpuInstUsage(r.value.info)
    ensures r.Some? ==> forall e | e in group && HasMemoryAndCpuInstUsage(e.info) ::
      e.info.spec.creationTime <= r.value.info.spec.creationTime
    ensures r.None? <==> forall e | e in group :: !HasMemoryAndCpuInstUsage(e.info)
  {
    if |group| == 0 then None
    else
      var init := group[..|group| - 1];
      var e := group[|group| - 1];
      assert group == init + [e];
      var prev := LatestWithUsage(init);
      if !HasMemoryAndCpuInstUsage(e.info) then prev
      else if prev.None? || prev.value.info.spec.creationTime <= e.info.spec.creationTime then Some(e)
      else prev
  }

  /**
   * The record kept for a container: a lone record unless it is of a
   * terminated container; of several, the latest-created one with usage.
   */
  function Kept(group: seq<CgroupInfo>): (r: Option<CgroupInfo>)
    ensures r.Some? ==> r.value in group
  {
    if |group| == 1 then (if !ContainerTerminated(group[0].info) then Some(group[0]) else None)
    else LatestWithUsage(group)
  }

  /** The first map of the filter: the kept record of each container in `ids`, by cgroup name. */
  function KeptMap(entries: seq<CgroupInfo>, ids: seq<ContainerKey>): map<string, ContainerInfo> {
    if |ids| == 0 then map[]
    else
      var m := KeptMap(entries, ids[..|ids| - 1]);
      var k := Kept(GroupOf(entries, ids[|ids| - 1]));
      if k.Some? then m[k.value.cgroup := k.value.info] else m
  }

  /**
   * Every record the filter keeps is an input entry of a pod-managed
   * container, and the one kept for its container, so no container keeps
   * two cgroups.
   */
  lemma {:induction false} KeptMapProperties(entries: seq<CgroupInfo>, ids: seq<ContainerKey>)
    ensures forall k | k in KeptMap(entries, ids) ::
      var info := KeptMap(entries, ids)[k];
      CgroupInfo(k, info) in entries && IsPodManagedContainer(info) &&
      Kept(GroupOf(entries, IdOf(info))) == Some(CgroupInfo(k, info))
    decreases |ids|
  {
    if |ids| > 0 {
      var id := ids[|ids| - 1];
      KeptMapProperties(entries, ids[..|ids| - 1]);
      var k := Kept(GroupOf(entries, id));
      if k.Some? {
        FilterMembers(e => InGroup(id, e), entries);
        assert k.value in GroupOf(entries, id);
        assert InGroup(id, k.value);
      }
    }
  }

  /** No two entries share a cgroup name, as the keys of cadvisor's map of records do not. */
  predicate DistinctCgroups(entries: seq<CgroupInfo>) {
    forall i, j | 0 <= i < j < |entries| :: entries[i].cgroup != entries[j].cgroup
  }

  /** With distinct cgroup names, an entry is determined by its cgroup name. */
  lemma SameCgroupSameEntry(entries: seq<CgroupInfo>, a: CgroupInfo, b: CgroupInfo)
    requires DistinctCgroups(entries) && a in entries && b in entries && a.cgroup == b.cgroup
    ensures a == b
  {
    var i :| 0 <= i < |entries| && entries[i] == a;
    var j :| 0 <= j < |entries| && entries[j] == b;
    assert !(i < j) && !(j < i);
  }

  /** The kept record of a container is an entry of the container's group. */
  lemma KeptInGroup(entries: seq<CgroupInfo>, id: ContainerKey)
    requires Kept(GroupOf(entries, id)).Some?
    ensures var c := Kept(GroupOf(entries, id)).value; c in entries && InGroup(id, c)
  {
    FilterMembers(e => InGroup(id, e), entries);
  }

  /**
   * The converse of KeptMapProperties: when cgroup names are distinct,
   * the record kept for each listed container is in the map under its
   * cgroup name.
   */
  lemma {:induction false} KeptMapComplete(entries: seq<CgroupInfo>, ids: seq<ContainerKey>, id: ContainerKey)
    requires DistinctCgroups(entries) && id in ids && Kept(GroupOf(entries, id)).Some?
    ensures var c := Kept(GroupOf(entries, id)).value;
      c.cgroup in KeptMap(entries, ids) && KeptMap(entries, ids)[c.cgroup] == c.info
    decreases |ids|
  {
    var c := Kept(GroupOf(entries, id)).value;
    var last := ids[|ids| - 1];
    if last != id {
      var init := ids[..|ids| - 1];
      assert ids == init + [last];
      KeptMapComplete(entries, init, id);
      var k := Kept(GroupOf(entries, last));
      if k.Some? && k.value.cgroup == c.cgroup {
        KeptInGroup(entries, id);
        KeptInGroup(entries, last);
        SameCgroupSameEntry(entries, c, k.value);
        assert false;
      }
    }
  }

  /** KeptMapComplete for every container with a kept record. */
  lemma KeptMapHoldsEveryKept(entries: seq<CgroupInfo>)
    requires DistinctCgroups(entries)
    ensures forall id | Kept(GroupOf(entries, id)).Some? ::
      var c := Kept(GroupOf(entries, id)).value;
      c.cgroup in KeptMap(entries, Ids(entries)) && KeptMap(entries, Ids(entries))[c.cgroup] == c.info
  {
    forall id | Kept(GroupOf(entries, id)).Some?
      ensures var c := Kept(GroupOf(entries, id)).value;
        c.cgroup in KeptMap(entries, Ids(entries)) && KeptMap(entries, Ids(entries))[c.cgroup] == c.info
    {
      KeptInGroup(entries, id);
      IdsMembers(entries);
      KeptMapComplete(entries, Ids(entries), id);
    }
  }

  /** Two cgroups kept by the filter belong to different containers. */
  lemma OneCgroupPerContainer(entries: seq<CgroupInfo>, k1: string, k2: string)
    requires k1 in KeptMap(entries, Ids(entries)) && k2 in KeptMap(entries, Ids(entries)) && k1 != k2
    ensures IdOf(KeptMap(entries, Ids(entries))[k1]) != IdOf(KeptMap(entries, Ids(entries))[k2])
  {
    KeptMapProperties(entries, Ids(entries));
  }

  /** A finished group of the filter's first loop. */
  ghost predicate Grouped(entries: seq<CgroupInfo>, ids: seq<ContainerKey>, cinfoMap: map<ContainerKey, seq<CgroupInfo>>) {
    (forall id :: id in cinfoMap <==> id in ids) &&
    (forall id | id in cinfoMap :: cinfoMap[id] == GroupOf(entries, id))
  }

  /** The first loop's step on one more entry keeps the groups in line with the entries seen. */
  lemma GroupedStep(entries: seq<CgroupInfo>, e: CgroupInfo, cinfoMap: map<ContainerKey, seq<CgroupInfo>>)
    requires Grouped(entries, Ids(entries), cinfoMap)
    ensures var m := if IsPodManagedContainer(e.info) then
        cinfoMap[IdOf(e.info) := (if IdOf(e.info) in cinfoMap then cinfoMap[IdOf(e.info)] else []) + [e]]
      else cinfoMap;
      Grouped(entries + [e], Ids(entries + [e]), m)
  {
    assert (entries + [e])[..|entries + [e]| - 1] == entries;
    var m := if IsPodManagedContainer(e.info) then
        cinfoMap[IdOf(e.info) := (if IdOf(e.info) in cinfoMap then cinfoMap[IdOf(e.info)] else []) + [e]]
      else cinfoMap;
    forall id | id in m
      ensures m[id] == GroupOf(entries + [e], id)
    {
      FilterSnoc(e' => InGroup(id, e'), entries, e);
      if id !in cinfoMap {
        IdsMembers(entries);
        FilterNoneKept(e' => InGroup(id, e'), entries);
      }
    }
  }

  /** One turn of the filter's first loop, on the three values it builds. */
  lemma GroupLoopStep(entries: seq<CgroupInfo>, e: CgroupInfo, ids: seq<ContainerKey>, cinfoMap: map<ContainerKey, seq<CgroupInfo>>)
    requires ids == Ids(entries) && Grouped(entries, ids, cinfoMap)
    ensures IsPodManagedContainer(e.info) ==>
      var id := IdOf(e.info);
      var ids' := ids + (if id !in cinfoMap then [id] else []);
      Ids(entries + [e]) == ids' &&
      Grouped(entries + [e], ids', cinfoMap[id := (if id in cinfoMap then cinfoMap[id] else []) + [e]])
    ensures !IsPodManagedContainer(e.info) ==> Ids(entries + [e]) == ids && Grouped(entries + [e], ids, cinfoMap)
    ensures ByPodCgroupKey(entries + [e]) == ByPodCgroupKey(entries)[PodCgroupKey(e.cgroup) := e.info]
  {
    assert (entries + [e])[..|entries + [e]| - 1] == entries;
    GroupedStep(entries, e, cinfoMap);
  }

  /** The pick among several records of one container; the source sorts them by creation time and scans from the newest. */
  method SelectLatestWithUsage(refs: seq<CgroupInfo>) returns (r: Option<CgroupInfo>)
    ensures r == LatestWithUsage(refs)
  {
    r := None;
    var i := 0;
    while i < |refs|
      invariant 0 <= i <= |refs|
      invariant r == LatestWithUsage(refs[..i])
    {
      assert refs[..i + 1][..i] == refs[..i];
      var e := refs[i];
      if HasMemoryAndCpuInstUsage(e.info) && (r.None? || r.value.info.spec.creationTime <= e.info.spec.creationTime) {
        r := Some(e);
      }
      i := i + 1;
    }
    assert refs[..i] == refs;
  }

  lemma LastOfCgroupName(key: string)
    ensures |CgroupNameOf(key)| > 0
  {
  }

  /** The pod cgroup key of one cgroup name, as the filter's first loop computes it. */
  method PodCgroupKeyOf(key: string) returns (podCgroupKey: string)
    ensures podCgroupKey == PodCgroupKey(key)
  {
    if IsSystemdStyleName(key) {
      var internalCgroupName := ParseSystemdToCgroupName(key);
      LastOfCgroupName(key);
      podCgroupKey := internalCgroupName[|internalCgroupName| - 1];
    } else {
      podCgroupKey := Base(key);
    }
  }

  /**
   * `filterTerminatedContainerInfoAndAssembleByPodCgroupKey`: the kept
   * record of each container by cgroup name, and every record by its pod
   * cgroup key.
   */
  method FilterTerminatedContainerInfoAndAssembleByPodCgroupKey(containerInfo: seq<CgroupInfo>)
    returns (result: map<string, ContainerInfo>, cinfosByPodCgroupKey: map<string, ContainerInfo>)
    ensures result == KeptMap(containerInfo, Ids(containerInfo))
    ensures cinfosByPodCgroupKey == ByPodCgroupKey(containerInfo)
    ensures DistinctCgroups(containerInfo) ==> forall id | Kept(GroupOf(containerInfo, id)).Some? ::
      var c := Kept(GroupOf(containerInfo, id)).value; c.cgroup in result && result[c.cgroup] == c.info
  {
    var cinfoMap, ids;
    cinfoMap, ids, cinfosByPodCgroupKey := GroupByContainer(containerInfo);
    result := KeepOnePerContainer(containerInfo, ids, cinfoMap);
    if DistinctCgroups(containerInfo) {
      KeptMapHoldsEveryKept(containerInfo);
    }
  }

  /** The filter's first loop: the records of each container, the containers in order of first appearance, and the records by pod cgroup key. */
  method GroupByContainer(containerInfo: seq<CgroupInfo>)
    returns (cinfoMap: map<ContainerKey, seq<CgroupInfo>>, ids: seq<ContainerKey>, cinfosByPodCgroupKey: map<string, ContainerInfo>)
    ensures ids == Ids(containerInfo) && Grouped(containerInfo, ids, cinfoMap)
    ensures cinfosByPodCgroupKey == ByPodCgroupKey(containerInfo)
  {
    cinfoMap := map[];
    ids := [];
    cinfosByPodCgroupKey := map[];
    ghost var seen: seq<CgroupInfo> := [];
    var i := 0;
    while i < |containerInfo|
      invariant 0 <= i <= |containerInfo|
      invariant seen == containerInfo[..i]
      invariant ids == Ids(seen)
      invariant Grouped(seen, ids, cinfoMap)
      invariant cinfosByPodCgroupKey == ByPodCgroupKey(seen)
    {
      var e := containerInfo[i];
      GroupLoopStep(seen, e, ids, cinfoMap);
      var podCgroupKey := PodCgroupKeyOf(e.cgroup);
      cinfosByPodCgroupKey := cinfosByPodCgroupKey[podCgroupKey := e.info];
      cinfoMap, ids := FileEntry(e, cinfoMap, ids);
      SliceSnoc(containerInfo, i);
      seen := seen + [e];
      i := i + 1;
    }
    assert containerInfo[..i] == containerInfo;
  }

  lemma SliceSnoc<T>(s: seq<T>, i: nat)
    requires i < |s|
    ensures s[..i + 1] == s[..i] + [s[i]]
  {
  }

  /** The first loop's filing of one pod-managed record under its container. */
  method FileEntry(e: CgroupInfo, cinfoMap: map<ContainerKey, seq<CgroupInfo>>, ids: seq<ContainerKey>)
    returns (cinfoMap': map<ContainerKey, seq<CgroupInfo>>, ids': seq<ContainerKey>)
    ensures IsPodManagedContainer(e.info) ==>
      var id := IdOf(e.info);
      ids' == ids + (if id !in cinfoMap then [id] else []) &&
      cinfoMap' == cinfoMap[id := (if id in cinfoMap then cinfoMap[id] else []) + [e]]
    ensures !IsPodManagedContainer(e.info) ==> ids' == ids && cinfoMap' == cinfoMap
  {
    cinfoMap', ids' := cinfoMap, ids;
    if IsPodManagedContainer(e.info) {
      var cinfoID := IdOf(e.info);
      if cinfoID !in cinfoMap {
        ids' := ids + [cinfoID];
      }
      cinfoMap' := cinfoMap[cinfoID := (if cinfoID in cinfoMap then cinfoMap[cinfoID] else []) + [e]];
    }
  }

  /** The filter's second loop: the record kept for each container. */
  method KeepOnePerContainer(containerInfo: seq<CgroupInfo>, ids: seq<ContainerKey>, cinfoMap: map<ContainerKey, seq<CgroupInfo>>)
    returns (result: map<string, ContainerInfo>)
    requires Grouped(containerInfo, ids, cinfoMap)
    ensures result == KeptMap(containerInfo, ids)
  {
    result := map[];
    var j := 0;
    while j < |ids|
      invariant 0 <= j <= |ids|
      invariant result == KeptMap(containerInfo, ids[..j])
    {
      assert ids[..j + 1][..j] == ids[..j];
      var refs := cinfoMap[ids[j]];
      if |refs| == 1 {
        var terminated := IsContainerTerminated(refs[0].info);
        if !terminated {
          result := result[refs[0].cgroup := refs[0].info];
        }
      } else {
        var picked := SelectLatestWithUsage(refs);
        if picked.Some? {
          result := result[picked.value.cgroup := picked.value.info];
        }
      }
      j := j + 1;
    }
    assert ids[..j] == ids;
  }

  /** `getCadvisorPodInfoFromPodUID`: the record filed under `pod<UID>`. */
  function GetCadvisorPodInfoFromPodUID(podUID: string, infos: map<string, ContainerInfo>): (r: Option<ContainerInfo>)
    ensures r.Some? <==> GetPodCgroupNameSuffix(podUID) in infos
    ensures r.Some? ==> r.value == infos[GetPodCgroupNameSuffix(podUID)]
  {
    var key := GetPodCgroupNameSuffix(podUID);
    if key in infos then Some(infos[key]) else None
  }

  // ---------------------------------------------------------------------
  // Summaries
  // ---------------------------------------------------------------------

  /** A working set figure of a record; a nil figure reads as zero. */
  function WorkingSetOf(info: ContainerInfo): nat {
    var m := MemoryStatsOf(info);
    if m.Some? then m.value.workingSetBytes else 0
  }

  /** The swap in use of a record; a nil figure reads as zero. */
  function SwapUsageOf(info: ContainerInfo): nat {
    var s := SwapStatsOf(info);
    if s.Some? then s.value.swapUsageBytes else 0
  }

  /** The summary of one container record. */
  function ContainerSummaryOf(info: ContainerInfo): ContainerSummary {
    ContainerSummary(info.spec.swapLimit, SwapUsageOf(info), WorkingSetOf(info))
  }

  /** A summary is filed under its own UID and never lists the infrastructure container. */
  predicate SummariesValid(summaries: map<string, PodSummary>) {
    forall uid | uid in summaries :: summaries[uid].uid == uid && PodInfraContainerName !in summaries[uid].containers
  }

  /** Whether the summary loop takes the kept record at cgroup `key` into account. */
  predicate Counted(key: string, info: ContainerInfo) {
    !EndsWith(key, ".mount") && IsPodManagedContainer(info)
  }

  /** The state of the summary loop: the summaries by UID, and the pods seen, in order. */
  datatype Aggregate = Aggregate(summaries: map<string, PodSummary>, refs: seq<PodRef>)

  /** One step of the summary loop on the kept record at cgroup `key`. */
  function ContainerStep(agg: Aggregate, key: string, info: ContainerInfo): Aggregate {
    if !Counted(key, info) then agg
    else
      var ref := RefOf(info);
      var refs := if ref in agg.refs then agg.refs else agg.refs + [ref];
      var podSum := if ref.uid in agg.summaries then agg.summaries[ref.uid] else PodSummary(ref.uid, "", 0, 0, map[]);
      var containerName := info.spec.labels.containerName;
      var podSum' :=
        if containerName == PodInfraContainerName then podSum
        else podSum.(containers := podSum.containers[containerName := ContainerSummaryOf(info)]);
      Aggregate(agg.summaries[ref.uid := podSum'], refs)
  }

  /** The summary loop over the entries whose cgroups the filter kept, in input order. */
  function ContainerSteps(agg: Aggregate, entries: seq<CgroupInfo>, filtered: map<string, ContainerInfo>): Aggregate {
    if |entries| == 0 then agg
    else
      var prev := ContainerSteps(agg, entries[..|entries| - 1], filtered);
      var key := entries[|entries| - 1].cgroup;
      if key in filtered then ContainerStep(prev, key, filtered[key]) else prev
  }

  /** Some kept, counted record belongs to pod `ref`. */
  predicate ListedFrom(entries: seq<CgroupInfo>, filtered: map<string, ContainerInfo>, ref: PodRef) {
    exists e :: e in entries && e.cgroup in filtered && Counted(e.cgroup, filtered[e.cgroup]) && RefOf(filtered[e.cgroup]) == ref
  }

  /**
   * The loop keeps the summaries valid, files a summary for every pod it
   * lists, and lists a pod only when some kept, counted record belongs to
   * it; pods already listed stay listed, each once.
   */
  lemma {:induction false} ContainerStepsProperties(agg: Aggregate, entries: seq<CgroupInfo>, filtered: map<string, ContainerInfo>)
    requires SummariesValid(agg.summaries)
    ensures var r := ContainerSteps(agg, entries, filtered);
      SummariesValid(r.summaries) &&
      (forall uid | uid in agg.summaries :: uid in r.summaries) &&
      |agg.refs| <= |r.refs| && r.refs[..|agg.refs|] == agg.refs &&
      (forall i | |agg.refs| <= i < |r.refs| :: ListedFrom(entries, filtered, r.refs[i])) &&
      (forall ref | ref in r.refs && ref !in agg.refs :: ref.uid in r.summaries) &&
      (forall ref | ref in agg.refs && ref.uid in agg.summaries :: ref.uid in r.summaries) &&
      (NoDuplicates(agg.refs) ==> NoDuplicates(r.refs))
    decreases |entries|
  {
    if |entries| > 0 {
      var init := entries[..|entries| - 1];
      var e := entries[|entries| - 1];
      assert entries == init + [e];
      ContainerStepsProperties(agg, init, filtered);
      var prev := ContainerSteps(agg, init, filtered);
      var r := ContainerSteps(agg, entries, filtered);
      forall i | |agg.refs| <= i < |r.refs|
        ensures ListedFrom(entries, filtered, r.refs[i])
      {
        if i < |prev.refs| {
          assert ListedFrom(init, filtered, prev.refs[i]);
          var e' :| e' in init && e'.cgroup in filtered && Counted(e'.cgroup, filtered[e'.cgroup]) &&
            RefOf(filtered[e'.cgroup]) == prev.refs[i];
          assert r.refs[i] == prev.refs[i];
          assert e' in entries;
        } else {
          assert r.refs[i] == RefOf(filtered[e.cgroup]);
          assert e in entries;
        }
      }
    }
  }

  /** The summary loop lists every pod that some kept, counted record belongs to. */
  lemma {:induction false} ContainerStepsComplete(agg: Aggregate, entries: seq<CgroupInfo>, filtered: map<string, ContainerInfo>, ref: PodRef)
    requires ListedFrom(entries, filtered, ref)
    ensures ref in ContainerSteps(agg, entries, filtered).refs
    decreases |entries|
  {
    var init := entries[..|entries| - 1];
    var e := entries[|entries| - 1];
    assert entries == init + [e];
    var prev := ContainerSteps(agg, init, filtered);
    var e' :| e' in entries && e'.cgroup in filtered && Counted(e'.cgroup, filtered[e'.cgroup]) && RefOf(filtered[e'.cgroup]) == ref;
    if e' in init {
      ContainerStepsComplete(agg, init, filtered, ref);
    } else {
      assert e' == e;
    }
  }

  /** The containers map of the summary filed under `uid`, or none when there is none. */
  function SummaryContainers(summaries: map<string, PodSummary>, uid: string): map<string, ContainerSummary> {
    if uid in summaries then summaries[uid].containers else map[]
  }

  /** The record at `e`'s cgroup is kept, counted, belongs to pod `uid` and is its container `name`, not the infrastructure one. */
  predicate Contributes(e: CgroupInfo, filtered: map<string, ContainerInfo>, uid: string, name: string) {
    e.cgroup in filtered && Counted(e.cgroup, filtered[e.cgroup]) &&
    RefOf(filtered[e.cgroup]).uid == uid &&
    filtered[e.cgroup].spec.labels.containerName == name && name != PodInfraContainerName
  }

  /**
   * The containers map of pod `uid` after the summary loop: `containers`
   * with the summary of each contributing record set under its
   * container's name, in input order.
   */
  function ContainersOf(containers: map<string, ContainerSummary>, entries: seq<CgroupInfo>,
                        filtered: map<string, ContainerInfo>, uid: string): map<string, ContainerSummary>
    decreases |entries|
  {
    if |entries| == 0 then containers
    else
      var prev := ContainersOf(containers, entries[..|entries| - 1], filtered, uid);
      var e := entries[|entries| - 1];
      var name := if e.cgroup in filtered then filtered[e.cgroup].spec.labels.containerName else "";
      if Contributes(e, filtered, uid, name) then prev[name := ContainerSummaryOf(filtered[e.cgroup])] else prev
  }

  /**
   * The summary loop sets each pod's containers map to ContainersOf its
   * containers before the loop, for every UID, filed or not.
   */
  lemma {:induction false} ContainerStepsContainers(agg: Aggregate, entries: seq<CgroupInfo>, filtered: map<string, ContainerInfo>, uid: string)
    ensures SummaryContainers(ContainerSteps(agg, entries, filtered).summaries, uid) ==
      ContainersOf(SummaryContainers(agg.summaries, uid), entries, filtered, uid)
    decreases |entries|
  {
    if |entries| > 0 {
      ContainerStepsContainers(agg, entries[..|entries| - 1], filtered, uid);
    }
  }

  /** The last record of `entries` contributes a container other than `name`, or none. */
  lemma LastStep(containers: map<string, ContainerSummary>, entries: seq<CgroupInfo>,
                 filtered: map<string, ContainerInfo>, uid: string, name: string)
    requires |entries| > 0
    ensures var prev := ContainersOf(containers, entries[..|entries| - 1], filtered, uid);
      var r := ContainersOf(containers, entries, filtered, uid);
      var e := entries[|entries| - 1];
      if Contributes(e, filtered, uid, name) then r == prev[name := ContainerSummaryOf(filtered[e.cgroup])]
      else name in r <==> name in prev && (name in prev ==> r[name] == prev[name])
  {
  }

  /** A name is in ContainersOf exactly when it was before or some record contributes it. */
  lemma {:induction false} ContainersOfKeys(containers: map<string, ContainerSummary>, entries: seq<CgroupInfo>,
                                              filtered: map<string, ContainerInfo>, uid: string, name: string)
    ensures name in ContainersOf(containers, entries, filtered, uid) <==>
      name in containers || exists i | 0 <= i < |entries| :: Contributes(entries[i], filtered, uid, name)
    decreases |entries|
  {
    if |entries| > 0 {
      var init := entries[..|entries| - 1];
      ContainersOfKeys(containers, init, filtered, uid, name);
      LastStep(containers, entries, filtered, uid, name);
      assert forall i | 0 <= i < |init| :: init[i] == entries[i];
      if exists i | 0 <= i < |entries| :: Contributes(entries[i], filtered, uid, name) {
        var i :| 0 <= i < |entries| && Contributes(entries[i], filtered, uid, name);
        if i < |init| {
          assert Contributes(init[i], filtered, uid, name);
        }
      }
    }
  }

  /** A name no record contributes keeps its old summary. */
  lemma {:induction false} ContainersOfUntouched(containers: map<string, ContainerSummary>, entries: seq<CgroupInfo>,
                                                   filtered: map<string, ContainerInfo>, uid: string, name: string)
    requires name in containers
    requires forall i | 0 <= i < |entries| :: !Contributes(entries[i], filtered, uid, name)
    ensures var r := ContainersOf(containers, entries, filtered, uid);
      name in r && r[name] == containers[name]
    decreases |entries|
  {
    if |entries| > 0 {
      var init := entries[..|entries| - 1];
      assert forall i | 0 <= i < |init| :: init[i] == entries[i];
      ContainersOfUntouched(containers, init, filtered, uid, name);
      LastStep(containers, entries, filtered, uid, name);
    }
  }

  /** The last record contributing a name gives that name its summary. */
  lemma {:induction false} ContainersOfLastWins(containers: map<string, ContainerSummary>, entries: seq<CgroupInfo>,
                                                  filtered: map<string, ContainerInfo>, uid: string, name: string, i: nat)
    requires i < |entries| && Contributes(entries[i], filtered, uid, name)
    requires forall j | i < j < |entries| :: !Contributes(entries[j], filtered, uid, name)
    ensures var r := ContainersOf(containers, entries, filtered, uid);
      name in r && r[name] == ContainerSummaryOf(filtered[entries[i].cgroup])
    decreases |entries|
  {
    var init := entries[..|entries| - 1];
    LastStep(containers, entries, filtered, uid, name);
    if i < |init| {
      assert forall j | i < j < |init| :: init[j] == entries[j];
      assert init[i] == entries[i];
      ContainersOfLastWins(containers, init, filtered, uid, name, i);
    }
  }

  /** The pods of a list appear each once. */
  predicate NoDuplicates(s: seq<PodRef>) {
    forall i, j | 0 <= i < j < |s| :: s[i] != s[j]
  }

  /** The pod-level figures written into the summary of UID `uid`, when cadvisor has the pod's own cgroup. */
  function PodStep(summaries: map<string, PodSummary>, uid: string, allInfos: map<string, ContainerInfo>): (r: map<string, PodSummary>)
    ensures r.Keys == summaries.Keys
  {
    var podInfo := GetCadvisorPodInfoFromPodUID(uid, allInfos);
    if podInfo.Some? && uid in summaries then
      summaries[uid := summaries[uid].(memoryWorkingSetBytes := WorkingSetOf(podInfo.value),
                                       memorySwapCurrentBytes := SwapUsageOf(podInfo.value))]
    else summaries
  }

  /** The summary filed under `uid`; the loop only looks up UIDs it has filed. */
  function SummaryOf(summaries: map<string, PodSummary>, uid: string): PodSummary {
    if uid in summaries then summaries[uid] else PodSummary(uid, "", 0, 0, map[])
  }

  /** The second loop: the pod-level figures of each listed pod, and the list of summaries it returns. */
  function PodSteps(summaries: map<string, PodSummary>, refs: seq<PodRef>, allInfos: map<string, ContainerInfo>): (r: (map<string, PodSummary>, seq<PodSummary>))
    ensures r.0.Keys == summaries.Keys && |r.1| == |refs|
  {
    if |refs| == 0 then (summaries, [])
    else
      var prev := PodSteps(summaries, refs[..|refs| - 1], allInfos);
      var uid := refs[|refs| - 1].uid;
      var next := PodStep(prev.0, uid, allInfos);
      (next, prev.1 + [SummaryOf(next, uid)])
  }

  /**
   * The second loop keeps the summaries valid and their containers as
   * they are; its list holds one summary per listed pod, with that pod's
   * UID and, when cadvisor has the pod's own cgroup, that cgroup's
   * working set and swap in use.
   */
  lemma {:induction false} PodStepsProperties(summaries: map<string, PodSummary>, refs: seq<PodRef>, allInfos: map<string, ContainerInfo>)
    requires SummariesValid(summaries)
    ensures var r := PodSteps(summaries, refs, allInfos);
      SummariesValid(r.0) &&
      (forall uid | uid in r.0 :: r.0[uid].containers == summaries[uid].containers) &&
      (forall i | 0 <= i < |refs| :: r.1[i].uid == refs[i].uid) &&
      (forall i | 0 <= i < |refs| && refs[i].uid in summaries ::
         r.1[i].containers == summaries[refs[i].uid].containers &&
         var podInfo := GetCadvisorPodInfoFromPodUID(refs[i].uid, allInfos);
         podInfo.Some? ==>
           r.1[i].memoryWorkingSetBytes == WorkingSetOf(podInfo.value) &&
           r.1[i].memorySwapCurrentBytes == SwapUsageOf(podInfo.value))
    decreases |refs|
  {
    if |refs| > 0 {
      PodStepsProperties(summaries, refs[..|refs| - 1], allInfos);
    }
  }

  /** The error of `getCadvisorContainerInfo` is ignored when the root cgroup's record came back. */
  predicate HasRootRecord(infos: seq<CgroupInfo>) {
    exists i | 0 <= i < |infos| :: infos[i].cgroup == "/"
  }

  /** `PodStatsCollectorImpl`: the summaries it keeps by pod UID between calls. */
  class PodStatsCollectorImpl {
    var podSummary: map<string, PodSummary>

    ghost predicate Valid()
      reads this
    {
      SummariesValid(podSummary)
    }

    /** `Init`, past the cadvisor start-up: no summaries yet. */
    constructor ()
      ensures Valid() && podSummary == map[]
    {
      podSummary := map[];
    }

    /**
     * `ListPodsSummary`, given cadvisor's records of every cgroup and the
     * error of that call. The summaries only grow: every listed pod has
     * one, filed under its UID, and none lists the infrastructure
     * container. A successful call lists exactly the UIDs of the pods with
     * a kept, counted record, so with distinct cgroup names the pod of
     * every container whose kept record is counted; each listed summary's
     * containers are the ones it had before, updated by that pod's kept,
     * counted records.
     */
    method ListPodsSummary(infos: seq<CgroupInfo>, cadvisorErr: Option<string>) returns (r: Result<seq<PodSummary>, string>)
      requires Valid()
      modifies this`podSummary
      ensures Valid()
      ensures cadvisorErr.Some? && !HasRootRecord(infos) ==>
        r == Err("failed to get container info from cadvisor: failed to get root cgroup stats: " + cadvisorErr.value) &&
        podSummary == old(podSummary)
      ensures !(cadvisorErr.Some? && !HasRootRecord(infos)) ==>
        var agg := ContainerSteps(Aggregate(old(podSummary), []), infos, KeptMap(infos, Ids(infos)));
        var steps := PodSteps(agg.summaries, agg.refs, ByPodCgroupKey(infos));
        r == Ok(steps.1) && podSummary == steps.0
      ensures old(podSummary).Keys <= podSummary.Keys
      ensures r.Ok? ==> var filtered := KeptMap(infos, Ids(infos));
        (forall uid :: CountedUid(infos, filtered, uid) <==> exists i | 0 <= i < |r.value| :: r.value[i].uid == uid) &&
        (forall i | 0 <= i < |r.value| ::
           r.value[i].containers == ContainersOf(SummaryContainers(old(podSummary), r.value[i].uid), infos, filtered, r.value[i].uid))
      ensures r.Ok? && DistinctCgroups(infos) ==>
        forall id | KeptCounted(infos, id) :: exists i | 0 <= i < |r.value| :: r.value[i].uid == id.podRef.uid
    {
      ghost var prior := podSummary;
      if cadvisorErr.Some? {
        var root := FindRootRecord(infos);
        if !root {
          return Err("failed to get container info from cadvisor: failed to get root cgroup stats: " + cadvisorErr.value);
        }
      }
      var filteredInfos, allInfos := FilterTerminatedContainerInfoAndAssembleByPodCgroupKey(infos);
      ghost var start := Aggregate(podSummary, []);
      ContainerStepsProperties(start, infos, filteredInfos);
      var podToStats := SummarizeContainers(infos, filteredInfos);
      PodStepsProperties(podSummary, podToStats, allInfos);
      var list := SummarizePods(podToStats, allInfos);
      ListedSummaries(prior, infos);
      if DistinctCgroups(infos) {
        KeptRecordsCounted(infos);
      }
      return Ok(list);
    }

    /** The loop over cadvisor's records looking for the root cgroup's. */
    static method FindRootRecord(infos: seq<CgroupInfo>) returns (root: bool)
      ensures root == HasRootRecord(infos)
    {
      root := false;
      var k := 0;
      while k < |infos|
        invariant 0 <= k <= |infos|
        invariant root <==> exists i | 0 <= i < k :: infos[i].cgroup == "/"
      {
        if infos[k].cgroup == "/" {
          root := true;
        }
        k := k + 1;
      }
    }

    /** The first summary loop, over the records in input order whose cgroups the filter kept. */
    method SummarizeContainers(infos: seq<CgroupInfo>, filteredInfos: map<string, ContainerInfo>) returns (podToStats: seq<PodRef>)
      modifies this`podSummary
      ensures Aggregate(podSummary, podToStats) == ContainerSteps(Aggregate(old(podSummary), []), infos, filteredInfos)
    {
      podToStats := [];
      var i := 0;
      while i < |infos|
        invariant 0 <= i <= |infos|
        invariant Aggregate(podSummary, podToStats) == ContainerSteps(Aggregate(old(podSummary), []), infos[..i], filteredInfos)
      {
        assert infos[..i + 1][..i] == infos[..i];
        var key := infos[i].cgroup;
        if key in filteredInfos {
          var cinfo := filteredInfos[key];
          SummarizeContainer(key, cinfo, podToStats);
          if Counted(key, cinfo) && RefOf(cinfo) !in podToStats {
            podToStats := podToStats + [RefOf(cinfo)];
          }
        }
        i := i + 1;
      }
      assert infos[..i] == infos;
    }

    /** The body of the first summary loop for the kept record at cgroup `key`. */
    method SummarizeContainer(key: string, cinfo: ContainerInfo, ghost podToStats: seq<PodRef>)
      modifies this`podSummary
      ensures Aggregate(podSummary, if Counted(key, cinfo) && RefOf(cinfo) !in podToStats then podToStats + [RefOf(cinfo)] else podToStats) ==
        ContainerStep(Aggregate(old(podSummary), podToStats), key, cinfo)
    {
      if EndsWith(key, ".mount") {
        return;
      }
      if !IsPodManagedContainer(cinfo) {
        return;
      }
      var ref := RefOf(cinfo);
      var podSum: PodSummary;
      if ref.uid in podSummary {
        podSum := podSummary[ref.uid];
      } else {
        podSum := PodSummary(ref.uid, "", 0, 0, map[]);
      }
      var containerName := cinfo.spec.labels.containerName;
      if containerName != PodInfraContainerName {
        podSum := podSum.(containers := podSum.containers[containerName := ContainerSummaryOf(cinfo)]);
      }
      podSummary := podSummary[ref.uid := podSum];
    }

    /** The second summary loop: the pod-level figures, and the list of the listed pods' summaries. */
    method SummarizePods(podToStats: seq<PodRef>, allInfos: map<string, ContainerInfo>) returns (podSummaryList: seq<PodSummary>)
      requires forall ref | ref in podToStats :: ref.uid in podSummary
      modifies this`podSummary
      ensures (podSummary, podSummaryList) == PodSteps(old(podSummary), podToStats, allInfos)
    {
      podSummaryList := [];
      var j := 0;
      while j < |podToStats|
        invariant 0 <= j <= |podToStats|
        invariant forall ref | ref in podToStats[..j] :: ref in podToStats
        invariant (podSummary, podSummaryList) == PodSteps(old(podSummary), podToStats[..j], allInfos)
      {
        assert podToStats[..j + 1][..j] == podToStats[..j];
        var podUID := podToStats[j].uid;
        var podInfo := GetCadvisorPodInfoFromPodUID(podUID, allInfos);
        if podInfo.Some? {
          podSummary := podSummary[podUID := podSummary[podUID].(memoryWorkingSetBytes := WorkingSetOf(podInfo.value),
                                                                memorySwapCurrentBytes := SwapUsageOf(podInfo.value))];
        }
        podSummaryList := podSummaryList + [podSummary[podUID]];
        assert podSummary[podUID] == SummaryOf(podSummary, podUID);
        j := j + 1;
      }
      assert podToStats[..j] == podToStats;
    }
  }

  /**
   * What a call lists: one summary per pod that has a kept, counted
   * record and for no other pod, each pod once, each summary carrying
   * that pod's UID and, as its containers, the map it had before the call
   * updated by that pod's kept, counted records.
   */
  lemma ListedPods(prior: map<string, PodSummary>, infos: seq<CgroupInfo>)
    requires SummariesValid(prior)
    ensures var filtered := KeptMap(infos, Ids(infos));
      var agg := ContainerSteps(Aggregate(prior, []), infos, filtered);
      (forall ref | ref in agg.refs :: ref.uid in agg.summaries) &&
      var list := PodSteps(agg.summaries, agg.refs, ByPodCgroupKey(infos)).1;
      |list| == |agg.refs| && NoDuplicates(agg.refs) &&
      (forall i | 0 <= i < |list| :: list[i].uid == agg.refs[i].uid) &&
      (forall ref :: ref in agg.refs <==> ListedFrom(infos, filtered, ref)) &&
      (forall i | 0 <= i < |list| ::
         list[i].containers == ContainersOf(SummaryContainers(prior, list[i].uid), infos, filtered, list[i].uid))
  {
    var filtered := KeptMap(infos, Ids(infos));
    var start := Aggregate(prior, []);
    ContainerStepsProperties(start, infos, filtered);
    var agg := ContainerSteps(start, infos, filtered);
    PodStepsProperties(agg.summaries, agg.refs, ByPodCgroupKey(infos));
    forall ref
      ensures ref in agg.refs <==> ListedFrom(infos, filtered, ref)
    {
      if ListedFrom(infos, filtered, ref) {
        ContainerStepsComplete(start, infos, filtered, ref);
      }
    }
    var list := PodSteps(agg.summaries, agg.refs, ByPodCgroupKey(infos)).1;
    forall i | 0 <= i < |list|
      ensures list[i].containers == ContainersOf(SummaryContainers(prior, list[i].uid), infos, filtered, list[i].uid)
    {
      ContainerStepsContainers(start, infos, filtered, list[i].uid);
    }
  }

  /**
   * ListedPods on the list of summaries alone: a UID is listed exactly
   * when some kept, counted record belongs to it, and each summary's
   * containers are those the call's records give it.
   */
  lemma ListedSummaries(prior: map<string, PodSummary>, infos: seq<CgroupInfo>)
    requires SummariesValid(prior)
    ensures var filtered := KeptMap(infos, Ids(infos));
      var agg := ContainerSteps(Aggregate(prior, []), infos, filtered);
      var list := PodSteps(agg.summaries, agg.refs, ByPodCgroupKey(infos)).1;
      (forall uid :: CountedUid(infos, filtered, uid) <==> exists i | 0 <= i < |list| :: list[i].uid == uid) &&
      (forall i | 0 <= i < |list| ::
         list[i].containers == ContainersOf(SummaryContainers(prior, list[i].uid), infos, filtered, list[i].uid))
  {
    var filtered := KeptMap(infos, Ids(infos));
    var agg := ContainerSteps(Aggregate(prior, []), infos, filtered);
    var list := PodSteps(agg.summaries, agg.refs, ByPodCgroupKey(infos)).1;
    ListedPods(prior, infos);
    UidsOfListed(infos, filtered, agg.refs, list);
  }

  /** Some kept, counted record belongs to a pod with UID `uid`. */
  predicate CountedUid(entries: seq<CgroupInfo>, filtered: map<string, ContainerInfo>, uid: string) {
    exists e :: e in entries && e.cgroup in filtered && Counted(e.cgroup, filtered[e.cgroup]) && RefOf(filtered[e.cgroup]).uid == uid
  }

  /** Container `id` has a kept record that the summary loop counts. */
  predicate KeptCounted(entries: seq<CgroupInfo>, id: ContainerKey) {
    var k := Kept(GroupOf(entries, id));
    k.Some? && Counted(k.value.cgroup, k.value.info)
  }

  /** With distinct cgroup names, the pod of every container whose kept record is counted has a kept, counted record. */
  lemma KeptRecordsCounted(entries: seq<CgroupInfo>)
    requires DistinctCgroups(entries)
    ensures forall id | KeptCounted(entries, id) :: CountedUid(entries, KeptMap(entries, Ids(entries)), id.podRef.uid)
  {
    KeptMapHoldsEveryKept(entries);
    forall id | KeptCounted(entries, id)
      ensures CountedUid(entries, KeptMap(entries, Ids(entries)), id.podRef.uid)
    {
      KeptInGroup(entries, id);
      var c := Kept(GroupOf(entries, id)).value;
      assert c in entries && IdOf(c.info) == id;
    }
  }

  /** A list with one summary per listed pod, in order, has exactly the listed pods' UIDs. */
  lemma UidsOfListed(entries: seq<CgroupInfo>, filtered: map<string, ContainerInfo>, refs: seq<PodRef>, list: seq<PodSummary>)
    requires |list| == |refs| && forall i | 0 <= i < |list| :: list[i].uid == refs[i].uid
    requires forall ref :: ref in refs <==> ListedFrom(entries, filtered, ref)
    ensures forall uid :: CountedUid(entries, filtered, uid) <==> exists i | 0 <= i < |list| :: list[i].uid == uid
  {
    forall uid
      ensures CountedUid(entries, filtered, uid) <==> exists i | 0 <= i < |list| :: list[i].uid == uid
    {
      if CountedUid(entries, filtered, uid) {
        var e :| e in entries && e.cgroup in filtered && Counted(e.cgroup, filtered[e.cgroup]) && RefOf(filtered[e.cgroup]).uid == uid;
        var ref := RefOf(filtered[e.cgroup]);
        assert ListedFrom(entries, filtered, ref);
        var i :| 0 <= i < |refs| && refs[i] == ref;
        assert list[i].uid == uid;
      }
      if exists i | 0 <= i < |list| :: list[i].uid == uid {
        var i :| 0 <= i < |list| && list[i].uid == uid;
        assert refs[i] in refs;
        var e :| e in entries && e.cgroup in filtered && Counted(e.cgroup, filtered[e.cgroup]) && RefOf(filtered[e.cgroup]) == refs[i];
      }
    }
  }
}
