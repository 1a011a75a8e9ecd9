# wasp-agent decision logic in Dafny

wasp-agent is a node agent that lets pods use swap on a Kubernetes node.
It has two parts.

- **Eviction under memory pressure.** The agent samples swap and
  virtual-memory counters into a bounded history. It decides from the
  history whether the node is short of memory. While it is, it taints the
  node and evicts the first pod of a ranked list of candidates.
- **Per-container swap limits.** For the containers of every pod on the
  node, the agent writes `memory.swap.max`. A Burstable pod gets a share
  of the node's swap in proportion to its memory request; every other
  container gets zero.

Around these sit cgroup naming and parsing and the cadvisor record
selection that builds per-pod usage summaries. Two more pieces set up the
swap hook: the CRI-O runtime lookup and the OCI hook rendering. A Rust
prototype that discovers process cgroups and zeroes their swap limits is
modelled too.

Each source file is one Dafny module. Shared pieces have their own modules:

- `Kube` holds the Kubernetes records;
- `Strs` and `Seqs` hold string and sequence helpers;
- `Machine` holds unsigned and signed 64-bit conversions;
- `Wrappers` holds `Option` and `Result`.

Objects whose fields the source updates in place are classes. These are:

- the sample history, which prepends, truncates and flushes;
- the work queue, which is a log of its calls;
- the eviction controller, which keeps a log of its patch and evict calls;
- the pod summaries kept between calls;
- the CRI-O configuration, whose runtime is overwritten;
- the renderer's output files;
- the prototype's mock file system;
- the multi-comparator sorter, which sorts an array in place.

Loops in the source are loops here, each proved against a specification
function. The properties of those functions are then proved as lemmas.

Outside calls are inputs to the methods:

- OS memory reads;
- the Kubernetes API (node lookup, pod lists, patches, evictions);
- cadvisor records;
- the CRI runtime's cgroup lookup;
- TOML decoding, template parsing;
- the outcomes of file writes.

The Kubernetes helpers `GetPodQOS`, `IsCriticalPod`, `PodPriority` and
`GetResourceRequestQuantity` are read as fields of the pod record.

## Model

| member | source | states |
|---|---|---|
| StatsCollector.Prepended | pkg/wasp/stats-collector/stats_collector.go:70-74 | new sample first, the rest a prefix of the old history, length never above the cap, grows by one below the cap and stays at the cap otherwise |
| StatsCollector.StatsCollectorImpl.constructor | pkg/wasp/stats-collector/stats_collector.go:32-37 | empty history, cap 10000 |
| StatsCollector.StatsCollectorImpl.GatherStats | pkg/wasp/stats-collector/stats_collector.go:39-75 | any failed OS read leaves the history unchanged; otherwise the history is the sample prepended and cut to the cap |
| StatsCollector.StatsCollectorImpl.GetStatsList | pkg/wasp/stats-collector/stats_collector.go:77-81 | returns the current history and changes nothing |
| StatsCollector.StatsCollectorImpl.FlushStats | pkg/wasp/stats-collector/stats_collector.go:83-87 | the history is empty afterwards |
| ShortageDetector.ScanEnd | pkg/wasp/shortage-detector/shortage_detector.go:52-61 | the scan stops at the first sample at least a window old, or at the last sample |
| ShortageDetector.ScanEndIs | pkg/wasp/shortage-detector/shortage_detector.go:52-61 | any index meeting the stop rule is the scan's end |
| ShortageDetector.LastOldEnough | pkg/wasp/shortage-detector/shortage_detector.go:53-60 | the last index in a range whose sample is at least 5 s old, or none when no sample there is |
| ShortageDetector.BaselineCharacterized | pkg/wasp/shortage-detector/shortage_detector.go:52-65 | the baseline is the last visited sample at least 5 s old; there is none exactly when no visited sample is |
| ShortageDetector.AverageRateExceeds | pkg/wasp/shortage-detector/shortage_detector.go:68-73 | a rate is above its threshold exactly when `delta*1e9 > max*dtNs` |
| ShortageDetector.HighUtilizationWithoutWrap | pkg/wasp/shortage-detector/shortage_detector.go:81-85 | without wrap-around, high utilization is used memory plus swap strictly above memory plus the allowed share of swap |
| ShortageDetector.HighTraffic | pkg/wasp/shortage-detector/shortage_detector.go:68-73 | reference definition; properties in AverageRateExceeds, RateAtThresholdDoesNotTrigger and OneAboveThresholdTriggers |
| ShortageDetector.MaxVirtualMemory | pkg/wasp/shortage-detector/shortage_detector.go:76-85 | reference definition; properties in HighUtilizationWithoutWrap |
| ShortageDetector.HighUtilization | pkg/wasp/shortage-detector/shortage_detector.go:76-85 | reference definition; properties in HighUtilizationWithoutWrap |
| ShortageDetector.ShortageDetectorImpl.constructor | pkg/wasp/shortage-detector/shortage_detector.go:26-42 | stores the seven parameters |
| ShortageDetector.ShortageDetectorImpl.ShouldEvict | pkg/wasp/shortage-detector/shortage_detector.go:44-105 | fewer than two samples or no baseline gives (false, error); otherwise the verdict is high traffic or high utilization with no error; only reads the history |
| ShortageDetector.ShortageDetectorImpl.Decide | pkg/wasp/shortage-detector/shortage_detector.go:44-105 | the verdict is absent exactly when there are fewer than two samples or no baseline; further properties in ShouldEvict |
| ShortageDetector.RateAtThresholdDoesNotTrigger | pkg/wasp/shortage-detector/shortage_detector.go:68-73 | a swap-in rate exactly at its threshold never raises high traffic |
| ShortageDetector.OneAboveThresholdTriggers | pkg/wasp/shortage-detector/shortage_detector.go:68-73 | one page above a swap-in count exactly at the threshold raises high traffic exactly when the swap-out rate is above its threshold |
| ShortageDetector.TenSecondStorm | pkg/wasp/shortage-detector/shortage_detector.go:68-73 | 3000 and 2500 pages in 10 s exceed thresholds of 200 pages per second |
| PodFilter.FilteredMembers | pkg/wasp/pod-filter/pod-filter.go:25-39 | a pod is kept exactly when it is in the input, outside the wasp namespace, outside the excluded prefixes and not critical |
| PodFilter.Filtered | pkg/wasp/pod-filter/pod-filter.go:25-39 | reference definition; properties in FilteredMembers, FilteredAppend and FilteredIdempotent |
| PodFilter.Eligible | pkg/wasp/pod-filter/pod-filter.go:33 | reference definition; properties in FilteredMembers |
| PodFilter.FilteredAppend | pkg/wasp/pod-filter/pod-filter.go:31-37 | survivors keep their input order (the filter distributes over concatenation) |
| PodFilter.FilteredIdempotent | pkg/wasp/pod-filter/pod-filter.go:33 | filtering the output again returns it unchanged |
| PodFilter.PodFilterImpl.constructor | pkg/wasp/pod-filter/pod-filter.go:19-23 | stores the wasp namespace |
| PodFilter.PodFilterImpl.FilterPods | pkg/wasp/pod-filter/pod-filter.go:25-39 | the loop yields exactly the filtered pods in order; empty input gives empty output |
| PodFilter.HasExcludedPrefix | pkg/wasp/pod-filter/pod-filter.go:42-49 | true exactly when the namespace starts with one of the prefixes |
| PodFilter.ExcludedNamespaces | pkg/wasp/pod-filter/pod-filter.go:29 | with the fixed list, excluded means starting with `openshift` or `kube-system` |
| RankUtils.RaisedToIsMax | pkg/wasp/pod-ranker/rank_utils.go:31-37 | the init-container pass yields the maximum of the running total and every init limit |
| RankUtils.LimitsQuantityBounds | pkg/wasp/pod-ranker/rank_utils.go:13-48 | the limit is at least the sum of container limits and every init limit; overhead is added only to a non-zero total |
| RankUtils.LimitsQuantity | pkg/wasp/pod-ranker/rank_utils.go:13-48 | reference definition; properties in LimitsQuantityBounds and RaisedToIsMax |
| RankUtils.GetResourceLimitsQuantity | pkg/wasp/pod-ranker/rank_utils.go:13-48 | the two loops and the overhead compute the limits quantity |
| RankUtils.CmpBool | pkg/wasp/pod-ranker/rank_utils.go:156-164 | 0 on equal, negative exactly when only the first is true, positive exactly when only the second is |
| RankUtils.Priority | pkg/wasp/pod-ranker/rank_utils.go:75-85 | the sign of the priority difference; lower priority ranks first |
| RankUtils.MemoryAndSwapUsage | pkg/wasp/pod-ranker/rank_utils.go:167-174 | working set plus swap, for values that fit in int64 |
| RankUtils.HasContainerExceedMemoryLimits | pkg/wasp/pod-ranker/rank_utils.go:134-153 | true exactly when some container or init container with a memory limit uses more than it |
| RankUtils.ExceedsLimits | pkg/wasp/pod-ranker/rank_utils.go:134-153 | reference definition; properties in HasContainerExceedMemoryLimits and ExceedMemoryLimits |
| RankUtils.SearchExceedingContainer | pkg/wasp/pod-ranker/rank_utils.go:135-142 | one search loop finds a container above its limit exactly when there is one |
| RankUtils.ExceedMemoryLimits | pkg/wasp/pod-ranker/rank_utils.go:118-132 | a pod without stats ranks first and ties with another; otherwise a limit exceeder ranks first |
| RankUtils.ExceedMemoryRequests | pkg/wasp/pod-ranker/rank_utils.go:91-115 | same treatment of missing stats; otherwise a pod using more than its request ranks first |
| RankUtils.ExceedsRequests | pkg/wasp/pod-ranker/rank_utils.go:100-110 | reference definition; properties in ExceedMemoryRequests |
| RankUtils.Memory | pkg/wasp/pod-ranker/rank_utils.go:51-72 | same treatment of missing stats; otherwise the larger usage above request ranks first |
| RankUtils.LexLessAsymmetric | pkg/wasp/pod-ranker/rank_utils.go:208-225 | the lexicographic `Less` of consistent comparators is asymmetric |
| RankUtils.StrictThenLeq | pkg/wasp/pod-ranker/rank_utils.go:208-225 | strictly-before followed by no-later is strictly before |
| RankUtils.LexLessNegativelyTransitive | pkg/wasp/pod-ranker/rank_utils.go:208-225 | "not less" is transitive for the lexicographic `Less` |
| RankUtils.LexLessStrictWeakOrder | pkg/wasp/pod-ranker/rank_utils.go:208-225 | the lexicographic composition is a strict weak order a sort can use |
| RankUtils.ExceedMemoryLimitsThreeWay | pkg/wasp/pod-ranker/rank_utils.go:118-132 | the comparator is antisymmetric and its "no later" is transitive |
| RankUtils.ExceedMemoryRequestsThreeWay | pkg/wasp/pod-ranker/rank_utils.go:91-115 | likewise |
| RankUtils.PriorityThreeWay | pkg/wasp/pod-ranker/rank_utils.go:75-85 | likewise |
| RankUtils.MemoryThreeWay | pkg/wasp/pod-ranker/rank_utils.go:51-72 | likewise |
| RankUtils.InsertionStep | pkg/wasp/pod-ranker/rank_utils.go:228-231 | one swap of the insertion pass keeps the insertion invariant |
| RankUtils.InsertionCloses | pkg/wasp/pod-ranker/rank_utils.go:228-231 | the insertion pass ends with a sorted prefix |
| RankUtils.MultiSorter.OrderedBy | pkg/wasp/pod-ranker/rank_utils.go:191-195 | stores the comparators, no pods yet |
| RankUtils.MultiSorter.Len | pkg/wasp/pod-ranker/rank_utils.go:198-200 | the number of pods |
| RankUtils.MultiSorter.Less | pkg/wasp/pod-ranker/rank_utils.go:208-225 | the first non-zero comparator among all but the last decides, else the last |
| RankUtils.MultiSorter.Swap | pkg/wasp/pod-ranker/rank_utils.go:203-205 | exchanges two pods, a permutation |
| RankUtils.MultiSorter.Sort | pkg/wasp/pod-ranker/rank_utils.go:228-231 | the array afterwards is a permutation of the input in which no pod ranks strictly before an earlier one |
| RankUtils.MultiSorter.InsertAt | pkg/wasp/pod-ranker/rank_utils.go:228-231 | one insertion pass extends the sorted prefix by one, as a permutation |
| PodRanker.SummaryOf | pkg/wasp/pod-ranker/pod_ranker.go:28-35 | the first summary with the pod's UID, or none when no summary has it |
| PodRanker.LookupSummary | pkg/wasp/pod-ranker/pod_ranker.go:28-35 | the search loop finds that summary |
| PodRanker.RankComparators | pkg/wasp/pod-ranker/pod_ranker.go:36 | the four comparators in order: limits, requests, priority, memory |
| PodRanker.RankOrderIsStrictWeak | pkg/wasp/pod-ranker/pod_ranker.go:36 | the ranking order is a strict weak order |
| PodRanker.RankPods | pkg/wasp/pod-ranker/pod_ranker.go:23-38 | a listing error is returned and the pods are unchanged; otherwise the pods are a permutation sorted in ranking order |
| PodRanker.MissingStatsFirst | pkg/wasp/pod-ranker/pod_ranker.go:36 | in ranking order every pod without a summary precedes every pod with one |
| PodRanker.LimitExceedersFirst | pkg/wasp/pod-ranker/pod_ranker.go:36 | among pods with summaries, limit exceeders precede the others |
| Taints.GenerateTaint | pkg/taints/taints.go:17-22 | key `waspEvictionTaint`, effect NoSchedule |
| Taints.GenerateToleration | pkg/taints/taints.go:24-29 | tolerates exactly that key and effect |
| Taints.NodeHasEvictionTaint | pkg/taints/taints.go:31-39 | true exactly when some taint has the wasp key and effect NoSchedule |
| Taints.AddedTaints | pkg/taints/taints.go:43 | the old list with the taint appended, length one more |
| Taints.EvictionTaintCountPositive | pkg/taints/taints.go:31-39 | the node has the eviction taint exactly when it has at least one |
| Taints.AddedTaintsHaveEvictionTaint | pkg/taints/taints.go:41-60 | after adding, the node has the taint; adding to a tainted node gives two instances |
| Taints.RemoveLoop | pkg/taints/taints.go:63-68 | the loop builds the list without wasp-keyed taints |
| Taints.RemovedTaintsProperties | pkg/taints/taints.go:62-85 | no wasp-keyed taint remains, so the eviction test is false; every other taint is kept |
| Taints.RemovedTaintsAppend | pkg/taints/taints.go:63-68 | remaining taints keep their order |
| Taints.RemovedTaintsIdempotent | pkg/taints/taints.go:63-68 | removing twice is removing once; a list without the key is unchanged |
| Taints.RemoveUndoesAdd | pkg/taints/taints.go:41-85 | removing after adding gives the same list as removing alone |
| Taints.AddWaspEvictionTaint | pkg/taints/taints.go:41-60 | patches the appended list; a patch error is returned wrapped |
| Taints.RemoveWaspEvictionTaint | pkg/taints/taints.go:62-85 | patches the filtered list; a patch error is returned wrapped |
| EvictionController.RunningPodsProperties | pkg/wasp/eviction-controller/eviction_controller.go:230-252 | a pod is listed exactly when it passes the keep rule, in list order |
| EvictionController.IsRunning | pkg/wasp/eviction-controller/eviction_controller.go:233-247 | reference definition; properties in RunningPodsProperties |
| EvictionController.RunningPods | pkg/wasp/eviction-controller/eviction_controller.go:230-252 | reference definition; properties in RunningPodsProperties |
| EvictionController.TaintTransition | pkg/wasp/eviction-controller/eviction_controller.go:106-118 | one patch exactly when the taint state differs from the verdict, leaving the taint as the verdict says |
| EvictionController.EvictionControllerImpl.constructor | pkg/wasp/eviction-controller/eviction_controller.go:46-73 | a fresh empty history read by the detector, and the filter for the namespace |
| EvictionController.EvictionControllerImpl.ListRunningPodsOnNode | pkg/wasp/eviction-controller/eviction_controller.go:220-254 | a list error is returned; otherwise exactly the running pods, in order |
| EvictionController.EvictionControllerImpl.HandleMemorySwapEviction | pkg/wasp/eviction-controller/eviction_controller.go:93-146 | a detector or node error does nothing; otherwise the taint follows the verdict, the history is flushed exactly when eviction starts, and at most one pod, the first in ranking order, is evicted |
| EvictionController.EvictionControllerImpl.UpdateTaint | pkg/wasp/eviction-controller/eviction_controller.go:106-118 | records the taint transition and flushes on the not-evicting to should-evict switch, whatever the patch returns |
| EvictionController.EvictionControllerImpl.EvictFirstCandidate | pkg/wasp/eviction-controller/eviction_controller.go:122-145 | no eviction on a list error or no candidate; otherwise exactly one, of a pod no candidate ranks before, even when ranking failed |
| EvictionController.EvictedRanksFirst | pkg/wasp/eviction-controller/eviction_controller.go:132-142 | the head of the ranked candidates ranks first |
| LimitedSwap.WorkQueue.constructor | pkg/wasp/limited-swap-manager/limited-swap-manager.go:69 | an empty call log |
| LimitedSwap.WorkQueue.Add | pkg/wasp/limited-swap-manager/limited-swap-manager.go:94 | logs one Add |
| LimitedSwap.WorkQueue.AddRateLimited | pkg/wasp/limited-swap-manager/limited-swap-manager.go:148 | logs one AddRateLimited |
| LimitedSwap.WorkQueue.Forget | pkg/wasp/limited-swap-manager/limited-swap-manager.go:150 | logs one Forget |
| LimitedSwap.WorkQueue.Done | pkg/wasp/limited-swap-manager/limited-swap-manager.go:140 | logs one Done |
| LimitedSwap.KeysOnNodeMembers | pkg/wasp/limited-swap-manager/limited-swap-manager.go:117-133 | a resync adds one key per pod on the node and only such keys |
| LimitedSwap.KeysOnNode | pkg/wasp/limited-swap-manager/limited-swap-manager.go:117-133 | reference definition; properties in KeysOnNodeMembers |
| LimitedSwap.FindStatus | pkg/wasp/limited-swap-manager/limited-swap-manager.go:312-316 | the first status with the name, or none when no status has it |
| LimitedSwap.StatusOf | pkg/wasp/limited-swap-manager/limited-swap-manager.go:311-324 | container statuses searched first, then init container statuses |
| LimitedSwap.SearchStatus | pkg/wasp/limited-swap-manager/limited-swap-manager.go:312-316 | the search loop finds that status |
| LimitedSwap.GetContainerState | pkg/wasp/limited-swap-manager/limited-swap-manager.go:311-324 | the state of the found status, or the empty state and false |
| LimitedSwap.GetContainerUID | pkg/wasp/limited-swap-manager/limited-swap-manager.go:296-309 | the found status's ID without `cri-o://`, or the not-found error |
| LimitedSwap.TruncateToInt | pkg/wasp/limited-swap-manager/limited-swap-manager.go:232 | truncation toward zero |
| LimitedSwap.FloorOfQuotient | pkg/wasp/limited-swap-manager/limited-swap-manager.go:229-232 | the floor of an exact quotient is integer division |
| LimitedSwap.CalcSwapIsFloorOfShare | pkg/wasp/limited-swap-manager/limited-swap-manager.go:228-233 | the swap share is `request*swap/memory` rounded down |
| LimitedSwap.CalcSwapForBurstablePods | pkg/wasp/limited-swap-manager/limited-swap-manager.go:228-233 | reference definition; properties in CalcSwapIsFloorOfShare, CalcSwapBounds and CalcSwapMonotonic |
| LimitedSwap.ProportionBounds | pkg/wasp/limited-swap-manager/limited-swap-manager.go:229 | the proportion lies in [0, 1] and is 1 for the whole memory |
| LimitedSwap.FloorMonotonic | pkg/wasp/limited-swap-manager/limited-swap-manager.go:232 | truncating a non-negative value is monotonic |
| LimitedSwap.CalcSwapBounds | pkg/wasp/limited-swap-manager/limited-swap-manager.go:228-233 | a request within memory gets between 0 and all the swap; 0 for no request, all for the whole memory |
| LimitedSwap.CalcSwapMonotonic | pkg/wasp/limited-swap-manager/limited-swap-manager.go:228-233 | a larger request never gets less swap |
| LimitedSwap.QuarterOfMemoryQuarterOfSwap | pkg/wasp/limited-swap-manager/limited-swap-manager.go:228-233 | 25 GiB of 100 GiB with 10 GiB of swap gets 2.5 GiB |
| LimitedSwap.ContainerEffects | pkg/wasp/limited-swap-manager/limited-swap-manager.go:186-222 | one write exactly for a started, unterminated container; every queue call retries the key |
| LimitedSwap.ContainersEffectsProperties | pkg/wasp/limited-swap-manager/limited-swap-manager.go:185-223 | one write per writable container, only retries queued, all zeros in a zero-swap pod, no write above the node's swap |
| LimitedSwap.ExecuteResult | pkg/wasp/limited-swap-manager/limited-swap-manager.go:172-225 | never Immediate; an error exactly when BackOff |
| LimitedSwap.ProcessedKeyEnds | pkg/wasp/limited-swap-manager/limited-swap-manager.go:135-156 | a processed key is never re-added at once and is marked done last; a missing pod is forgotten, a failed lookup retried |
| LimitedSwap.LimitedSwapManager.constructor | pkg/wasp/limited-swap-manager/limited-swap-manager.go:64-73 | stores the node name and totals, an empty queue |
| LimitedSwap.LimitedSwapManager.UpdatePod | pkg/wasp/limited-swap-manager/limited-swap-manager.go:85-98 | queues the pod only when it moves onto this node |
| LimitedSwap.LimitedSwapManager.CreatePod | pkg/wasp/limited-swap-manager/limited-swap-manager.go:100-111 | queues the pod exactly when it is on this node |
| LimitedSwap.LimitedSwapManager.EnqueueAllPods | pkg/wasp/limited-swap-manager/limited-swap-manager.go:117-133 | a list error queues nothing; otherwise every pod on the node, in order |
| LimitedSwap.LimitedSwapManager.Execute | pkg/wasp/limited-swap-manager/limited-swap-manager.go:135-156 | for a node with positive memory, a quitting queue returns false and changes nothing, and otherwise the call returns true after the key's effects, the requeue call for its state and then Done |
| LimitedSwap.LimitedSwapManager.RequeueByState | pkg/wasp/limited-swap-manager/limited-swap-manager.go:146-153 | BackOff to AddRateLimited, Forget to Forget, Immediate to Add |
| LimitedSwap.Requeue | pkg/wasp/limited-swap-manager/limited-swap-manager.go:146-153 | reference definition; properties in RequeueByState and ProcessedKeyEnds |
| LimitedSwap.LimitedSwapManager.ExecuteKey | pkg/wasp/limited-swap-manager/limited-swap-manager.go:172-226 | for a node with positive memory, returns the result the pod lookup gives and makes the effects of the container loop |
| LimitedSwap.LimitedSwapManager.VisitContainers | pkg/wasp/limited-swap-manager/limited-swap-manager.go:185-223 | the loop makes the effects of each container in turn |
| LimitedSwap.LimitedSwapManager.VisitContainer | pkg/wasp/limited-swap-manager/limited-swap-manager.go:186-222 | the loop body makes one container's effects |
| LimitedSwap.LimitedSwapManager.SetSwapLimit | pkg/wasp/limited-swap-manager/limited-swap-manager.go:235-238 | records one write of the limit to the directory |
| CgroupManager.UnescapeSystemdCgroupName | pkg/wasp/stats-collector/cgroup_manager_linux.go:26-28 | same length; every `_` becomes `-`, other characters stay |
| CgroupManager.UnescapeUndoesEscape | pkg/wasp/stats-collector/cgroup_manager_linux.go:26-28 | unescaping undoes escaping for a part without `_` |
| CgroupManager.CgroupNameOf | pkg/wasp/stats-collector/cgroup_manager_linux.go:30-39 | one component per `-`-separated part of the driver name |
| CgroupManager.ParseSystemdToCgroupName | pkg/wasp/stats-collector/cgroup_manager_linux.go:30-39 | the loop unescapes every part |
| CgroupManager.CgroupNameShape | pkg/wasp/stats-collector/cgroup_manager_linux.go:30-39 | never empty, one component more than the `-` count, no `_` in any component |
| CgroupManager.GetPodCgroupNameSuffix | pkg/wasp/stats-collector/cgroup_manager_linux.go:42-44 | `pod` followed by the UID |
| CgroupManager.SystemdStyleNameRoundTrip | pkg/wasp/stats-collector/cgroup_manager_linux.go:46-48 | systemd-style exactly when the name ends with `.slice` |
| CgroupManager.IsSystemdStyleName | pkg/wasp/stats-collector/cgroup_manager_linux.go:46-48 | reference definition; properties in SystemdStyleNameRoundTrip |
| CgroupTranslate.EscapedUid | pkg/wasp/stats-collector/pod_to_cgroupv2_translate.go:25 | same length, no `-` left |
| CgroupTranslate.PodToCgroupSlice | pkg/wasp/stats-collector/pod_to_cgroupv2_translate.go:19-27 | an error exactly for an empty UID; otherwise `pod` + escaped UID + `.slice` |
| CgroupTranslate.PodQosClassToCgroupPath | pkg/wasp/stats-collector/pod_to_cgroupv2_translate.go:29-40 | an error exactly for an unknown class; empty exactly for Guaranteed |
| CgroupTranslate.PodAbsCgroupPath | pkg/wasp/stats-collector/pod_to_cgroupv2_translate.go:42-59 | QoS error first, then UID error; a success is a `.slice` name under `/kubepods.slice/` |
| CgroupTranslate.BurstablePodPath | pkg/wasp/stats-collector/pod_to_cgroupv2_translate.go:42-59 | a Burstable pod's path is `/kubepods.slice/kubepods-burstable.slice/kubepods-burstable-<slice>` |
| CgroupTranslate.GuaranteedPodPath | pkg/wasp/stats-collector/pod_to_cgroupv2_translate.go:42-59 | a Guaranteed pod's path is `/kubepods.slice/.slice/-<slice>` |
| CgroupTranslate.PodCgroupRoundTrip | pkg/wasp/stats-collector/cgroup_manager_linux.go:30-44 | parsing a pod's path back ends with `pod<UID>` for a UID without `_` |
| CgroupTranslate.ContainerPathsProperties | pkg/wasp/stats-collector/pod_to_cgroupv2_translate.go:69-82 | a name is mapped exactly when a ready, running status with a two-part ID has it; every value is `<pod path>/crio-….scope` |
| CgroupTranslate.ContainerPaths | pkg/wasp/stats-collector/pod_to_cgroupv2_translate.go:61-89 | reference definition; properties in ContainerPathsProperties |
| CgroupTranslate.PodContainersToCgroupPath | pkg/wasp/stats-collector/pod_to_cgroupv2_translate.go:61-89 | a path error is passed on; otherwise the scope map, or an error when it is empty |
| PodStatsCollector.LatestContainerStats | pkg/wasp/stats-collector/pod_stats_collector.go:399-409 | the last sample, absent when there is none or it is nil |
| PodStatsCollector.MemoryAvailableBytes | pkg/wasp/stats-collector/pod_stats_collector.go:411-454 | available bytes exactly when memory is measured and the limit is not unlimited, equal to the limit less the working set |
| PodStatsCollector.IsMemoryUnlimited | pkg/wasp/stats-collector/pod_stats_collector.go:456-463 | reference definition; properties in MemoryAvailableBytes and SwapAvailableBytes |
| PodStatsCollector.SwapAvailableBytes | pkg/wasp/stats-collector/pod_stats_collector.go:469-490 | swap stats exactly when memory is measured; swap available exactly when the swap limit is not unlimited, equal to the limit less the swap used |
| PodStatsCollector.IsContainerTerminated | pkg/wasp/stats-collector/pod_stats_collector.go:336-358 | the interface loop computes the termination test in the source's order |
| PodStatsCollector.UsageMeansNotTerminated | pkg/wasp/stats-collector/pod_stats_collector.go:317-358 | a record with CPU and memory usage is never terminated |
| PodStatsCollector.HasMemoryAndCpuInstUsage | pkg/wasp/stats-collector/pod_stats_collector.go:317-329 | reference definition; properties in UsageMeansNotTerminated and LatestWithUsage |
| PodStatsCollector.ContainerTerminated | pkg/wasp/stats-collector/pod_stats_collector.go:336-358 | reference definition; properties in IsContainerTerminated and UsageMeansNotTerminated |
| PodStatsCollector.ByCreationTimeLessOrder | pkg/wasp/stats-collector/pod_stats_collector.go:291-300 | ordered by creation time on distinct times; the tie-break makes a record with usage less than itself |
| PodStatsCollector.ByCreationTimeLess | pkg/wasp/stats-collector/pod_stats_collector.go:291-300 | reference definition; properties in ByCreationTimeLessOrder |
| PodStatsCollector.ByPodCgroupKeyProperties | pkg/wasp/stats-collector/pod_stats_collector.go:241-251 | every entry is filed under its last cgroup component, and every filed record comes from such an entry |
| PodStatsCollector.ByPodCgroupKey | pkg/wasp/stats-collector/pod_stats_collector.go:238-251 | reference definition; properties in ByPodCgroupKeyProperties |
| PodStatsCollector.IsPodManagedContainer | pkg/wasp/stats-collector/pod_stats_collector.go:212-215 | reference definition; properties in IdsMembers |
| PodStatsCollector.IdsMembers | pkg/wasp/stats-collector/pod_stats_collector.go:252-262 | a container is grouped exactly when some pod-managed entry belongs to it |
| PodStatsCollector.LatestWithUsage | pkg/wasp/stats-collector/pod_stats_collector.go:274-280 | the latest-created record with usage, none exactly when no record has usage |
| PodStatsCollector.Kept | pkg/wasp/stats-collector/pod_stats_collector.go:265-281 | the record kept for a container comes from its group |
| PodStatsCollector.KeptMapProperties | pkg/wasp/stats-collector/pod_stats_collector.go:264-282 | every record in the map is an input entry of a pod-managed container and is the record kept for that container |
| PodStatsCollector.KeptMapComplete | pkg/wasp/stats-collector/pod_stats_collector.go:264-282 | with distinct cgroup names, the record kept for each listed container is in the map under its cgroup name: a lone record that is not terminated, or the latest-created record with usage |
| PodStatsCollector.KeptMapHoldsEveryKept | pkg/wasp/stats-collector/pod_stats_collector.go:264-282 | with distinct cgroup names, every container that has a kept record has it in the map |
| PodStatsCollector.KeptRecordsCounted | pkg/wasp/stats-collector/pod_stats_collector.go:133-158 | with distinct cgroup names, every container whose kept record is counted gives its pod a kept, counted record |
| PodStatsCollector.KeptMap | pkg/wasp/stats-collector/pod_stats_collector.go:238-282 | reference definition; properties in KeptMapProperties and KeptMapComplete |
| PodStatsCollector.OneCgroupPerContainer | pkg/wasp/stats-collector/pod_stats_collector.go:264-282 | two kept cgroups belong to different containers |
| PodStatsCollector.GroupedStep | pkg/wasp/stats-collector/pod_stats_collector.go:252-262 | one more entry keeps the groups in line with the entries seen |
| PodStatsCollector.SelectLatestWithUsage | pkg/wasp/stats-collector/pod_stats_collector.go:274-280 | the selection loop finds the latest record with usage |
| PodStatsCollector.LastOfCgroupName | pkg/wasp/stats-collector/pod_stats_collector.go:245-246 | a parsed cgroup name has a last component |
| PodStatsCollector.PodCgroupKeyOf | pkg/wasp/stats-collector/pod_stats_collector.go:242-250 | the last systemd component for a `.slice` name, the path base otherwise |
| PodStatsCollector.FilterTerminatedContainerInfoAndAssembleByPodCgroupKey | pkg/wasp/stats-collector/pod_stats_collector.go:238-283 | returns KeptMap and ByPodCgroupKey of the records and, when cgroup names are distinct, holds the kept record of every container under its cgroup name |
| PodStatsCollector.GroupByContainer | pkg/wasp/stats-collector/pod_stats_collector.go:241-263 | the first loop groups the entries by container and files every record by key |
| PodStatsCollector.KeepOnePerContainer | pkg/wasp/stats-collector/pod_stats_collector.go:264-281 | the second loop keeps a lone unterminated record or the latest with usage |
| PodStatsCollector.GetCadvisorPodInfoFromPodUID | pkg/wasp/stats-collector/pod_stats_collector.go:225-230 | the record filed under `pod<UID>`, absent exactly when there is none |
| PodStatsCollector.ContainerStepsProperties | pkg/wasp/stats-collector/pod_stats_collector.go:133-180 | the summary loop keeps summaries valid, files one per listed pod, lists a pod only for a kept counted record, each once |
| PodStatsCollector.ContainerStepsComplete | pkg/wasp/stats-collector/pod_stats_collector.go:133-158 | every pod some kept, counted record belongs to is listed |
| PodStatsCollector.ContainerStepsContainers | pkg/wasp/stats-collector/pod_stats_collector.go:133-180 | the loop leaves every pod's containers map equal to ContainersOf its map before the loop |
| PodStatsCollector.ContainersOfKeys | pkg/wasp/stats-collector/pod_stats_collector.go:165-179 | a container name is in the pod's map exactly when it was before or some kept, counted record of the pod has that name, `POD` excluded |
| PodStatsCollector.ContainersOfUntouched | pkg/wasp/stats-collector/pod_stats_collector.go:165-179 | a name no record of the call contributes keeps its earlier summary |
| PodStatsCollector.ContainersOfLastWins | pkg/wasp/stats-collector/pod_stats_collector.go:165-179 | the last record contributing a name gives it that record's swap limit, swap in use and working set |
| PodStatsCollector.PodStep | pkg/wasp/stats-collector/pod_stats_collector.go:185-197 | fills in pod-level figures and never adds or drops a summary key |
| PodStatsCollector.PodSteps | pkg/wasp/stats-collector/pod_stats_collector.go:184-199 | one listed summary per pod, summaries' keys unchanged |
| PodStatsCollector.PodStepsProperties | pkg/wasp/stats-collector/pod_stats_collector.go:184-199 | each listed summary has the pod's UID, its containers, and the pod cgroup's working set and swap when cadvisor has it |
| PodStatsCollector.PodStatsCollectorImpl.constructor | pkg/wasp/stats-collector/pod_stats_collector.go:121 | no summaries yet |
| PodStatsCollector.PodStatsCollectorImpl.ListPodsSummary | pkg/wasp/stats-collector/pod_stats_collector.go:125-201 | a cadvisor error without the root record is returned; otherwise the two loops' list and summaries, the summaries only growing; a UID is listed exactly when some kept, counted record belongs to it, and each listed summary's containers are its earlier ones updated by that pod's records; with distinct cgroup names, the pod of every container whose kept record is counted is listed |
| PodStatsCollector.PodStatsCollectorImpl.FindRootRecord | pkg/wasp/stats-collector/pod_stats_collector.go:366-374 | finds the root cgroup's record exactly when there is one |
| PodStatsCollector.PodStatsCollectorImpl.SummarizeContainers | pkg/wasp/stats-collector/pod_stats_collector.go:133-180 | the first loop computes the summary steps |
| PodStatsCollector.PodStatsCollectorImpl.SummarizeContainer | pkg/wasp/stats-collector/pod_stats_collector.go:138-179 | one record skipped for `.mount` or unmanaged, the infra container only registers the pod, any other sets its container summary |
| PodStatsCollector.PodStatsCollectorImpl.SummarizePods | pkg/wasp/stats-collector/pod_stats_collector.go:184-199 | the second loop computes the pod steps |
| PodStatsCollector.ListedPods | pkg/wasp/stats-collector/pod_stats_collector.go:125-201 | a pod is listed exactly when a kept counted record belongs to it, each once, with its UID; each listed summary's containers are its earlier containers updated by that pod's kept, counted, non-`POD` records |
| PodStatsCollector.ListedSummaries | pkg/wasp/stats-collector/pod_stats_collector.go:125-201 | a UID is listed exactly when some kept, counted record belongs to it; each summary's containers are ContainersOf its earlier containers |
| PodStatsCollector.UidsOfListed | pkg/wasp/stats-collector/pod_stats_collector.go:184-199 | one summary per listed pod, in order, gives exactly the listed pods' UIDs |
| CrioParser.ToConfig | pkg/wasp/config/crio_parser.go:104-108 | a non-empty decoded value replaces the runtime; an empty one leaves it |
| CrioParser.Config.constructor | pkg/wasp/config/crio_parser.go:26-32 | the two paths and the default runtime `crun` |
| CrioParser.Config.ToConfigFrom | pkg/wasp/config/crio_parser.go:104-108 | overwrites the runtime as `toConfig` says |
| CrioParser.Config.UpdateFromFile | pkg/wasp/config/crio_parser.go:52-70 | a read error is returned, a decode error wrapped, a decoded file applied |
| CrioParser.Config.UpdateFromPath | pkg/wasp/config/crio_parser.go:73-94 | a missing path does nothing; the walk skips directories, stops at the first error and wraps it as `walk path` |
| CrioParser.Config.GetRuntime | pkg/wasp/config/crio_parser.go:34-49 | main file then drop-ins, runtime or error |
| CrioParser.LastNonEmptyIsLast | pkg/wasp/config/crio_parser.go:104-108 | folding `toConfig` ends with the last non-empty value, or the start |
| CrioParser.CleanWalk | pkg/wasp/config/crio_parser.go:79-91 | a walk without errors ends with the last non-empty value it read |
| CrioParser.LayeredRuntime | pkg/wasp/config/crio_parser.go:34-48 | with clean files the runtime is the last non-empty value of main then drop-ins, else `crun` |
| CrioParser.ApplyFile | pkg/wasp/config/crio_parser.go:52-70 | reference definition; properties in MainFileErrors, RuntimeNeverEmpty and CleanWalk |
| CrioParser.ApplyWalk | pkg/wasp/config/crio_parser.go:79-91 | reference definition; properties in CleanWalk, CleanWalkPrefix, ApplyWalkNeverEmpty and DropInDecodeError |
| CrioParser.ApplyPath | pkg/wasp/config/crio_parser.go:73-94 | reference definition; properties in LayeredRuntime and DropInDecodeError |
| CrioParser.Runtime | pkg/wasp/config/crio_parser.go:34-49 | reference definition; properties in LayeredRuntime, NoFilesMeansCrun and MainFileErrors |
| CrioParser.NoFilesMeansCrun | pkg/wasp/config/crio_parser.go:110-117 | no configuration files give `crun` |
| CrioParser.RuntimeNeverEmpty | pkg/wasp/config/crio_parser.go:104-108 | the runtime never becomes empty |
| CrioParser.ApplyWalkNeverEmpty | pkg/wasp/config/crio_parser.go:79-91 | a walk never empties the runtime |
| CrioParser.MainFileErrors | pkg/wasp/config/crio_parser.go:35-42 | any main-file failure other than absence is returned before the drop-ins; absence is skipped |
| CrioParser.CleanWalkPrefix | pkg/wasp/config/crio_parser.go:79-91 | a clean stretch of the walk only advances the runtime |
| CrioParser.DropInDecodeError | pkg/wasp/config/crio_parser.go:62-65 | a drop-in decode error ends the walk, wrapped as `walk path` |
| OciHookRender.RuntimeCmd | pkg/wasp/oci-hook-render/render.go:34-43 | `runc` gives exactly `runc update $CONTAINERID --memory-swap -1` and `crun` exactly `crun update --memory-swap=-1 $CONTAINERID`, each ending in a newline; any other runtime is the unsupported error |
| OciHookRender.RuntimeCmdShape | pkg/wasp/oci-hook-render/render.go:35-38 | each command is one line running the runtime's `update` |
| OciHookRender.ExecuteLength | pkg/wasp/oci-hook-render/render.go:50-53 | the rendered length is the template text plus the command once per action |
| OciHookRender.ExecuteAppend | pkg/wasp/oci-hook-render/render.go:50-53 | rendering distributes over template concatenation |
| OciHookRender.Renderer.constructor | pkg/wasp/oci-hook-render/render.go:15-21 | stores the paths and the runtime |
| OciHookRender.Renderer.Render | pkg/wasp/oci-hook-render/render.go:27-60 | an unsupported runtime errors before the file is created; a parse or execute error leaves it empty; success writes the rendered template |
| WaspPrototype.Push | src/lib.rs:67-68 | the result ends with the pushed component |
| WaspPrototype.CgFullPathJoins | src/lib.rs:65-72 | for plain components the full path is `/sys/fs/cgroup/<cg>/<key>` with one leading `/` stripped from each |
| WaspPrototype.CgFullPathEdges | src/lib.rs:65-72 | the root cgroup gives the key under `/sys/fs/cgroup/`; a cgroup starting with `//` replaces the root |
| WaspPrototype.FS.NewMock | src/lib.rs:20-25 | an empty mock |
| WaspPrototype.FS.Find | src/lib.rs:26-34 | exactly the keys under the path that match, each once |
| WaspPrototype.FS.ReadToString | src/lib.rs:43-50 | the stored content |
| WaspPrototype.FS.Exists | src/lib.rs:51-57 | true exactly when the key is in the mock |
| WaspPrototype.FS.WriteString | src/lib.rs:58-64 | stores the value under the path |
| WaspPrototype.FS.CgHasInterface | src/lib.rs:73-77 | true exactly when the full path exists |
| WaspPrototype.FS.CgSet | src/lib.rs:78-82 | prints the line and writes the value at the full path |
| WaspPrototype.WriteThenRead | src/lib.rs:43-64 | after a write the path exists and reads back the value; no other path changes |
| WaspPrototype.CollectedMembers | src/lib.rs:105-117 | the loop pushes exactly the swap-capable cgroups of the process files |
| WaspPrototype.InsertProperties | src/lib.rs:118 | inserting into an ordered set keeps it strictly increasing and adds exactly the element |
| WaspPrototype.FromIterProperties | src/lib.rs:118-120 | collecting through an ordered set gives the distinct elements in increasing order |
| WaspPrototype.StrictlySortedUnique | src/lib.rs:118-120 | the output depends only on the set of elements |
| WaspPrototype.FilterSorted | src/lib.rs:126-130 | filtering keeps the order increasing |
| WaspPrototype.SwapFileIsNotProcFile | src/lib.rs:105-111 | a swap limit file is never a process cgroup file |
| WaspPrototype.ProcCgroupsHaveSwap | src/lib.rs:111 | every collected cgroup has its swap limit file |
| WaspPrototype.OverwriteKeepsProcCgroups | src/lib.rs:155-163 | writing zeros to existing swap files adds no file and keeps the cgroups of processes |
| WaspPrototype.WaspAgent.constructor | src/lib.rs:95-100 | stores the file system |
| WaspPrototype.WaspAgent.CgroupsOfProcs | src/lib.rs:102-121 | exactly the swap-capable cgroups of processes, strictly increasing |
| WaspPrototype.WaspAgent.KubeContainerCgroups | src/lib.rs:123-131 | exactly those containing `kubepods.slice` and not `conmon`, increasing |
| WaspPrototype.WaspAgent.NonKubeContainerCgroups | src/lib.rs:133-142 | exactly the others, increasing |
| WaspPrototype.WaspAgent.ConfigureContainerSwap | src/lib.rs:144-147 | writes `0` to the cgroup's swap limit and prints the line |
| WaspPrototype.WaspAgent.ConfigureNodeSwap | src/lib.rs:155-163 | writes `0` to the swap limit of every cgroup of a process, non-kube then kube, each once; no other file changes |
| WaspPrototype.WaspAgent.WriteAll | src/lib.rs:157-159 | the first loop writes `0` for each cgroup in order |
| WaspPrototype.WaspAgent.ConfigureAll | src/lib.rs:160-162 | the second loop writes `0` for each cgroup in order through `configure_container_swap` |
| WaspPrototype.NodeSwapResult | src/lib.rs:155-163 | the two loops together overwrite exactly the swap files of the cgroups of processes and add no file |
| WaspPrototype.WriteStep | src/lib.rs:157-162 | one more write extends the overwritten set and the printed lines |
| WaspPrototype.PathsWithin | src/lib.rs:155-163 | the written files exist and are not process cgroup files |
| WaspPrototype.OverwritePartition | src/lib.rs:155-163 | the two loops write exactly the swap files of all the cgroups of processes |
| WaspPrototype.KubePartition | src/lib.rs:133-142 | kube and non-kube cgroups are disjoint and together are all of them |
| WaspPrototype.FixtureCgroups | src/lib.rs:174-183 | two processes in plain cgroups with swap files give exactly those two cgroups |
| WaspPrototype.KubeCgroupShape | src/lib.rs:175-176 | the fixture's pod cgroup is a Kubernetes container cgroup |
| WaspPrototype.LogindCgroupShape | src/lib.rs:180-181 | the logind cgroup is not |
| WaspPrototype.GoodWalkCgroups | src/lib.rs:170-190 | the fixture's cgroups are the two, the first the Kubernetes one |
| WaspPrototype.GoodWalk | src/lib.rs:170-190 | one Kubernetes container cgroup and one other |

## Left out

- Startup and wiring: informers, clients, cadvisor start-up, the manifest and alert generation, the pod evictor's API calls, the Rust binary's `main.rs`. Eviction is recorded as an action.
- Concurrency: the worker goroutines, the stats collector's mutex, the work queue's coalescing and backoff timing, informer sync waits. One sequential caller is modelled.
- Logging is left out everywhere; where the source only logs an error and carries on, the model carries on.
- ShortageDetector.HighTraffic: the float32 rate division is exact real arithmetic, so rates close to a threshold may decide differently from the source.
- LimitedSwap.CalcSwapForBurstablePods: the float64 proportion is exact real arithmetic, and `int64` of a value out of range is not modelled (truncation of the exact value).
- LimitedSwap.LimitedSwapManager.Execute: requires a positive node memory. On a zero-memory node the source divides by zero in float64 and converts the infinite or NaN result to `int64`, which is not modelled.
- LimitedSwap.LimitedSwapManager.ExecuteKey: requires a positive node memory, for the same reason as Execute.
- ShortageDetector.MaxVirtualMemory and ShortageDetector.ShortageDetectorImpl.constructor: the product of the total swap and the utilization factor is exact real arithmetic rather than float64, so values near an integer may round differently. The constructor requires a non-negative factor, which the source does not check. The source's conversion of an out-of-range float to `uint64` depends on the Go implementation; the model takes the floor of the exact product and then wraps the sum modulo 2^64.
- ShortageDetector.ShortageDetectorImpl.constructor: the seven-parameter form of `NewShortageDetectorImpl` is modelled; the five-argument call in the controller's constructor does not match it, and the model builds the detector with all seven.
- StatsCollector.Stats carries `free`, `buffers` and `cache`, which the shortage detector reads but the source's `Stats` struct lacks.
- PodRanker.RankComparators: the undefined `exceedMemory(summary, f)` is read as `exceedMemoryLimits` then `exceedMemoryRequests`.
- PodRanker.SummaryOf: the summary fields are plain `uint64`, so the nil check of the lookup always passes and the first summary with the UID is returned.
- Unsigned subtractions in the detector and in the available-bytes figures are modelled modulo 2^64.
- RankUtils.MultiSorter.Sort: the standard library sort is modelled as an insertion sort; the order of equal pods may differ from the library's.
- Taints.AddWaspEvictionTaint and Taints.RemoveWaspEvictionTaint leave out the `json.Marshal` error branch: marshalling a map of taint records cannot fail, so the patch body is not modelled and only the patch error is.
- The controller's private copies of the taint functions are the same as those of the taints package and are modelled once, in `Taints`.
- Eviction controller: the errors of the taint patches are only logged, so the model records the patch call and ignores its outcome.
- LimitedSwap.SetSwapLimit: `cgroups.WriteFile` is a recorded write whose success is an input; the container runtime's cgroup lookup (`getContainerCgroupPath`, the gRPC status call, `/host/proc` parsing) is an input function.
- `createPod` is registered as the delete handler, and the model keeps that registration in the text only: the handler's behaviour is modelled as written.
- `path.Join` and `filepath.Base` are modelled as plain `/`-joins and the part after the last `/`, which agree with Go for the component shapes these files use.
- PodStatsCollector: cadvisor's map is a sequence in walk order, so the order of map iteration is fixed by the input.
- PodStatsCollector.LatestWithUsage: the sort by creation time and the scan from the newest are stated by their result; at equal creation times the later entry wins.
- PodStatsCollector: a nil memory or swap figure reads as zero where the source would dereference it.
- PodStatsCollector: network, CPU and process stats are not summarised; network stats enter only the termination test.
- `GetPodSummary` and `Init` of the pod stats collector are left out; `Init` only starts cadvisor.
- The label getters (`GetPodName`, `GetPodNamespace`, `GetPodUID`, `GetContainerName`) and the constant `PodInfraContainerName` are not part of this model's sources; the labels are record fields and the infrastructure name is `POD`, the kubelet's.
- CrioParser: TOML decoding is a given per-file result, and the walk of the drop-in path is a given sequence of entries.
- OciHookRender: template parsing is a given sequence of pieces, file creation and execution errors are inputs, and closing the file is left out.
- OciHookRender.Renderer.Render: on an execution error the file keeps what was written before the failure in the source; the model leaves it empty.
- WaspPrototype: the real file system mode of `FS` and `env_logger` are left out; `find` over the mock is modelled, with the glob `**/cgroup` read as a path equal to or ending in `/cgroup`.
- WaspPrototype.FS.Find: the order of the `HashMap` keys is unspecified; the model states only which keys are returned, each once.
- WaspPrototype.WaspAgent.CgroupsOfProcs: `raw[3..]` counts characters rather than bytes, and a file shorter than three bytes makes the source panic; the model requires every process cgroup file to hold three characters.
- `CrioHacker` is not part of this model; the prototype's helpers `cri_get_container_id_from_cgroup` and `get_swap_resource_from_container_cgroup` return constants and are unused.
