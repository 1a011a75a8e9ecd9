/**
 * The Kubernetes objects the agent reads: pods with their containers and
 * statuses, and nodes with their taints. Values that Kubernetes' own helper
 * libraries derive from a pod (its priority, whether it is critical, its QoS
 * class, its aggregate memory request) are carried as fields of the pod and
 * are inputs of the model.
 */
module Kube {
  import opened Wrappers

  datatype QOSClass = Guaranteed | Burstable | BestEffort | UnknownQOS(name: string)

  datatype PodPhase = Pending | Running | Succeeded | Failed | Unknown

  /** Which of the three state records of a container status are present (non-nil). */
  datatype ContainerState = ContainerState(waiting: bool, running: bool, terminated: bool)

  datatype ContainerStatus = ContainerStatus(name: string, containerID: string, ready: bool, state: ContainerState)

  /** A container of the pod spec; resource lists map a resource name to a quantity. */
  datatype Container = Container(name: string, requests: map<string, int>, limits: map<string, int>)

  const ResourceMemory: string := "memory"
  const ResourceCPU: string := "cpu"

  /** `ResourceList.Memory()`: the memory quantity, zero when absent. */
  function MemoryOf(resources: map<string, int>): int {
    if ResourceMemory in resources then resources[ResourceMemory] else 0
  }

  datatype Pod = Pod(
    name: string,
    namespace: string,
    uid: string,
    nodeName: string,
    containers: seq<Container>,
    initContainers: seq<Container>,
    overhead: Option<map<string, int>>,
    phase: PodPhase,
    statusQOSClass: QOSClass,
    containerStatuses: seq<ContainerStatus>,
    initContainerStatuses: seq<ContainerStatus>,
    // Derived by Kubernetes helpers, given to the model as inputs:
    priority: int,        // corev1helpers.PodPriority
    critical: bool,       // IsCriticalPod
    qos: QOSClass,        // qos.GetPodQOS
    memoryRequest: int    // resource.GetResourceRequestQuantity(pod, memory)
  )

  datatype TaintEffect = NoSchedule | PreferNoSchedule | NoExecute | OtherEffect(name: string)

  datatype Taint = Taint(key: string, value: string, effect: TaintEffect)

  datatype Toleration = Toleration(key: string, operator: string, value: string, effect: Option<TaintEffect>)

  datatype Node = Node(name: string, taints: seq<Taint>)

  /** `cache.MetaNamespaceKeyFunc` for a pod: `namespace/name`, or `name` when the namespace is empty. */
  function MetaNamespaceKey(pod: Pod): string {
    if pod.namespace == "" then pod.name else pod.namespace + "/" + pod.name
  }
}
