/** The values the project works on: resource names, tracked objects and
    ProjectResourceQuota records, and what one object charges to one resource.

    A Quantity is a natural number in a fixed sub-unit.  A ResourceList is a
    map, and reading an absent key gives zero, as reading a Go map does.
 */
module ResourceModel {

  datatype Option<+T> = None | Some(value: T)

  const ANNOTATION := "project-resource-quota"
  const FINALIZER := "jenting.io/finalizer"

  datatype Kind =
    | ConfigMap
    | PersistentVolumeClaim
    | Pod
    | ReplicationController
    | ResourceQuota
    | Secret
    | Service

  /** The twenty supported names, and every other string. */
  datatype ResourceName =
    | Cpu
    | Memory
    | Storage
    | EphemeralStorage
    | Pods
    | Services
    | ReplicationControllers
    | Quotas
    | Secrets
    | ConfigMaps
    | PersistentVolumeClaims
    | ServicesNodePorts
    | ServicesLoadBalancers
    | RequestsCpu
    | RequestsMemory
    | RequestsStorage
    | RequestsEphemeralStorage
    | LimitsCpu
    | LimitsMemory
    | LimitsEphemeralStorage
    | Other(text: string)

  type ResourceList = map<ResourceName, nat>

  function Amount(list: ResourceList, r: ResourceName): nat {
    if r in list then list[r] else 0
  }

  /** The kind whose objects are counted under r. */
  function KindOf(r: ResourceName): Option<Kind> {
    match r
    case ConfigMaps => Some(ConfigMap)
    case PersistentVolumeClaims => Some(PersistentVolumeClaim)
    case ReplicationControllers => Some(ReplicationController)
    case Quotas => Some(ResourceQuota)
    case Secrets => Some(Secret)
    case Services => Some(Service)
    case ServicesNodePorts => Some(Service)
    case ServicesLoadBalancers => Some(Service)
    case Other(_) => None
    case _ => Some(Pod)
  }

  /** The key that must be in spec.hard before a kind is annotated, counted
      and limited at all. */
  function GateKey(kind: Kind): ResourceName {
    match kind
    case ConfigMap => ConfigMaps
    case PersistentVolumeClaim => PersistentVolumeClaims
    case Pod => Pods
    case ReplicationController => ReplicationControllers
    case ResourceQuota => Quotas
    case Secret => Secrets
    case Service => Services
  }

  /** A pod key whose value is a sum of quantities rather than a count. */
  predicate IsCompute(r: ResourceName) {
    KindOf(r) == Some(Pod) && r != Pods
  }

  datatype PodPhase = Pending | Running | Succeeded | Failed | Unknown

  datatype ServiceType = ClusterIP | NodePort | LoadBalancer | ExternalName

  datatype ObjectKey = ObjectKey(kind: Kind, ns: string, name: string)

  /** A stored object.  requests and limits are the effective amounts of a pod;
      phase, requests and limits mean nothing for the other kinds, and
      serviceType means nothing except for a Service. */
  datatype Object = Object(
    annotations: map<string, string>,
    phase: PodPhase,
    serviceType: ServiceType,
    requests: ResourceList,
    limits: ResourceList)

  predicate Annotated(o: Object) {
    ANNOTATION in o.annotations
  }

  /** The project an object names, if any. */
  function Project(o: Object): Option<string> {
    if Annotated(o) then Some(o.annotations[ANNOTATION]) else None
  }

  predicate Terminated(o: Object) {
    o.phase == Failed || o.phase == Succeeded
  }

  /** The key of the pod's own lists that a compute key reads: the bare names and
      the requests names read the same one. */
  function BaseKey(r: ResourceName): ResourceName {
    match r
    case RequestsCpu => Cpu
    case LimitsCpu => Cpu
    case RequestsMemory => Memory
    case LimitsMemory => Memory
    case RequestsStorage => Storage
    case RequestsEphemeralStorage => EphemeralStorage
    case LimitsEphemeralStorage => EphemeralStorage
    case _ => r
  }

  predicate ReadsLimits(r: ResourceName) {
    r == LimitsCpu || r == LimitsMemory || r == LimitsEphemeralStorage
  }

  /** What a pod asks for under a compute key. */
  function Demand(r: ResourceName, o: Object): nat {
    Amount(if ReadsLimits(r) then o.limits else o.requests, BaseKey(r))
  }

  /** What an object of the kind KindOf(r) charges to r. */
  function Weight(r: ResourceName, o: Object): nat {
    match r
    case Pods => if Terminated(o) then 0 else 1
    case ServicesNodePorts => if o.serviceType == NodePort then 1 else 0
    case ServicesLoadBalancers => if o.serviceType == LoadBalancer then 1 else 0
    case Other(_) => 0
    case _ => if IsCompute(r) then (if Terminated(o) then 0 else Demand(r, o)) else 1
  }

  /** A stored ProjectResourceQuota.  recorded is status.namespaces and version
      is the resourceVersion. */
  datatype Prq = Prq(
    name: string,
    namespaces: seq<string>,
    hard: ResourceList,
    used: ResourceList,
    recorded: seq<string>,
    finalizers: seq<string>,
    deleting: bool,
    version: nat)

  function Elements<T>(xs: seq<T>): set<T> {
    set x | x in xs
  }
}
