/** The rules written out, key by key and kind by kind, without the predicates that the
    rest of the model is built from: what an object charges, what an annotator writes,
    which keys are recorded, and which pods and projects are let in. */
module WrittenOut {
  import opened ResourceModel
  import opened Tally
  import opened Accounting
  import opened Admission

  // ---- What an object charges ----

  /** What storing a new object adds to the usage of some namespaces. */
  ghost function Added(objects: Store, k: ObjectKey, o: Object, namespaces: set<string>, r: ResourceName): int {
    Usage(objects[k := o], namespaces, r) - Usage(objects, namespaces, r)
  }

  predicate Charged(k: ObjectKey, o: Object, namespaces: set<string>) {
    k.ns in namespaces && ANNOTATION in o.annotations
  }

  lemma AddedIsShare(objects: Store, k: ObjectKey, o: Object, namespaces: set<string>, r: ResourceName)
    requires k !in objects
    ensures Added(objects, k, o, namespaces, r) == Share(Selector(namespaces, r, false), k, o)
  {
    SumPut(objects, Selector(namespaces, r, false), k, o);
  }

  /** Nothing is charged for an empty cluster, for an object without the annotation or in
      another namespace. */
  lemma NothingAdded(objects: Store, k: ObjectKey, o: Object, namespaces: set<string>, r: ResourceName)
    requires k !in objects
    ensures Usage(map[], namespaces, r) == 0
    ensures !Charged(k, o, namespaces) ==> Added(objects, k, o, namespaces, r) == 0
  {
    SumNothing(map[], Selector(namespaces, r, false));
    AddedIsShare(objects, k, o, namespaces, r);
  }

  /** An annotated pod adds one to pods and its requests and limits to the compute keys,
      unless it has succeeded or failed; then it adds nothing. */
  lemma PodAdds(objects: Store, k: ObjectKey, o: Object, namespaces: set<string>, r: ResourceName)
    requires k !in objects && k.kind == Pod && Charged(k, o, namespaces)
    ensures o.phase == Succeeded || o.phase == Failed ==> Added(objects, k, o, namespaces, r) == 0
    ensures o.phase != Succeeded && o.phase != Failed ==>
              Added(objects, k, o, namespaces, r)
              == match r
                 case Pods => 1
                 case Cpu => Amount(o.requests, Cpu)
                 case Memory => Amount(o.requests, Memory)
                 case Storage => Amount(o.requests, Storage)
                 case EphemeralStorage => Amount(o.requests, EphemeralStorage)
                 case RequestsCpu => Amount(o.requests, Cpu)
                 case RequestsMemory => Amount(o.requests, Memory)
                 case RequestsStorage => Amount(o.requests, Storage)
                 case RequestsEphemeralStorage => Amount(o.requests, EphemeralStorage)
                 case LimitsCpu => Amount(o.limits, Cpu)
                 case LimitsMemory => Amount(o.limits, Memory)
                 case LimitsEphemeralStorage => Amount(o.limits, EphemeralStorage)
                 case _ => 0
  {
    AddedIsShare(objects, k, o, namespaces, r);
  }

  /** Any other annotated object adds one to the key of its kind, and a service one to
      the key of its type. */
  lemma ObjectAdds(objects: Store, k: ObjectKey, o: Object, namespaces: set<string>, r: ResourceName)
    requires k !in objects && k.kind != Pod && Charged(k, o, namespaces)
    ensures Added(objects, k, o, namespaces, r)
            == match r
               case ConfigMaps => if k.kind == ConfigMap then 1 else 0
               case PersistentVolumeClaims => if k.kind == PersistentVolumeClaim then 1 else 0
               case ReplicationControllers => if k.kind == ReplicationController then 1 else 0
               case Quotas => if k.kind == ResourceQuota then 1 else 0
               case Secrets => if k.kind == Secret then 1 else 0
               case Services => if k.kind == Service then 1 else 0
               case ServicesNodePorts => if k.kind == Service && o.serviceType == NodePort then 1 else 0
               case ServicesLoadBalancers => if k.kind == Service && o.serviceType == LoadBalancer then 1 else 0
               case _ => 0
  {
    AddedIsShare(objects, k, o, namespaces, r);
  }

  // ---- What is limited and recorded ----

  /** The key that switches a kind on. */
  predicate LimitsKind(hard: ResourceList, kind: Kind) {
    match kind
    case ConfigMap => ConfigMaps in hard
    case PersistentVolumeClaim => PersistentVolumeClaims in hard
    case Pod => Pods in hard
    case ReplicationController => ReplicationControllers in hard
    case ResourceQuota => Quotas in hard
    case Secret => Secrets in hard
    case Service => Services in hard
  }

  /** The recorded keys of a project that lists a namespace are the supported ones of hard
      whose switch is in hard too; each records what its namespaces are charged. */
  lemma RecordedKeys(hard: ResourceList, objects: Store, namespaces: seq<string>, r: ResourceName)
    ensures r in Recount(hard, objects, Cells(namespaces)) <==>
              && namespaces != [] && r in hard
              && match r
                 case ConfigMaps | PersistentVolumeClaims | ReplicationControllers | Quotas | Secrets => true
                 case Services | ServicesNodePorts | ServicesLoadBalancers => Services in hard
                 case Other(_) => false
                 case _ => Pods in hard
    ensures Amount(Recount(hard, objects, Cells(namespaces)), r)
            == if r in Recount(hard, objects, Cells(namespaces)) then UsageBySequence(objects, namespaces, r) else 0
  {
    RecountKeys(hard, objects, namespaces, r);
    RecountIsUsage(hard, objects, namespaces, r);
  }

  // ---- What the annotators write ----

  /** Project n is live, lists the namespace and limits the kind. */
  predicate Owns(projects: ProjectStore, n: string, k: ObjectKey) {
    n in projects && !projects[n].deleting && k.ns in projects[n].namespaces && LimitsKind(projects[n].hard, k.kind)
  }

  /** The annotator writes the name of the owner, over any name submitted, and nothing
      else; without an owner it writes nothing. */
  lemma AnnotatorIsExact(projects: ProjectStore, k: ObjectKey, o: Object)
    requires Disjoint(projects)
    ensures forall n :: Owns(projects, n, k) ==> Defaulted(projects, k, o) == o.(annotations := o.annotations[ANNOTATION := n])
    ensures (forall n :: !Owns(projects, n, k)) ==> Defaulted(projects, k, o) == o
  {
    assert forall n :: Owns(projects, n, k) <==> Gates(projects, n, k);
  }

  // ---- Which pods fit ----

  /** The eleven rows: request, recorded amount and limit of each compute key. */
  predicate Row(p: Prq, o: Object, r: ResourceName) {
    match r
    case Cpu => Amount(o.requests, Cpu) + Amount(p.used, Cpu) <= Amount(p.hard, Cpu)
    case Memory => Amount(o.requests, Memory) + Amount(p.used, Memory) <= Amount(p.hard, Memory)
    case Storage => Amount(o.requests, Storage) + Amount(p.used, Storage) <= Amount(p.hard, Storage)
    case EphemeralStorage => Amount(o.requests, EphemeralStorage) + Amount(p.used, EphemeralStorage) <= Amount(p.hard, EphemeralStorage)
    case RequestsCpu => Amount(o.requests, Cpu) + Amount(p.used, RequestsCpu) <= Amount(p.hard, RequestsCpu)
    case RequestsMemory => Amount(o.requests, Memory) + Amount(p.used, RequestsMemory) <= Amount(p.hard, RequestsMemory)
    case RequestsStorage => Amount(o.requests, Storage) + Amount(p.used, RequestsStorage) <= Amount(p.hard, RequestsStorage)
    case RequestsEphemeralStorage =>
      Amount(o.requests, EphemeralStorage) + Amount(p.used, RequestsEphemeralStorage) <= Amount(p.hard, RequestsEphemeralStorage)
    case LimitsCpu => Amount(o.limits, Cpu) + Amount(p.used, LimitsCpu) <= Amount(p.hard, LimitsCpu)
    case LimitsMemory => Amount(o.limits, Memory) + Amount(p.used, LimitsMemory) <= Amount(p.hard, LimitsMemory)
    case LimitsEphemeralStorage =>
      Amount(o.limits, EphemeralStorage) + Amount(p.used, LimitsEphemeralStorage) <= Amount(p.hard, LimitsEphemeralStorage)
    case _ => true
  }

  lemma RowIsFit(p: Prq, o: Object, r: ResourceName)
    ensures Row(p, o, r) <==> (IsCompute(r) ==> Fits(p, r, Demand(r, o)))
  {
  }

  /** A pod fits exactly if the count has room and every row holds. */
  lemma PodRows(p: Prq, o: Object)
    ensures PodFits(p, o) <==> Amount(p.used, Pods) < Amount(p.hard, Pods) && forall r :: Row(p, o, r)
  {
    forall r ensures Row(p, o, r) <==> (IsCompute(r) ==> Fits(p, r, Demand(r, o))) {
      RowIsFit(p, o, r);
    }
  }

  /** The order in which the rows are looked at. */
  function FirstRefused(fits: ResourceName -> bool): Option<ResourceName> {
    if !fits(Cpu) then Some(Cpu)
    else if !fits(Memory) then Some(Memory)
    else if !fits(Storage) then Some(Storage)
    else if !fits(EphemeralStorage) then Some(EphemeralStorage)
    else if !fits(RequestsCpu) then Some(RequestsCpu)
    else if !fits(RequestsMemory) then Some(RequestsMemory)
    else if !fits(RequestsStorage) then Some(RequestsStorage)
    else if !fits(RequestsEphemeralStorage) then Some(RequestsEphemeralStorage)
    else if !fits(LimitsCpu) then Some(LimitsCpu)
    else if !fits(LimitsMemory) then Some(LimitsMemory)
    else if !fits(LimitsEphemeralStorage) then Some(LimitsEphemeralStorage)
    else None
  }

  /** What a pod is refused for: the count, or the first row that it does not fit. */
  function FirstShortage(p: Prq, o: Object): Option<ResourceName> {
    if Amount(p.used, Pods) >= Amount(p.hard, Pods) then Some(Pods) else FirstRefused(r => Row(p, o, r))
  }

  // ---- Which counted objects fit ----

  predicate CountHasRoom(p: Prq, kind: Kind) {
    match kind
    case ConfigMap => Amount(p.used, ConfigMaps) < Amount(p.hard, ConfigMaps)
    case PersistentVolumeClaim => Amount(p.used, PersistentVolumeClaims) < Amount(p.hard, PersistentVolumeClaims)
    case Pod => Amount(p.used, Pods) < Amount(p.hard, Pods)
    case ReplicationController => Amount(p.used, ReplicationControllers) < Amount(p.hard, ReplicationControllers)
    case ResourceQuota => Amount(p.used, Quotas) < Amount(p.hard, Quotas)
    case Secret => Amount(p.used, Secrets) < Amount(p.hard, Secrets)
    case Service => Amount(p.used, Services) < Amount(p.hard, Services)
  }

  // ---- Which projects are let in ----

  /** A project is let in exactly if with it the stored projects still list disjoint
      namespaces, and every name it limits is supported. */
  lemma ProjectAdmissionIsExact(projects: ProjectStore, p: Prq)
    requires Disjoint(projects)
    ensures AdmitsProject(projects, p) <==> Disjoint(projects[p.name := p]) && forall text :: Other(text) !in p.hard
  {
    var after := projects[p.name := p];
    if Disjoint(after) {
      forall n, ns | n in projects && n != p.name && ns in p.namespaces ensures ns !in projects[n].namespaces {
        assert after[n] == projects[n] && after[p.name] == p;
      }
    }
    assert SupportedNames(p.hard) <==> forall text :: Other(text) !in p.hard by {
      assert forall r: ResourceName :: r.Other? ==> r == Other(r.text);
    }
  }
}
