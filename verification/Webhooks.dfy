/** The admission webhooks as they run: searches and tables with early return, over
    a listing of the projects in any order, proved against the functions the state
    machine uses. */
module Webhooks {
  import opened ResourceModel
  import opened Admission
  import opened Machine
  import opened Metadata
  import opened WrittenOut

  /** What a validator answers; each refusal says what it is about. */
  datatype Verdict =
    | Allowed
    | AlreadyExists
    | NotFound(project: string)
    | MissingAnnotation
    | OverQuota(resource: ResourceName)
    | NamespaceTaken(ns: string, project: string)
    | NotSupported(resource: ResourceName)
    | BelowUsed(resource: ResourceName)

  // ---- Annotators ----

  /** The annotator of every kind: the first live project that lists the namespace
      decides, and names the object if it limits the kind. */
  method Default(items: seq<Prq>, k: ObjectKey, meta: ObjectMeta)
    modifies meta`annotations
    ensures meta.annotations == match FirstMatch(items, k)
                                case Some(n) => old(meta.annotations)[ANNOTATION := n]
                                case None => old(meta.annotations)
  {
    for i := 0 to |items|
      invariant FirstMatch(items, k) == FirstMatch(items[i..], k)
      invariant meta.annotations == old(meta.annotations)
    {
      var p := items[i];
      assert items[i..][0] == p && items[i..][1..] == items[i + 1..];
      if p.deleting {
        continue;
      }
      for j := 0 to |p.namespaces|
        invariant k.ns !in p.namespaces[..j]
        invariant meta.annotations == old(meta.annotations)
      {
        if p.namespaces[j] != k.ns {
          continue;
        }
        if GateKey(k.kind) !in p.hard {
          return;
        }
        meta.AddAnnotation(ANNOTATION, p.name);
        return;
      }
    }
  }

  /** The annotator of projects. */
  method DefaultProject(deleting: bool, meta: ObjectMeta)
    modifies meta`finalizers
    ensures meta.finalizers == if deleting then old(meta.finalizers) else WithFinalizer(old(meta.finalizers))
    ensures meta.finalizers == if deleting || FINALIZER in old(meta.finalizers) then old(meta.finalizers)
                               else old(meta.finalizers) + [FINALIZER]
  {
    if deleting {
      return;
    }
    meta.AddFinalizer(FINALIZER);
  }

  // ---- Validators of objects ----

  const POD_CHECKS: seq<ResourceName> :=
    [Cpu, Memory, Storage, EphemeralStorage, RequestsCpu, RequestsMemory, RequestsStorage, RequestsEphemeralStorage,
     LimitsCpu, LimitsMemory, LimitsEphemeralStorage]

  lemma PodChecksAreAll(r: ResourceName)
    ensures r in POD_CHECKS <==> IsCompute(r)
  {
    assert POD_CHECKS[0] == Cpu && POD_CHECKS[1] == Memory && POD_CHECKS[2] == Storage && POD_CHECKS[3] == EphemeralStorage;
    assert POD_CHECKS[4] == RequestsCpu && POD_CHECKS[5] == RequestsMemory && POD_CHECKS[6] == RequestsStorage;
    assert POD_CHECKS[7] == RequestsEphemeralStorage && POD_CHECKS[8] == LimitsCpu && POD_CHECKS[9] == LimitsMemory;
    assert POD_CHECKS[10] == LimitsEphemeralStorage;
  }

  method CheckQuota(p: Prq, name: ResourceName, request: nat) returns (verdict: Verdict)
    ensures verdict == if Fits(p, name, request) then Allowed else OverQuota(name)
  {
    var total := request;
    total := total + Amount(p.used, name);
    if total > Amount(p.hard, name) {
      return OverQuota(name);
    }
    return Allowed;
  }

  /** The pod does not fit row i of the table, and fits every row before it. */
  ghost predicate FirstMisfit(p: Prq, o: Object, i: nat) {
    && i < |POD_CHECKS|
    && !Fits(p, POD_CHECKS[i], Demand(POD_CHECKS[i], o))
    && forall j :: 0 <= j < i ==> Fits(p, POD_CHECKS[j], Demand(POD_CHECKS[j], o))
  }

  /** The table of compute keys; the first row that does not fit is reported. */
  method CheckRows(p: Prq, o: Object) returns (verdict: Verdict)
    ensures verdict.Allowed? || verdict.OverQuota?
    ensures verdict.Allowed? <==> forall r :: IsCompute(r) ==> Fits(p, r, Demand(r, o))
    ensures verdict.OverQuota? ==> exists i: nat :: FirstMisfit(p, o, i) && POD_CHECKS[i] == verdict.resource
  {
    for i := 0 to |POD_CHECKS|
      invariant forall j :: 0 <= j < i ==> Fits(p, POD_CHECKS[j], Demand(POD_CHECKS[j], o))
    {
      verdict := CheckQuota(p, POD_CHECKS[i], Demand(POD_CHECKS[i], o));
      if !verdict.Allowed? {
        PodChecksAreAll(POD_CHECKS[i]);
        assert FirstMisfit(p, o, i);
        return;
      }
    }
    forall r | IsCompute(r) ensures Fits(p, r, Demand(r, o)) {
      PodChecksAreAll(r);
    }
    return Allowed;
  }

  /** The first row that does not fit is the first shortage, and there is none if every
      row fits. */
  lemma MisfitIsShortage(p: Prq, o: Object, i: nat)
    requires Below(p, Pods) && FirstMisfit(p, o, i)
    ensures FirstShortage(p, o) == Some(POD_CHECKS[i])
  {
    forall j | 0 <= j <= i ensures Row(p, o, POD_CHECKS[j]) <==> j < i {
      PodChecksAreAll(POD_CHECKS[j]);
      RowIsFit(p, o, POD_CHECKS[j]);
    }
    RowsUpTo(r => Row(p, o, r), i);
  }

  /** The table lists the rows in that order. */
  lemma RowsUpTo(fits: ResourceName -> bool, i: nat)
    requires i <= |POD_CHECKS|
    requires forall j :: 0 <= j < i ==> fits(POD_CHECKS[j])
    requires i < |POD_CHECKS| ==> !fits(POD_CHECKS[i])
    ensures FirstRefused(fits) == if i < |POD_CHECKS| then Some(POD_CHECKS[i]) else None
  {
    assert POD_CHECKS[0] == Cpu && POD_CHECKS[1] == Memory && POD_CHECKS[2] == Storage && POD_CHECKS[3] == EphemeralStorage;
    assert POD_CHECKS[4] == RequestsCpu && POD_CHECKS[5] == RequestsMemory && POD_CHECKS[6] == RequestsStorage;
    assert POD_CHECKS[7] == RequestsEphemeralStorage && POD_CHECKS[8] == LimitsCpu && POD_CHECKS[9] == LimitsMemory;
    assert POD_CHECKS[10] == LimitsEphemeralStorage;
  }

  lemma NoMisfitIsNoShortage(p: Prq, o: Object)
    requires PodFits(p, o)
    ensures FirstShortage(p, o) == None
  {
    PodRows(p, o);
    RowsUpTo(r => Row(p, o, r), |POD_CHECKS|);
  }

  /** A refused pod is told the first shortage: pods if the project holds all it may, and
      otherwise the first row of the table that it does not fit. */
  method ValidatePodCreate(projects: ProjectStore, o: Object) returns (verdict: Verdict)
    ensures verdict.Allowed? <==> AdmitsCreate(projects, Pod, o)
    ensures verdict == if ANNOTATION !in o.annotations then Allowed
                       else if o.annotations[ANNOTATION] !in projects then NotFound(o.annotations[ANNOTATION])
                       else
                         match FirstShortage(projects[o.annotations[ANNOTATION]], o)
                         case None => Allowed
                         case Some(r) => OverQuota(r)
  {
    if ANNOTATION !in o.annotations {
      return Allowed;
    }
    var n := o.annotations[ANNOTATION];
    if n !in projects {
      return NotFound(n);
    }
    var p := projects[n];
    if Amount(p.hard, Pods) <= Amount(p.used, Pods) {
      return OverQuota(Pods);
    }
    verdict := CheckRows(p, o);
    if verdict.OverQuota? {
      ghost var i: nat :| FirstMisfit(p, o, i) && POD_CHECKS[i] == verdict.resource;
      MisfitIsShortage(p, o, i);
    } else {
      NoMisfitIsNoShortage(p, o);
    }
  }

  method ValidateBelow(p: Prq, r: ResourceName) returns (verdict: Verdict)
    ensures verdict == if Below(p, r) then Allowed else OverQuota(r)
  {
    if Amount(p.hard, r) <= Amount(p.used, r) {
      return OverQuota(r);
    }
    return Allowed;
  }

  method ValidateServiceCreate(projects: ProjectStore, o: Object) returns (verdict: Verdict)
    ensures verdict.Allowed? || verdict.NotFound? || verdict.OverQuota?
    ensures verdict.Allowed? <==> AdmitsCreate(projects, Service, o)
    ensures verdict.NotFound? <==> Annotated(o) && Project(o).value !in projects
    ensures verdict.OverQuota? ==>
              && !Below(projects[Project(o).value], verdict.resource)
              && (verdict.resource == Services <==> !Below(projects[Project(o).value], Services))
              && KindOf(verdict.resource) == Some(Service)
    ensures verdict == OverQuota(ServicesNodePorts) ==> o.serviceType == NodePort
    ensures verdict == OverQuota(ServicesLoadBalancers) ==> o.serviceType == LoadBalancer
    ensures verdict.Allowed? <==>
              (ANNOTATION in o.annotations ==>
                 && o.annotations[ANNOTATION] in projects
                 && var p := projects[o.annotations[ANNOTATION]];
                    && Amount(p.used, Services) < Amount(p.hard, Services)
                    && (o.serviceType == NodePort ==> Amount(p.used, ServicesNodePorts) < Amount(p.hard, ServicesNodePorts))
                    && (o.serviceType == LoadBalancer ==> Amount(p.used, ServicesLoadBalancers) < Amount(p.hard, ServicesLoadBalancers)))
  {
    if ANNOTATION !in o.annotations {
      return Allowed;
    }
    var n := o.annotations[ANNOTATION];
    if n !in projects {
      return NotFound(n);
    }
    verdict := ValidateBelow(projects[n], Services);
    if !verdict.Allowed? {
      return;
    }
    match o.serviceType
    case NodePort => verdict := ValidateBelow(projects[n], ServicesNodePorts);
    case LoadBalancer => verdict := ValidateBelow(projects[n], ServicesLoadBalancers);
    case _ =>
  }

  /** A service that names no project is refused, and so is one whose project is at
      its limit on services, even if the update does not change the type. */
  method ValidateServiceUpdate(projects: ProjectStore, before: Object, after: Object) returns (verdict: Verdict)
    ensures verdict.Allowed? || verdict.MissingAnnotation? || verdict.NotFound? || verdict.OverQuota?
    ensures verdict.Allowed? <==> AdmitsUpdate(projects, Service, before, after)
    ensures verdict.MissingAnnotation? <==> !Annotated(after)
    ensures verdict.NotFound? <==> Annotated(after) && Project(after).value !in projects
    ensures verdict.OverQuota? ==>
              && !Below(projects[Project(after).value], verdict.resource)
              && (verdict.resource == Services <==> !Below(projects[Project(after).value], Services))
              && KindOf(verdict.resource) == Some(Service)
    ensures verdict == OverQuota(ServicesNodePorts) ==> after.serviceType == NodePort != before.serviceType
    ensures verdict == OverQuota(ServicesLoadBalancers) ==> after.serviceType == LoadBalancer != before.serviceType
    ensures verdict.Allowed? <==>
              && ANNOTATION in after.annotations && after.annotations[ANNOTATION] in projects
              && var p := projects[after.annotations[ANNOTATION]];
                 && Amount(p.used, Services) < Amount(p.hard, Services)
                 && (after.serviceType == NodePort != before.serviceType ==>
                       Amount(p.used, ServicesNodePorts) < Amount(p.hard, ServicesNodePorts))
                 && (after.serviceType == LoadBalancer != before.serviceType ==>
                       Amount(p.used, ServicesLoadBalancers) < Amount(p.hard, ServicesLoadBalancers))
  {
    if ANNOTATION !in after.annotations {
      return MissingAnnotation;
    }
    var n := after.annotations[ANNOTATION];
    if n !in projects {
      return NotFound(n);
    }
    verdict := ValidateBelow(projects[n], Services);
    if !verdict.Allowed? {
      return;
    }
    if after.serviceType == NodePort && before.serviceType != NodePort {
      verdict := ValidateBelow(projects[n], ServicesNodePorts);
      return;
    }
    if after.serviceType == LoadBalancer && before.serviceType != LoadBalancer {
      verdict := ValidateBelow(projects[n], ServicesLoadBalancers);
      return;
    }
  }

  /** The five kinds that are only counted. */
  method ValidateCountedCreate(projects: ProjectStore, kind: Kind, o: Object) returns (verdict: Verdict)
    requires kind != Pod && kind != Service
    ensures verdict.Allowed? || verdict.NotFound? || verdict.OverQuota?
    ensures verdict.Allowed? <==> AdmitsCreate(projects, kind, o)
    ensures verdict.NotFound? <==> Annotated(o) && Project(o).value !in projects
    ensures verdict.OverQuota? ==> verdict.resource == GateKey(kind) && !Below(projects[Project(o).value], GateKey(kind))
    ensures verdict.Allowed? <==>
              (ANNOTATION in o.annotations ==>
                 o.annotations[ANNOTATION] in projects && CountHasRoom(projects[o.annotations[ANNOTATION]], kind))
  {
    if ANNOTATION !in o.annotations {
      return Allowed;
    }
    var n := o.annotations[ANNOTATION];
    if n !in projects {
      return NotFound(n);
    }
    verdict := ValidateBelow(projects[n], GateKey(kind));
  }

  /** The validator of the object's kind. */
  method ValidateCreate(projects: ProjectStore, kind: Kind, o: Object) returns (verdict: Verdict)
    ensures verdict.Allowed? <==> AdmitsCreate(projects, kind, o)
    ensures verdict.NotFound? <==> Annotated(o) && Project(o).value !in projects
    ensures ANNOTATION !in o.annotations ==> verdict.Allowed?
  {
    match kind
    case Pod => verdict := ValidatePodCreate(projects, o);
    case Service => verdict := ValidateServiceCreate(projects, o);
    case _ => verdict := ValidateCountedCreate(projects, kind, o);
  }

  /** Every kind but services lets every update through. */
  method ValidateUpdate(projects: ProjectStore, kind: Kind, before: Object, after: Object) returns (verdict: Verdict)
    ensures verdict.Allowed? <==> AdmitsUpdate(projects, kind, before, after)
    ensures kind != Service ==> verdict.Allowed?
  {
    if kind == Service {
      verdict := ValidateServiceUpdate(projects, before, after);
    } else {
      verdict := Allowed;
    }
  }

  // ---- Validators of projects ----

  /** The first project of the listing that shares a namespace is reported, with a
      namespace they share. */
  method ValidateNamespace(items: seq<Prq>, name: string, namespaces: seq<string>) returns (verdict: Verdict)
    ensures verdict.Allowed? || verdict.NamespaceTaken?
    ensures verdict.Allowed? <==>
              forall i, ns :: 0 <= i < |items| && items[i].name != name && ns in namespaces ==> ns !in items[i].namespaces
    ensures verdict.NamespaceTaken? ==>
              && verdict.ns in namespaces && verdict.project != name
              && exists i :: 0 <= i < |items| && items[i].name == verdict.project && verdict.ns in items[i].namespaces
                   && forall h, ns :: 0 <= h < i && items[h].name != name && ns in namespaces ==> ns !in items[h].namespaces
  {
    for i := 0 to |items|
      invariant forall h, ns :: 0 <= h < i && items[h].name != name && ns in namespaces ==> ns !in items[h].namespaces
    {
      if name != items[i].name {
        for j := 0 to |items[i].namespaces|
          invariant forall h :: 0 <= h < j ==> items[i].namespaces[h] !in namespaces
        {
          for l := 0 to |namespaces|
            invariant items[i].namespaces[j] !in namespaces[..l]
          {
            if items[i].namespaces[j] == namespaces[l] {
              assert namespaces[l] in namespaces && items[i].namespaces[j] in items[i].namespaces;
              return NamespaceTaken(namespaces[l], items[i].name);
            }
          }
        }
      }
    }
    return Allowed;
  }

  /** Map iteration has no order: any unsupported name may be the one reported. */
  method ValidateResourceName(hard: ResourceList) returns (verdict: Verdict)
    ensures verdict.Allowed? || verdict.NotSupported?
    ensures verdict.Allowed? <==> SupportedNames(hard)
    ensures verdict.NotSupported? ==> verdict.resource in hard && verdict.resource.Other?
  {
    var rest := hard.Keys;
    while rest != {}
      invariant rest <= hard.Keys && forall r :: r in hard && r !in rest ==> !r.Other?
    {
      var r :| r in rest;
      if r.Other? {
        return NotSupported(r);
      }
      rest := rest - {r};
    }
    return Allowed;
  }

  /** The namespace is listed by the project and by another stored one. */
  predicate SharesNamespace(projects: ProjectStore, p: Prq, other: string, ns: string) {
    other in projects && other != p.name && ns in p.namespaces && ns in projects[other].namespaces
  }

  method ValidateProjectCreate(items: seq<Prq>, projects: ProjectStore, p: Prq) returns (verdict: Verdict)
    requires Listing(items, projects) && forall n :: n in projects ==> projects[n].name == n
    ensures verdict.Allowed? || verdict.NamespaceTaken? || verdict.NotSupported?
    ensures verdict.Allowed? <==> AdmitsProject(projects, p)
    ensures verdict.Allowed? <==>
              && (forall n, ns :: n in projects && n != p.name && ns in p.namespaces ==> ns !in projects[n].namespaces)
              && forall r :: r in p.hard ==> !r.Other?
    ensures verdict.NamespaceTaken? ==> SharesNamespace(projects, p, verdict.project, verdict.ns)
    ensures verdict.NotSupported? ==> verdict.resource in p.hard && verdict.resource.Other?
  {
    verdict := ValidateNamespace(items, p.name, p.namespaces);
    ListedNamespaces(items, projects, p.name, p.namespaces);
    if !verdict.Allowed? {
      return;
    }
    verdict := ValidateResourceName(p.hard);
  }

  /** Looking at the listing is looking at the store. */
  lemma ListedNamespaces(items: seq<Prq>, projects: ProjectStore, name: string, namespaces: seq<string>)
    requires Listing(items, projects) && forall n :: n in projects ==> projects[n].name == n
    ensures NamespacesFree(projects, name, namespaces) <==>
              forall i, ns :: 0 <= i < |items| && items[i].name != name && ns in namespaces ==> ns !in items[i].namespaces
  {
    if forall i, ns :: 0 <= i < |items| && items[i].name != name && ns in namespaces ==> ns !in items[i].namespaces {
      forall n, ns | n in projects && n != name && ns in namespaces ensures ns !in projects[n].namespaces {
        var i :| 0 <= i < |items| && items[i] == projects[n];
      }
    }
  }

  const RESOURCE_NAMES: seq<ResourceName> :=
    [Cpu, Memory, Storage, EphemeralStorage, Pods, Services, ReplicationControllers, Quotas, Secrets, ConfigMaps,
     PersistentVolumeClaims, ServicesNodePorts, ServicesLoadBalancers, RequestsCpu, RequestsMemory, RequestsStorage,
     RequestsEphemeralStorage, LimitsCpu, LimitsMemory, LimitsEphemeralStorage]

  lemma ResourceNamesAreAll(r: ResourceName)
    ensures r in RESOURCE_NAMES <==> !r.Other?
  {
    if !r.Other? {
      PodNamesAreListed(r);
      OtherNamesAreListed(r);
    }
    assert forall i :: 0 <= i < |RESOURCE_NAMES| ==> !RESOURCE_NAMES[i].Other?;
  }

  lemma PodNamesAreListed(r: ResourceName)
    ensures KindOf(r) == Some(Pod) ==> r in RESOURCE_NAMES
  {
    assert RESOURCE_NAMES[0] == Cpu && RESOURCE_NAMES[1] == Memory && RESOURCE_NAMES[2] == Storage;
    assert RESOURCE_NAMES[3] == EphemeralStorage && RESOURCE_NAMES[4] == Pods && RESOURCE_NAMES[13] == RequestsCpu;
    assert RESOURCE_NAMES[14] == RequestsMemory && RESOURCE_NAMES[15] == RequestsStorage;
    assert RESOURCE_NAMES[16] == RequestsEphemeralStorage && RESOURCE_NAMES[17] == LimitsCpu;
    assert RESOURCE_NAMES[18] == LimitsMemory && RESOURCE_NAMES[19] == LimitsEphemeralStorage;
  }

  lemma OtherNamesAreListed(r: ResourceName)
    ensures !r.Other? && KindOf(r) != Some(Pod) ==> r in RESOURCE_NAMES
  {
    assert RESOURCE_NAMES[5] == Services && RESOURCE_NAMES[6] == ReplicationControllers && RESOURCE_NAMES[7] == Quotas;
    assert RESOURCE_NAMES[8] == Secrets && RESOURCE_NAMES[9] == ConfigMaps && RESOURCE_NAMES[10] == PersistentVolumeClaims;
    assert RESOURCE_NAMES[11] == ServicesNodePorts && RESOURCE_NAMES[12] == ServicesLoadBalancers;
  }

  method ValidateProjectUpdate(items: seq<Prq>, projects: ProjectStore, p: Prq) returns (verdict: Verdict)
    requires Listing(items, projects) && forall n :: n in projects ==> projects[n].name == n
    ensures verdict.Allowed? || verdict.NamespaceTaken? || verdict.NotSupported? || verdict.BelowUsed?
    ensures verdict.Allowed? <==> AdmitsProjectUpdate(projects, p)
    ensures verdict.Allowed? <==>
              && (forall n, ns :: n in projects && n != p.name && ns in p.namespaces ==> ns !in projects[n].namespaces)
              && (forall r :: r in p.hard ==> !r.Other?)
              && forall r: ResourceName :: !r.Other? ==> Amount(p.used, r) <= Amount(p.hard, r)
    ensures verdict.NamespaceTaken? ==> SharesNamespace(projects, p, verdict.project, verdict.ns)
    ensures verdict.NotSupported? ==> verdict.resource in p.hard && verdict.resource.Other?
    ensures verdict.BelowUsed? ==> AdmitsProject(projects, p)
    ensures verdict.BelowUsed? ==> !verdict.resource.Other? && Amount(p.hard, verdict.resource) < Amount(p.used, verdict.resource)
  {
    verdict := ValidateProjectCreate(items, projects, p);
    if !verdict.Allowed? {
      return;
    }
    for i := 0 to |RESOURCE_NAMES|
      invariant forall j :: 0 <= j < i ==> Amount(p.used, RESOURCE_NAMES[j]) <= Amount(p.hard, RESOURCE_NAMES[j])
    {
      if Amount(p.hard, RESOURCE_NAMES[i]) < Amount(p.used, RESOURCE_NAMES[i]) {
        ResourceNamesAreAll(RESOURCE_NAMES[i]);
        return BelowUsed(RESOURCE_NAMES[i]);
      }
    }
    forall r: ResourceName | !r.Other? ensures Amount(p.used, r) <= Amount(p.hard, r) {
      ResourceNamesAreAll(r);
    }
    return Allowed;
  }
}
