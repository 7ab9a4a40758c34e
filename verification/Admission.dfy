/** What the webhooks decide, as functions of the stored projects: the
    annotation an object gets, and whether an object or a project is let in. */
module Admission {
  import opened ResourceModel
  import opened Tally

  type ProjectStore = map<string, Prq>

  // ---- The annotation ----

  /** The live project that claims a namespace, provided it limits the kind. */
  ghost predicate Gates(projects: ProjectStore, n: string, k: ObjectKey) {
    n in projects && !projects[n].deleting && k.ns in projects[n].namespaces && GateKey(k.kind) in projects[n].hard
  }

  ghost function Defaulted(projects: ProjectStore, k: ObjectKey, o: Object): Object {
    if exists n :: Gates(projects, n, k) then
      var n :| Gates(projects, n, k);
      o.(annotations := o.annotations[ANNOTATION := n])
    else
      o
  }

  /** No two projects list the same namespace. */
  ghost predicate Disjoint(projects: ProjectStore) {
    forall a, b, ns :: a in projects && b in projects && ns in projects[a].namespaces && ns in projects[b].namespaces ==> a == b
  }

  /** The search the annotators make: the first live project that lists the
      namespace decides, whether or not it limits the kind. */
  function FirstMatch(items: seq<Prq>, k: ObjectKey): Option<string> {
    if items == [] then None
    else if !items[0].deleting && k.ns in items[0].namespaces then
      (if GateKey(k.kind) in items[0].hard then Some(items[0].name) else None)
    else FirstMatch(items[1..], k)
  }

  /** A listing returns each stored project once, in any order. */
  ghost predicate Listing(items: seq<Prq>, projects: ProjectStore) {
    && (forall i :: 0 <= i < |items| ==> items[i].name in projects && projects[items[i].name] == items[i])
    && (forall n :: n in projects ==> projects[n] in items)
  }

  /** With disjoint projects the first match is the only match, so every listing
      order gives the same annotation. */
  lemma {:induction false} FirstMatchIsGate(items: seq<Prq>, projects: ProjectStore, k: ObjectKey)
    requires Disjoint(projects)
    requires forall i :: 0 <= i < |items| ==> items[i].name in projects && projects[items[i].name] == items[i]
    requires forall n :: n in projects && projects[n] !in items ==> !Gates(projects, n, k)
    ensures FirstMatch(items, k).Some? ==> Gates(projects, FirstMatch(items, k).value, k)
    ensures FirstMatch(items, k).None? ==> forall n :: !Gates(projects, n, k)
  {
    if items != [] && !(!items[0].deleting && k.ns in items[0].namespaces) {
      forall n | n in projects && projects[n] !in items[1..] ensures !Gates(projects, n, k) {
        if projects[n] in items { assert projects[n] == items[0]; }
      }
      FirstMatchIsGate(items[1..], projects, k);
    }
  }

  /** What an annotator's search writes, for every listing of the projects. */
  lemma DefaultIsFirstMatch(items: seq<Prq>, projects: ProjectStore, k: ObjectKey, o: Object)
    requires Disjoint(projects) && Listing(items, projects)
    ensures Defaulted(projects, k, o)
            == match FirstMatch(items, k)
               case Some(n) => o.(annotations := o.annotations[ANNOTATION := n])
               case None => o
  {
    FirstMatchIsGate(items, projects, k);
  }

  // ---- Object admission ----

  predicate Below(p: Prq, r: ResourceName) {
    Amount(p.hard, r) > Amount(p.used, r)
  }

  predicate Fits(p: Prq, r: ResourceName, request: nat) {
    request + Amount(p.used, r) <= Amount(p.hard, r)
  }

  ghost predicate PodFits(p: Prq, o: Object) {
    Below(p, Pods) && forall r :: IsCompute(r) ==> Fits(p, r, Demand(r, o))
  }

  predicate ServiceFits(p: Prq, o: Object) {
    && Below(p, Services)
    && (o.serviceType == NodePort ==> Below(p, ServicesNodePorts))
    && (o.serviceType == LoadBalancer ==> Below(p, ServicesLoadBalancers))
  }

  ghost predicate FitsProject(p: Prq, kind: Kind, o: Object) {
    match kind
    case Pod => PodFits(p, o)
    case Service => ServiceFits(p, o)
    case _ => Below(p, GateKey(kind))
  }

  ghost predicate AdmitsCreate(projects: ProjectStore, kind: Kind, o: Object) {
    match Project(o)
    case None => true
    case Some(n) => n in projects && FitsProject(projects[n], kind, o)
  }

  predicate TypeChangeFits(p: Prq, before: Object, after: Object) {
    && Below(p, Services)
    && (after.serviceType == NodePort && before.serviceType != NodePort ==> Below(p, ServicesNodePorts))
    && (after.serviceType == LoadBalancer && before.serviceType != LoadBalancer ==> Below(p, ServicesLoadBalancers))
  }

  /** Only services are looked at again on update, and an unannotated service is
      refused. */
  predicate AdmitsUpdate(projects: ProjectStore, kind: Kind, before: Object, after: Object) {
    kind == Service ==>
      match Project(after)
      case None => false
      case Some(n) => n in projects && TypeChangeFits(projects[n], before, after)
  }

  // ---- Project admission ----

  ghost predicate NamespacesFree(projects: ProjectStore, name: string, namespaces: seq<string>) {
    forall n, ns :: n in projects && n != name && ns in namespaces ==> ns !in projects[n].namespaces
  }

  ghost predicate SupportedNames(hard: ResourceList) {
    forall r :: r in hard ==> !r.Other?
  }

  ghost predicate HardCoversUsed(p: Prq) {
    forall r: ResourceName :: !r.Other? ==> Amount(p.used, r) <= Amount(p.hard, r)
  }

  ghost predicate AdmitsProject(projects: ProjectStore, p: Prq) {
    NamespacesFree(projects, p.name, p.namespaces) && SupportedNames(p.hard)
  }

  ghost predicate AdmitsProjectUpdate(projects: ProjectStore, p: Prq) {
    AdmitsProject(projects, p) && HardCoversUsed(p)
  }

  // ---- Exact admission ----

  /** The recorded amounts are right for every key, including those that are not
      counted, whose usage must then be zero. */
  ghost predicate Accurate(p: Prq, objects: Store) {
    forall r: ResourceName :: Amount(p.used, r) == Usage(objects, Elements(p.namespaces), r)
  }

  /** With accurate records a pod is admitted exactly when the project, recounted
      with that pod in it, fits its limit on pods and on all eleven compute keys. */
  lemma PodAdmissionIsExact(projects: ProjectStore, objects: Store, k: ObjectKey, o: Object)
    requires k.kind == Pod && k !in objects && Annotated(o) && !Terminated(o)
    requires Project(o).value in projects
    requires var p := projects[Project(o).value]; k.ns in p.namespaces && Accurate(p, objects)
    ensures var p := projects[Project(o).value];
            AdmitsCreate(projects, Pod, o) <==>
              forall r :: KindOf(r) == Some(Pod) ==>
                Usage(objects[k := o], Elements(p.namespaces), r) <= Amount(p.hard, r)
  {
    var p := projects[Project(o).value];
    forall r | KindOf(r) == Some(Pod)
      ensures Usage(objects[k := o], Elements(p.namespaces), r) == Amount(p.used, r) + Weight(r, o)
    {
      SumPut(objects, Selector(Elements(p.namespaces), r, false), k, o);
    }
    assert Weight(Pods, o) == 1 && forall r :: IsCompute(r) ==> Weight(r, o) == Demand(r, o);
    if AdmitsCreate(projects, Pod, o) {
      forall r | KindOf(r) == Some(Pod)
        ensures Usage(objects[k := o], Elements(p.namespaces), r) <= Amount(p.hard, r)
      {
        if r != Pods { assert IsCompute(r) && Fits(p, r, Demand(r, o)); }
      }
    }
    if forall r :: KindOf(r) == Some(Pod) ==> Usage(objects[k := o], Elements(p.namespaces), r) <= Amount(p.hard, r) {
      assert KindOf(Pods) == Some(Pod) && Below(p, Pods);
      forall r | IsCompute(r) ensures Fits(p, r, Demand(r, o)) {
        assert KindOf(r) == Some(Pod);
      }
    }
  }

  /** The same for a service: it is admitted exactly when the project with it in
      fits its limits on services, node ports and load balancers, provided the
      project is within those limits now. */
  lemma ServiceAdmissionIsExact(projects: ProjectStore, objects: Store, k: ObjectKey, o: Object)
    requires k.kind == Service && k !in objects && Annotated(o)
    requires Project(o).value in projects
    requires var p := projects[Project(o).value];
             && k.ns in p.namespaces && Accurate(p, objects)
             && forall r :: KindOf(r) == Some(Service) ==> Amount(p.used, r) <= Amount(p.hard, r)
    ensures var p := projects[Project(o).value];
            AdmitsCreate(projects, Service, o) <==>
              forall r :: KindOf(r) == Some(Service) ==>
                Usage(objects[k := o], Elements(p.namespaces), r) <= Amount(p.hard, r)
  {
    var p := projects[Project(o).value];
    forall r | KindOf(r) == Some(Service)
      ensures Usage(objects[k := o], Elements(p.namespaces), r) == Amount(p.used, r) + Weight(r, o)
    {
      SumPut(objects, Selector(Elements(p.namespaces), r, false), k, o);
    }
    assert forall r :: KindOf(r) == Some(Service) <==> r == Services || r == ServicesNodePorts || r == ServicesLoadBalancers;
    assert KindOf(Services) == KindOf(ServicesNodePorts) == KindOf(ServicesLoadBalancers) == Some(Service);
  }

  /** A stored service may change exactly if the project has room for one more service
      now, although it gets none, and fits its three limits with the change. */
  lemma TypeChangeIsExact(p: Prq, objects: Store, k: ObjectKey, o: Object)
    requires k.kind == Service && k in objects && Annotated(objects[k]) && Annotated(o)
    requires k.ns in p.namespaces && Accurate(p, objects)
    requires forall r :: KindOf(r) == Some(Service) ==> Amount(p.used, r) <= Amount(p.hard, r)
    ensures TypeChangeFits(p, objects[k], o) <==>
              && Usage(objects, Elements(p.namespaces), Services) < Amount(p.hard, Services)
              && forall r :: KindOf(r) == Some(Service) ==>
                   Usage(objects[k := o], Elements(p.namespaces), r) <= Amount(p.hard, r)
  {
    forall r | KindOf(r) == Some(Service)
      ensures Usage(objects[k := o], Elements(p.namespaces), r) + Weight(r, objects[k]) == Amount(p.used, r) + Weight(r, o)
    {
      SumPut(objects, Selector(Elements(p.namespaces), r, false), k, o);
    }
    assert forall r :: KindOf(r) == Some(Service) <==> r == Services || r == ServicesNodePorts || r == ServicesLoadBalancers;
    assert KindOf(Services) == KindOf(ServicesNodePorts) == KindOf(ServicesLoadBalancers) == Some(Service);
  }

  /** And the same for the kinds that are only counted. */
  lemma CountedAdmissionIsExact(projects: ProjectStore, objects: Store, k: ObjectKey, o: Object)
    requires k.kind != Pod && k.kind != Service && k !in objects && Annotated(o)
    requires Project(o).value in projects
    requires var p := projects[Project(o).value]; k.ns in p.namespaces && Accurate(p, objects)
    ensures var p := projects[Project(o).value];
            AdmitsCreate(projects, k.kind, o) <==>
              forall r :: KindOf(r) == Some(k.kind) ==>
                Usage(objects[k := o], Elements(p.namespaces), r) <= Amount(p.hard, r)
  {
    var p := projects[Project(o).value];
    var gate := GateKey(k.kind);
    SumPut(objects, Selector(Elements(p.namespaces), gate, false), k, o);
    assert KindOf(gate) == Some(k.kind) && Amount(p.used, gate) == Usage(objects, Elements(p.namespaces), gate);
    assert forall r :: KindOf(r) == Some(k.kind) ==> r == gate;
  }
}
