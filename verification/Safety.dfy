/** The limits hold over whole runs: with admissions serialized against the
    controller, the usage of every project stays within spec.hard for every
    resource, an absent limit being a limit of zero. */
module Safety {
  import opened ResourceModel
  import opened Tally
  import opened Accounting
  import opened Admission
  import opened Machine
  import opened Projects
  import opened Ownership
  import opened Staleness
  import opened Coverage

  ghost function UsageOf(objects: Store, p: Prq, r: ResourceName): nat {
    Usage(objects, Elements(p.namespaces), r)
  }

  ghost predicate WithinLimits(objects: Store, p: Prq) {
    forall r: ResourceName :: UsageOf(objects, p, r) <= Amount(p.hard, r)
  }

  ghost predicate AllWithin(s: State) {
    forall n :: n in s.projects ==> WithinLimits(s.objects, s.projects[n]) && HardCoversUsed(s.projects[n])
  }

  /** A count in progress cannot end above the limits: what is counted and what is
      still to be counted fit together. */
  ghost predicate CountWithin(s: State) {
    s.job.Some? && s.job.value.phase.Counting? && Unchanged(s, s.job.value.snapshot) ==>
      forall r: ResourceName :: CountFits(s.job.value, s.objects, r)
  }

  ghost predicate CountFits(j: Job, objects: Store, r: ResourceName)
    requires j.phase.Counting?
  {
    j.phase.next <= |Cells(j.snapshot.namespaces)| ==>
      Amount(j.phase.used, r) + CellsUsage(j.snapshot.hard, objects, Cells(j.snapshot.namespaces)[j.phase.next..], r)
      <= Amount(j.snapshot.hard, r)
  }

  ghost predicate SafeState(s: State) {
    CurrentState(s) && CoveredState(s) && AllWithin(s) && CountWithin(s)
  }

  // ---- The record of an idle project ----

  /** Within the limits, a key that is not counted has no usage at all. */
  lemma UncountedIsUnused(objects: Store, p: Prq, r: ResourceName)
    requires WithinLimits(objects, p)
    requires !Counted(p.hard, r)
    ensures UsageOf(objects, p, r) == 0
  {
    if KindOf(r).None? {
      SumNothing(objects, Selector(Elements(p.namespaces), r, false));
    } else if r in p.hard {
      var gate := GateKey(KindOf(r).value);
      assert UsageOf(objects, p, gate) <= Amount(p.hard, gate);
      GateBounds(objects, Elements(p.namespaces), r, KindOf(r).value);
    }
  }

  /** The record of an up-to-date project is its usage, key by key. */
  lemma UpToDateIsAccurate(objects: Store, p: Prq)
    requires UpToDate(p, objects) && WithinLimits(objects, p) && NoRepeats(p.namespaces)
    ensures Accurate(p, objects)
  {
    forall r: ResourceName ensures Amount(p.used, r) == UsageOf(objects, p, r) {
      RecountIsUsage(p.hard, objects, p.namespaces, r);
      if Counted(p.hard, r) {
        NoRepeatsIsExact(objects, p.namespaces, r);
      } else {
        UncountedIsUnused(objects, p, r);
      }
    }
  }

  /** An idle project is accurate, unless it is being deleted, and then it has no
      usage left. */
  lemma IdleIsAccurate(s: State, n: string)
    requires SafeState(s) && n in s.projects && Idle(s, n)
    ensures if s.projects[n].deleting then forall r :: UsageOf(s.objects, s.projects[n], r) == 0
            else Accurate(s.projects[n], s.objects)
  {
    var p := s.projects[n];
    assert Settled(p, s.objects);
    if p.deleting {
      forall r ensures UsageOf(s.objects, p, r) == 0 {
        assert forall k :: k in s.objects && Annotated(s.objects[k]) ==> OwnedBy(s.projects, k, s.objects[k].annotations[ANNOTATION]);
        SumNothing(s.objects, Selector(Elements(p.namespaces), r, false));
      }
    } else {
      UpToDateIsAccurate(s.objects, p);
    }
  }

  // ---- Writes of objects ----

  /** Writing o at k charges the project no more than before. */
  ghost predicate Lighter(objects: Store, k: ObjectKey, o: Object, p: Prq) {
    k.ns in p.namespaces ==>
      forall r :: Share(Selector({k.ns}, r, false), k, o) <= ShareIn(Selector({k.ns}, r, false), objects, k)
  }

  lemma LighterUsage(objects: Store, k: ObjectKey, o: Object, p: Prq, namespaces: set<string>, r: ResourceName)
    requires Lighter(objects, k, o, p) && namespaces <= Elements(p.namespaces)
    ensures Usage(objects[k := o], namespaces, r) <= Usage(objects, namespaces, r)
  {
    SumPut(objects, Selector(namespaces, r, false), k, o);
    if k.ns in namespaces {
      assert Share(Selector({k.ns}, r, false), k, o) == Share(Selector(namespaces, r, false), k, o);
      assert ShareIn(Selector({k.ns}, r, false), objects, k) == ShareIn(Selector(namespaces, r, false), objects, k);
    }
  }

  lemma LighterCount(objects: Store, k: ObjectKey, o: Object, j: Job, r: ResourceName)
    requires Lighter(objects, k, o, j.snapshot) && j.phase.Counting? && CountFits(j, objects, r)
    ensures CountFits(j, objects[k := o], r)
  {
    var cells := Cells(j.snapshot.namespaces);
    if j.phase.next <= |cells| {
      CellsContain(j.snapshot.namespaces);
      forall cell | cell in cells[j.phase.next..]
        ensures Usage(objects[k := o], {cell.ns}, r) <= Usage(objects, {cell.ns}, r)
      {
        assert cell in cells;
        LighterUsage(objects, k, o, j.snapshot, {cell.ns}, r);
      }
      CellsUsageShrinks(j.snapshot.hard, objects, objects[k := o], cells[j.phase.next..], r);
    }
  }

  /** A write keeps the limits if every project either is charged no more, or is
      idle and has room for what it is charged. */
  ghost predicate HasRoom(s: State, k: ObjectKey, o: Object, n: string)
    requires n in s.projects
  {
    && Idle(s, n)
    && forall r: ResourceName :: Usage(s.objects[k := o], Elements(s.projects[n].namespaces), r) <= Amount(s.projects[n].hard, r)
  }

  lemma PutKeepsLimits(s: State, k: ObjectKey, o: Object)
    requires SafeState(s)
    requires forall n :: n in s.projects ==> Lighter(s.objects, k, o, s.projects[n]) || HasRoom(s, k, o, n)
    ensures AllWithin(PutObject(s, k, o)) && CountWithin(PutObject(s, k, o))
  {
    var t := PutObject(s, k, o);
    assert t.objects == s.objects[k := o];
    forall n, r | n in t.projects ensures UsageOf(t.objects, t.projects[n], r) <= Amount(t.projects[n].hard, r) {
      var p := s.projects[n];
      assert WithinLimits(s.objects, p) && UsageOf(s.objects, p, r) <= Amount(p.hard, r);
      if Lighter(s.objects, k, o, p) { LighterUsage(s.objects, k, o, p, Elements(p.namespaces), r); }
    }
    if t.job.Some? && t.job.value.phase.Counting? && Unchanged(t, t.job.value.snapshot) {
      var j := s.job.value;
      assert s.projects[j.snapshot.name] == j.snapshot && !Idle(s, j.snapshot.name);
      forall r ensures CountFits(j, t.objects, r) {
        assert CountFits(j, s.objects, r);
        LighterCount(s.objects, k, o, j, r);
      }
    }
  }

  lemma DropKeepsLimits(s: State, k: ObjectKey)
    requires SafeState(s) && k in s.objects
    ensures AllWithin(DropObject(s, k)) && CountWithin(DropObject(s, k))
  {
    var t := DropObject(s, k);
    forall n, r | n in t.projects ensures UsageOf(t.objects, t.projects[n], r) <= Amount(t.projects[n].hard, r) {
      assert WithinLimits(s.objects, s.projects[n]) && UsageOf(s.objects, s.projects[n], r) <= Amount(s.projects[n].hard, r);
      SumDrop(s.objects, Selector(Elements(s.projects[n].namespaces), r, false), k);
    }
    if t.job.Some? && t.job.value.phase.Counting? && Unchanged(t, t.job.value.snapshot) {
      var j := s.job.value;
      var cells := Cells(j.snapshot.namespaces)[j.phase.next..];
      forall r ensures CountFits(j, t.objects, r) {
        assert CountFits(j, s.objects, r);
        forall cell | cell in cells ensures Usage(t.objects, {cell.ns}, r) <= Usage(s.objects, {cell.ns}, r) {
          SumDrop(s.objects, Selector({cell.ns}, r, false), k);
        }
        CellsUsageShrinks(j.snapshot.hard, s.objects, t.objects, cells, r);
      }
    }
  }

  /** The name a tidy write leaves in a claimed namespace is that of the claimant. */
  lemma ClaimantIsNamed(t: State, k: ObjectKey, n: string)
    requires TidyState(t) && k in t.objects && Annotated(t.objects[k])
    requires n in t.projects && k.ns in t.projects[n].namespaces
    ensures t.objects[k].annotations[ANNOTATION] == n
  {
    assert OwnedBy(t.projects, k, t.objects[k].annotations[ANNOTATION]);
  }

  lemma CreateHasRoom(s: State, k: ObjectKey, o: Object, n: string)
    requires SafeState(s) && TidyState(PutObject(s, k, o))
    requires k !in s.objects && AdmitsCreate(s.projects, k.kind, o)
    requires Annotated(o) ==> Idle(s, o.annotations[ANNOTATION])
    requires n in s.projects
    ensures Lighter(s.objects, k, o, s.projects[n]) || HasRoom(s, k, o, n)
  {
    var p := s.projects[n];
    if k.ns in p.namespaces && Annotated(o) {
      ClaimantIsNamed(PutObject(s, k, o), k, n);
      IdleIsAccurate(s, n);
      IdleOwnerLives(s, k, o, n);
      assert WithinLimits(s.objects, p);
      forall r: ResourceName ensures Usage(s.objects[k := o], Elements(p.namespaces), r) <= Amount(p.hard, r) {
        CreateStaysWithin(s.objects, k, o, p, r);
      }
    }
  }

  /** What admission lets in fits the accurate record. */
  lemma CreateStaysWithin(objects: Store, k: ObjectKey, o: Object, p: Prq, r: ResourceName)
    requires k !in objects && FitsProject(p, k.kind, o)
    requires WithinLimits(objects, p) && Accurate(p, objects)
    ensures UsageOf(objects[k := o], p, r) <= Amount(p.hard, r)
  {
    SumPut(objects, Selector(Elements(p.namespaces), r, false), k, o);
    assert UsageOf(objects, p, r) <= Amount(p.hard, r) && Amount(p.used, r) == UsageOf(objects, p, r);
    if KindOf(r) == Some(k.kind) { FitsMeansRoom(p, k.kind, o, r); }
  }

  /** An idle project that an object names is not being deleted. */
  lemma IdleOwnerLives(s: State, k: ObjectKey, o: Object, n: string)
    requires SafeState(s) && TidyState(PutObject(s, k, o))
    requires n in s.projects && Idle(s, n) && Project(o) == Some(n)
    ensures !s.projects[n].deleting
  {
    assert Settled(s.projects[n], s.objects);
    assert k in PutObject(s, k, o).objects && PutObject(s, k, o).objects[k] == o;
  }

  /** What admission checks is what the new object will be charged. */
  lemma FitsMeansRoom(p: Prq, kind: Kind, o: Object, r: ResourceName)
    requires FitsProject(p, kind, o) && KindOf(r) == Some(kind)
    ensures Amount(p.used, r) + Weight(r, o) <= Amount(p.hard, r) || Weight(r, o) == 0
  {
    if IsCompute(r) { assert Fits(p, r, Demand(r, o)); }
  }

  lemma UpdateHasRoom(s: State, k: ObjectKey, o: Object, n: string)
    requires SafeState(s) && CoveredState(PutObject(s, k, o)) && TidyAnnotation(s, k, o)
    requires k in s.objects && SameFixedFields(s.objects[k], o) && AdmitsUpdate(s.projects, k.kind, s.objects[k], o)
    requires k.kind == Service && s.objects[k].serviceType != o.serviceType && Annotated(o) ==>
               Idle(s, o.annotations[ANNOTATION])
    requires n in s.projects
    ensures Lighter(s.objects, k, o, s.projects[n]) || HasRoom(s, k, o, n)
  {
    var p := s.projects[n];
    if k.ns in p.namespaces && Annotated(o) {
      ClaimantIsNamed(PutObject(s, k, o), k, n);
      WasAnnotated(s, k, o);
      if k.kind == Service && s.objects[k].serviceType != o.serviceType {
        IdleIsAccurate(s, n);
        IdleOwnerLives(s, k, o, n);
        TypeChangeHasRoom(s.objects, k, o, p);
        assert WithinLimits(s.objects[k := o], p);
      } else {
        SameTypeIsLighter(s.objects, k, o, p);
      }
    }
  }

  /** Under coverage an update never annotates an object that was not. */
  lemma WasAnnotated(s: State, k: ObjectKey, o: Object)
    requires CoveredState(s) && TidyAnnotation(s, k, o) && k in s.objects && Annotated(o)
    ensures Annotated(s.objects[k])
  {
  }

  /** The type change that admission lets through fits the accurate record. */
  lemma TypeChangeHasRoom(objects: Store, k: ObjectKey, o: Object, p: Prq)
    requires k in objects && k.kind == Service && k.ns in p.namespaces && Annotated(objects[k])
    requires WithinLimits(objects, p) && Accurate(p, objects) && TypeChangeFits(p, objects[k], o)
    ensures WithinLimits(objects[k := o], p)
  {
    forall r: ResourceName ensures UsageOf(objects[k := o], p, r) <= Amount(p.hard, r) {
      SumPut(objects, Selector(Elements(p.namespaces), r, false), k, o);
      assert UsageOf(objects, p, r) <= Amount(p.hard, r) && Amount(p.used, r) == UsageOf(objects, p, r);
    }
  }

  lemma SameTypeIsLighter(objects: Store, k: ObjectKey, o: Object, p: Prq)
    requires k in objects && SameFixedFields(objects[k], o) && Annotated(objects[k])
    requires k.kind == Service ==> objects[k].serviceType == o.serviceType
    ensures Lighter(objects, k, o, p)
  {
    forall r ensures Share(Selector({k.ns}, r, false), k, o) <= ShareIn(Selector({k.ns}, r, false), objects, k) {
      if KindOf(r) == Some(k.kind) { SameWeight(r, k.kind, objects[k], o); }
    }
  }

  lemma SameWeight(r: ResourceName, kind: Kind, a: Object, b: Object)
    requires SameFixedFields(a, b) && (kind == Service ==> a.serviceType == b.serviceType)
    requires KindOf(r) == Some(kind)
    ensures Weight(r, a) == Weight(r, b)
  {
  }

  lemma SafeCreateStep(s: State, k: ObjectKey, o: Object, t: State)
    requires SafeState(s) && CurrentState(t) && CoveredState(t) && Effect(s, CreateObject(k, o), t) && Serial(s, CreateObject(k, o))
    ensures SafeState(t)
  {
    var d := Defaulted(s.projects, k, o);
    forall n | n in s.projects ensures Lighter(s.objects, k, d, s.projects[n]) || HasRoom(s, k, d, n) {
      CreateHasRoom(s, k, d, n);
    }
    PutKeepsLimits(s, k, d);
  }

  lemma SafeUpdateStep(s: State, k: ObjectKey, o: Object, t: State)
    requires SafeState(s) && CurrentState(t) && CoveredState(t) && Effect(s, UpdateObject(k, o), t)
    requires Tidy(s, UpdateObject(k, o)) && Serial(s, UpdateObject(k, o))
    ensures SafeState(t)
  {
    var d := Defaulted(s.projects, k, o);
    DefaultedIsTidy(s, k, o);
    forall n | n in s.projects ensures Lighter(s.objects, k, d, s.projects[n]) || HasRoom(s, k, d, n) {
      UpdateHasRoom(s, k, d, n);
    }
    PutKeepsLimits(s, k, d);
  }

  lemma SafeObjectStep(s: State, step: Step, t: State)
    requires SafeState(s) && CurrentState(t) && CoveredState(t) && Effect(s, step, t) && Tidy(s, step) && Serial(s, step)
    requires step.CreateObject? || step.UpdateObject? || step.SetPhase? || step.DeleteObject?
    ensures SafeState(t)
  {
    match step
    case CreateObject(k, o) => SafeCreateStep(s, k, o, t);
    case UpdateObject(k, o) => SafeUpdateStep(s, k, o, t);
    case SetPhase(k, phase) => PutKeepsLimits(s, k, s.objects[k].(phase := phase));
    case DeleteObject(k) => DropKeepsLimits(s, k);
  }

  lemma SafeStripStep(s: State, k: ObjectKey, t: State)
    requires SafeState(s) && CurrentState(t) && CoveredState(t) && Effect(s, StripObject(k), t)
    ensures SafeState(t)
  {
    var o := HandedOver(s.projects, k, s.objects[k]);
    DefaultedIsTidy(s, k, Stripped(s.objects[k]));
    PutKeepsOwnership(s, k, o);
    PutKeepsCovered(s, k, Stripped(s.objects[k]));
    forall n | n in s.projects ensures Lighter(s.objects, k, o, s.projects[n]) || HasRoom(s, k, o, n) {
      UpdateHasRoom(s, k, o, n);
    }
    PutKeepsLimits(s, k, o);
  }

  // ---- Writes of projects ----

  lemma CommitKeepsLimits(s: State, p: Prq)
    requires SafeState(s)
    requires WithinLimits(s.objects, p) && HardCoversUsed(p)
    ensures AllWithin(Commit(s, p)) && CountWithin(Commit(s, p))
  {
    CommitStaysWithin(s, p);
  }

  lemma CommitStaysWithin(s: State, p: Prq)
    requires AllWithin(s) && WithinLimits(s.objects, p) && HardCoversUsed(p)
    ensures AllWithin(Commit(s, p))
  {
    var t := Commit(s, p);
    forall n | n in t.projects ensures WithinLimits(t.objects, t.projects[n]) && HardCoversUsed(t.projects[n]) {
      if n == p.name && t != s {
        assert t.projects[n] == p.(version := s.revision + 1);
        assert forall r: ResourceName :: UsageOf(t.objects, t.projects[n], r) == UsageOf(s.objects, p, r);
      }
    }
  }

  lemma SafeProjectStep(s: State, step: Step, t: State)
    requires SafeState(s) && CurrentState(t) && CoveredState(t) && Effect(s, step, t) && Covering(s, step) && Serial(s, step)
    requires step.CreateProject? || step.UpdateProject? || step.DeleteProject?
    ensures SafeState(t)
  {
    match step
    case CreateProject(p) =>
      var q := Created(p);
      forall r: ResourceName ensures UsageOf(s.objects, q, r) <= Amount(q.hard, r) {
        SumNothing(s.objects, Selector(Elements(q.namespaces), r, false));
      }
      CommitKeepsLimits(s, q);
    case UpdateProject(name, namespaces, hard, finalizers) =>
      var p := s.projects[name];
      var q := Edited(p, namespaces, hard, finalizers);
      UpdateStaysWithin(s, p, q);
      CommitKeepsLimits(s, q);
    case DeleteProject(name) =>
      var p := s.projects[name];
      var q := p.(deleting := true);
      forall r: ResourceName ensures UsageOf(s.objects, q, r) <= Amount(q.hard, r) {
        assert WithinLimits(s.objects, p) && UsageOf(s.objects, p, r) <= Amount(p.hard, r);
      }
      CommitKeepsLimits(s, q);
  }

  /** New limits are compared with the record, which is the usage. */
  lemma UpdateStaysWithin(s: State, p: Prq, q: Prq)
    requires SafeState(s) && p.name in s.projects && s.projects[p.name] == p
    requires HardCoversUsed(q) && q.used == p.used
    requires p.hard != q.hard ==> Idle(s, p.name)
    requires forall k :: k in s.objects && k.ns in q.namespaces ==> k.ns in p.namespaces
    ensures WithinLimits(s.objects, q)
  {
    if p.hard != q.hard { IdleIsAccurate(s, p.name); }
    forall r: ResourceName ensures UsageOf(s.objects, q, r) <= Amount(q.hard, r) {
      assert WithinLimits(s.objects, p) && UsageOf(s.objects, p, r) <= Amount(p.hard, r);
      NarrowerUsage(s.objects, p, q, r);
      if p.hard != q.hard && !p.deleting {
        assert Amount(p.used, r) == UsageOf(s.objects, p, r);
      }
    }
  }

  lemma NarrowerUsage(objects: Store, p: Prq, q: Prq, r: ResourceName)
    requires forall k :: k in objects && k.ns in q.namespaces ==> k.ns in p.namespaces
    ensures UsageOf(objects, q, r) <= UsageOf(objects, p, r)
    ensures r.Other? ==> UsageOf(objects, q, r) == 0
  {
    SumAtMost(objects, Selector(Elements(q.namespaces), r, false), Selector(Elements(p.namespaces), r, false));
    if r.Other? { SumNothing(objects, Selector(Elements(q.namespaces), r, false)); }
  }

  // ---- Steps of the worker ----

  lemma SafeBeginCountStep(s: State, t: State)
    requires SafeState(s) && CurrentState(t) && CoveredState(t) && Effect(s, BeginCount, t)
    ensures SafeState(t)
  {
    var j := t.job.value;
    if Unchanged(t, j.snapshot) {
      var p := j.snapshot;
      assert s.projects[p.name] == p;
      forall r: ResourceName ensures CountFits(j, t.objects, r) {
        assert WithinLimits(s.objects, p) && UsageOf(s.objects, p, r) <= Amount(p.hard, r);
        assert Cells(p.namespaces)[0..] == Cells(p.namespaces);
        CellsUsageIsUsage(p.hard, s.objects, p.namespaces, r);
        NoRepeatsIsExact(s.objects, p.namespaces, r);
      }
    }
  }

  lemma SafeCountStep(s: State, t: State)
    requires SafeState(s) && CurrentState(t) && CoveredState(t) && Effect(s, CountNext, t)
    ensures SafeState(t)
  {
    var j := s.job.value;
    if Unchanged(s, j.snapshot) {
      forall r: ResourceName ensures CountFits(t.job.value, t.objects, r) {
        assert CountFits(j, s.objects, r);
        CountStillFits(j, s.objects, r);
      }
    }
  }

  /** Counting a cell moves its usage from what is left to what is counted. */
  lemma CountStillFits(j: Job, objects: Store, r: ResourceName)
    requires j.phase.Counting? && j.phase.next < |Cells(j.snapshot.namespaces)| && CountFits(j, objects, r)
    ensures var cell := Cells(j.snapshot.namespaces)[j.phase.next];
            CountFits(j.(phase := Counting(j.phase.next + 1, CountCell(j.phase.used, j.snapshot.hard, objects, cell))), objects, r)
  {
    var cells := Cells(j.snapshot.namespaces);
    CellsUsageNext(j.snapshot.hard, objects, cells, j.phase.next, r);
    CountCellAdds(j.phase.used, j.snapshot.hard, objects, cells[j.phase.next], r);
  }

  lemma SafeWriteStep(s: State, t: State)
    requires SafeState(s) && CurrentState(t) && CoveredState(t) && Effect(s, WriteStatus, t)
    ensures SafeState(t)
  {
    var j := s.job.value;
    var p := s.projects[j.snapshot.name];
    var q := p.(used := j.phase.used, recorded := j.snapshot.namespaces);
    forall r: ResourceName
      ensures UsageOf(s.objects, q, r) <= Amount(q.hard, r) && Amount(q.used, r) <= Amount(q.hard, r)
    {
      assert WithinLimits(s.objects, p) && UsageOf(s.objects, p, r) <= Amount(p.hard, r);
      assert CountFits(j, s.objects, r);
    }
    CommitKeepsLimits(s, q);
  }

  lemma SafeReleaseStep(s: State, t: State)
    requires SafeState(s) && CurrentState(t) && CoveredState(t) && Effect(s, ReleaseProject, t)
    ensures SafeState(t)
  {
    var p := s.projects[s.job.value.snapshot.name];
    var q := LetGo(p);
    forall r: ResourceName ensures UsageOf(s.objects, q, r) <= Amount(q.hard, r) {
      assert WithinLimits(s.objects, p) && UsageOf(s.objects, p, r) <= Amount(p.hard, r);
    }
    CommitKeepsLimits(s, q);
  }

  lemma SafeWorkerStep(s: State, step: Step, t: State)
    requires SafeState(s) && CurrentState(t) && CoveredState(t) && Effect(s, step, t)
    requires step.StripObject? || step.BeginCount? || step.CountNext? || step.WriteStatus? || step.ReleaseProject?
    ensures SafeState(t)
  {
    match step
    case StripObject(k) => SafeStripStep(s, k, t);
    case BeginCount => SafeBeginCountStep(s, t);
    case CountNext => SafeCountStep(s, t);
    case WriteStatus => SafeWriteStep(s, t);
    case ReleaseProject => SafeReleaseStep(s, t);
  }

  /** Steps that change no object, no project and no count in progress. */
  lemma SafeOtherStep(s: State, step: Step, t: State)
    requires SafeState(s) && CurrentState(t) && CoveredState(t) && Effect(s, step, t)
    requires step.Resync? || step.Restart? || step.Begin? || step.ListCell? || step.Fail?
    ensures SafeState(t)
  {
    assert t.projects == s.projects && t.objects == s.objects;
  }

  lemma SafeStep(s: State, step: Step, t: State)
    requires SafeState(s) && Effect(s, step, t) && Tidy(s, step) && Covering(s, step) && Serial(s, step)
    ensures SafeState(t)
  {
    CurrentStep(s, step, t);
    CoveredStep(s, step, t);
    if step.CreateObject? || step.UpdateObject? || step.SetPhase? || step.DeleteObject? {
      SafeObjectStep(s, step, t);
    } else if step.CreateProject? || step.UpdateProject? || step.DeleteProject? {
      SafeProjectStep(s, step, t);
    } else if step.Resync? || step.Restart? || step.Begin? || step.ListCell? || step.Fail? {
      SafeOtherStep(s, step, t);
    } else {
      SafeWorkerStep(s, step, t);
    }
  }

  // ---- Whole runs ----

  lemma {:induction false} SafeRun(rules: Rules, run: Run)
    requires Execution(rules, run) && rules == Rules(true, true, true)
    ensures SafeState(Last(run))
    decreases |run.steps|
  {
    if run.steps != [] {
      var n := |run.steps|;
      assert Next(rules, run.states[n - 1], run.steps[n - 1], run.states[n]);
      BeforeIsExecution(rules, run);
      SafeRun(rules, Before(run));
      SafeStep(run.states[n - 1], run.steps[n - 1], run.states[n]);
    }
  }

  /** Quota safety.  In every state of every serialized run, what the annotated
      objects of a project use stays within its limit on every resource, and so does
      what all its objects use where the project is live and limits the kind. */
  lemma QuotaNeverExceeded(rules: Rules, run: Run, n: string, r: ResourceName)
    requires Execution(rules, run) && rules == Rules(true, true, true)
    requires n in Last(run).projects
    ensures var s := Last(run);
            var p := s.projects[n];
            && Usage(s.objects, Elements(p.namespaces), r) <= Amount(p.hard, r)
            && (!p.deleting && KindOf(r).Some? && GateKey(KindOf(r).value) in p.hard ==>
                  Total(s.objects, Elements(p.namespaces), r) <= Amount(p.hard, r))
  {
    SafeRun(rules, run);
    var s := Last(run);
    var p := s.projects[n];
    assert WithinLimits(s.objects, p) && UsageOf(s.objects, p, r) <= Amount(p.hard, r);
    if !p.deleting && KindOf(r).Some? && GateKey(KindOf(r).value) in p.hard {
      AnnotatedIsTotal(rules, run, n, r);
    }
  }

  /** The three service limits hold together through every sequence of creations,
      type changes and deletions. */
  lemma ServiceLimits(rules: Rules, run: Run, n: string)
    requires Execution(rules, run) && rules == Rules(true, true, true)
    requires n in Last(run).projects
    ensures var s := Last(run);
            var p := s.projects[n];
            var used := (r: ResourceName) => Usage(s.objects, Elements(p.namespaces), r);
            && used(ServicesNodePorts) + used(ServicesLoadBalancers) <= used(Services) <= Amount(p.hard, Services)
            && used(ServicesNodePorts) <= Amount(p.hard, ServicesNodePorts)
            && used(ServicesLoadBalancers) <= Amount(p.hard, ServicesLoadBalancers)
  {
    QuotaNeverExceeded(rules, run, n, Services);
    QuotaNeverExceeded(rules, run, n, ServicesNodePorts);
    QuotaNeverExceeded(rules, run, n, ServicesLoadBalancers);
    ServiceTypesBounded(Last(run).objects, Elements(Last(run).projects[n].namespaces));
  }

  /** Deletion is never blocked by the project's own validator: once the strip of a
      project being deleted is done and nobody wrote it meanwhile, the update that
      takes the finalizer away is admitted. */
  lemma DeletionIsAdmitted(rules: Rules, run: Run)
    requires Execution(rules, run) && rules == Rules(true, true, true)
    requires var s := Last(run); StripDone(s) && s.job.value.snapshot.deleting && Unchanged(s, s.job.value.snapshot)
    ensures var s := Last(run);
            var p := s.projects[s.job.value.snapshot.name];
            && AdmitsProjectUpdate(s.projects, LetGo(p))
            && exists t :: Effect(s, ReleaseProject, t)
  {
    SafeRun(rules, run);
    var s := Last(run);
    var p := s.projects[s.job.value.snapshot.name];
    var q := LetGo(p);
    assert HardCoversUsed(p);
    assert AdmitsProjectUpdate(s.projects, q);
    assert Effect(s, ReleaseProject, Commit(s, q).(job := None));
  }

  /** In every serialized run the objects an idle live project admits are exactly
      those with which it still fits its limits on every resource of the kind. */
  lemma IdleAdmissionIsExact(rules: Rules, run: Run, k: ObjectKey, o: Object)
    requires Execution(rules, run) && rules == Rules(true, true, true)
    requires k !in Last(run).objects && Annotated(o) && (k.kind == Pod ==> !Terminated(o))
    requires var s := Last(run); var n := Project(o).value;
             n in s.projects && !s.projects[n].deleting && Idle(s, n) && k.ns in s.projects[n].namespaces
    ensures var s := Last(run);
            AdmitsCreate(s.projects, k.kind, o) <==>
              forall r :: KindOf(r) == Some(k.kind) ==>
                Usage(s.objects[k := o], Elements(s.projects[Project(o).value].namespaces), r)
                <= Amount(s.projects[Project(o).value].hard, r)
  {
    SafeRun(rules, run);
    var s := Last(run);
    IdleIsAccurate(s, Project(o).value);
    match k.kind
    case Pod => PodAdmissionIsExact(s.projects, s.objects, k, o);
    case Service =>
      assert HardCoversUsed(s.projects[Project(o).value]);
      ServiceAdmissionIsExact(s.projects, s.objects, k, o);
    case _ => CountedAdmissionIsExact(s.projects, s.objects, k, o);
  }
}
