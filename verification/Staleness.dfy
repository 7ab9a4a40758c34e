/** No work is lost: whatever falls between two calls of a reconciliation, a
    project the controller is not about to look at again has an exact status. */
module Staleness {
  import opened ResourceModel
  import opened Tally
  import opened Accounting
  import opened Admission
  import opened Machine
  import opened Projects
  import opened Ownership

  ghost predicate UpToDate(p: Prq, objects: Store) {
    p.recorded == p.namespaces && p.used == Fresh(p, objects)
  }

  /** A project that is neither queued nor being reconciled is either up to date
      or being deleted by someone else's finalizer only. */
  ghost predicate Settled(p: Prq, objects: Store) {
    if p.deleting then FINALIZER !in p.finalizers else UpToDate(p, objects)
  }

  ghost predicate NoLostWork(s: State) {
    forall n :: n in s.projects && Idle(s, n) ==> Settled(s.projects[n], s.objects)
  }

  /** If no event has named the project since it was taken from the queue, the
      fetched copy is still the stored one and the totals so far are still right. */
  ghost predicate CountIsCurrent(s: State) {
    s.job.Some? && s.job.value.snapshot.name !in s.queue ==>
      var j := s.job.value;
      && j.snapshot.name in s.projects && s.projects[j.snapshot.name] == j.snapshot
      && (j.phase.Counting? && j.phase.next <= |Cells(j.snapshot.namespaces)| ==>
            j.phase.used == Recount(j.snapshot.hard, s.objects, Cells(j.snapshot.namespaces)[..j.phase.next]))
  }

  ghost predicate CurrentState(s: State) {
    TidyState(s) && NoLostWork(s) && CountIsCurrent(s)
  }

  /** The two stores charge every namespace of the list alike. */
  ghost predicate SameUsage(before: Store, after: Store, namespaces: seq<string>) {
    forall ns, r :: ns in namespaces ==> Usage(before, {ns}, r) == Usage(after, {ns}, r)
  }

  lemma SameUsageSameRecount(hard: ResourceList, before: Store, after: Store, namespaces: seq<string>, n: nat)
    requires SameUsage(before, after, namespaces)
    requires n <= |Cells(namespaces)|
    ensures Recount(hard, before, Cells(namespaces)[..n]) == Recount(hard, after, Cells(namespaces)[..n])
    ensures Recount(hard, before, Cells(namespaces)) == Recount(hard, after, Cells(namespaces))
  {
    CellsContain(namespaces);
    RecountFrame(hard, before, after, Cells(namespaces));
    forall cell | cell in Cells(namespaces)[..n] ensures cell.ns in namespaces {
      assert cell in Cells(namespaces);
    }
    RecountFrame(hard, before, after, Cells(namespaces)[..n]);
  }

  /** An object event that does not name n changes nothing that n is charged. */
  lemma PutElsewhere(s: State, k: ObjectKey, o: Object, n: string)
    requires TidyState(s) && TidyState(PutObject(s, k, o))
    requires n in s.projects && n !in PutObject(s, k, o).queue
    ensures SameUsage(s.objects, PutObject(s, k, o).objects, s.projects[n].namespaces)
  {
    var t := PutObject(s, k, o);
    if t.objects != s.objects {
      forall ns, r | ns in s.projects[n].namespaces ensures Usage(s.objects, {ns}, r) == Usage(t.objects, {ns}, r) {
        SumPut(s.objects, Selector({ns}, r, false), k, o);
        if k.ns == ns {
          assert Annotated(o) ==> OwnedBy(t.projects, k, o.annotations[ANNOTATION]);
          assert !Annotated(o);
        }
      }
    }
  }

  lemma DropElsewhere(s: State, k: ObjectKey, n: string)
    requires TidyState(s)
    requires n in s.projects && n !in DropObject(s, k).queue
    ensures SameUsage(s.objects, DropObject(s, k).objects, s.projects[n].namespaces)
  {
    forall ns, r | ns in s.projects[n].namespaces
      ensures Usage(s.objects, {ns}, r) == Usage(DropObject(s, k).objects, {ns}, r)
    {
      SumDrop(s.objects, Selector({ns}, r, false), k);
    }
  }

  /** Any step that leaves projects and job alone, and leaves the charges of every
      project that it does not queue alone. */
  lemma QuietForOthers(s: State, t: State)
    requires CurrentState(s) && TidyState(t)
    requires t.projects == s.projects && t.job == s.job && s.queue <= t.queue
    requires forall n :: n in s.projects && n !in t.queue ==> SameUsage(s.objects, t.objects, s.projects[n].namespaces)
    ensures CurrentState(t)
  {
    forall n | n in t.projects && Idle(t, n) ensures Settled(t.projects[n], t.objects) {
      assert Idle(s, n);
      SameUsageSameRecount(s.projects[n].hard, s.objects, t.objects, s.projects[n].namespaces, 0);
    }
    if t.job.Some? && t.job.value.snapshot.name !in t.queue && t.job.value.phase.Counting? {
      var j := s.job.value;
      SameUsageSameRecount(j.snapshot.hard, s.objects, t.objects, j.snapshot.namespaces, j.phase.next);
    }
  }

  lemma PutIsQuiet(s: State, k: ObjectKey, o: Object)
    requires CurrentState(s) && TidyState(PutObject(s, k, o))
    ensures CurrentState(PutObject(s, k, o))
  {
    var t := PutObject(s, k, o);
    forall n | n in s.projects && n !in t.queue ensures SameUsage(s.objects, t.objects, s.projects[n].namespaces) {
      PutElsewhere(s, k, o, n);
    }
    QuietForOthers(s, t);
  }

  lemma CommitIsQuiet(s: State, p: Prq)
    requires CurrentState(s) && TidyState(Commit(s, p))
    ensures CurrentState(Commit(s, p))
  {
  }

  lemma CurrentUserStep(s: State, step: Step, t: State)
    requires CurrentState(s) && TidyState(t) && Effect(s, step, t)
    requires step.CreateObject? || step.UpdateObject? || step.DeleteObject? || step.SetPhase? || step.Resync?
    ensures CurrentState(t)
  {
    match step
    case CreateObject(k, o) => PutIsQuiet(s, k, Defaulted(s.projects, k, o));
    case UpdateObject(k, o) => PutIsQuiet(s, k, Defaulted(s.projects, k, o));
    case SetPhase(k, phase) => PutIsQuiet(s, k, s.objects[k].(phase := phase));
    case DeleteObject(k) =>
      forall n | n in s.projects && n !in t.queue ensures SameUsage(s.objects, t.objects, s.projects[n].namespaces) {
        DropElsewhere(s, k, n);
      }
      QuietForOthers(s, t);
    case Resync(name) => QuietForOthers(s, t);
  }

  lemma CurrentProjectStep(s: State, step: Step, t: State)
    requires CurrentState(s) && TidyState(t) && Effect(s, step, t)
    requires step.CreateProject? || step.UpdateProject? || step.DeleteProject? || step.Restart?
    ensures CurrentState(t)
  {
    match step
    case CreateProject(p) =>
      CommitIsQuiet(s, Created(p));
    case UpdateProject(name, namespaces, hard, finalizers) =>
      var p := s.projects[name];
      CommitIsQuiet(s, Edited(p, namespaces, hard, finalizers));
    case DeleteProject(name) =>
      CommitIsQuiet(s, s.projects[name].(deleting := true));
    case Restart =>
  }

  lemma CurrentStripStep(s: State, k: ObjectKey, t: State)
    requires CurrentState(s) && TidyState(t) && Effect(s, StripObject(k), t)
    ensures CurrentState(t)
  {
    var o := HandedOver(s.projects, k, s.objects[k]);
    DefaultedIsTidy(s, k, Stripped(s.objects[k]));
    PutKeepsOwnership(s, k, o);
    PutIsQuiet(s, k, o);
  }

  lemma CurrentCountStep(s: State, t: State)
    requires CurrentState(s) && TidyState(t) && Effect(s, CountNext, t)
    ensures CurrentState(t)
  {
    var j := s.job.value;
    RecountNext(j.snapshot.hard, s.objects, Cells(j.snapshot.namespaces), j.phase.next);
  }

  /** The write after a count that no event disturbed makes the project up to date. */
  lemma CurrentWriteStep(s: State, t: State)
    requires CurrentState(s) && TidyState(t) && Effect(s, WriteStatus, t)
    ensures CurrentState(t)
    ensures var n := s.job.value.snapshot.name; n !in s.queue ==> n in t.projects && UpToDate(t.projects[n], t.objects)
  {
    var j := s.job.value;
    assert Cells(j.snapshot.namespaces)[..j.phase.next] == Cells(j.snapshot.namespaces);
  }

  lemma CurrentWorkerStep(s: State, step: Step, t: State)
    requires CurrentState(s) && TidyState(t) && Effect(s, step, t)
    requires step.Begin? || step.ListCell? || step.BeginCount? || step.ReleaseProject? || step.Fail?
    ensures CurrentState(t)
  {
    if step.ReleaseProject? {
      var p := s.projects[s.job.value.snapshot.name];
      WithoutKeeps(p.finalizers, FINALIZER, FINALIZER);
    }
  }

  lemma CurrentControllerStep(s: State, step: Step, t: State)
    requires CurrentState(s) && TidyState(t) && Effect(s, step, t)
    requires step.Begin? || step.ListCell? || step.BeginCount? || step.ReleaseProject? || step.Fail? || step.StripObject?
             || step.CountNext? || step.WriteStatus?
    ensures CurrentState(t)
  {
    match step
    case StripObject(k) => CurrentStripStep(s, k, t);
    case CountNext => CurrentCountStep(s, t);
    case WriteStatus => CurrentWriteStep(s, t);
    case _ => CurrentWorkerStep(s, step, t);
  }

  lemma CurrentStep(s: State, step: Step, t: State)
    requires CurrentState(s) && Effect(s, step, t) && Tidy(s, step)
    ensures CurrentState(t)
  {
    TidyStep(s, step, t);
    if step.CreateProject? || step.UpdateProject? || step.DeleteProject? || step.Restart? {
      CurrentProjectStep(s, step, t);
    } else if step.CreateObject? || step.UpdateObject? || step.DeleteObject? || step.SetPhase? || step.Resync? {
      CurrentUserStep(s, step, t);
    } else {
      CurrentControllerStep(s, step, t);
    }
  }

  lemma {:induction false} CurrentRun(rules: Rules, run: Run)
    requires Execution(rules, run) && rules.tidy
    ensures CurrentState(Last(run))
    decreases |run.steps|
  {
    if run.steps != [] {
      var n := |run.steps|;
      assert Next(rules, run.states[n - 1], run.steps[n - 1], run.states[n]);
      BeforeIsExecution(rules, run);
      CurrentRun(rules, Before(run));
      CurrentStep(run.states[n - 1], run.steps[n - 1], run.states[n]);
    }
  }

  /** No lost staleness.  In every state of every tidy run, a live project that is
      neither queued nor being reconciled records exactly the amounts its annotated
      objects charge and exactly the namespaces it lists; one that is being deleted
      and still holds the finalizer is always queued or being reconciled. */
  lemma NoLostStaleness(rules: Rules, run: Run, n: string, r: ResourceName)
    requires Execution(rules, run) && rules.tidy
    requires n in Last(run).projects && Idle(Last(run), n)
    ensures var p := Last(run).projects[n];
            if p.deleting then FINALIZER !in p.finalizers
            else
              && p.recorded == p.namespaces
              && (r in p.used <==> p.namespaces != [] && Counted(p.hard, r))
              && Amount(p.used, r) == if Counted(p.hard, r) then UsageBySequence(Last(run).objects, p.namespaces, r) else 0
  {
    CurrentRun(rules, run);
    var p := Last(run).projects[n];
    assert Settled(p, Last(run).objects);
    RecountIsUsage(p.hard, Last(run).objects, p.namespaces, r);
    RecountKeys(p.hard, Last(run).objects, p.namespaces, r);
  }
}
