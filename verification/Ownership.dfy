/** Who owns an annotated object.  The annotation, the finalizer and
    status.namespaces are the only links between admission and the controller; this
    module proves that tidy users never leave an annotation behind.
 */
module Ownership {
  import opened ResourceModel
  import opened Tally
  import opened Accounting
  import opened Admission
  import opened Machine
  import opened Projects

  /** The controller will still clean this namespace for the project. */
  predicate Covers(p: Prq, ns: string) {
    ns in p.namespaces || (!p.deleting && ns in p.recorded)
  }

  /** An annotated object names a stored project that covers its namespace, and
      the only one that claims it. */
  ghost predicate OwnedBy(projects: ProjectStore, k: ObjectKey, n: string) {
    && n in projects
    && Covers(projects[n], k.ns)
    && forall m :: m in projects && k.ns in projects[m].namespaces ==> m == n
  }

  ghost predicate Owned(projects: ProjectStore, objects: Store) {
    forall k :: k in objects && Annotated(objects[k]) ==> OwnedBy(projects, k, objects[k].annotations[ANNOTATION])
  }

  /** A project being deleted that no longer holds the finalizer owns nothing. */
  ghost predicate Released(projects: ProjectStore, objects: Store) {
    forall n, k :: n in projects && projects[n].deleting && FINALIZER !in projects[n].finalizers && k in objects ==>
      Project(objects[k]) != Some(n)
  }

  /** An object of the project in a namespace to clean is in a cell not listed yet
      or is pending. */
  ghost predicate StillToStrip(j: Job, k: ObjectKey) {
    && j.phase.Stripping?
    && (k in j.phase.pending || Cell(k.ns, k.kind) in Cells(j.targets)[if j.phase.next <= |Cells(j.targets)| then j.phase.next else 0..])
  }

  ghost predicate StripProgress(s: State) {
    s.job.Some? && Unchanged(s, s.job.value.snapshot) ==>
      forall k :: k in s.objects && Project(s.objects[k]) == Some(s.job.value.snapshot.name) && k.ns in s.job.value.targets ==>
        StillToStrip(s.job.value, k)
  }

  ghost predicate TidyState(s: State) {
    Wellformed(s) && Owned(s.projects, s.objects) && Released(s.projects, s.objects) && StripProgress(s)
  }

  // ---- Writes of objects ----

  /** What a tidy write may put on an object: nothing, what it named before, or the
      project that gates it. */
  ghost predicate TidyAnnotation(s: State, k: ObjectKey, o: Object) {
    Annotated(o) ==>
      || (k in s.objects && Project(o) == Project(s.objects[k]))
      || Gates(s.projects, o.annotations[ANNOTATION], k)
  }

  lemma DefaultedIsTidy(s: State, k: ObjectKey, o: Object)
    requires Annotated(o) ==> GateExists(s.projects, k) || (k in s.objects && Project(o) == Project(s.objects[k]))
    ensures TidyAnnotation(s, k, Defaulted(s.projects, k, o))
  {
  }

  lemma PutKeepsOwnership(s: State, k: ObjectKey, o: Object)
    requires TidyState(s) && TidyAnnotation(s, k, o)
    ensures TidyState(PutObject(s, k, o))
  {
    var t := PutObject(s, k, o);
    assert Owned(t.projects, t.objects);
    assert Released(t.projects, t.objects);
    if t.job.Some? && Unchanged(t, t.job.value.snapshot) {
      var j := t.job.value;
      forall x | x in t.objects && Project(t.objects[x]) == Some(j.snapshot.name) && x.ns in j.targets
        ensures StillToStrip(j, x)
      {
        assert x.ns in ToClean(j.snapshot);
      }
    }
  }

  lemma DropKeepsOwnership(s: State, k: ObjectKey)
    requires TidyState(s)
    ensures TidyState(DropObject(s, k))
  {
  }

  // ---- Writes of projects ----

  /** The condition under which a project may be replaced: it still covers the
      objects that name it, claims no object of another, and if it loses the
      finalizer while being deleted it owns nothing. */
  ghost predicate KeepsObjects(s: State, p: Prq) {
    forall k :: k in s.objects && Annotated(s.objects[k]) ==>
      var n := s.objects[k].annotations[ANNOTATION];
      && (n == p.name ==> Covers(p, k.ns) && !(p.deleting && FINALIZER !in p.finalizers))
      && (k.ns in p.namespaces ==> n == p.name)
  }

  lemma CommitKeepsOwned(s: State, p: Prq)
    requires Owned(s.projects, s.objects) && KeepsObjects(s, p)
    ensures Owned(Commit(s, p).projects, s.objects)
  {
    var t := Commit(s, p);
    forall k | k in s.objects && Annotated(s.objects[k])
      ensures OwnedBy(t.projects, k, s.objects[k].annotations[ANNOTATION])
    {
      assert OwnedBy(s.projects, k, s.objects[k].annotations[ANNOTATION]);
    }
  }

  lemma CommitKeepsReleased(s: State, p: Prq)
    requires Released(s.projects, s.objects) && KeepsObjects(s, p)
    ensures Released(Commit(s, p).projects, s.objects)
  {
  }

  lemma CommitKeepsOwnership(s: State, p: Prq)
    requires TidyState(s) && Wellformed(Commit(s, p))
    requires KeepsObjects(s, p)
    ensures TidyState(Commit(s, p))
  {
    CommitKeepsOwned(s, p);
    CommitKeepsReleased(s, p);
    assert StripProgress(Commit(s, p));
  }

  /** No object of the project lies in a namespace it drops without the controller
      knowing it from status.namespaces. */
  ghost predicate DropsOnlyRecorded(objects: Store, before: Prq, after: Prq) {
    forall k :: k in objects && Project(objects[k]) == Some(before.name) && k.ns in before.namespaces && k.ns !in after.namespaces ==>
      !after.deleting && k.ns in after.recorded
  }

  /** A namespace newly listed holds no annotated object of another project. */
  ghost predicate ClaimsOnlyOwn(objects: Store, before: Prq, after: Prq) {
    forall k :: k in objects && Annotated(objects[k]) && k.ns in after.namespaces && k.ns !in before.namespaces ==>
      Project(objects[k]) == Some(before.name)
  }

  /** Exactly when a change of the namespaces of a stored project keeps every
      annotation owned. */
  lemma EditKeepsOwnershipIff(s: State, p: Prq)
    requires Wellformed(s) && Owned(s.projects, s.objects)
    requires p.name in s.projects && p.deleting == s.projects[p.name].deleting && p.recorded == s.projects[p.name].recorded
    ensures Owned(s.projects[p.name := p], s.objects) <==>
            DropsOnlyRecorded(s.objects, s.projects[p.name], p) && ClaimsOnlyOwn(s.objects, s.projects[p.name], p)
  {
    var before, after := s.projects[p.name], s.projects[p.name := p];
    if Owned(after, s.objects) {
      assert after[p.name] == p;
      forall k | k in s.objects && Annotated(s.objects[k])
        ensures k.ns in p.namespaces ==> Project(s.objects[k]) == Some(p.name)
      {
        assert OwnedBy(after, k, s.objects[k].annotations[ANNOTATION]);
      }
    }
    if DropsOnlyRecorded(s.objects, before, p) && ClaimsOnlyOwn(s.objects, before, p) {
      forall k | k in s.objects && Annotated(s.objects[k])
        ensures OwnedBy(after, k, s.objects[k].annotations[ANNOTATION])
      {
        assert OwnedBy(s.projects, k, s.objects[k].annotations[ANNOTATION]);
      }
    }
  }

  /** Exactly when marking a project for deletion keeps every annotation owned: no
      object of it is left in a namespace it listed once and lists no more. */
  lemma DeleteKeepsOwnershipIff(s: State, n: string)
    requires Wellformed(s) && Owned(s.projects, s.objects)
    requires n in s.projects
    ensures Owned(s.projects[n := s.projects[n].(deleting := true)], s.objects) <==>
            forall k :: k in s.objects && Project(s.objects[k]) == Some(n) ==> k.ns in s.projects[n].namespaces
  {
    var after := s.projects[n := s.projects[n].(deleting := true)];
    if forall k :: k in s.objects && Project(s.objects[k]) == Some(n) ==> k.ns in s.projects[n].namespaces {
      forall k | k in s.objects && Annotated(s.objects[k])
        ensures OwnedBy(after, k, s.objects[k].annotations[ANNOTATION])
      {
        assert OwnedBy(s.projects, k, s.objects[k].annotations[ANNOTATION]);
      }
    }
  }

  // ---- Steps ----

  lemma TidyUserStep(s: State, step: Step, t: State)
    requires TidyState(s) && Wellformed(t) && Effect(s, step, t) && Tidy(s, step)
    requires step.CreateObject? || step.UpdateObject? || step.DeleteObject? || step.SetPhase? || step.Resync? || step.Restart?
    ensures TidyState(t)
  {
    match step
    case CreateObject(k, o) =>
      DefaultedIsTidy(s, k, o);
      PutKeepsOwnership(s, k, Defaulted(s.projects, k, o));
    case UpdateObject(k, o) =>
      DefaultedIsTidy(s, k, o);
      PutKeepsOwnership(s, k, Defaulted(s.projects, k, o));
    case SetPhase(k, phase) =>
      PutKeepsOwnership(s, k, s.objects[k].(phase := phase));
    case DeleteObject(k) =>
      DropKeepsOwnership(s, k);
    case _ =>
  }

  lemma TidyEdit(s: State, step: Step, t: State)
    requires TidyState(s) && Wellformed(t) && Effect(s, step, t) && Tidy(s, step) && step.UpdateProject?
    ensures TidyState(t)
  {
    CommitKeepsOwnership(s, Edited(s.projects[step.name], step.namespaces, step.hard, step.finalizers));
  }

  lemma TidyProjectStep(s: State, step: Step, t: State)
    requires TidyState(s) && Wellformed(t) && Effect(s, step, t) && Tidy(s, step)
    requires step.CreateProject? || step.UpdateProject? || step.DeleteProject?
    ensures TidyState(t)
  {
    if step.UpdateProject? {
      TidyEdit(s, step, t);
    } else {
      match step
      case CreateProject(p) =>
        CommitKeepsOwnership(s, Created(p));
      case DeleteProject(name) =>
        CommitKeepsOwnership(s, s.projects[name].(deleting := true));
    }
  }

  /** Once the strip is done, nothing in the namespaces to clean names the project. */
  lemma StripDoneMeansClean(s: State)
    requires TidyState(s) && s.job.Some? && Unchanged(s, s.job.value.snapshot)
    requires StripDone(s) || s.job.value.phase.Counting?
    ensures forall k :: k in s.objects && k.ns in s.job.value.targets ==> Project(s.objects[k]) != Some(s.job.value.snapshot.name)
  {
    var j := s.job.value;
    forall k | k in s.objects && k.ns in j.targets ensures Project(s.objects[k]) != Some(j.snapshot.name) {
      assert !StillToStrip(j, k);
    }
  }

  lemma TidyWorkerStep(s: State, step: Step, t: State)
    requires TidyState(s) && Wellformed(t) && Effect(s, step, t)
    requires step.Begin? || step.BeginCount? || step.CountNext? || step.Fail?
    ensures TidyState(t)
  {
    match step
    case Begin(name, targets) =>
      if name in s.projects {
        CellsContain(targets);
        forall k | k in t.objects && Project(t.objects[k]) == Some(name) && k.ns in targets
          ensures StillToStrip(t.job.value, k)
        {
          assert Cells(targets)[0..] == Cells(targets) && Cell(k.ns, k.kind) in Cells(targets);
        }
      }
    case BeginCount =>
      if Unchanged(s, s.job.value.snapshot) { StripDoneMeansClean(s); }
    case _ =>
  }

  lemma TidyListStep(s: State, t: State)
    requires TidyState(s) && Wellformed(t) && Effect(s, ListCell, t)
    ensures TidyState(t)
  {
    var j := s.job.value;
    var cell := Cells(j.targets)[j.phase.next];
    if Unchanged(t, j.snapshot) {
      forall k | k in t.objects && Project(t.objects[k]) == Some(j.snapshot.name) && k.ns in j.targets
        ensures StillToStrip(t.job.value, k)
      {
        assert StillToStrip(j, k);
        assert Cells(j.targets)[j.phase.next..] == [cell] + Cells(j.targets)[j.phase.next + 1..];
        if Cell(k.ns, k.kind) == cell { assert k in t.job.value.phase.pending; }
      }
    }
  }

  /** Stripping an object leaves it with what the webhook gives it, and never with
      the name of the project that is being cleaned away. */
  lemma StripTakesTheNameAway(s: State, k: ObjectKey)
    requires TidyState(s) && s.job.Some? && Unchanged(s, s.job.value.snapshot) && k.ns in s.job.value.targets
    ensures Project(HandedOver(s.projects, k, s.objects[k])) != Some(s.job.value.snapshot.name)
    requires k in s.objects
  {
    assert k.ns in ToClean(s.job.value.snapshot);
  }

  lemma TidyStripStep(s: State, k: ObjectKey, t: State)
    requires TidyState(s) && Wellformed(t) && Effect(s, StripObject(k), t)
    ensures TidyState(t)
  {
    var o := HandedOver(s.projects, k, s.objects[k]);
    DefaultedIsTidy(s, k, Stripped(s.objects[k]));
    PutKeepsOwnership(s, k, o);
    assert t == PutObject(s, k, o).(job := t.job);
    StripMakesProgress(s, k, t);
  }

  lemma StripMakesProgress(s: State, k: ObjectKey, t: State)
    requires TidyState(s) && Effect(s, StripObject(k), t)
    ensures StripProgress(t)
  {
    var j := s.job.value;
    if Unchanged(t, j.snapshot) {
      forall x | x in t.objects && Project(t.objects[x]) == Some(j.snapshot.name) && x.ns in j.targets
        ensures StillToStrip(t.job.value, x)
      {
        assert StillToStrip(j, x);
        if x == k { StripTakesTheNameAway(s, k); }
      }
    }
  }

  lemma TidyWriteStep(s: State, t: State)
    requires TidyState(s) && Wellformed(t) && Effect(s, WriteStatus, t)
    ensures TidyState(t)
  {
    var j := s.job.value;
    var p := s.projects[j.snapshot.name].(used := j.phase.used, recorded := j.snapshot.namespaces);
    StripDoneMeansClean(s);
    CommitFitsSameNamespaces(s, p);
    assert forall k :: k in s.objects && k.ns in ToClean(j.snapshot) ==> k.ns in j.targets;
    assert KeepsObjects(s, p);
    CommitKeepsOwnership(s, p);
  }

  lemma TidyReleaseStep(s: State, t: State)
    requires TidyState(s) && Wellformed(t) && Effect(s, ReleaseProject, t)
    ensures TidyState(t)
    ensures forall k :: k in s.objects ==> Project(s.objects[k]) != Some(s.job.value.snapshot.name)
  {
    var j := s.job.value;
    var p := s.projects[j.snapshot.name];
    var q := LetGo(p);
    StripDoneMeansClean(s);
    assert forall k :: k in s.objects && k.ns in ToClean(j.snapshot) ==> k.ns in j.targets;
    assert forall k :: k in s.objects && Annotated(s.objects[k]) ==> s.objects[k].annotations[ANNOTATION] != p.name;
    CommitFits(s, q);
    CommitKeepsOwnership(s, q);
  }

  lemma TidyControllerStep(s: State, step: Step, t: State)
    requires TidyState(s) && Wellformed(t) && Effect(s, step, t)
    requires step.Begin? || step.BeginCount? || step.CountNext? || step.Fail? || step.ListCell? || step.StripObject?
             || step.WriteStatus? || step.ReleaseProject?
    ensures TidyState(t)
  {
    match step
    case ListCell => TidyListStep(s, t);
    case StripObject(k) => TidyStripStep(s, k, t);
    case WriteStatus => TidyWriteStep(s, t);
    case ReleaseProject => TidyReleaseStep(s, t);
    case _ => TidyWorkerStep(s, step, t);
  }

  lemma TidyStep(s: State, step: Step, t: State)
    requires TidyState(s) && Effect(s, step, t) && Tidy(s, step)
    ensures TidyState(t)
  {
    WellformedStep(s, step, t);
    if step.CreateProject? || step.UpdateProject? || step.DeleteProject? {
      TidyProjectStep(s, step, t);
    } else if step.CreateObject? || step.UpdateObject? || step.DeleteObject? || step.SetPhase? || step.Resync? || step.Restart? {
      TidyUserStep(s, step, t);
    } else {
      TidyControllerStep(s, step, t);
    }
  }

  // ---- Whole runs ----

  lemma {:induction false} TidyRun(rules: Rules, run: Run)
    requires Execution(rules, run) && rules.tidy
    ensures TidyState(Last(run))
    decreases |run.steps|
  {
    if run.steps != [] {
      var n := |run.steps|;
      assert Next(rules, run.states[n - 1], run.steps[n - 1], run.states[n]);
      BeforeIsExecution(rules, run);
      TidyRun(rules, Before(run));
      TidyStep(run.states[n - 1], run.steps[n - 1], run.states[n]);
    }
  }

  /** No orphaned annotation: in every state of every tidy run an annotated object
      names a stored project, lies in a namespace which that project lists or has
      recorded and will clean, and is named by any project that claims its namespace;
      a project being deleted that lost the finalizer is named by none. */
  lemma NoOrphans(rules: Rules, run: Run, k: ObjectKey)
    requires Execution(rules, run) && rules.tidy
    requires k in Last(run).objects && Annotated(Last(run).objects[k])
    ensures var s := Last(run);
            var n := s.objects[k].annotations[ANNOTATION];
            && n in s.projects
            && (k.ns in s.projects[n].namespaces || (!s.projects[n].deleting && k.ns in s.projects[n].recorded))
            && (forall m :: m in s.projects && k.ns in s.projects[m].namespaces ==> m == n)
            && (s.projects[n].deleting ==> FINALIZER in s.projects[n].finalizers)
  {
    TidyRun(rules, run);
    var s := Last(run);
    assert OwnedBy(s.projects, k, s.objects[k].annotations[ANNOTATION]);
  }

  lemma DeletingNeverGrows(s: State, step: Step, t: State, n: string, k: ObjectKey)
    requires Wellformed(s) && Effect(s, step, t) && Tidy(s, step)
    requires n in s.projects && s.projects[n].deleting
    requires k in t.objects && Project(t.objects[k]) == Some(n)
    ensures k in s.objects && Project(s.objects[k]) == Some(n)
  {
  }

  /** From position m on, project n is stored and being deleted. */
  ghost predicate DeletingSince(run: Run, m: nat, n: string) {
    forall i :: m <= i < |run.states| ==> n in run.states[i].projects && run.states[i].projects[n].deleting
  }

  /** Over any stretch of a tidy run in which a project is being deleted, every object
      that names it at the end named it at the beginning. */
  lemma {:induction false} DeletingOnlyShrinks(rules: Rules, run: Run, m: nat, n: string, k: ObjectKey)
    requires Execution(rules, run) && rules.tidy
    requires m < |run.states| && DeletingSince(run, m, n)
    requires k in Last(run).objects && Project(Last(run).objects[k]) == Some(n)
    ensures k in run.states[m].objects && Project(run.states[m].objects[k]) == Some(n)
    decreases |run.steps|
  {
    if m < |run.steps| {
      BeforeIsExecution(rules, run);
      LastStepNeverGrows(rules, run, n, k);
      DeletingOnlyShrinks(rules, Before(run), m, n, k);
    }
  }

  lemma LastStepNeverGrows(rules: Rules, run: Run, n: string, k: ObjectKey)
    requires Execution(rules, run) && rules.tidy && run.steps != []
    requires n in Last(Before(run)).projects && Last(Before(run)).projects[n].deleting
    requires k in Last(run).objects && Project(Last(run).objects[k]) == Some(n)
    ensures k in Last(Before(run)).objects && Project(Last(Before(run)).objects[k]) == Some(n)
  {
    var i := |run.steps| - 1;
    assert Next(rules, run.states[i], run.steps[i], run.states[i + 1]);
    BeforeIsExecution(rules, run);
    WellformedRun(rules, Before(run));
    DeletingNeverGrows(run.states[i], run.steps[i], run.states[i + 1], n, k);
  }

  lemma OnlyDeletedLeave(s: State, step: Step, t: State, n: string)
    requires Wellformed(s) && Effect(s, step, t)
    requires n in s.projects && n !in t.projects
    ensures s.projects[n].deleting
  {
  }

  /** In every tidy run, when a project leaves the store it was being deleted, and no
      object anywhere carries its name. */
  lemma LeavesClean(rules: Rules, run: Run, n: string)
    requires Execution(rules, run) && rules.tidy && run.steps != []
    requires n in Last(Before(run)).projects && n !in Last(run).projects
    ensures Last(Before(run)).projects[n].deleting
    ensures forall k :: k in Last(run).objects ==> Project(Last(run).objects[k]) != Some(n)
  {
    var i := |run.steps| - 1;
    assert Next(rules, run.states[i], run.steps[i], run.states[i + 1]);
    BeforeIsExecution(rules, run);
    WellformedRun(rules, Before(run));
    OnlyDeletedLeave(run.states[i], run.steps[i], run.states[i + 1], n);
    forall k | k in Last(run).objects ensures Project(Last(run).objects[k]) != Some(n) {
      if Annotated(Last(run).objects[k]) { NoOrphans(rules, run, k); }
    }
  }

  /** In every run a live project holds the finalizer. */
  lemma LiveHoldsFinalizer(rules: Rules, run: Run, n: string)
    requires Execution(rules, run) && n in Last(run).projects
    ensures !Last(run).projects[n].deleting ==> FINALIZER in Last(run).projects[n].finalizers
  {
    WellformedRun(rules, run);
  }
}
