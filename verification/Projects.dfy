/** What holds of the stored projects in every run, whatever the users do:
    names, disjoint namespaces, supported limits, the finalizer of every live
    project, and what the version of a fetched project proves. */
module Projects {
  import opened ResourceModel
  import opened Accounting
  import opened Admission
  import opened Machine

  ghost predicate ProjectFits(n: string, p: Prq, revision: nat) {
    && p.name == n
    && p.version <= revision
    && SupportedNames(p.hard)
    && p.finalizers != []
    && (!p.deleting ==> FINALIZER in p.finalizers)
  }

  ghost predicate ProjectsFit(s: State) {
    && Disjoint(s.projects)
    && forall n :: n in s.projects ==> ProjectFits(n, s.projects[n], s.revision)
  }

  /** The job walks cells that exist, holds annotated objects of them, and if the fetched version is still stored
      then the fetched project is. */
  ghost predicate JobFits(s: State) {
    s.job.Some? ==>
      var j := s.job.value;
      && j.snapshot.version <= s.revision
      && Elements(j.targets) == ToClean(j.snapshot)
      && (Unchanged(s, j.snapshot) ==> s.projects[j.snapshot.name] == j.snapshot)
      && match j.phase
         case Stripping(next, pending) => next <= |Cells(j.targets)| && forall k :: k in pending ==> Annotated(pending[k]) && k.ns in j.targets
         case Counting(next, used) => next <= |Cells(j.snapshot.namespaces)| && !j.snapshot.deleting
  }

  ghost predicate Wellformed(s: State) {
    ProjectsFit(s) && JobFits(s)
  }

  lemma WithoutKeeps(finalizers: seq<string>, name: string, other: string)
    ensures other in Without(finalizers, name) <==> other in finalizers && other != name
  {
  }

  lemma CommitFits(s: State, p: Prq)
    requires Wellformed(s)
    requires AdmitsProject(s.projects, p)
    requires !p.deleting ==> FINALIZER in p.finalizers
    ensures Wellformed(Commit(s, p))
  {
    assert Disjoint(Commit(s, p).projects);
  }

  lemma CommitFitsSameNamespaces(s: State, p: Prq)
    requires Wellformed(s)
    requires p.name in s.projects
    requires s.projects[p.name].namespaces == p.namespaces && s.projects[p.name].hard == p.hard
    requires !p.deleting ==> FINALIZER in p.finalizers
    ensures Wellformed(Commit(s, p))
  {
    CommitFits(s, p);
  }

  lemma WellformedProjectStep(s: State, step: Step, t: State)
    requires Wellformed(s) && Effect(s, step, t)
    requires step.CreateProject? || step.UpdateProject? || step.DeleteProject?
    ensures Wellformed(t)
  {
    match step
    case CreateProject(p) =>
      CommitFits(s, Created(p));
    case UpdateProject(name, namespaces, hard, finalizers) =>
      CommitFits(s, Edited(s.projects[name], namespaces, hard, finalizers));
    case DeleteProject(name) =>
      CommitFitsSameNamespaces(s, s.projects[name].(deleting := true));
  }

  lemma WellformedWriteStep(s: State, step: Step, t: State)
    requires Wellformed(s) && Effect(s, step, t)
    requires step.WriteStatus? || step.ReleaseProject?
    ensures Wellformed(t)
  {
    match step
    case WriteStatus =>
      var j := s.job.value;
      CommitFitsSameNamespaces(s, s.projects[j.snapshot.name].(used := j.phase.used, recorded := j.snapshot.namespaces));
    case ReleaseProject =>
      CommitFits(s, LetGo(s.projects[s.job.value.snapshot.name]));
  }

  lemma WellformedListStep(s: State, t: State)
    requires Wellformed(s) && Effect(s, ListCell, t)
    ensures Wellformed(t)
  {
    var j := s.job.value;
    CellsContain(j.targets);
    assert Cells(j.targets)[j.phase.next] in Cells(j.targets);
  }

  lemma WellformedOtherStep(s: State, step: Step, t: State)
    requires Wellformed(s) && Effect(s, step, t)
    requires !step.CreateProject? && !step.UpdateProject? && !step.DeleteProject?
    requires !step.WriteStatus? && !step.ReleaseProject? && !step.ListCell?
    ensures Wellformed(t)
  {
  }

  lemma WellformedStep(s: State, step: Step, t: State)
    requires Wellformed(s) && Effect(s, step, t)
    ensures Wellformed(t)
  {
    if step.CreateProject? || step.UpdateProject? || step.DeleteProject? {
      WellformedProjectStep(s, step, t);
    } else if step.WriteStatus? || step.ReleaseProject? {
      WellformedWriteStep(s, step, t);
    } else if step.ListCell? {
      WellformedListStep(s, t);
    } else {
      WellformedOtherStep(s, step, t);
    }
  }

  lemma {:induction false} WellformedRun(rules: Rules, run: Run)
    requires Execution(rules, run)
    ensures Wellformed(Last(run))
    decreases |run.steps|
  {
    if run.steps != [] {
      var n := |run.steps|;
      assert Next(rules, run.states[n - 1], run.steps[n - 1], run.states[n]);
      BeforeIsExecution(rules, run);
      WellformedRun(rules, Before(run));
      WellformedStep(run.states[n - 1], run.steps[n - 1], run.states[n]);
    }
  }

  lemma BeforeIsExecution(rules: Rules, run: Run)
    requires Execution(rules, run) && run.steps != []
    ensures Execution(rules, Before(run)) && Last(Before(run)) == run.states[|run.steps| - 1]
  {
    var shorter := Before(run);
    forall i | 0 <= i < |shorter.steps| ensures Next(rules, shorter.states[i], shorter.steps[i], shorter.states[i + 1]) {
      assert Next(rules, run.states[i], run.steps[i], run.states[i + 1]);
    }
  }

  /** In every run, distinct projects, also those being deleted, list disjoint
      namespaces, so every annotator gives the same answer for every order in which
      the projects are listed. */
  lemma AnnotationIsOrderFree(rules: Rules, run: Run, items: seq<Prq>, k: ObjectKey, o: Object)
    requires Execution(rules, run)
    requires Listing(items, Last(run).projects)
    ensures Disjoint(Last(run).projects)
    ensures Defaulted(Last(run).projects, k, o)
            == match FirstMatch(items, k)
               case Some(n) => o.(annotations := o.annotations[ANNOTATION := n])
               case None => o
  {
    WellformedRun(rules, run);
    DefaultIsFirstMatch(items, Last(run).projects, k, o);
  }
}
