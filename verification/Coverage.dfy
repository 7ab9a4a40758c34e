/** Complete coverage: where a live project limits a kind, every object of that
    kind in its namespaces carries the project's name, whatever annotations were
    submitted with it, so the annotated objects are all the objects. */
module Coverage {
  import opened ResourceModel
  import opened Tally
  import opened Accounting
  import opened Admission
  import opened Machine
  import opened Projects
  import opened Ownership

  ghost predicate Covered(projects: ProjectStore, objects: Store) {
    forall n, k :: Gates(projects, n, k) && k in objects ==> Project(objects[k]) == Some(n)
  }

  ghost predicate Unrepeated(projects: ProjectStore) {
    forall n :: n in projects ==> NoRepeats(projects[n].namespaces)
  }

  ghost predicate CoveredState(s: State) {
    TidyState(s) && Covered(s.projects, s.objects) && Unrepeated(s.projects)
  }

  lemma PutKeepsCovered(s: State, k: ObjectKey, o: Object)
    requires CoveredState(s)
    ensures Covered(s.projects, PutObject(s, k, Defaulted(s.projects, k, o)).objects)
  {
    var t := PutObject(s, k, Defaulted(s.projects, k, o));
    forall n, x | Gates(s.projects, n, x) && x in t.objects ensures Project(t.objects[x]) == Some(n) {
      if x == k { assert GateExists(s.projects, k); }
    }
  }

  /** A project may be replaced if it already covers what it gates. */
  lemma CommitKeepsCovered(s: State, p: Prq)
    requires CoveredState(s) && NoRepeats(p.namespaces)
    requires !p.deleting ==>
               forall k :: k in s.objects && k.ns in p.namespaces && GateKey(k.kind) in p.hard ==>
                 Project(s.objects[k]) == Some(p.name)
    ensures Covered(Commit(s, p).projects, Commit(s, p).objects) && Unrepeated(Commit(s, p).projects)
  {
    var t := Commit(s, p);
    forall n, k | Gates(t.projects, n, k) && k in t.objects ensures Project(t.objects[k]) == Some(n) {
      assert n != p.name ==> Gates(s.projects, n, k);
    }
  }

  lemma CoveredCreateStep(s: State, p: Prq, t: State)
    requires CoveredState(s) && TidyState(t) && Effect(s, CreateProject(p), t) && Covering(s, CreateProject(p))
    ensures CoveredState(t)
  {
    CommitKeepsCovered(s, Created(p));
  }

  lemma CoveredUpdateStep(s: State, step: Step, t: State)
    requires CoveredState(s) && TidyState(t) && Effect(s, step, t) && Covering(s, step) && step.UpdateProject?
    ensures CoveredState(t)
  {
    var p := s.projects[step.name];
    var q := Edited(p, step.namespaces, step.hard, step.finalizers);
    if !q.deleting {
      forall k | k in s.objects && k.ns in q.namespaces && GateKey(k.kind) in q.hard
        ensures Project(s.objects[k]) == Some(step.name)
      {
        GatedIsNamed(s, k, p);
      }
    }
    CommitKeepsCovered(s, q);
  }

  /** In a namespace of the project, an object is named by it if it is annotated at
      all, and annotated if the project gates it. */
  lemma GatedIsNamed(s: State, k: ObjectKey, p: Prq)
    requires CoveredState(s) && p.name in s.projects && s.projects[p.name] == p
    requires k in s.objects && k.ns in p.namespaces
    ensures Annotated(s.objects[k]) ==> Project(s.objects[k]) == Some(p.name)
    ensures !p.deleting && GateKey(k.kind) in p.hard ==> Project(s.objects[k]) == Some(p.name)
  {
    if Annotated(s.objects[k]) {
      assert OwnedBy(s.projects, k, s.objects[k].annotations[ANNOTATION]);
    }
    if !p.deleting && GateKey(k.kind) in p.hard {
      assert Gates(s.projects, p.name, k);
    }
  }

  /** A write that leaves spec alone, and may set the deletion mark. */
  lemma SameSpecKeepsCovered(s: State, p: Prq)
    requires CoveredState(s) && p.name in s.projects
    requires p.namespaces == s.projects[p.name].namespaces && p.hard == s.projects[p.name].hard
    requires s.projects[p.name].deleting ==> p.deleting
    ensures Covered(Commit(s, p).projects, Commit(s, p).objects) && Unrepeated(Commit(s, p).projects)
  {
    if !p.deleting {
      forall k | k in s.objects && k.ns in p.namespaces && GateKey(k.kind) in p.hard
        ensures Project(s.objects[k]) == Some(p.name)
      {
        GatedIsNamed(s, k, s.projects[p.name]);
      }
    }
    CommitKeepsCovered(s, p);
  }

  lemma CoveredCommitStep(s: State, step: Step, t: State)
    requires CoveredState(s) && TidyState(t) && Effect(s, step, t)
    requires step.DeleteProject? || step.WriteStatus? || step.ReleaseProject?
    ensures CoveredState(t)
  {
    match step
    case DeleteProject(name) =>
      SameSpecKeepsCovered(s, s.projects[name].(deleting := true));
    case WriteStatus =>
      var j := s.job.value;
      SameSpecKeepsCovered(s, s.projects[j.snapshot.name].(used := j.phase.used, recorded := j.snapshot.namespaces));
    case ReleaseProject =>
      var p := s.projects[s.job.value.snapshot.name];
      SameSpecKeepsCovered(s, LetGo(p));
  }

  lemma CoveredObjectStep(s: State, step: Step, t: State)
    requires CoveredState(s) && TidyState(t) && Effect(s, step, t)
    requires step.CreateObject? || step.UpdateObject? || step.StripObject?
    ensures CoveredState(t)
  {
    match step
    case CreateObject(k, o) => PutKeepsCovered(s, k, o);
    case UpdateObject(k, o) => PutKeepsCovered(s, k, o);
    case StripObject(k) => PutKeepsCovered(s, k, Stripped(s.objects[k]));
  }

  /** Steps that write no project and no annotation. */
  lemma CoveredOtherStep(s: State, step: Step, t: State)
    requires CoveredState(s) && TidyState(t) && Effect(s, step, t)
    requires step.SetPhase? || step.DeleteObject? || step.Resync? || step.Restart? || step.Begin? || step.ListCell?
             || step.BeginCount? || step.CountNext? || step.Fail?
    ensures CoveredState(t)
  {
    assert t.projects == s.projects;
    assert forall k :: k in t.objects ==> k in s.objects && Project(t.objects[k]) == Project(s.objects[k]);
  }

  lemma CoveredStep(s: State, step: Step, t: State)
    requires CoveredState(s) && Effect(s, step, t) && Tidy(s, step) && Covering(s, step)
    ensures CoveredState(t)
  {
    TidyStep(s, step, t);
    if step.CreateObject? || step.UpdateObject? || step.StripObject? {
      CoveredObjectStep(s, step, t);
    } else if step.CreateProject? {
      CoveredCreateStep(s, step.p, t);
    } else if step.UpdateProject? {
      CoveredUpdateStep(s, step, t);
    } else if step.DeleteProject? || step.WriteStatus? || step.ReleaseProject? {
      CoveredCommitStep(s, step, t);
    } else {
      CoveredOtherStep(s, step, t);
    }
  }

  lemma {:induction false} CoveredRun(rules: Rules, run: Run)
    requires Execution(rules, run) && rules.tidy && rules.covering
    ensures CoveredState(Last(run))
    decreases |run.steps|
  {
    if run.steps != [] {
      var n := |run.steps|;
      assert Next(rules, run.states[n - 1], run.steps[n - 1], run.states[n]);
      BeforeIsExecution(rules, run);
      CoveredRun(rules, Before(run));
      CoveredStep(run.states[n - 1], run.steps[n - 1], run.states[n]);
    }
  }

  /** In every covering run an object of a kind that a live project limits, in a
      namespace it lists, carries the name of that project. */
  lemma CompleteCoverage(rules: Rules, run: Run, n: string, k: ObjectKey)
    requires Execution(rules, run) && rules.tidy && rules.covering
    requires n in Last(run).projects && !Last(run).projects[n].deleting
    requires k in Last(run).objects && k.ns in Last(run).projects[n].namespaces && GateKey(k.kind) in Last(run).projects[n].hard
    ensures Project(Last(run).objects[k]) == Some(n)
  {
    CoveredRun(rules, run);
    assert Gates(Last(run).projects, n, k);
  }

  /** In every covering run the annotated count of a limited kind is the total. */
  lemma AnnotatedIsTotal(rules: Rules, run: Run, n: string, r: ResourceName)
    requires Execution(rules, run) && rules.tidy && rules.covering
    requires n in Last(run).projects && !Last(run).projects[n].deleting
    requires KindOf(r).Some? && GateKey(KindOf(r).value) in Last(run).projects[n].hard
    ensures var s := Last(run);
            Usage(s.objects, Elements(s.projects[n].namespaces), r) == Total(s.objects, Elements(s.projects[n].namespaces), r)
  {
    CoveredRun(rules, run);
    var s := Last(run);
    var annotated := Selector(Elements(s.projects[n].namespaces), r, false);
    var all := Selector(Elements(s.projects[n].namespaces), r, true);
    forall k | k in s.objects ensures Share(annotated, k, s.objects[k]) == Share(all, k, s.objects[k]) {
      if k.ns in annotated.namespaces && KindOf(r) == Some(k.kind) {
        assert Gates(s.projects, n, k);
      }
    }
    SumAtMost(s.objects, annotated, all);
    SumAtMost(s.objects, all, annotated);
  }
}
