/** A deleted project leaves.  One pass without errors takes the controller's finalizer
    away, provided no annotated service stands in its way. */
module Departure {
  import opened ResourceModel
  import opened Tally
  import opened Admission
  import opened Machine
  import opened Projects
  import opened Ownership
  import opened Staleness
  import opened Safety
  import opened Cleanup
  import opened Quiescence
  import opened Controller

  ghost predicate NoServices(objects: Store, namespaces: seq<string>) {
    forall k :: k in objects && k.kind == Service && k.ns in namespaces ==> !Annotated(objects[k])
  }

  /** A pass over a deleted project that has no annotated service to clean and that
      nothing has outrun. */
  ghost predicate Leaving(s: State, n: string) {
    && SafeState(s) && s.job.Some? && !Outrun(s)
    && s.job.value.snapshot.name == n && s.job.value.snapshot.deleting
    && NoServices(s.objects, s.job.value.snapshot.namespaces)
  }

  lemma LeavingIsNotRefused(s: State, n: string)
    requires Leaving(s, n)
    ensures !Refused(s)
  {
    var j := s.job.value;
    if j.phase.Stripping? {
      if j.phase.pending != map[] {
        var k :| k in j.phase.pending;
        assert k.ns in Elements(j.targets) && k.kind != Service;
        StripIsAdmittedIff(s.projects, k, s.objects[k]);
      }
      assert HardCoversUsed(s.projects[n]);
    }
  }

  lemma SafeQuietStep(s: State, step: Step, t: State)
    requires SafeState(s) && Effect(s, step, t) && WorkerStep(step)
    ensures SafeState(t)
  {
    SafeStep(s, step, t);
  }

  /** Every step such a pass can take leads on, unless it takes the finalizer away. */
  lemma LeavingStep(s: State, n: string, step: Step, t: State)
    requires Leaving(s, n) && QuietStep(s, step, t) && !step.ReleaseProject?
    ensures Leaving(t, n) && !step.Begin? && t.job.value.snapshot == s.job.value.snapshot
  {
    SafeQuietStep(s, step, t);
    if step.StripObject? {
      LeavingStrip(s, step.k, t);
    } else {
      LeavingWalk(s, step, t);
    }
  }

  lemma LeavingStrip(s: State, k: ObjectKey, t: State)
    requires TidyState(s) && s.job.Some? && !Outrun(s) && Effect(s, StripObject(k), t)
    requires NoServices(s.objects, s.job.value.snapshot.namespaces)
    ensures t.job.Some? && t.job.value.snapshot == s.job.value.snapshot && !Outrun(t)
    ensures NoServices(t.objects, s.job.value.snapshot.namespaces)
  {
    StripOnlyRemoves(s, k);
    if Stale(t) { StripKeepsFresh(s, k, t); }
  }

  /** The other steps of the pass write nothing: a deleted project is not counted. */
  lemma LeavingWalk(s: State, step: Step, t: State)
    requires Wellformed(s) && s.job.Some? && s.job.value.snapshot.deleting && !Outrun(s)
    requires QuietStep(s, step, t) && !step.ReleaseProject? && !step.StripObject?
    ensures t.job.Some? && t.job.value.snapshot == s.job.value.snapshot && !Outrun(t)
    ensures t.objects == s.objects && !step.Begin?
  {
    assert step.ListCell?;
  }

  /** The pass starts so: the project was just fetched. */
  lemma BeginIsLeaving(s: State, n: string, targets: seq<string>, t: State)
    requires SafeState(s) && Effect(s, Begin(n, targets), t)
    requires n in s.projects && s.projects[n].deleting && NoServices(s.objects, s.projects[n].namespaces)
    ensures Leaving(t, n)
  {
    SafeQuietStep(s, Begin(n, targets), t);
  }

  /** And so it ends: the project leaves the store, unless somebody else's finalizer
      keeps it. */
  lemma ReleaseEnds(s: State, n: string, t: State)
    requires Leaving(s, n) && Effect(s, ReleaseProject, t)
    ensures n in s.projects && (n in t.projects ==> FINALIZER !in t.projects[n].finalizers)
    ensures n in t.projects <==> exists f :: f in s.projects[n].finalizers && f != FINALIZER
  {
    var p := s.projects[n];
    forall f ensures f in LetGo(p).finalizers <==> f in p.finalizers && f != FINALIZER {
      WithoutKeeps(p.finalizers, FINALIZER, f);
    }
    if LetGo(p).finalizers != [] { assert LetGo(p).finalizers[0] in LetGo(p).finalizers; }
  }

  function AnnotatedKeys(objects: Store): set<ObjectKey> {
    set k | k in objects && Annotated(objects[k])
  }

  /** How many steps a pass can still take: for each cell one list and one update of each
      annotated object. */
  function StepsLeft(s: State): nat {
    CellsLeft(s.job) * (|AnnotatedKeys(s.objects)| + 1) + PendingLeft(s.job)
  }

  lemma LessLeft(cells: nat, width: nat, pending: nat, cells': nat, width': nat, pending': nat)
    requires width' <= width
    requires || (cells' < cells && pending' < width)
             || (cells' == cells && pending' < pending)
    ensures cells' * width' + pending' < cells * width + pending
  {
    assert cells' * width' <= cells' * width;
    if cells' < cells { assert (cells' + 1) * width <= cells * width; }
  }

  lemma FewerSteps(s: State, step: Step, t: State)
    requires CurrentState(s) && Effect(s, step, t) && WorkerStep(step) && !step.Begin?
    ensures StepsLeft(t) < StepsLeft(s)
  {
    FewerAnnotated(s, step, t);
    if !step.StripObject? { PendingIsAnnotated(s, step, t); }
    WorkGetsLess(s, step, t);
    LessMeansFewer(s, t);
  }

  lemma LessMeansFewer(s: State, t: State)
    requires |AnnotatedKeys(t.objects)| <= |AnnotatedKeys(s.objects)|
    requires || (CellsLeft(t.job) < CellsLeft(s.job) && PendingLeft(t.job) <= |AnnotatedKeys(s.objects)|)
             || (CellsLeft(t.job) == CellsLeft(s.job) && PendingLeft(t.job) < PendingLeft(s.job))
    ensures StepsLeft(t) < StepsLeft(s)
  {
    LessLeft(CellsLeft(s.job), |AnnotatedKeys(s.objects)| + 1, PendingLeft(s.job),
             CellsLeft(t.job), |AnnotatedKeys(t.objects)| + 1, PendingLeft(t.job));
  }

  lemma FewerAnnotated(s: State, step: Step, t: State)
    requires CurrentState(s) && Effect(s, step, t) && WorkerStep(step)
    ensures |AnnotatedKeys(t.objects)| <= |AnnotatedKeys(s.objects)|
  {
    if step.StripObject? {
      StripOnlyRemoves(s, step.k);
      assert AnnotatedKeys(t.objects) <= AnnotatedKeys(s.objects);
      SubsetSmaller(AnnotatedKeys(t.objects), AnnotatedKeys(s.objects));
    } else {
      assert t.objects == s.objects;
    }
  }

  /** Only a list call makes objects pending, and only annotated ones. */
  lemma PendingIsAnnotated(s: State, step: Step, t: State)
    requires Effect(s, step, t) && WorkerStep(step) && !step.StripObject?
    ensures PendingLeft(t.job) <= |AnnotatedKeys(s.objects)|
  {
    if step.ListCell? {
      assert t.job.value.phase.pending.Keys <= AnnotatedKeys(s.objects);
      SubsetSmaller(t.job.value.phase.pending.Keys, AnnotatedKeys(s.objects));
    }
  }

  /** A sequence of steps of the worker alone, without errors. */
  ghost predicate Undisturbed(run: Run) {
    && |run.states| == |run.steps| + 1
    && forall i :: 0 <= i < |run.steps| ==> QuietStep(run.states[i], run.steps[i], run.states[i + 1])
  }

  lemma BeforeIsUndisturbed(left: Run)
    requires Undisturbed(left) && left.steps != []
    ensures Undisturbed(Before(left)) && Before(left).states[0] == left.states[0]
    ensures QuietStep(Last(Before(left)), left.steps[|left.steps| - 1], Last(left))
  {
    var shorter := Before(left);
    forall j | 0 <= j < |shorter.steps| ensures QuietStep(shorter.states[j], shorter.steps[j], shorter.states[j + 1]) {
      assert QuietStep(left.states[j], left.steps[j], left.states[j + 1]);
    }
    assert QuietStep(left.states[|left.steps| - 1], left.steps[|left.steps| - 1], left.states[|left.steps|]);
  }

  lemma {:induction false} LeavingRun(left: Run, n: string)
    requires Undisturbed(left) && Leaving(left.states[0], n) && ReleaseProject !in left.steps
    ensures Leaving(Last(left), n) && Last(left).job.value.snapshot == left.states[0].job.value.snapshot
    ensures |left.steps| + StepsLeft(Last(left)) <= StepsLeft(left.states[0])
    decreases |left.steps|
  {
    if left.steps != [] {
      BeforeIsUndisturbed(left);
      LeavingRun(Before(left), n);
      LeavingStep(Last(Before(left)), n, left.steps[|left.steps| - 1], Last(left));
      FewerSteps(Last(Before(left)), left.steps[|left.steps| - 1], Last(left));
    }
  }

  /** One pass lets a deleted project go.  In every serialized run, when a pass over it
      is under way that nothing has outrun, and no annotated service is in its
      namespaces, then every sequence of the worker's steps without errors takes the
      finalizer away, within a bounded number of steps: until it has, the same pass
      goes on, and there is a step to take. */
  lemma {:induction false} OnePassLetsGo(rules: Rules, run: Run, left: Run, n: string)
    requires Execution(rules, run) && rules == Rules(true, true, true)
    requires var s := Last(run);
             && s.job.Some? && !Outrun(s) && s.job.value.snapshot.name == n && s.job.value.snapshot.deleting
             && NoServices(s.objects, s.job.value.snapshot.namespaces)
    requires Undisturbed(left) && left.states[0] == Last(run)
    ensures ReleaseProject in left.steps || |left.steps| < StepsLeft(Last(run))
    ensures ReleaseProject !in left.steps ==>
              && Last(left).job.Some? && Last(left).job.value.snapshot == Last(run).job.value.snapshot
              && exists t :: QuietMove(Last(left), t)
  {
    SafeRun(rules, run);
    if ReleaseProject !in left.steps {
      LeavingRun(left, n);
      LeavingGoesOn(Last(left), n);
    }
  }

  lemma LeavingGoesOn(s: State, n: string)
    requires Leaving(s, n)
    ensures StepsLeft(s) > 0
    ensures exists t :: QuietMove(s, t)
  {
    LeavingIsNotRefused(s, n);
    WorkIsPossible(s);
    SomethingIsLeft(s);
  }

  lemma SomethingIsLeft(s: State)
    requires Wellformed(s) && s.job.Some?
    ensures StepsLeft(s) > 0
  {
    assert CellsLeft(s.job) >= 1;
    assert CellsLeft(s.job) * (|AnnotatedKeys(s.objects)| + 1) >= |AnnotatedKeys(s.objects)| + 1;
  }

  /** In every serialized run, a pass over a deleted project succeeds, if nobody interferes
      and no call fails by itself, exactly when no annotated service is in its
      namespaces. */
  lemma DeletedPassSucceedsIff(rules: Rules, run: Run, n: string)
    requires Execution(rules, run) && rules == Rules(true, true, true)
    requires n in Last(run).projects && Last(run).projects[n].deleting
    ensures PassSucceeds(Last(run).projects, Last(run).objects, n) <==>
            NoServices(Last(run).objects, Last(run).projects[n].namespaces)
  {
    SafeRun(rules, run);
    var s := Last(run);
    var p := s.projects[n];
    assert HardCoversUsed(p);
    forall k: ObjectKey, m | k.ns in p.namespaces ensures !Gates(s.projects, m, k) {
      assert n in s.projects;
    }
    forall k | k in s.objects && k.kind == Service && k.ns in p.namespaces && Annotated(s.objects[k])
      ensures k in DirtyIn(s.objects, ToClean(p))
    {
    }
  }
}
