/** The controller comes to rest.  Its own status writes raise events that queue the
    project again; this module proves that, left alone, it nevertheless stops, and
    where it stops. */
module Quiescence {
  import opened ResourceModel
  import opened Tally
  import opened Accounting
  import opened Admission
  import opened Machine
  import opened Projects
  import opened Ownership
  import opened Staleness
  import opened Safety
  import opened Cleanup

  predicate WorkerStep(step: Step) {
    step.Begin? || step.ListCell? || step.StripObject? || step.BeginCount? || step.CountNext?
    || step.WriteStatus? || step.ReleaseProject? || step.Fail?
  }

  /** An object that the worker is to update was written or deleted since it was listed. */
  ghost predicate Stale(s: State) {
    && s.job.Some? && s.job.value.phase.Stripping?
    && exists k :: k in s.job.value.phase.pending && !(k in s.objects && s.objects[k] == s.job.value.phase.pending[k])
  }

  /** The next write of the worker meets a changed project or a changed object. */
  ghost predicate Outrun(s: State) {
    s.job.Some? && (!Unchanged(s, s.job.value.snapshot) || Stale(s))
  }

  /** A step of the worker without an error of the API server: it fails only because
      something was written since it was read. */
  ghost predicate QuietStep(s: State, step: Step, t: State) {
    Effect(s, step, t) && WorkerStep(step) && (step.Fail? ==> Outrun(s))
  }

  ghost predicate QuietMove(s: State, t: State) {
    exists step :: QuietStep(s, step, t)
  }

  // ---- What gets less ----

  /** Annotated objects that no live project gates: an update takes the annotation off. */
  ghost function Loose(projects: ProjectStore, objects: Store): set<ObjectKey> {
    set k | k in objects && Annotated(objects[k]) && !GateExists(projects, k)
  }

  /** Projects whose status, or whose finalizer, is still to be written. */
  ghost function Unsettled(projects: ProjectStore, objects: Store): set<string> {
    set n | n in projects && !Settled(projects[n], objects)
  }

  predicate Disturbed(s: State) {
    s.job.Some? && s.job.value.snapshot.name in s.queue
  }

  /** How many passes can still come: one for each queued name, one for the event of
      each status or finalizer still to be written, three for each annotation still to be
      taken off, which may queue a name, unsettle a project and disturb the pass, and
      one for each reason why the present pass has to be repeated. */
  ghost function Potential(s: State): nat {
    |s.queue| + |Unsettled(s.projects, s.objects)| + 3 * |Loose(s.projects, s.objects)|
    + (if Disturbed(s) then 1 else 0) + (if Stale(s) then 1 else 0)
  }

  lemma SubsetSmaller<T>(a: set<T>, b: set<T>)
    requires a <= b
    ensures |a| <= |b|
    ensures a != b ==> |a| < |b|
  {
    assert |b| == |a| + |b - a|;
    if b - a == {} { assert a == b; }
  }

  lemma OneMore<T>(a: set<T>, b: set<T>, x: T)
    requires a <= b + {x}
    ensures |a| <= |b| + 1
    ensures x in b ==> |a| <= |b|
  {
    SubsetSmaller(a, b + {x});
    if x in b { assert b + {x} == b; }
  }

  // ---- Steps ----

  /** Stripping either changes nothing or takes an annotation away for good. */
  lemma StripOnlyRemoves(s: State, k: ObjectKey)
    requires TidyState(s) && k in s.objects && Annotated(s.objects[k])
    ensures var o := HandedOver(s.projects, k, s.objects[k]); o == s.objects[k] || !Annotated(o)
  {
    var before := s.objects[k];
    var o := HandedOver(s.projects, k, before);
    if Annotated(o) {
      assert Gates(s.projects, o.annotations[ANNOTATION], k);
      assert OwnedBy(s.projects, k, before.annotations[ANNOTATION]);
      assert o.annotations == before.annotations;
    }
  }

  lemma GatesStay(before: ProjectStore, after: ProjectStore, k: ObjectKey)
    requires forall m :: m in before && !before[m].deleting ==>
               m in after && !after[m].deleting && after[m].namespaces == before[m].namespaces && after[m].hard == before[m].hard
    requires GateExists(before, k)
    ensures GateExists(after, k)
  {
    var m :| Gates(before, m, k);
    assert Gates(after, m, k);
  }

  /** The worker's writes of projects loosen no annotation. */
  lemma LooseStays(before: ProjectStore, after: ProjectStore, objects: Store)
    requires forall m :: m in before && !before[m].deleting ==>
               m in after && !after[m].deleting && after[m].namespaces == before[m].namespaces && after[m].hard == before[m].hard
    ensures |Loose(after, objects)| <= |Loose(before, objects)|
  {
    forall k | k in objects && GateExists(before, k) ensures GateExists(after, k) {
      GatesStay(before, after, k);
    }
    SubsetSmaller(Loose(after, objects), Loose(before, objects));
  }

  /** Taking an annotation off unsettles at most the project it named. */
  lemma StripUnsettlesOwner(s: State, k: ObjectKey, o: Object)
    requires TidyState(s) && k in s.objects && Annotated(s.objects[k]) && !Annotated(o)
    ensures Unsettled(s.projects, s.objects[k := o]) <= Unsettled(s.projects, s.objects) + {s.objects[k].annotations[ANNOTATION]}
  {
    var after := s.objects[k := o];
    assert OwnedBy(s.projects, k, s.objects[k].annotations[ANNOTATION]);
    forall n | n in s.projects && n != s.objects[k].annotations[ANNOTATION] && Settled(s.projects[n], s.objects)
      ensures Settled(s.projects[n], after)
    {
      forall ns, r | ns in s.projects[n].namespaces ensures Usage(s.objects, {ns}, r) == Usage(after, {ns}, r) {
        SumPut(s.objects, Selector({ns}, r, false), k, o);
      }
      SameUsageSameRecount(s.projects[n].hard, s.objects, after, s.projects[n].namespaces, 0);
    }
  }

  /** An update leaves the other pending objects as stale or fresh as they were. */
  lemma StripKeepsFresh(s: State, k: ObjectKey, t: State)
    requires Effect(s, StripObject(k), t) && Stale(t)
    ensures Stale(s)
  {
    var x :| x in t.job.value.phase.pending && !(x in t.objects && t.objects[x] == t.job.value.phase.pending[x]);
    assert x in s.job.value.phase.pending && x != k;
  }

  lemma StripPotential(s: State, k: ObjectKey, t: State)
    requires CurrentState(s) && Effect(s, StripObject(k), t)
    ensures Potential(t) <= Potential(s)
  {
    StripOnlyRemoves(s, k);
    if Stale(t) { StripKeepsFresh(s, k, t); }
    var o := HandedOver(s.projects, k, s.objects[k]);
    if o == s.objects[k] {
      assert t == s.(job := t.job) && Disturbed(t) == Disturbed(s);
    } else {
      assert t == s.(objects := s.objects[k := o], queue := s.queue + FindObjects(s.objects[k]), job := t.job);
      RemovalPotential(s, k, o, t.queue);
    }
  }

  lemma RemovalPotential(s: State, k: ObjectKey, o: Object, queue: set<string>)
    requires TidyState(s) && k in s.objects && Annotated(s.objects[k]) && !Annotated(o)
    requires o == HandedOver(s.projects, k, s.objects[k]) && queue == s.queue + FindObjects(s.objects[k])
    ensures |queue| <= |s.queue| + 1
    ensures |Unsettled(s.projects, s.objects[k := o])| <= |Unsettled(s.projects, s.objects)| + 1
    ensures |Loose(s.projects, s.objects[k := o])| < |Loose(s.projects, s.objects)|
  {
    var n := s.objects[k].annotations[ANNOTATION];
    StripUnsettlesOwner(s, k, o);
    OneMore(Unsettled(s.projects, s.objects[k := o]), Unsettled(s.projects, s.objects), n);
    OneMore(queue, s.queue, n);
    assert !GateExists(s.projects, k);
    assert Loose(s.projects, s.objects[k := o]) == Loose(s.projects, s.objects) - {k};
    SubsetSmaller(Loose(s.projects, s.objects[k := o]), Loose(s.projects, s.objects));
  }

  lemma BeginPotential(s: State, name: string, targets: seq<string>, t: State)
    requires Wellformed(s) && Effect(s, Begin(name, targets), t)
    ensures Potential(t) < Potential(s)
  {
    SubsetSmaller(t.queue, s.queue);
    assert t.job.Some? ==> t.job.value.snapshot.name == name && t.job.value.phase == Stripping(0, map[]);
  }

  lemma WalkPotential(s: State, step: Step, t: State)
    requires Wellformed(s) && Effect(s, step, t)
    requires step.ListCell? || step.BeginCount? || step.CountNext?
    ensures Potential(t) <= Potential(s)
  {
    assert !Stale(t);
    assert t.queue == s.queue && t.projects == s.projects && t.objects == s.objects && Disturbed(t) == Disturbed(s);
  }

  /** A failure puts the name back; it is there already, or the failure was forced by a
      change that the next pass reads, or it was an error. */
  lemma FailPotential(s: State, t: State)
    requires CurrentState(s) && Effect(s, Fail, t)
    ensures Potential(t) <= Potential(s) + if Outrun(s) then 0 else 1
  {
    OneMore(t.queue, s.queue, s.job.value.snapshot.name);
    assert !Disturbed(t) && !Stale(t);
    assert !Unchanged(s, s.job.value.snapshot) ==> Disturbed(s);
  }

  lemma OneFewerUnsettled(before: ProjectStore, after: ProjectStore, objects: Store, n: string)
    requires n in before && !Settled(before[n], objects)
    requires n in after ==> Settled(after[n], objects)
    requires forall m :: m != n ==> (m in before <==> m in after) && (m in before ==> before[m] == after[m])
    ensures |Unsettled(after, objects)| < |Unsettled(before, objects)|
  {
    assert Unsettled(after, objects) == Unsettled(before, objects) - {n};
    SubsetSmaller(Unsettled(after, objects), Unsettled(before, objects));
  }

  /** The write of a project that ends a pass queues its name if it changes anything. */
  lemma LastWriteQueues(s: State, q: Prq, t: State)
    requires s.job.Some? && q.name == s.job.value.snapshot.name && t == Commit(s, q).(job := None)
    requires ProjectsFit(s) && q.name in s.projects
    ensures |t.queue| <= |s.queue| + if Disturbed(s) || t.projects == s.projects then 0 else 1
  {
    OneMore(t.queue, s.queue, q.name);
  }

  lemma LastWriteLoosens(s: State, q: Prq, t: State)
    requires t == Commit(s, q).(job := None) && q.name in s.projects
    requires var p := s.projects[q.name]; q.namespaces == p.namespaces && q.hard == p.hard && q.deleting == p.deleting
    ensures |Loose(t.projects, t.objects)| <= |Loose(s.projects, s.objects)|
  {
    LooseStays(s.projects, t.projects, s.objects);
  }

  lemma LastWritePotential(s: State, t: State)
    requires t.job.None? && t.objects == s.objects
    requires |t.queue| <= |s.queue| + if Disturbed(s) || t.projects == s.projects then 0 else 1
    requires |Loose(t.projects, t.objects)| <= |Loose(s.projects, s.objects)|
    requires |Unsettled(t.projects, s.objects)| <= |Unsettled(s.projects, s.objects)| + if Disturbed(s) then 1 else 0
    requires !Disturbed(s) && t.projects != s.projects ==> |Unsettled(t.projects, s.objects)| < |Unsettled(s.projects, s.objects)|
    ensures Potential(t) <= Potential(s)
  {
    assert !Disturbed(t) && !Stale(t);
  }

  /** The event of a changing status write is paid for by the project it settles, or the
      name was queued already. */
  lemma WritePotential(s: State, t: State)
    requires CurrentState(s) && Effect(s, WriteStatus, t)
    ensures Potential(t) <= Potential(s)
  {
    var j := s.job.value;
    var n := j.snapshot.name;
    var q := s.projects[n].(used := j.phase.used, recorded := j.snapshot.namespaces);
    OneMore(Unsettled(t.projects, s.objects), Unsettled(s.projects, s.objects), n);
    if !Disturbed(s) && t.projects != s.projects {
      CurrentAfterWrite(s, t);
      ChangedWasStale(s, t);
      OneFewerUnsettled(s.projects, t.projects, s.objects, n);
    }
    LastWriteQueues(s, q, t);
    LastWriteLoosens(s, q, t);
    LastWritePotential(s, t);
  }

  /** An undisturbed write that changes the status settles a project that was not. */
  lemma ChangedWasStale(s: State, t: State)
    requires CurrentState(s) && Effect(s, WriteStatus, t) && !Disturbed(s) && t.projects != s.projects
    ensures !Settled(s.projects[s.job.value.snapshot.name], s.objects)
  {
    CurrentAfterWrite(s, t);
    assert s.projects[s.job.value.snapshot.name] == s.job.value.snapshot;
  }

  lemma ReleasePotential(s: State, t: State)
    requires CurrentState(s) && Effect(s, ReleaseProject, t)
    ensures Potential(t) <= Potential(s)
  {
    var n := s.job.value.snapshot.name;
    var p := s.projects[n];
    OneMore(Unsettled(t.projects, s.objects), Unsettled(s.projects, s.objects), n);
    WithoutKeeps(p.finalizers, FINALIZER, FINALIZER);
    if FINALIZER in p.finalizers {
      OneFewerUnsettled(s.projects, t.projects, s.objects, n);
    } else {
      WithoutAbsent(p.finalizers, FINALIZER);
    }
    LastWriteQueues(s, LetGo(p), t);
    LastWriteLoosens(s, LetGo(p), t);
    LastWritePotential(s, t);
  }

  lemma StepPotential(s: State, step: Step, t: State)
    requires CurrentState(s) && Effect(s, step, t) && WorkerStep(step)
    ensures Potential(t) + (if step.Begin? then 1 else 0) <= Potential(s) + if step.Fail? && !Outrun(s) then 1 else 0
  {
    if step.Begin? {
      BeginPotential(s, step.name, step.targets, t);
    } else if step.StripObject? {
      StripPotential(s, step.k, t);
    } else if step.WriteStatus? {
      WritePotential(s, t);
    } else if step.ReleaseProject? {
      ReleasePotential(s, t);
    } else if step.Fail? {
      FailPotential(s, t);
    } else {
      WalkPotential(s, step, t);
    }
  }

  // ---- How many passes ----

  /** A sequence of steps of the worker alone. */
  ghost predicate Alone(run: Run) {
    && |run.states| == |run.steps| + 1
    && forall i :: 0 <= i < |run.steps| ==> Effect(run.states[i], run.steps[i], run.states[i + 1]) && WorkerStep(run.steps[i])
  }

  function Passes(run: Run): nat
    requires |run.states| == |run.steps| + 1
    decreases |run.steps|
  {
    if run.steps == [] then 0
    else Passes(Before(run)) + if run.steps[|run.steps| - 1].Begin? then 1 else 0
  }

  /** The failures that no change since the read explains: an error of the API server,
      or a write that it refuses. */
  ghost function Errors(run: Run): nat
    requires |run.states| == |run.steps| + 1
    decreases |run.steps|
  {
    if run.steps == [] then 0
    else
      var i := |run.steps| - 1;
      Errors(Before(run)) + if run.steps[i].Fail? && !Outrun(run.states[i]) then 1 else 0
  }

  lemma BeforeIsAlone(run: Run)
    requires Alone(run) && run.steps != []
    ensures Alone(Before(run)) && Last(Before(run)) == run.states[|run.steps| - 1] && Before(run).states[0] == run.states[0]
    ensures Effect(Last(Before(run)), run.steps[|run.steps| - 1], Last(run)) && WorkerStep(run.steps[|run.steps| - 1])
  {
    var shorter := Before(run);
    forall i | 0 <= i < |shorter.steps|
      ensures Effect(shorter.states[i], shorter.steps[i], shorter.states[i + 1]) && WorkerStep(shorter.steps[i])
    {
      assert Effect(run.states[i], run.steps[i], run.states[i + 1]);
    }
  }

  lemma {:induction false} PassesArePaid(run: Run)
    requires Alone(run) && CurrentState(run.states[0])
    ensures CurrentState(Last(run))
    ensures Passes(run) + Potential(Last(run)) <= Potential(run.states[0]) + Errors(run)
    decreases |run.steps|
  {
    if run.steps != [] {
      BeforeIsAlone(run);
      PassesArePaid(Before(run));
      CurrentStep(Last(Before(run)), run.steps[|run.steps| - 1], Last(run));
      StepPotential(Last(Before(run)), run.steps[|run.steps| - 1], Last(run));
    }
  }

  /** Bounded work.  Left alone after a tidy run, however its steps fall, the controller
      starts at most as many passes as there are queued names, projects not settled and
      three times the annotations to take off, plus two if a pass is under way, plus one
      for each error. */
  lemma {:induction false} PassesAreBounded(rules: Rules, run: Run, left: Run)
    requires Execution(rules, run) && rules.tidy
    requires Alone(left) && left.states[0] == Last(run)
    ensures var s := Last(run);
            Passes(left) <= |s.queue| + |Unsettled(s.projects, s.objects)| + 3 * |Loose(s.projects, s.objects)|
                            + (if s.job.Some? then 2 else 0) + Errors(left)
  {
    CurrentRun(rules, run);
    PassesArePaid(left);
  }

  // ---- The worker stops ----

  function CellsLeft(job: Option<Job>): nat {
    if job.None? then 0
    else
      match job.value.phase
      case Counting(next, used) =>
        var all := 1 + |Cells(job.value.snapshot.namespaces)|;
        if next < all then all - next else 0
      case Stripping(next, pending) =>
        var all := 2 + |Cells(job.value.snapshot.namespaces)| + |Cells(job.value.targets)|;
        if next < all then all - next else 0
  }

  function PendingLeft(job: Option<Job>): nat {
    if job.Some? && job.value.phase.Stripping? then |job.value.phase.pending| else 0
  }

  datatype Rank = Rank(passes: nat, cells: nat, pending: nat)

  ghost function RankOf(s: State): Rank {
    Rank(Potential(s), CellsLeft(s.job), PendingLeft(s.job))
  }

  predicate Lower(a: Rank, b: Rank) {
    || a.passes < b.passes
    || (a.passes == b.passes && a.cells < b.cells)
    || (a.passes == b.passes && a.cells == b.cells && a.pending < b.pending)
  }

  /** Within a pass every step leaves fewer cells or fewer pending objects. */
  lemma WorkGetsLess(s: State, step: Step, t: State)
    requires Wellformed(s) && Effect(s, step, t) && WorkerStep(step) && !step.Begin?
    ensures if step.StripObject? then CellsLeft(t.job) == CellsLeft(s.job) && PendingLeft(t.job) < PendingLeft(s.job)
            else CellsLeft(t.job) < CellsLeft(s.job)
  {
    if step.StripObject? {
      OneFewerPending(s.job.value.phase.pending, step.k);
    }
  }

  lemma OneFewerPending(pending: Store, k: ObjectKey)
    requires k in pending
    ensures |pending - {k}| < |pending|
  {
    assert pending.Keys == (pending - {k}).Keys + {k};
  }

  lemma QuietLowers(s: State, step: Step, t: State)
    requires CurrentState(s) && QuietStep(s, step, t)
    ensures Lower(RankOf(t), RankOf(s))
  {
    StepPotential(s, step, t);
    if !step.Begin? { WorkGetsLess(s, step, t); }
  }

  lemma CurrentAfterWrite(s: State, t: State)
    requires CurrentState(s) && Effect(s, WriteStatus, t)
    ensures var n := s.job.value.snapshot.name; n !in s.queue ==> n in t.projects && UpToDate(t.projects[n], t.objects)
  {
    WellformedStep(s, WriteStatus, t);
    TidyWriteStep(s, t);
    CurrentWriteStep(s, t);
  }

  /** A project that is up to date is written back unchanged: a second pass over it
      strips nothing, raises no event and ends the work on it. */
  lemma SecondPassIsIdle(s: State, t: State)
    requires CurrentState(s) && Effect(s, WriteStatus, t)
    requires s.job.value.snapshot.name !in s.queue
    requires UpToDate(s.projects[s.job.value.snapshot.name], s.objects)
    ensures t == s.(job := None)
    ensures s.job.value.targets == []
  {
    var j := s.job.value;
    CurrentAfterWrite(s, t);
    ElementsOfNone(j.targets);
    assert Cells(j.snapshot.namespaces)[..j.phase.next] == Cells(j.snapshot.namespaces);
  }

  lemma ElementsOfNone<T>(xs: seq<T>)
    ensures xs != [] ==> Elements(xs) != {}
  {
    if xs != [] { assert xs[0] in Elements(xs); }
  }

  lemma {:induction false} WithoutAbsent(finalizers: seq<string>, name: string)
    requires name !in finalizers
    ensures Without(finalizers, name) == finalizers
  {
    if finalizers != [] {
      WithoutAbsent(finalizers[1..], name);
    }
  }

  // ---- Rest ----

  /** The controller left alone comes to rest: no infinite sequence of its own
      steps starts where a tidy run ends. */
  lemma ControllerRests(rules: Rules, run: Run, states: nat -> State)
    requires Execution(rules, run) && rules.tidy && Last(run) == states(0)
    ensures exists i: nat :: !QuietMove(states(i), states(i + 1))
  {
    CurrentRun(rules, run);
    if ByItself(states) {
      forall i: nat ensures Lower(RankOf(states(i + 1)), RankOf(states(i))) {
        AlwaysCurrent(states, i);
        MoveAt(states, i);
      }
      NoDescent((i: nat) => RankOf(states(i)), 0);
    }
  }

  /** A sequence of the controller's own steps. */
  ghost predicate ByItself(states: nat -> State) {
    forall i: nat :: QuietMove(states(i), states(i + 1))
  }

  lemma {:induction false} AlwaysCurrent(states: nat -> State, i: nat)
    requires CurrentState(states(0)) && ByItself(states)
    ensures CurrentState(states(i))
  {
    if i != 0 {
      var j: nat := i - 1;
      AlwaysCurrent(states, j);
      MoveAt(states, j);
    }
  }

  lemma MoveAt(states: nat -> State, i: nat)
    requires CurrentState(states(i)) && ByItself(states)
    ensures CurrentState(states(i + 1)) && Lower(RankOf(states(i + 1)), RankOf(states(i)))
  {
    var s, t := states(i), states(i + 1);
    assert QuietMove(s, t);
    MoveLowers(s, t);
  }

  /** Ranks cannot decrease forever. */
  lemma {:induction false} NoDescent(ranks: nat -> Rank, i: nat)
    requires forall j: nat :: Lower(ranks(j + 1), ranks(j))
    ensures false
    decreases ranks(i).passes, ranks(i).cells, ranks(i).pending
  {
    NoDescent(ranks, i + 1);
  }

  lemma MoveLowers(s: State, t: State)
    requires CurrentState(s) && QuietMove(s, t)
    ensures CurrentState(t) && Lower(RankOf(t), RankOf(s))
  {
    var step :| QuietStep(s, step, t);
    QuietKeepsCurrent(s, step, t);
    QuietLowers(s, step, t);
  }

  lemma QuietKeepsCurrent(s: State, step: Step, t: State)
    requires CurrentState(s) && QuietStep(s, step, t)
    ensures CurrentState(t)
  {
    CurrentStep(s, step, t);
  }

  /** The webhooks refuse what the worker has to write next, although nothing of it
      changed since it was read: every object still to be updated, or the release of
      the project. */
  ghost predicate Refused(s: State) {
    && s.job.Some? && s.job.value.phase.Stripping? && !Outrun(s)
    && var j := s.job.value;
    || (j.phase.pending != map[] && forall k :: k in j.phase.pending ==>
          !AdmitsUpdate(s.projects, k.kind, s.objects[k], HandedOver(s.projects, k, s.objects[k])))
    || (StripDone(s) && j.snapshot.deleting && !AdmitsProjectUpdate(s.projects, LetGo(s.projects[j.snapshot.name])))
  }

  lemma Enumerate(names: set<string>) returns (list: seq<string>)
    ensures Elements(list) == names
  {
    list := [];
    var rest := names;
    while rest != {}
      invariant Elements(list) + rest == names
    {
      var n :| n in rest;
      assert Elements(list + [n]) == Elements(list) + {n};
      list, rest := list + [n], rest - {n};
    }
  }

  /** Where the worker has no step left but an error: nothing queued, nothing in
      progress and every project settled, unless its next write is refused. */
  lemma RestIsSettled(s: State)
    requires CurrentState(s)
    requires forall t :: !QuietMove(s, t)
    ensures Refused(s) ||
            (s.job.None? && s.queue == {} && forall n :: n in s.projects ==> Settled(s.projects[n], s.objects))
  {
    if s.job.None? {
      if s.queue != {} {
        BeginIsPossible(s);
        assert false;
      }
      forall n | n in s.projects ensures Settled(s.projects[n], s.objects) {
        assert Idle(s, n);
      }
    } else if Outrun(s) {
      var t := s.(job := None, queue := s.queue + {s.job.value.snapshot.name});
      assert QuietStep(s, Fail, t) && QuietMove(s, t);
      assert false;
    } else if !Refused(s) {
      WorkIsPossible(s);
      assert false;
    }
  }

  /** In a serialized run the project's own validator never refuses, so the only write
      that can be refused is that of a service which no project below its limit gates. */
  lemma SerializedRest(rules: Rules, run: Run)
    requires Execution(rules, run) && rules == Rules(true, true, true)
    requires forall t :: !QuietMove(Last(run), t)
    ensures var s := Last(run);
            if s.job.None? then s.queue == {} && forall n :: n in s.projects ==> Settled(s.projects[n], s.objects)
            else
              && s.job.value.phase.Stripping? && s.job.value.phase.pending != map[] && !Outrun(s)
              && forall k :: k in s.job.value.phase.pending ==>
                   k.kind == Service && !exists n :: Gates(s.projects, n, k) && Below(s.projects[n], Services)
  {
    var s := Last(run);
    SafeRun(rules, run);
    RestIsSettled(s);
    if Refused(s) {
      if s.job.value.phase.pending == map[] {
        DeletionIsAdmitted(rules, run);
        assert false;
      }
      forall k | k in s.job.value.phase.pending
        ensures k.kind == Service && !exists n :: Gates(s.projects, n, k) && Below(s.projects[n], Services)
      {
        StripIsAdmittedIff(s.projects, k, s.objects[k]);
      }
    }
  }

  lemma BeginIsPossible(s: State)
    requires s.job.None? && s.queue != {}
    ensures exists t :: QuietMove(s, t)
  {
    var name :| name in s.queue;
    var targets: seq<string> := [];
    var t := s.(queue := s.queue - {name});
    if name in s.projects {
      targets := Enumerate(ToClean(s.projects[name]));
      t := t.(job := Some(Job(s.projects[name], targets, Stripping(0, map[]))));
    }
    assert QuietStep(s, Begin(name, targets), t) && QuietMove(s, t);
  }

  lemma WorkIsPossible(s: State)
    requires Wellformed(s) && s.job.Some? && !Outrun(s) && !Refused(s)
    ensures exists t :: QuietMove(s, t)
  {
    if s.job.value.phase.Counting? {
      CountingIsPossible(s);
    } else {
      StrippingIsPossible(s);
    }
  }

  lemma CountingIsPossible(s: State)
    requires Wellformed(s) && s.job.Some? && Unchanged(s, s.job.value.snapshot) && s.job.value.phase.Counting?
    ensures exists t :: QuietMove(s, t)
  {
    var j := s.job.value;
    var cells := Cells(j.snapshot.namespaces);
    if j.phase.next < |cells| {
      var t := s.(job := Some(j.(phase :=
        Counting(j.phase.next + 1, CountCell(j.phase.used, j.snapshot.hard, s.objects, cells[j.phase.next])))));
      assert QuietStep(s, CountNext, t) && QuietMove(s, t);
    } else {
      var t := Commit(s, s.projects[j.snapshot.name].(used := j.phase.used, recorded := j.snapshot.namespaces)).(job := None);
      assert QuietStep(s, WriteStatus, t) && QuietMove(s, t);
    }
  }

  lemma StrippingIsPossible(s: State)
    requires Wellformed(s) && s.job.Some? && !Outrun(s) && s.job.value.phase.Stripping? && !Refused(s)
    ensures exists t :: QuietMove(s, t)
  {
    var j := s.job.value;
    if j.phase.pending != map[] {
      UpdateIsPossible(s);
    } else if j.phase.next < |Cells(j.targets)| {
      var t := s.(job := Some(j.(phase := Stripping(j.phase.next + 1, PendingIn(s.objects, Cells(j.targets)[j.phase.next])))));
      assert QuietStep(s, ListCell, t) && QuietMove(s, t);
    } else {
      LeavingIsPossible(s);
    }
  }

  lemma UpdateIsPossible(s: State)
    requires s.job.Some? && !Outrun(s) && s.job.value.phase.Stripping? && !Refused(s)
    requires s.job.value.phase.pending != map[]
    ensures exists t :: QuietMove(s, t)
  {
    var j := s.job.value;
    var k :| k in j.phase.pending
             && AdmitsUpdate(s.projects, k.kind, s.objects[k], HandedOver(s.projects, k, s.objects[k]));
    var t := PutObject(s, k, HandedOver(s.projects, k, s.objects[k]))
             .(job := Some(j.(phase := Stripping(j.phase.next, j.phase.pending - {k}))));
    assert QuietStep(s, StripObject(k), t) && QuietMove(s, t);
  }

  lemma LeavingIsPossible(s: State)
    requires StripDone(s) && !Outrun(s) && !Refused(s)
    ensures exists t :: QuietMove(s, t)
  {
    var j := s.job.value;
    if j.snapshot.deleting {
      var p := s.projects[j.snapshot.name];
      var t := Commit(s, LetGo(p)).(job := None);
      assert QuietStep(s, ReleaseProject, t) && QuietMove(s, t);
    } else {
      var t := s.(job := Some(j.(phase := Counting(0, map[]))));
      assert QuietStep(s, BeginCount, t) && QuietMove(s, t);
    }
  }
}
