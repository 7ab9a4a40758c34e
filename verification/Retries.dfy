/** Cleanups that never end.  A refused write fails the pass, the name is queued again,
    and the next pass meets the same object.  This module says when that goes on for
    ever, whatever the worker does in between. */
module Retries {
  import opened ResourceModel
  import opened Tally
  import opened Accounting
  import opened Admission
  import opened Machine
  import opened Projects
  import opened Ownership
  import opened Staleness
  import opened Cleanup
  import opened Quiescence

  /** The recorded and the real number of services of a live project are at its limit,
      and so will be the number that a count in progress ends with. */
  ghost predicate Full(s: State, m: string)
    requires m in s.projects
  {
    var p := s.projects[m];
    && Amount(p.used, Services) >= Amount(p.hard, Services)
    && UsageBySequence(s.objects, p.namespaces, Services) >= Amount(p.hard, Services)
    && (s.job.Some? && s.job.value.snapshot == p && s.job.value.phase.Counting? ==> CountsUpTo(s.job.value, s.objects))
  }

  ghost predicate CountsUpTo(j: Job, objects: Store)
    requires j.phase.Counting?
  {
    j.phase.next <= |Cells(j.snapshot.namespaces)| ==>
      Amount(j.phase.used, Services)
      + CellsUsage(j.snapshot.hard, objects, Cells(j.snapshot.namespaces)[j.phase.next..], Services)
      >= Amount(j.snapshot.hard, Services)
  }

  /** Project n has to clean the namespace of an annotated service, no project can put
      the annotation back, and a pass in progress has not gone by it. */
  ghost predicate Stuck(s: State, n: string, k: ObjectKey) {
    && CurrentState(s)
    && n in s.projects && k in s.objects && k.kind == Service && Annotated(s.objects[k]) && k.ns in ToClean(s.projects[n])
    && (forall m :: Gates(s.projects, m, k) ==> Full(s, m))
    && StripAhead(s, n, k)
  }

  ghost predicate StripAhead(s: State, n: string, k: ObjectKey) {
    s.job.Some? && s.job.value.snapshot.name == n && Unchanged(s, s.job.value.snapshot) ==> StillToStrip(s.job.value, k)
  }

  // ---- A full project stays full ----

  /** An update by the worker takes no annotation off a service of a project that limits
      services. */
  lemma ServicesStay(s: State, x: ObjectKey, m: string, ns: string)
    requires x in s.objects && m in s.projects && !s.projects[m].deleting && Services in s.projects[m].hard
    requires ns in s.projects[m].namespaces
    requires Annotated(s.objects[x])
    ensures Usage(s.objects[x := HandedOver(s.projects, x, s.objects[x])], {ns}, Services) == Usage(s.objects, {ns}, Services)
  {
    SumPut(s.objects, Selector({ns}, Services, false), x, HandedOver(s.projects, x, s.objects[x]));
    if x.kind == Service && x.ns == ns {
      assert Gates(s.projects, m, x);
    }
  }

  lemma {:induction false} SequenceStays(before: Store, after: Store, namespaces: seq<string>)
    requires forall ns :: ns in namespaces ==> Usage(after, {ns}, Services) == Usage(before, {ns}, Services)
    ensures UsageBySequence(after, namespaces, Services) == UsageBySequence(before, namespaces, Services)
  {
    if namespaces != [] {
      SequenceStays(before, after, namespaces[..|namespaces| - 1]);
    }
  }

  lemma AllServicesStay(s: State, x: ObjectKey, m: string)
    requires x in s.objects && m in s.projects && !s.projects[m].deleting && Services in s.projects[m].hard
    requires Annotated(s.objects[x])
    ensures var after := s.objects[x := HandedOver(s.projects, x, s.objects[x])];
            UsageBySequence(after, s.projects[m].namespaces, Services) == UsageBySequence(s.objects, s.projects[m].namespaces, Services)
  {
    var after := s.objects[x := HandedOver(s.projects, x, s.objects[x])];
    forall ns | ns in s.projects[m].namespaces ensures Usage(after, {ns}, Services) == Usage(s.objects, {ns}, Services) {
      ServicesStay(s, x, m, ns);
    }
    SequenceStays(s.objects, after, s.projects[m].namespaces);
  }

  /** While the worker strips, it counts nothing. */
  lemma FullStrip(s: State, x: ObjectKey, t: State, m: string)
    requires Wellformed(s) && Effect(s, StripObject(x), t) && m in s.projects && Full(s, m)
    requires !s.projects[m].deleting && Services in s.projects[m].hard
    ensures Full(t, m)
  {
    AllServicesStay(s, x, m);
    assert t.projects == s.projects && t.job.value.phase.Stripping?;
    assert t.objects == s.objects[x := HandedOver(s.projects, x, s.objects[x])];
  }

  lemma FullBeginCount(s: State, t: State, m: string)
    requires Effect(s, BeginCount, t) && m in s.projects && Full(s, m) && Services in s.projects[m].hard
    ensures Full(t, m)
  {
    var p := s.projects[m];
    assert Cells(p.namespaces)[0..] == Cells(p.namespaces);
    CellsUsageIsUsage(p.hard, s.objects, p.namespaces, Services);
  }

  lemma FullCountNext(s: State, t: State, m: string)
    requires Effect(s, CountNext, t) && m in s.projects && Full(s, m)
    ensures Full(t, m)
  {
    var j := s.job.value;
    var cells := Cells(j.snapshot.namespaces);
    CellsUsageNext(j.snapshot.hard, s.objects, cells, j.phase.next, Services);
    CountCellAdds(j.phase.used, j.snapshot.hard, s.objects, cells[j.phase.next], Services);
  }

  lemma FullWrite(s: State, t: State, m: string)
    requires Wellformed(s) && Effect(s, WriteStatus, t) && m in s.projects && Full(s, m)
    ensures m in t.projects && Full(t, m)
  {
    var j := s.job.value;
    assert Cells(j.snapshot.namespaces)[j.phase.next..] == [];
  }

  lemma FullRelease(s: State, t: State, m: string)
    requires Wellformed(s) && Effect(s, ReleaseProject, t) && m in s.projects && Full(s, m) && !s.projects[m].deleting
    ensures m in t.projects && Full(t, m)
  {
  }

  lemma FullStep(s: State, step: Step, t: State, m: string)
    requires Wellformed(s) && Effect(s, step, t) && WorkerStep(step)
    requires m in s.projects && Full(s, m) && !s.projects[m].deleting && Services in s.projects[m].hard
    ensures m in t.projects && Full(t, m)
  {
    if step.StripObject? {
      FullStrip(s, step.k, t, m);
    } else if step.BeginCount? {
      FullBeginCount(s, t, m);
    } else if step.CountNext? {
      FullCountNext(s, t, m);
    } else if step.WriteStatus? {
      FullWrite(s, t, m);
    } else if step.ReleaseProject? {
      FullRelease(s, t, m);
    }
  }

  /** The worker opens no gate. */
  lemma GatesWereThere(s: State, step: Step, t: State, m: string, k: ObjectKey)
    requires Wellformed(s) && Effect(s, step, t) && WorkerStep(step) && Gates(t.projects, m, k)
    ensures Gates(s.projects, m, k)
  {
  }

  // ---- A stuck cleanup stays stuck ----

  /** What is refused stays: the service, and the project that cannot finish. */
  lemma StuckKeeps(s: State, step: Step, t: State, n: string, k: ObjectKey)
    requires Stuck(s, n, k) && Effect(s, step, t) && WorkerStep(step)
    ensures k in t.objects && t.objects[k] == s.objects[k]
    ensures n in t.projects && t.projects[n] == s.projects[n]
    ensures step.WriteStatus? || step.ReleaseProject? ==> s.job.value.snapshot.name != n
  {
    if step.StripObject? {
      StuckIsRefused(s, n, k, t);
    } else if step.WriteStatus? || step.ReleaseProject? {
      StuckIsNotWritten(s, step, t, n, k);
    }
  }

  lemma StuckIsRefused(s: State, n: string, k: ObjectKey, t: State)
    requires Stuck(s, n, k)
    ensures !Effect(s, StripObject(k), t)
  {
    StripIsAdmittedIff(s.projects, k, s.objects[k]);
  }

  lemma StuckIsNotWritten(s: State, step: Step, t: State, n: string, k: ObjectKey)
    requires Stuck(s, n, k) && Effect(s, step, t) && (step.WriteStatus? || step.ReleaseProject?)
    ensures s.job.value.snapshot.name != n
    ensures n in t.projects && t.projects[n] == s.projects[n]
  {
    assert Unchanged(s, s.job.value.snapshot);
  }

  lemma StuckAhead(s: State, step: Step, t: State, n: string, k: ObjectKey)
    requires Stuck(s, n, k) && Effect(s, step, t) && WorkerStep(step)
    requires n in t.projects && t.projects[n] == s.projects[n] && k in t.objects && t.objects[k] == s.objects[k]
    ensures StripAhead(t, n, k)
  {
    if step.Begin? {
      AheadOfAll(s, step.name, step.targets, t, n, k);
    } else if step.ListCell? {
      AheadOfList(s, t, n, k);
    }
  }

  lemma AheadOfAll(s: State, name: string, targets: seq<string>, t: State, n: string, k: ObjectKey)
    requires Wellformed(s) && Effect(s, Begin(name, targets), t) && n in s.projects && k.ns in ToClean(s.projects[n])
    ensures StripAhead(t, n, k)
  {
    CellsContain(targets);
    assert Cells(targets)[0..] == Cells(targets);
    assert n == name ==> k.ns in Elements(targets) && Cell(k.ns, k.kind) in Cells(targets);
  }

  lemma AheadOfList(s: State, t: State, n: string, k: ObjectKey)
    requires Wellformed(s) && StripAhead(s, n, k) && Effect(s, ListCell, t) && k in s.objects && Annotated(s.objects[k])
    ensures StripAhead(t, n, k)
  {
    var j := s.job.value;
    var cell := Cells(j.targets)[j.phase.next];
    assert Cells(j.targets)[j.phase.next..] == [cell] + Cells(j.targets)[j.phase.next + 1..];
    if Cell(k.ns, k.kind) == cell { assert k in t.job.value.phase.pending; }
  }

  lemma StuckStep(s: State, step: Step, t: State, n: string, k: ObjectKey)
    requires Stuck(s, n, k) && Effect(s, step, t) && WorkerStep(step)
    ensures Stuck(t, n, k)
  {
    CurrentStep(s, step, t);
    StuckKeeps(s, step, t, n, k);
    StuckAhead(s, step, t, n, k);
    forall m | Gates(t.projects, m, k) ensures Full(t, m) {
      GatesWereThere(s, step, t, m, k);
      FullStep(s, step, t, m);
    }
  }

  /** A project with something to clean has work to do: it is queued or in progress. */
  lemma StuckIsNotIdle(s: State, n: string, k: ObjectKey)
    requires Stuck(s, n, k)
    ensures !Idle(s, n)
  {
    assert OwnedBy(s.projects, k, s.objects[k].annotations[ANNOTATION]);
    assert !Settled(s.projects[n], s.objects);
  }

  /** A stuck cleanup is retried for ever: however long the worker goes on, with whatever
      projects in between and whatever errors, the service keeps its annotation, the
      project is not written, and it is queued or in progress again. */
  lemma {:induction false} RetriesForever(run: Run, n: string, k: ObjectKey)
    requires Alone(run) && Stuck(run.states[0], n, k)
    ensures Stuck(Last(run), n, k) && !Idle(Last(run), n)
    ensures Last(run).objects[k] == run.states[0].objects[k] && Last(run).projects[n] == run.states[0].projects[n]
    decreases |run.steps|
  {
    if run.steps != [] {
      BeforeIsAlone(run);
      RetriesForever(Before(run), n, k);
      StuckKeeps(Last(Before(run)), run.steps[|run.steps| - 1], Last(run), n, k);
      StuckStep(Last(Before(run)), run.steps[|run.steps| - 1], Last(run), n, k);
    }
    StuckIsNotIdle(Last(run), n, k);
  }

  // ---- When a cleanup is stuck ----

  /** A project that has to clean a service of its own is stuck. */
  lemma OwnServiceIsStuck(rules: Rules, run: Run, n: string, k: ObjectKey)
    requires Execution(rules, run) && rules.tidy
    requires var s := Last(run);
             && n in s.projects && k in s.objects && k.kind == Service
             && Project(s.objects[k]) == Some(n) && k.ns in ToClean(s.projects[n])
    ensures Stuck(Last(run), n, k)
  {
    var s := Last(run);
    CurrentRun(rules, run);
    assert OwnedBy(s.projects, k, n);
    assert forall m :: !Gates(s.projects, m, k);
    if s.job.Some? && s.job.value.snapshot.name == n && Unchanged(s, s.job.value.snapshot) {
      assert k.ns in Elements(s.job.value.targets);
    }
  }

  /** A live idle project whose record is at its limit on services is full. */
  lemma IdleIsFull(s: State, m: string)
    requires CurrentState(s) && m in s.projects && !s.projects[m].deleting && Idle(s, m)
    requires Services in s.projects[m].hard && !Below(s.projects[m], Services)
    ensures Full(s, m)
  {
    var p := s.projects[m];
    assert Settled(p, s.objects);
    RecountIsUsage(p.hard, s.objects, p.namespaces, Services);
  }

  /** A refused update with no other name queued is refused for ever. */
  lemma RefusedIsStuck(s: State, k: ObjectKey)
    requires CurrentState(s) && s.queue == {} && s.job.Some? && !Outrun(s)
    requires s.job.value.phase.Stripping? && k in s.job.value.phase.pending && k.kind == Service
    requires !exists m :: Gates(s.projects, m, k) && Below(s.projects[m], Services)
    ensures Stuck(s, s.job.value.snapshot.name, k)
  {
    var n := s.job.value.snapshot.name;
    assert k.ns in Elements(s.job.value.targets);
    forall m | Gates(s.projects, m, k) ensures Full(s, m) {
      assert m != n;
      IdleIsFull(s, m);
    }
  }

  /** Exactly when the work gets done.  After a serialized run, where the worker has no
      step left but an error and no other name waits, everything is settled if and only
      if no cleanup is stuck. */
  lemma DoneUnlessStuck(rules: Rules, run: Run)
    requires Execution(rules, run) && rules == Rules(true, true, true)
    requires Last(run).queue == {} && forall t :: !QuietMove(Last(run), t)
    ensures var s := Last(run);
            (s.job.None? && forall n :: n in s.projects ==> Settled(s.projects[n], s.objects)) <==>
            !exists n, k :: Stuck(s, n, k)
  {
    var s := Last(run);
    CurrentRun(rules, run);
    SerializedRest(rules, run);
    if s.job.None? {
      forall n, k ensures !Stuck(s, n, k) {
        if Stuck(s, n, k) { StuckIsNotIdle(s, n, k); }
      }
    } else {
      var k :| k in s.job.value.phase.pending;
      RefusedIsStuck(s, k);
    }
  }
}
