/** How far a stale status can be overrun.  While the record of a project stays as
    it is, every admission is judged by the same amounts, so the overrun grows with
    the number of admissions and with nothing else. */
module Overshoot {
  import opened ResourceModel
  import opened Tally
  import opened Accounting
  import opened Admission
  import opened Machine
  import opened Projects
  import opened Ownership
  import opened Staleness
  import opened Coverage
  import opened Safety

  /** Storing o at k lets something into project n that is charged to r: a new charge,
      or a larger one than the stored object has. */
  ghost predicate Raises(objects: Store, k: ObjectKey, o: Object, n: string, r: ResourceName) {
    && KindOf(r) == Some(k.kind) && Project(o) == Some(n)
    && Weight(r, o) > if k in objects then Weight(r, objects[k]) else 0
  }

  /** The step is an admission into project n that is charged to r. */
  ghost predicate Admits(s: State, step: Step, n: string, r: ResourceName) {
    match step
    case CreateObject(k, o) => Raises(s.objects, k, Defaulted(s.projects, k, o), n, r)
    case UpdateObject(k, o) => Raises(s.objects, k, Defaulted(s.projects, k, o), n, r)
    case _ => false
  }

  ghost predicate SameRecord(p: Prq, q: Prq) {
    p.used == q.used && p.hard == q.hard && p.namespaces == q.namespaces
  }

  /** From position m on, project n is stored with one and the same record. */
  ghost predicate Steady(run: Run, m: nat, n: string) {
    && m < |run.states| && n in run.states[m].projects
    && forall i :: m <= i < |run.states| ==>
         n in run.states[i].projects && SameRecord(run.states[m].projects[n], run.states[i].projects[n])
  }

  ghost function Admissions(run: Run, m: nat, n: string, r: ResourceName): nat
    requires |run.states| == |run.steps| + 1
    decreases |run.steps|
  {
    if |run.steps| <= m then 0
    else
      var i := |run.steps| - 1;
      Admissions(Before(run), m, n, r) + if Admits(run.states[i], run.steps[i], n, r) then 1 else 0
  }

  /** The most that one admission can add to r. */
  function Slack(p: Prq, r: ResourceName): nat {
    if !IsCompute(r) then 1
    else if Amount(p.used, r) <= Amount(p.hard, r) then Amount(p.hard, r) - Amount(p.used, r)
    else 0
  }

  /** What an admission charged to r proves about the record it was judged by. */
  predicate RecordHasRoom(p: Prq, r: ResourceName)
    requires KindOf(r).Some?
  {
    Below(p, GateKey(KindOf(r).value)) && Below(p, r)
  }

  /** The step adds at most one slack to what project n uses of r in some of its
      namespaces, and only if the record had room. */
  ghost predicate Bounded(s: State, admitted: bool, t: State, n: string, among: set<string>, r: ResourceName)
    requires n in s.projects && KindOf(r).Some?
  {
    && Usage(t.objects, among, r) <= Usage(s.objects, among, r) + (if admitted then Slack(s.projects[n], r) else 0)
    && (admitted ==> RecordHasRoom(s.projects[n], r))
  }

  lemma WeightWithinSlack(p: Prq, kind: Kind, o: Object, r: ResourceName)
    requires FitsProject(p, kind, o) && KindOf(r) == Some(kind) && Weight(r, o) > 0
    ensures Weight(r, o) <= Slack(p, r) && RecordHasRoom(p, r)
  {
    if IsCompute(r) { assert Fits(p, r, Demand(r, o)); }
  }

  lemma CreateOvershoot(s: State, k: ObjectKey, o: Object, n: string, among: set<string>, r: ResourceName)
    requires CoveredState(s) && TidyState(PutObject(s, k, o))
    requires k !in s.objects && AdmitsCreate(s.projects, k.kind, o)
    requires n in s.projects && among <= Elements(s.projects[n].namespaces) && KindOf(r).Some?
    ensures Bounded(s, Raises(s.objects, k, o, n, r), PutObject(s, k, o), n, among, r)
  {
    var p := s.projects[n];
    SumPut(s.objects, Selector(among, r, false), k, o);
    if k.ns in among && Annotated(o) {
      ClaimantIsNamed(PutObject(s, k, o), k, n);
    }
    if Raises(s.objects, k, o, n, r) {
      WeightWithinSlack(p, k.kind, o, r);
    }
  }

  lemma UpdateOvershoot(s: State, k: ObjectKey, o: Object, n: string, among: set<string>, r: ResourceName)
    requires CoveredState(s) && TidyState(PutObject(s, k, o)) && TidyAnnotation(s, k, o)
    requires k in s.objects && SameFixedFields(s.objects[k], o) && AdmitsUpdate(s.projects, k.kind, s.objects[k], o)
    requires n in s.projects && among <= Elements(s.projects[n].namespaces) && KindOf(r).Some?
    ensures Bounded(s, Raises(s.objects, k, o, n, r), PutObject(s, k, o), n, among, r)
  {
    SumPut(s.objects, Selector(among, r, false), k, o);
    if k.ns in among && Annotated(o) {
      ClaimantIsNamed(PutObject(s, k, o), k, n);
      WasAnnotated(s, k, o);
    }
    if Raises(s.objects, k, o, n, r) {
      RaiseHasRoom(s.projects[n], k.kind, s.objects[k], o, r);
    }
  }

  /** Only a new service type can raise what an object is charged, and then the limit
      of that type was looked at. */
  lemma RaiseHasRoom(p: Prq, kind: Kind, before: Object, after: Object, r: ResourceName)
    requires SameFixedFields(before, after) && KindOf(r) == Some(kind) && Weight(r, after) > Weight(r, before)
    requires kind == Service ==> TypeChangeFits(p, before, after)
    ensures Weight(r, after) - Weight(r, before) <= Slack(p, r) && RecordHasRoom(p, r)
  {
    if kind != Service || before.serviceType == after.serviceType {
      SameWeight(r, kind, before, after);
    }
  }

  lemma StripStep(s: State, k: ObjectKey, t: State, n: string, among: set<string>, r: ResourceName)
    requires CoveredState(s) && Effect(s, StripObject(k), t)
    requires n in s.projects && among <= Elements(s.projects[n].namespaces) && KindOf(r).Some?
    ensures Bounded(s, false, t, n, among, r)
  {
    var o := HandedOver(s.projects, k, s.objects[k]);
    DefaultedIsTidy(s, k, Stripped(s.objects[k]));
    PutKeepsOwnership(s, k, o);
    UpdateOvershoot(s, k, o, n, among, r);
    if KindOf(r) == Some(k.kind) { SameWeight(r, k.kind, s.objects[k], o); }
  }

  lemma PhaseStep(s: State, k: ObjectKey, phase: PodPhase, t: State, n: string, among: set<string>, r: ResourceName)
    requires Effect(s, SetPhase(k, phase), t)
    requires n in s.projects && among <= Elements(s.projects[n].namespaces) && KindOf(r).Some?
    ensures Bounded(s, false, t, n, among, r)
  {
    SumPut(s.objects, Selector(among, r, false), k, s.objects[k].(phase := phase));
    PhaseLowers(Selector(among, r, false), k, s.objects[k], phase);
  }

  /** A pod that is over stays over, so no phase change raises a charge. */
  lemma PhaseLowers(sel: Selector, k: ObjectKey, o: Object, phase: PodPhase)
    requires k.kind == Pod && (Terminated(o) ==> Terminated(o.(phase := phase)))
    ensures Share(sel, k, o.(phase := phase)) <= Share(sel, k, o)
  {
  }

  lemma DeleteStep(s: State, k: ObjectKey, t: State, n: string, among: set<string>, r: ResourceName)
    requires Effect(s, DeleteObject(k), t)
    requires n in s.projects && among <= Elements(s.projects[n].namespaces) && KindOf(r).Some?
    ensures Bounded(s, false, t, n, among, r)
  {
    SumDrop(s.objects, Selector(among, r, false), k);
  }

  lemma UpdateStep(s: State, k: ObjectKey, o: Object, t: State, n: string, among: set<string>, r: ResourceName)
    requires CoveredState(s) && Effect(s, UpdateObject(k, o), t) && Tidy(s, UpdateObject(k, o)) && TidyState(t)
    requires n in s.projects && among <= Elements(s.projects[n].namespaces) && KindOf(r).Some?
    ensures Bounded(s, Admits(s, UpdateObject(k, o), n, r), t, n, among, r)
  {
    DefaultedIsTidy(s, k, o);
    UpdateOvershoot(s, k, Defaulted(s.projects, k, o), n, among, r);
  }

  lemma OvershootStep(s: State, step: Step, t: State, n: string, among: set<string>, r: ResourceName)
    requires CoveredState(s) && Effect(s, step, t) && Tidy(s, step) && TidyState(t)
    requires n in s.projects && among <= Elements(s.projects[n].namespaces) && KindOf(r).Some?
    ensures Bounded(s, Admits(s, step, n, r), t, n, among, r)
  {
    if step.CreateObject? {
      CreateOvershoot(s, step.k, Defaulted(s.projects, step.k, step.o), n, among, r);
    } else if step.UpdateObject? {
      UpdateStep(s, step.k, step.o, t, n, among, r);
    } else if step.StripObject? {
      StripStep(s, step.k, t, n, among, r);
    } else if step.SetPhase? {
      PhaseStep(s, step.k, step.phase, t, n, among, r);
    } else if step.DeleteObject? {
      DeleteStep(s, step.k, t, n, among, r);
    } else {
      ObjectsStay(s, step, t);
    }
  }

  lemma ObjectsStay(s: State, step: Step, t: State)
    requires Effect(s, step, t)
    requires !step.CreateObject? && !step.UpdateObject? && !step.StripObject? && !step.SetPhase? && !step.DeleteObject?
    ensures t.objects == s.objects
  {
  }

  lemma LastStepIsBounded(rules: Rules, run: Run, n: string, among: set<string>, r: ResourceName)
    requires Execution(rules, run) && rules.tidy && rules.covering && run.steps != []
    requires n in Last(Before(run)).projects && among <= Elements(Last(Before(run)).projects[n].namespaces) && KindOf(r).Some?
    ensures var i := |run.steps| - 1;
            Bounded(Last(Before(run)), Admits(run.states[i], run.steps[i], n, r), Last(run), n, among, r)
  {
    var i := |run.steps| - 1;
    assert Next(rules, run.states[i], run.steps[i], run.states[i + 1]);
    BeforeIsExecution(rules, run);
    CoveredRun(rules, Before(run));
    CoveredStep(run.states[i], run.steps[i], run.states[i + 1]);
    OvershootStep(run.states[i], run.steps[i], run.states[i + 1], n, among, r);
  }

  /** slack, count times over. */
  ghost function Repeated(count: nat, slack: nat): nat {
    if count == 0 then 0 else Repeated(count - 1, slack) + slack
  }

  lemma {:induction false} RepeatedIsProduct(count: nat, slack: nat)
    ensures Repeated(count, slack) == count * slack
  {
    if count != 0 {
      RepeatedIsProduct(count - 1, slack);
      assert count * slack == (count - 1) * slack + slack;
    }
  }

  /** What is claimed of a run from position m on. */
  ghost predicate BoundedSince(run: Run, m: nat, n: string, r: ResourceName)
    requires |run.states| == |run.steps| + 1 && m < |run.states| && n in run.states[m].projects && KindOf(r).Some?
  {
    var p := run.states[m].projects[n];
    var admitted := Admissions(run, m, n, r);
    && Usage(Last(run).objects, Elements(p.namespaces), r)
       <= Usage(run.states[m].objects, Elements(p.namespaces), r) + Repeated(admitted, Slack(p, r))
    && (admitted > 0 ==> RecordHasRoom(p, r))
  }

  lemma SameSlack(p: Prq, q: Prq, r: ResourceName)
    requires SameRecord(p, q) && KindOf(r).Some?
    ensures Slack(p, r) == Slack(q, r) && Elements(p.namespaces) == Elements(q.namespaces)
    ensures RecordHasRoom(p, r) <==> RecordHasRoom(q, r)
  {
  }

  lemma OneStepMore(run: Run, m: nat, n: string, r: ResourceName)
    requires m < |run.steps| && |run.states| == |run.steps| + 1 && Steady(run, m, n) && KindOf(r).Some?
    requires BoundedSince(Before(run), m, n, r)
    requires n in Last(Before(run)).projects
    requires var i := |run.steps| - 1;
             Bounded(Last(Before(run)), Admits(run.states[i], run.steps[i], n, r), Last(run), n,
                     Elements(Last(Before(run)).projects[n].namespaces), r)
    ensures BoundedSince(run, m, n, r)
  {
    var i := |run.steps| - 1;
    var p, q := run.states[m].projects[n], run.states[i].projects[n];
    assert SameRecord(p, q);
    SameSlack(p, q, r);
    var before := Admissions(Before(run), m, n, r);
    assert Admissions(run, m, n, r) == before + if Admits(run.states[i], run.steps[i], n, r) then 1 else 0;
    assert Repeated(before + 1, Slack(p, r)) == Repeated(before, Slack(p, r)) + Slack(p, r);
  }

  lemma {:induction false} OvershootRun(rules: Rules, run: Run, m: nat, n: string, r: ResourceName)
    requires Execution(rules, run) && rules.tidy && rules.covering
    requires Steady(run, m, n) && KindOf(r).Some?
    ensures BoundedSince(run, m, n, r)
    decreases |run.steps|
  {
    if m < |run.steps| {
      BeforeIsExecution(rules, run);
      assert Steady(Before(run), m, n);
      OvershootRun(rules, Before(run), m, n, r);
      LastStepIsBounded(rules, run, n, Elements(Last(Before(run)).projects[n].namespaces), r);
      OneStepMore(run, m, n, r);
    }
  }

  /** What the admissions since position m may add: one slack for each. */
  ghost function MostAdded(run: Run, m: nat, n: string, r: ResourceName): nat
    requires |run.states| == |run.steps| + 1 && m < |run.states| && n in run.states[m].projects
  {
    Admissions(run, m, n, r) * Slack(run.states[m].projects[n], r)
  }

  /** Overshoot bound.  While the record of a project does not change, its usage of
      a resource grows by at most one slack for each admission charged to that
      resource, whatever else happens in between; and any such admission shows that
      the record of the resource and of its gate was below the limit. */
  lemma {:induction false} OvershootBound(rules: Rules, run: Run, m: nat, n: string, r: ResourceName)
    requires Execution(rules, run) && rules.tidy && rules.covering
    requires Steady(run, m, n) && KindOf(r).Some?
    ensures var p := run.states[m].projects[n];
            Usage(Last(run).objects, Elements(p.namespaces), r)
            <= Usage(run.states[m].objects, Elements(p.namespaces), r) + MostAdded(run, m, n, r)
    ensures Admissions(run, m, n, r) > 0 ==> RecordHasRoom(run.states[m].projects[n], r)
  {
    OvershootRun(rules, run, m, n, r);
    RepeatedIsProduct(Admissions(run, m, n, r), Slack(run.states[m].projects[n], r));
  }

  /** From an up-to-date record on, usage never exceeds the recorded amount plus one
      slack for each admission charged to the resource, also while the controller is
      about to look at the project again. */
  lemma {:induction false} OvershootFromRecord(rules: Rules, run: Run, m: nat, n: string, r: ResourceName)
    requires Execution(rules, run) && rules.tidy && rules.covering
    requires Steady(run, m, n) && KindOf(r).Some?
    requires UpToDate(run.states[m].projects[n], run.states[m].objects) && Counted(run.states[m].projects[n].hard, r)
    ensures var p := run.states[m].projects[n];
            && Usage(Last(run).objects, Elements(p.namespaces), r) <= Amount(p.used, r) + MostAdded(run, m, n, r)
            && (Admissions(run, m, n, r) > 0 ==> Amount(p.used, r) < Amount(p.hard, r))
  {
    var p, objects := run.states[m].projects[n], run.states[m].objects;
    OvershootBound(rules, run, m, n, r);
    RecountIsUsage(p.hard, objects, p.namespaces, r);
    SequenceVersusSet(objects, p.namespaces, r);
  }

  // ---- A record written while admissions go on ----

  /** From position b on one pass over project n is under way; it has counted nothing
      at b. */
  ghost predicate Passing(run: Run, b: nat, n: string) {
    && b < |run.states|
    && run.states[b].job.Some? && run.states[b].job.value.snapshot.name == n && run.states[b].job.value.phase.Stripping?
    && forall i :: b <= i < |run.states| ==>
         run.states[i].job.Some? && run.states[i].job.value.snapshot == run.states[b].job.value.snapshot
  }

  /** The namespaces whose objects of the kind have been counted. */
  function Seen(cells: seq<Cell>, next: nat, kind: Kind): set<string> {
    set i | 0 <= i < next && i < |cells| && cells[i].kind == kind :: cells[i].ns
  }

  /** In the namespaces counted so far the project uses no more than was counted, and
      what was admitted since the pass began. */
  ghost predicate CountKeepsUp(s: State, admitted: nat, r: ResourceName)
    requires KindOf(r).Some?
  {
    s.job.Some? && s.job.value.phase.Counting? && Unchanged(s, s.job.value.snapshot) ==>
      var j := s.job.value;
      Usage(s.objects, Seen(Cells(j.snapshot.namespaces), j.phase.next, KindOf(r).value), r)
      <= Amount(j.phase.used, r) + Repeated(admitted, Slack(j.snapshot, r))
  }

  lemma SeenIsListed(namespaces: seq<string>, next: nat, kind: Kind)
    ensures Seen(Cells(namespaces), next, kind) <= Elements(namespaces)
    ensures next >= |Cells(namespaces)| ==> Seen(Cells(namespaces), next, kind) == Elements(namespaces)
  {
    var cells := Cells(namespaces);
    CellsContain(namespaces);
    forall i | 0 <= i < next && i < |cells| ensures cells[i].ns in namespaces {
      assert cells[i] in cells;
    }
    if next >= |cells| {
      forall ns | ns in namespaces ensures ns in Seen(cells, next, kind) {
        assert Cell(ns, kind) in cells;
      }
    }
  }

  lemma SeenNext(cells: seq<Cell>, next: nat, kind: Kind)
    requires next < |cells|
    ensures Seen(cells, next + 1, kind) == Seen(cells, next, kind) + if cells[next].kind == kind then {cells[next].ns} else {}
  {
  }

  lemma UsageOfMore(objects: Store, namespaces: set<string>, ns: string, r: ResourceName)
    ensures Usage(objects, namespaces + {ns}, r) <= Usage(objects, namespaces, r) + Usage(objects, {ns}, r)
  {
    if ns in namespaces {
      assert namespaces + {ns} == namespaces;
    } else {
      UsageAdds(objects, namespaces, ns, r);
    }
  }

  lemma CountNextKeepsUp(s: State, t: State, admitted: nat, r: ResourceName)
    requires Effect(s, CountNext, t) && KindOf(r).Some? && Counted(s.job.value.snapshot.hard, r)
    requires CountKeepsUp(s, admitted, r)
    ensures CountKeepsUp(t, admitted, r)
  {
    var j := s.job.value;
    var cells := Cells(j.snapshot.namespaces);
    SeenNext(cells, j.phase.next, KindOf(r).value);
    CountCellAdds(j.phase.used, j.snapshot.hard, s.objects, cells[j.phase.next], r);
    UsageOfMore(s.objects, Seen(cells, j.phase.next, KindOf(r).value), cells[j.phase.next].ns, r);
    if cells[j.phase.next].kind != KindOf(r).value {
      assert Seen(cells, j.phase.next + 1, KindOf(r).value) == Seen(cells, j.phase.next, KindOf(r).value);
    }
  }

  /** Nothing is counted yet. */
  lemma BeginCountKeepsUp(s: State, t: State, admitted: nat, r: ResourceName)
    requires Effect(s, BeginCount, t) && KindOf(r).Some?
    ensures CountKeepsUp(t, admitted, r)
  {
    SumNothing(t.objects, Selector({}, r, false));
    assert Seen(Cells(t.job.value.snapshot.namespaces), 0, KindOf(r).value) == {};
  }

  /** A version that is stored now was stored before: versions are never used again. */
  lemma UnchangedBefore(s: State, step: Step, t: State, p: Prq)
    requires Effect(s, step, t) && p.version <= s.revision && Unchanged(t, p)
    ensures Unchanged(s, p)
  {
  }

  lemma StoredSinceFetched(s: State, step: Step, t: State)
    requires Wellformed(s) && s.job.Some? && Effect(s, step, t) && Unchanged(t, s.job.value.snapshot)
    ensures var p := s.job.value.snapshot; Unchanged(s, p) && s.projects[p.name] == p
  {
    UnchangedBefore(s, step, t, s.job.value.snapshot);
  }

  /** The namespaces counted so far take part in a step of others like all the rest. */
  lemma OthersKeepUp(s: State, t: State, admitted: nat, added: bool, r: ResourceName)
    requires s.job.Some? && s.job.value.phase.Counting? && t.job == s.job
    requires KindOf(r).Some? && CountKeepsUp(s, admitted, r)
    requires Unchanged(s, s.job.value.snapshot)
    requires var j := s.job.value;
             var among := Seen(Cells(j.snapshot.namespaces), j.phase.next, KindOf(r).value);
             Usage(t.objects, among, r) <= Usage(s.objects, among, r) + if added then Slack(j.snapshot, r) else 0
    ensures CountKeepsUp(t, admitted + if added then 1 else 0, r)
  {
    var slack := Slack(s.job.value.snapshot, r);
    assert Repeated(admitted + 1, slack) == Repeated(admitted, slack) + slack;
  }

  /** While the worker counts, others take a step. */
  lemma KeepsUpUserStep(s: State, step: Step, t: State, n: string, admitted: nat, r: ResourceName)
    requires CoveredState(s) && Effect(s, step, t) && Tidy(s, step) && TidyState(t)
    requires s.job.Some? && s.job.value.phase.Counting? && t.job == s.job && s.job.value.snapshot.name == n
    requires KindOf(r).Some? && CountKeepsUp(s, admitted, r) && Unchanged(t, s.job.value.snapshot)
    ensures CountKeepsUp(t, admitted + if Admits(s, step, n, r) then 1 else 0, r)
  {
    var j := s.job.value;
    var among := Seen(Cells(j.snapshot.namespaces), j.phase.next, KindOf(r).value);
    StoredSinceFetched(s, step, t);
    SeenIsListed(j.snapshot.namespaces, j.phase.next, KindOf(r).value);
    OvershootStep(s, step, t, n, among, r);
    OthersKeepUp(s, t, admitted, Admits(s, step, n, r), r);
  }

  lemma CountingSteps(s: State, step: Step, t: State)
    requires Effect(s, step, t) && s.job.Some? && t.job.Some? && t.job.value.phase.Counting?
    requires !step.CountNext? && !step.BeginCount?
    ensures t.job == s.job
  {
  }

  lemma KeepsUpStep(s: State, step: Step, t: State, n: string, admitted: nat, r: ResourceName)
    requires CoveredState(s) && Effect(s, step, t) && Tidy(s, step) && TidyState(t)
    requires s.job.Some? && t.job.Some? && s.job.value.snapshot == t.job.value.snapshot && s.job.value.snapshot.name == n
    requires Counted(s.job.value.snapshot.hard, r) && CountKeepsUp(s, admitted, r)
    ensures CountKeepsUp(t, admitted + if Admits(s, step, n, r) then 1 else 0, r)
  {
    if t.job.value.phase.Counting? {
      if step.CountNext? {
        CountNextKeepsUp(s, t, admitted, r);
      } else if step.BeginCount? {
        BeginCountKeepsUp(s, t, admitted, r);
      } else if Unchanged(t, s.job.value.snapshot) {
        CountingSteps(s, step, t);
        KeepsUpUserStep(s, step, t, n, admitted, r);
      }
    }
  }

  lemma BeforeIsPassing(run: Run, b: nat, n: string)
    requires |run.states| == |run.steps| + 1 && Passing(run, b, n) && b < |run.steps|
    ensures Passing(Before(run), b, n) && Before(run).states[b] == run.states[b]
    ensures Last(Before(run)).job.Some? && Last(run).job.Some?
    ensures Last(Before(run)).job.value.snapshot == Last(run).job.value.snapshot == run.states[b].job.value.snapshot
  {
  }

  lemma {:induction false} PassKeepsUp(rules: Rules, run: Run, b: nat, n: string, r: ResourceName)
    requires Execution(rules, run) && rules.tidy && rules.covering
    requires Passing(run, b, n) && Counted(run.states[b].job.value.snapshot.hard, r)
    ensures CountKeepsUp(Last(run), Admissions(run, b, n, r), r)
    decreases |run.steps|
  {
    if b < |run.steps| {
      BeforeIsPassing(run, b, n);
      BeforeIsExecution(rules, run);
      PassKeepsUp(rules, Before(run), b, n, r);
      LastPassKeepsUp(rules, run, b, n, r);
    } else {
      NothingCounted(Last(run), Admissions(run, b, n, r), r);
    }
  }

  lemma LastPassKeepsUp(rules: Rules, run: Run, b: nat, n: string, r: ResourceName)
    requires Execution(rules, run) && rules.tidy && rules.covering
    requires Passing(run, b, n) && b < |run.steps| && Counted(run.states[b].job.value.snapshot.hard, r)
    requires CountKeepsUp(Last(Before(run)), Admissions(Before(run), b, n, r), r)
    ensures CountKeepsUp(Last(run), Admissions(run, b, n, r), r)
  {
    BeforeIsPassing(run, b, n);
    AdmissionsNext(run, b, n, r);
    LastKeepsUp(rules, run, n, Admissions(Before(run), b, n, r), Admissions(run, b, n, r), r);
  }

  lemma AdmissionsNext(run: Run, b: nat, n: string, r: ResourceName)
    requires |run.states| == |run.steps| + 1 && b < |run.steps|
    ensures var i := |run.steps| - 1;
            Admissions(run, b, n, r) == Admissions(Before(run), b, n, r) + if Admits(run.states[i], run.steps[i], n, r) then 1 else 0
  {
  }

  lemma NothingCounted(s: State, admitted: nat, r: ResourceName)
    requires KindOf(r).Some? && s.job.Some? && s.job.value.phase.Stripping?
    ensures CountKeepsUp(s, admitted, r)
  {
  }

  lemma LastKeepsUp(rules: Rules, run: Run, n: string, admitted: nat, after: nat, r: ResourceName)
    requires Execution(rules, run) && rules.tidy && rules.covering && run.steps != []
    requires var s, t := Last(Before(run)), Last(run);
             && s.job.Some? && t.job.Some? && s.job.value.snapshot == t.job.value.snapshot && s.job.value.snapshot.name == n
             && Counted(s.job.value.snapshot.hard, r) && CountKeepsUp(s, admitted, r)
    requires var i := |run.steps| - 1;
             after == admitted + if Admits(run.states[i], run.steps[i], n, r) then 1 else 0
    ensures CountKeepsUp(Last(run), after, r)
  {
    var i := |run.steps| - 1;
    assert Next(rules, run.states[i], run.steps[i], run.states[i + 1]);
    BeforeIsExecution(rules, run);
    CoveredRun(rules, Before(run));
    CoveredStep(run.states[i], run.steps[i], run.states[i + 1]);
    KeepsUpStep(run.states[i], run.steps[i], run.states[i + 1], n, admitted, r);
  }

  function Prefix(run: Run, m: nat): Run
    requires m < |run.states| == |run.steps| + 1
  {
    Run(run.states[..m + 1], run.steps[..m])
  }

  lemma PrefixIsExecution(rules: Rules, run: Run, m: nat)
    requires Execution(rules, run) && m < |run.states|
    ensures Execution(rules, Prefix(run, m)) && Last(Prefix(run, m)) == run.states[m]
  {
    var prefix := Prefix(run, m);
    forall i | 0 <= i < |prefix.steps| ensures Next(rules, prefix.states[i], prefix.steps[i], prefix.states[i + 1]) {
      assert Next(rules, run.states[i], run.steps[i], run.states[i + 1]);
    }
  }

  /** A pass whose version is still stored at its end has had the fetched record stored
      all along. */
  lemma {:induction false} PassKeepsRecord(rules: Rules, run: Run, b: nat, n: string)
    requires Execution(rules, run) && Passing(run, b, n) && Unchanged(Last(run), run.states[b].job.value.snapshot)
    ensures n in run.states[b].projects && run.states[b].projects[n] == run.states[b].job.value.snapshot
    decreases |run.steps|
  {
    if b < |run.steps| {
      BeforeIsPassing(run, b, n);
      BeforeIsExecution(rules, run);
      LastKeepsRecord(rules, run);
      PassKeepsRecord(rules, Before(run), b, n);
    } else {
      WellformedRun(rules, run);
    }
  }

  lemma LastKeepsRecord(rules: Rules, run: Run)
    requires Execution(rules, run) && run.steps != []
    requires Last(Before(run)).job.Some? && Unchanged(Last(run), Last(Before(run)).job.value.snapshot)
    ensures Unchanged(Last(Before(run)), Last(Before(run)).job.value.snapshot)
  {
    var i := |run.steps| - 1;
    assert Next(rules, run.states[i], run.steps[i], run.states[i + 1]);
    BeforeIsExecution(rules, run);
    WellformedRun(rules, Before(run));
    StoredSinceFetched(run.states[i], run.steps[i], run.states[i + 1]);
  }

  /** The status that a pass writes is short of the usage by at most one old slack for
      each admission during the pass. */
  lemma {:induction false} WrittenRecord(rules: Rules, run: Run, b: nat, n: string, r: ResourceName, t: State)
    requires Execution(rules, run) && rules.tidy && rules.covering
    requires Passing(run, b, n) && Counted(run.states[b].job.value.snapshot.hard, r)
    requires Effect(Last(run), WriteStatus, t)
    ensures n in run.states[b].projects && n in t.projects
    ensures Usage(t.objects, Elements(t.projects[n].namespaces), r) <= Amount(t.projects[n].used, r) + MostAdded(run, b, n, r)
  {
    var s := Last(run);
    var j := s.job.value;
    WellformedRun(rules, run);
    PassKeepsRecord(rules, run, b, n);
    PassKeepsUp(rules, run, b, n, r);
    RepeatedIsProduct(Admissions(run, b, n, r), Slack(j.snapshot, r));
    SeenIsListed(j.snapshot.namespaces, j.phase.next, KindOf(r).value);
  }

  /** What the admissions may add to the record that the pass from b on writes at w: those
      during the pass by the old record, those since by the new. */
  ghost function AddedThroughPass(run: Run, b: nat, w: nat, n: string, r: ResourceName): nat
    requires |run.states| == |run.steps| + 1 && b <= w < |run.steps|
    requires n in run.states[b].projects && n in run.states[w + 1].projects
  {
    MostAdded(Prefix(run, w), b, n, r) + MostAdded(run, w + 1, n, r)
  }

  /** Any record.  A pass over n is under way from b on and writes the status at w, while
      users go on.  From then on, as long as that record stays, usage never exceeds it by
      more than one slack of the old record for each admission during the pass and one of
      the new record for each admission since. */
  lemma {:induction false} OvershootThroughPass(rules: Rules, run: Run, b: nat, w: nat, n: string, r: ResourceName)
    requires Execution(rules, run) && rules.tidy && rules.covering
    requires w < |run.steps| && run.steps[w] == WriteStatus && Passing(Prefix(run, w), b, n)
    requires Counted(run.states[b].job.value.snapshot.hard, r)
    requires Steady(run, w + 1, n)
    ensures n in run.states[b].projects
    ensures var p := run.states[w + 1].projects[n];
            Usage(Last(run).objects, Elements(p.namespaces), r)
            <= Amount(p.used, r) + AddedThroughPass(run, b, w, n, r)
  {
    RecordAfterPass(rules, run, b, w, n, r);
    OvershootBound(rules, run, w + 1, n, r);
  }

  lemma RecordAfterPass(rules: Rules, run: Run, b: nat, w: nat, n: string, r: ResourceName)
    requires Execution(rules, run) && rules.tidy && rules.covering
    requires w < |run.steps| && run.steps[w] == WriteStatus && Passing(Prefix(run, w), b, n)
    requires Counted(run.states[b].job.value.snapshot.hard, r)
    ensures n in run.states[b].projects && n in run.states[w + 1].projects
    ensures var p := run.states[w + 1].projects[n];
            Usage(run.states[w + 1].objects, Elements(p.namespaces), r) <= Amount(p.used, r) + MostAdded(Prefix(run, w), b, n, r)
  {
    PrefixIsExecution(rules, run, w);
    assert Next(rules, run.states[w], run.steps[w], run.states[w + 1]);
    WrittenRecord(rules, Prefix(run, w), b, n, r, run.states[w + 1]);
  }
}
