/** Where the promises end: the exact conditions under which single steps keep them,
    and runs that break them, each by leaving out one of the three disciplines or in
    spite of all of them. */
module Limits {
  import opened ResourceModel
  import opened Tally
  import opened Accounting
  import opened Admission
  import opened Machine
  import opened Projects
  import opened Ownership
  import opened Staleness
  import opened Safety
  import opened Retries

  // ---- Services cannot always be cleaned ----

  /** An annotated service of a project being deleted keeps its annotation and its
      project through every step that does not delete it. */
  lemma ServiceHoldsStep(s: State, step: Step, t: State, n: string, k: ObjectKey)
    requires TidyState(s) && Effect(s, step, t) && Tidy(s, step)
    requires k in s.objects && k.kind == Service && Project(s.objects[k]) == Some(n)
    requires n in s.projects && s.projects[n].deleting
    requires k in t.objects
    ensures Project(t.objects[k]) == Some(n) && n in t.projects && t.projects[n].deleting
  {
    ServiceKeepsName(s, step, t, n, k);
    assert FINALIZER in s.projects[n].finalizers;
    if step.ReleaseProject? {
      NamedIsNotReleased(s, t, n, k);
    } else {
      DeletedIsKept(s, step, t, n);
    }
  }

  lemma NamedIsNotReleased(s: State, t: State, n: string, k: ObjectKey)
    requires TidyState(s) && Effect(s, ReleaseProject, t)
    requires k in s.objects && Project(s.objects[k]) == Some(n) && n in s.projects
    ensures n in t.projects && t.projects[n] == s.projects[n]
  {
    WellformedStep(s, ReleaseProject, t);
    TidyReleaseStep(s, t);
  }

  lemma DeletedIsKept(s: State, step: Step, t: State, n: string)
    requires Wellformed(s) && Effect(s, step, t) && Tidy(s, step) && !step.ReleaseProject?
    requires n in s.projects && s.projects[n].deleting && FINALIZER in s.projects[n].finalizers
    ensures n in t.projects && t.projects[n].deleting
  {
  }

  lemma ServiceKeepsName(s: State, step: Step, t: State, n: string, k: ObjectKey)
    requires TidyState(s) && Effect(s, step, t) && Tidy(s, step)
    requires k in s.objects && k.kind == Service && Project(s.objects[k]) == Some(n)
    requires n in s.projects && s.projects[n].deleting
    requires k in t.objects
    ensures Project(t.objects[k]) == Some(n)
  {
    assert OwnedBy(s.projects, k, n);
    assert forall m :: !Gates(s.projects, m, k);
  }

  /** An annotated service holds a project being deleted in the store: over any stretch
      of a tidy run in which the service is not deleted, whoever updates it and however
      often the controller tries, it names the project and the project stays. */
  lemma {:induction false} ServiceHoldsProject(rules: Rules, run: Run, m: nat, n: string, k: ObjectKey)
    requires Execution(rules, run) && rules.tidy && m < |run.states|
    requires k.kind == Service && forall i :: m <= i < |run.states| ==> k in run.states[i].objects
    requires Project(run.states[m].objects[k]) == Some(n)
    requires n in run.states[m].projects && run.states[m].projects[n].deleting
    ensures Project(Last(run).objects[k]) == Some(n) && n in Last(run).projects && Last(run).projects[n].deleting
    decreases |run.steps|
  {
    if m < |run.steps| {
      BeforeIsExecution(rules, run);
      ServiceHoldsProject(rules, Before(run), m, n, k);
      ServiceHoldsLast(rules, run, n, k);
    }
  }

  lemma ServiceHoldsLast(rules: Rules, run: Run, n: string, k: ObjectKey)
    requires Execution(rules, run) && rules.tidy && run.steps != []
    requires k.kind == Service && k in Last(Before(run)).objects && k in Last(run).objects
    requires Project(Last(Before(run)).objects[k]) == Some(n)
    requires n in Last(Before(run)).projects && Last(Before(run)).projects[n].deleting
    ensures Project(Last(run).objects[k]) == Some(n) && n in Last(run).projects && Last(run).projects[n].deleting
  {
    var i := |run.steps| - 1;
    assert Next(rules, run.states[i], run.steps[i], run.states[i + 1]);
    BeforeIsExecution(rules, run);
    TidyRun(rules, Before(run));
    ServiceHoldsStep(run.states[i], run.steps[i], run.states[i + 1], n, k);
  }

  /** Exactly when a service update that keeps the type is admitted by an idle live
      project: when the project really uses less than its limit on services, although
      the update adds nothing to it. */
  lemma SameTypeUpdateIff(rules: Rules, run: Run, k: ObjectKey, o: Object, n: string)
    requires Execution(rules, run) && rules == Rules(true, true, true)
    requires var s := Last(run);
             && k in s.objects && k.kind == Service && o.serviceType == s.objects[k].serviceType
             && Project(Defaulted(s.projects, k, o)) == Some(n)
             && n in s.projects && !s.projects[n].deleting && Idle(s, n)
    ensures var s := Last(run);
            AdmitsUpdate(s.projects, Service, s.objects[k], Defaulted(s.projects, k, o)) <==>
            Usage(s.objects, Elements(s.projects[n].namespaces), Services) < Amount(s.projects[n].hard, Services)
  {
    SafeRun(rules, run);
    IdleIsAccurate(Last(run), n);
  }

  /** Exactly when an idle live project admits any change of one of its services: when it
      uses less than its limit on services now, and is within its three limits with
      the change. */
  lemma ServiceUpdateIff(rules: Rules, run: Run, k: ObjectKey, o: Object, n: string)
    requires Execution(rules, run) && rules == Rules(true, true, true)
    requires var s := Last(run);
             && k in s.objects && k.kind == Service && Annotated(s.objects[k])
             && n in s.projects && !s.projects[n].deleting && Idle(s, n) && k.ns in s.projects[n].namespaces
             && Project(Defaulted(s.projects, k, o)) == Some(n)
    ensures var s := Last(run);
            var d := Defaulted(s.projects, k, o);
            AdmitsUpdate(s.projects, Service, s.objects[k], d) <==>
              && Usage(s.objects, Elements(s.projects[n].namespaces), Services) < Amount(s.projects[n].hard, Services)
              && forall r :: KindOf(r) == Some(Service) ==>
                   Usage(s.objects[k := d], Elements(s.projects[n].namespaces), r) <= Amount(s.projects[n].hard, r)
  {
    var s := Last(run);
    SafeRun(rules, run);
    IdleIsAccurate(s, n);
    assert HardCoversUsed(s.projects[n]);
    TypeChangeIsExact(s.projects[n], s.objects, k, Defaulted(s.projects, k, o));
  }

  /** Exactly when an idle live project may be edited: when no other project lists one of
      the namespaces, every limited name is supported, and no limit is below what the
      project really uses. */
  lemma EditIsAdmittedIff(rules: Rules, run: Run, n: string, namespaces: seq<string>, hard: ResourceList, finalizers: seq<string>)
    requires Execution(rules, run) && rules == Rules(true, true, true)
    requires var s := Last(run); n in s.projects && !s.projects[n].deleting && Idle(s, n)
    ensures var s := Last(run);
            AdmitsProjectUpdate(s.projects, Edited(s.projects[n], namespaces, hard, finalizers)) <==>
              && (forall m, ns :: m in s.projects && m != n && ns in namespaces ==> ns !in s.projects[m].namespaces)
              && (forall r :: r in hard ==> !r.Other?)
              && forall r: ResourceName :: !r.Other? ==>
                   Usage(s.objects, Elements(s.projects[n].namespaces), r) <= Amount(hard, r)
  {
    SafeRun(rules, run);
    IdleIsAccurate(Last(run), n);
    assert ProjectFits(n, Last(run).projects[n], Last(run).revision);
  }

  // ---- Events of objects that name another project ----

  lemma DropLowersOne(objects: Store, k: ObjectKey, ns: string, r: ResourceName)
    requires k in objects && Annotated(objects[k]) && KindOf(r) == Some(k.kind)
    ensures Usage(objects - {k}, {ns}, r) + (if k.ns == ns then Weight(r, objects[k]) else 0) == Usage(objects, {ns}, r)
  {
    SumDrop(objects, Selector({ns}, r, false), k);
  }

  lemma {:induction false} DropLowersSequence(objects: Store, k: ObjectKey, namespaces: seq<string>, r: ResourceName)
    requires k in objects && Annotated(objects[k]) && KindOf(r) == Some(k.kind)
    ensures UsageBySequence(objects - {k}, namespaces, r) + (if k.ns in namespaces then Weight(r, objects[k]) else 0)
            <= UsageBySequence(objects, namespaces, r)
  {
    if namespaces != [] {
      var n := |namespaces| - 1;
      DropLowersSequence(objects, k, namespaces[..n], r);
      DropLowersOne(objects, k, namespaces[n], r);
      assert k.ns in namespaces <==> k.ns in namespaces[..n] || k.ns == namespaces[n];
    }
  }

  /** Exactly when the deletion of a charged object keeps an up-to-date project from
      going stale unnoticed: when the object names that project. */
  lemma DeletionIsNoticedIff(s: State, k: ObjectKey, n: string, r: ResourceName)
    requires n in s.projects && n !in s.queue && UpToDate(s.projects[n], s.objects)
    requires k in s.objects && Annotated(s.objects[k]) && k.ns in s.projects[n].namespaces
    requires KindOf(r) == Some(k.kind) && Counted(s.projects[n].hard, r) && Weight(r, s.objects[k]) > 0
    ensures var t := DropObject(s, k);
            n in t.queue || UpToDate(t.projects[n], t.objects) <==> Project(s.objects[k]) == Some(n)
  {
    var p, t := s.projects[n], DropObject(s, k);
    RecountIsUsage(p.hard, s.objects, p.namespaces, r);
    RecountIsUsage(p.hard, t.objects, p.namespaces, r);
    DropLowersSequence(s.objects, k, p.namespaces, r);
    assert Amount(Fresh(p, t.objects), r) < Amount(Fresh(p, s.objects), r);
  }

  // ---- Charges that nobody admits ----

  /** Exactly when an update without the annotation charges a project for an object that
      it was not charged for: when the object was not annotated and the project limits
      its kind.  No limit is looked at then, except for services. */
  lemma UpdateChargesIff(s: State, k: ObjectKey, o: Object, n: string)
    requires TidyState(s) && k in s.objects && n in s.projects && k.ns in s.projects[n].namespaces
    requires !Annotated(o) && SameFixedFields(s.objects[k], o) && !Terminated(o)
    ensures var after := s.objects[k := Defaulted(s.projects, k, o)];
            var r := GateKey(k.kind);
            Usage(after, Elements(s.projects[n].namespaces), r) > Usage(s.objects, Elements(s.projects[n].namespaces), r) <==>
            !Annotated(s.objects[k]) && Gates(s.projects, n, k)
    ensures k.kind != Service ==> AdmitsUpdate(s.projects, k.kind, s.objects[k], Defaulted(s.projects, k, o))
  {
    var r := GateKey(k.kind);
    var d := Defaulted(s.projects, k, o);
    SumPut(s.objects, Selector(Elements(s.projects[n].namespaces), r, false), k, d);
    GatedIffAnnotated(s, k, o, n);
    WeightOfGate(k.kind, o, d);
    WeightOfGate(k.kind, s.objects[k], d);
  }

  lemma GatedIffAnnotated(s: State, k: ObjectKey, o: Object, n: string)
    requires Disjoint(s.projects) && n in s.projects && k.ns in s.projects[n].namespaces && !Annotated(o)
    ensures Annotated(Defaulted(s.projects, k, o)) <==> Gates(s.projects, n, k)
  {
    var d := Defaulted(s.projects, k, o);
    if Annotated(d) { assert Gates(s.projects, d.annotations[ANNOTATION], k); }
  }

  lemma WeightOfGate(kind: Kind, before: Object, after: Object)
    requires before.phase == after.phase && !Terminated(after)
    ensures KindOf(GateKey(kind)) == Some(kind)
    ensures Weight(GateKey(kind), before) == Weight(GateKey(kind), after) == 1
  {
  }

  // ---- Annotations left behind ----

  /** Nobody will come for the object: no project lists or records its namespace, and
      the pass in progress does not clean it. */
  ghost predicate Forgotten(s: State, k: ObjectKey) {
    && (forall n :: n in s.projects ==> k.ns !in s.projects[n].namespaces && k.ns !in s.projects[n].recorded)
    && (s.job.Some? ==> k.ns !in s.job.value.targets)
  }

  predicate WritesObject(step: Step, k: ObjectKey) {
    match step
    case CreateObject(x, _) => x == k
    case UpdateObject(x, _) => x == k
    case DeleteObject(x) => x == k
    case _ => false
  }

  /** From the first state on, no project lists or records the namespace of k, and no
      user writes k. */
  ghost predicate LeftAlone(run: Run, k: ObjectKey) {
    && (forall i, n :: 0 <= i < |run.states| && n in run.states[i].projects ==>
          k.ns !in run.states[i].projects[n].namespaces && k.ns !in run.states[i].projects[n].recorded)
    && forall i :: 0 <= i < |run.steps| ==> !WritesObject(run.steps[i], k)
  }

  lemma ForgottenStep(s: State, step: Step, t: State, k: ObjectKey)
    requires Wellformed(s) && Forgotten(s, k) && Effect(s, step, t) && !WritesObject(step, k) && k in s.objects
    requires forall n :: n in t.projects ==> k.ns !in t.projects[n].namespaces && k.ns !in t.projects[n].recorded
    ensures Forgotten(t, k) && k in t.objects && Project(t.objects[k]) == Project(s.objects[k])
  {
    if step.Begin? && step.name in s.projects {
      assert forall ns :: ns in step.targets ==> ns in Elements(step.targets);
    }
  }

  /** A forgotten object keeps the name it carries, for as long as it is left alone. */
  lemma {:induction false} ForgottenStays(rules: Rules, run: Run, k: ObjectKey)
    requires Path(rules, run) && LeftAlone(run, k)
    requires Wellformed(run.states[0]) && Forgotten(run.states[0], k) && k in run.states[0].objects
    ensures Wellformed(Last(run)) && Forgotten(Last(run), k)
    ensures k in Last(run).objects && Project(Last(run).objects[k]) == Project(run.states[0].objects[k])
    decreases |run.steps|
  {
    if run.steps != [] {
      var i := |run.steps| - 1;
      var shorter := Before(run);
      forall j | 0 <= j < |shorter.steps| ensures Next(rules, shorter.states[j], shorter.steps[j], shorter.states[j + 1]) {
        assert Next(rules, run.states[j], run.steps[j], run.states[j + 1]);
      }
      ForgottenStays(rules, shorter, k);
      assert Next(rules, run.states[i], run.steps[i], run.states[i + 1]);
      WellformedStep(run.states[i], run.steps[i], run.states[i + 1]);
      ForgottenStep(run.states[i], run.steps[i], run.states[i + 1], k);
    }
  }

  // ---- Short runs ----

  const EMPTY := State(map[], map[], {}, None, 0)
  const NEW_PROJECT := Prq("team", ["a"], map[ConfigMaps := 1], map[], [], [], false, 0)
  const STORED_PROJECT := NEW_PROJECT.(finalizers := [FINALIZER], version := 1)
  const WITH_PROJECT := State(map["team" := STORED_PROJECT], map[], {"team"}, None, 1)

  const PLAIN := Object(map[], Pending, ClusterIP, map[], map[])
  const NAMED := PLAIN.(annotations := map[ANNOTATION := "team"])
  const FIRST := ObjectKey(ConfigMap, "a", "first")
  const SECOND := ObjectKey(ConfigMap, "a", "second")

  lemma ProjectIsCreated(rules: Rules)
    ensures Next(rules, EMPTY, CreateProject(NEW_PROJECT), WITH_PROJECT)
  {
    assert NEW_PROJECT.(used := map[], recorded := [], deleting := false, finalizers := WithFinalizer([])).(version := 1)
           == STORED_PROJECT;
    assert Commit(EMPTY, NEW_PROJECT.(finalizers := [FINALIZER])) == WITH_PROJECT;
  }

  lemma ConfigMapIsCreated(rules: Rules, objects: Store, k: ObjectKey)
    requires !rules.serial && k !in objects && k.kind == ConfigMap && k.ns == "a"
    ensures Next(rules, WITH_PROJECT.(objects := objects), CreateObject(k, PLAIN), WITH_PROJECT.(objects := objects[k := NAMED]))
  {
    var s := WITH_PROJECT.(objects := objects);
    assert Gates(s.projects, "team", k);
    assert Defaulted(s.projects, k, PLAIN) == NAMED;
    assert PutObject(s, k, NAMED) == WITH_PROJECT.(objects := objects[k := NAMED]);
  }

  /** The first two steps of both runs: the project, and a config map in it. */
  lemma ProjectWithConfigMap(rules: Rules) returns (run: Run)
    requires !rules.serial
    ensures Execution(rules, run) && Last(run) == WITH_PROJECT.(objects := map[FIRST := NAMED])
  {
    var none: Store := map[];
    run := Run([EMPTY], []);
    ProjectIsCreated(rules);
    ExtendIsPath(rules, run, CreateProject(NEW_PROJECT), WITH_PROJECT);
    run := Extend(run, CreateProject(NEW_PROJECT), WITH_PROJECT);
    ConfigMapIsCreated(rules, none, FIRST);
    assert none[FIRST := NAMED] == map[FIRST := NAMED];
    ExtendIsPath(rules, run, CreateObject(FIRST, PLAIN), WITH_PROJECT.(objects := map[FIRST := NAMED]));
    run := Extend(run, CreateObject(FIRST, PLAIN), WITH_PROJECT.(objects := map[FIRST := NAMED]));
  }

  /** Without serialized admissions the quota is exceeded: a project limited to one
      config map holds two, because both were admitted by the same status. */
  lemma StaleStatusOvershoots() returns (run: Run)
    ensures Execution(Rules(true, true, false), run)
    ensures "team" in Last(run).projects
    ensures var p := Last(run).projects["team"];
            Usage(Last(run).objects, Elements(p.namespaces), ConfigMaps) == 2 > Amount(p.hard, ConfigMaps)
  {
    var rules := Rules(true, true, false);
    run := ProjectWithConfigMap(rules);
    ConfigMapIsCreated(rules, map[FIRST := NAMED], SECOND);
    var two := WITH_PROJECT.(objects := map[FIRST := NAMED, SECOND := NAMED]);
    assert map[FIRST := NAMED][SECOND := NAMED] == map[FIRST := NAMED, SECOND := NAMED];
    ExtendIsPath(rules, run, CreateObject(SECOND, PLAIN), two);
    run := Extend(run, CreateObject(SECOND, PLAIN), two);
    TwoAreCharged();
  }

  lemma TwoAreCharged()
    ensures Usage(map[FIRST := NAMED, SECOND := NAMED], Elements(["a"]), ConfigMaps) == 2
  {
    var sel := Selector(Elements(["a"]), ConfigMaps, false);
    var none: Store := map[];
    SumNothing(none, sel);
    SumPut(none, sel, FIRST, NAMED);
    SumPut(map[FIRST := NAMED], sel, SECOND, NAMED);
    assert none[FIRST := NAMED] == map[FIRST := NAMED];
    assert map[FIRST := NAMED][SECOND := NAMED] == map[FIRST := NAMED, SECOND := NAMED];
  }

  /** Without tidy edits an annotation is orphaned: a namespace dropped before the
      controller has recorded it is never cleaned. */
  lemma UnrecordedDropOrphans() returns (run: Run)
    ensures Execution(Rules(false, true, false), run)
    ensures var s := Last(run);
            && FIRST in s.objects && Project(s.objects[FIRST]) == Some("team")
            && "team" in s.projects && !Covers(s.projects["team"], FIRST.ns)
    ensures forall later, any ::
              Path(any, later) && later.states[0] == Last(run) && LeftAlone(later, FIRST) ==>
                FIRST in Last(later).objects && Project(Last(later).objects[FIRST]) == Some("team")
  {
    var rules := Rules(false, true, false);
    run := ProjectWithConfigMap(rules);
    var one := Last(run);
    var edit := UpdateProject("team", [], map[ConfigMaps := 1], [FINALIZER]);
    var after := Commit(one, STORED_PROJECT.(namespaces := []));
    NamespaceIsDropped(rules, one, edit, after);
    ExtendIsPath(rules, run, edit, after);
    run := Extend(run, edit, after);
    WellformedRun(rules, run);
    forall later, any | Path(any, later) && later.states[0] == after && LeftAlone(later, FIRST)
      ensures FIRST in Last(later).objects && Project(Last(later).objects[FIRST]) == Some("team")
    {
      ForgottenStays(any, later, FIRST);
    }
  }

  lemma NamespaceIsDropped(rules: Rules, s: State, edit: Step, t: State)
    requires rules == Rules(false, true, false) && s.projects == map["team" := STORED_PROJECT]
    requires edit == UpdateProject("team", [], map[ConfigMaps := 1], [FINALIZER])
    requires t == Commit(s, STORED_PROJECT.(namespaces := []))
    ensures Next(rules, s, edit, t)
  {
    assert STORED_PROJECT.(namespaces := [], hard := map[ConfigMaps := 1], finalizers := WithFinalizer([FINALIZER]))
           == STORED_PROJECT.(namespaces := []);
  }

  // ---- Serialized runs ----

  /** The rest of a count, when nobody else takes a step. */
  lemma CountRun(rules: Rules, run: Run) returns (longer: Run)
    requires Execution(rules, run)
    requires var s := Last(run);
             s.job.Some? && s.job.value.phase == Counting(0, map[])
    ensures Execution(rules, longer)
    ensures var s := Last(run); var p := s.job.value.snapshot;
            Last(longer) == s.(job := Some(s.job.value.(phase := Counting(|Cells(p.namespaces)|, Fresh(p, s.objects)))))
  {
    var s := Last(run);
    var j := s.job.value;
    var cells := Cells(j.snapshot.namespaces);
    longer := run;
    for i := 0 to |cells|
      invariant Execution(rules, longer)
      invariant Last(longer) == s.(job := Some(j.(phase := Counting(i, Recount(j.snapshot.hard, s.objects, cells[..i])))))
    {
      RecountNext(j.snapshot.hard, s.objects, cells, i);
      var t := s.(job := Some(j.(phase := Counting(i + 1, Recount(j.snapshot.hard, s.objects, cells[..i + 1])))));
      longer := TakeStep(rules, longer, CountNext, t);
    }
    assert cells[..|cells|] == cells;
  }

  lemma TakeStep(rules: Rules, run: Run, step: Step, t: State) returns (longer: Run)
    requires Execution(rules, run) && Next(rules, Last(run), step, t)
    ensures Execution(rules, longer) && Last(longer) == t
  {
    ExtendIsPath(rules, run, step, t);
    longer := Extend(run, step, t);
  }

  function Recorded(p: Prq, used: ResourceList): Prq {
    p.(used := used, recorded := p.namespaces)
  }

  /** A pass over a live project with nothing to clean, up to its count. */
  lemma BeginRun(rules: Rules, run: Run, n: string) returns (longer: Run)
    requires Execution(rules, run)
    requires var s := Last(run);
             s.job.None? && n in s.queue && n in s.projects && !s.projects[n].deleting && ToClean(s.projects[n]) == {}
    ensures Execution(rules, longer)
    ensures var s := Last(run);
            Last(longer) == s.(queue := s.queue - {n}, job := Some(Job(s.projects[n], [], Counting(0, map[]))))
  {
    var s := Last(run);
    var none: seq<string> := [];
    var begun := s.(queue := s.queue - {n}, job := Some(Job(s.projects[n], none, Stripping(0, map[]))));
    longer := TakeStep(rules, run, Begin(n, none), begun);
    longer := TakeStep(rules, longer, BeginCount, begun.(job := Some(Job(s.projects[n], none, Counting(0, map[])))));
  }

  /** One pass over a live project with nothing to clean. */
  lemma PassRun(rules: Rules, run: Run, n: string) returns (longer: Run)
    requires Execution(rules, run)
    requires var s := Last(run);
             s.job.None? && n in s.queue && n in s.projects && !s.projects[n].deleting && ToClean(s.projects[n]) == {}
    ensures Execution(rules, longer)
    ensures var s := Last(run);
            Last(longer) == Commit(s.(queue := s.queue - {n}), Recorded(s.projects[n], Fresh(s.projects[n], s.objects)))
  {
    WellformedRun(rules, run);
    var s := Last(run);
    var p := s.projects[n];
    longer := BeginRun(rules, run, n);
    longer := CountRun(rules, longer);
    var last := Last(longer);
    var t := Commit(last, Recorded(p, Fresh(p, s.objects))).(job := None);
    longer := TakeStep(rules, longer, WriteStatus, t);
  }

  /** Two passes settle the only queued project: the first writes its status, the second
      finds nothing to write. */
  lemma SettlingRun(rules: Rules, run: Run, n: string) returns (longer: Run)
    requires Execution(rules, run)
    requires var s := Last(run);
             s.job.None? && s.queue == {n} && n in s.projects && !s.projects[n].deleting && ToClean(s.projects[n]) == {}
    ensures Execution(rules, longer)
    ensures var s, t := Last(run), Last(longer);
            && t.job.None? && t.queue == {} && t.objects == s.objects && t.projects.Keys == s.projects.Keys
            && t.projects[n] == Recorded(s.projects[n], Fresh(s.projects[n], s.objects)).(version := t.projects[n].version)
            && forall m :: m in s.projects && m != n ==> t.projects[m] == s.projects[m]
  {
    WellformedRun(rules, run);
    longer := PassRun(rules, run, n);
    if Last(longer).queue != {} {
      longer := PassRun(rules, longer, n);
    }
  }

  /** A project "team", the only one, settled with the given objects. */
  ghost predicate Ready(s: State, namespaces: seq<string>, hard: ResourceList, objects: Store) {
    && s.job.None? && s.queue == {} && s.objects == objects && s.projects.Keys == {"team"}
    && var p := s.projects["team"];
       p == Prq("team", namespaces, hard, Recount(hard, objects, Cells(namespaces)), namespaces, [FINALIZER], false, p.version)
  }

  lemma ReadyRun(rules: Rules, namespaces: seq<string>, hard: ResourceList) returns (run: Run)
    requires SupportedNames(hard) && (rules.covering ==> NoRepeats(namespaces))
    ensures Execution(rules, run) && Ready(Last(run), namespaces, hard, map[])
  {
    var p := Prq("team", namespaces, hard, map[], [], [], false, 0);
    var t := Commit(EMPTY, Created(p));
    run := Run([EMPTY], []);
    run := TakeStep(rules, run, CreateProject(p), t);
    run := SettlingRun(rules, run, "team");
  }

  lemma {:induction false} NothingIsCharged(namespaces: seq<string>, r: ResourceName)
    ensures UsageBySequence(map[], namespaces, r) == 0
  {
    if namespaces != [] {
      NothingIsCharged(namespaces[..|namespaces| - 1], r);
      SumNothing(map[], Selector({namespaces[|namespaces| - 1]}, r, false));
    }
  }

  /** The project limits and counts the kind of k, and one plain object is created. */
  lemma ChargedRun(rules: Rules, namespaces: seq<string>, hard: ResourceList, k: ObjectKey) returns (run: Run)
    requires SupportedNames(hard) && (rules.covering ==> NoRepeats(namespaces))
    requires k.kind != Pod && k.ns in namespaces && Amount(hard, GateKey(k.kind)) > 0
    ensures Execution(rules, run) && Ready(Last(run), namespaces, hard, map[k := NAMED])
  {
    run := ReadyRun(rules, namespaces, hard);
    var s := Last(run);
    var p := s.projects["team"];
    RecountIsUsage(hard, map[], namespaces, GateKey(k.kind));
    NothingIsCharged(namespaces, GateKey(k.kind));
    assert Below(p, GateKey(k.kind)) && FitsProject(p, k.kind, NAMED);
    assert Gates(s.projects, "team", k) && Defaulted(s.projects, k, PLAIN) == NAMED;
    var none: Store := map[];
    assert none[k := NAMED] == map[k := NAMED];
    var t := PutObject(s, k, NAMED);
    run := TakeStep(rules, run, CreateObject(k, PLAIN), t);
    run := SettlingRun(rules, run, "team");
  }

  lemma OneIsCharged(k: ObjectKey, o: Object)
    requires k.kind != Pod && Annotated(o)
    ensures Usage(map[k := o], {k.ns}, GateKey(k.kind)) == 1
  {
    var none: Store := map[];
    var sel := Selector({k.ns}, GateKey(k.kind), false);
    SumNothing(none, sel);
    SumPut(none, sel, k, o);
    assert none[k := o] == map[k := o];
  }

  const SERVICE := ObjectKey(Service, "a", "web")
  const ONE_SERVICE: ResourceList := map[Services := 1]

  /** A serialized run after which a project that holds its one service, and is not over
      any limit, refuses even the update that changes nothing of it. */
  lemma FullProjectRefusesUpdate() returns (run: Run)
    ensures Execution(Rules(true, true, true), run) && Ready(Last(run), ["a"], ONE_SERVICE, map[SERVICE := NAMED])
    ensures var s := Last(run);
            && Usage(s.objects, Elements(s.projects["team"].namespaces), Services) == 1 == Amount(s.projects["team"].hard, Services)
            && !AdmitsUpdate(s.projects, Service, s.objects[SERVICE], Defaulted(s.projects, SERVICE, s.objects[SERVICE]))
  {
    var rules := Rules(true, true, true);
    run := ChargedRun(rules, ["a"], ONE_SERVICE, SERVICE);
    var s := Last(run);
    OneIsCharged(SERVICE, NAMED);
    assert Elements(["a"]) == {"a"};
    assert Gates(s.projects, "team", SERVICE);
    SameTypeUpdateIff(rules, run, SERVICE, s.objects[SERVICE], "team");
  }

  /** A serialized run after which a project is being deleted and can never leave, since
      it holds a service. */
  lemma DeletedProjectIsHeld() returns (run: Run)
    ensures Execution(Rules(true, true, true), run)
    ensures var s := Last(run);
            && "team" in s.projects && s.projects["team"].deleting && s.objects == map[SERVICE := NAMED]
            && Stuck(s, "team", SERVICE)
  {
    var rules := Rules(true, true, true);
    run := ChargedRun(rules, ["a"], ONE_SERVICE, SERVICE);
    var s := Last(run);
    var t := Commit(s, s.projects["team"].(deleting := true));
    run := TakeStep(rules, run, DeleteProject("team"), t);
    assert "a" in Elements(["a"]);
    OwnServiceIsStuck(rules, run, "team", SERVICE);
  }

  /** A serialized run after which a project that lists a namespace twice records two
      config maps and holds one. */
  lemma TwiceListedCountsTwice() returns (run: Run)
    ensures Execution(Rules(true, false, true), run)
    ensures Ready(Last(run), ["a", "a"], map[ConfigMaps := 2], map[FIRST := NAMED])
    ensures var s := Last(run);
            Usage(s.objects, Elements(s.projects["team"].namespaces), ConfigMaps) == 1 < 2 == Amount(s.projects["team"].used, ConfigMaps)
  {
    var rules := Rules(true, false, true);
    var hard: ResourceList := map[ConfigMaps := 2];
    run := ChargedRun(rules, ["a", "a"], hard, FIRST);
    OneIsCharged(FIRST, NAMED);
    assert Elements(["a", "a"]) == {"a"};
    RecountIsUsage(hard, map[FIRST := NAMED], ["a", "a"], ConfigMaps);
    var twice, once := ["a", "a"], ["a"];
    assert twice[..1] == once && once[..0] == [];
    assert UsageBySequence(map[FIRST := NAMED], once, ConfigMaps) == 1;
    assert UsageBySequence(map[FIRST := NAMED], twice, ConfigMaps) == 2;
  }

  // ---- Runs that leave one discipline out ----

  /** Without covering: two config maps were there before the project, and updates that
      change nothing of them charge both to a limit of one. */
  lemma ExistingObjectsOvershoot() returns (run: Run)
    ensures Execution(Rules(true, false, true), run)
    ensures "team" in Last(run).projects
    ensures var p := Last(run).projects["team"];
            Usage(Last(run).objects, Elements(p.namespaces), ConfigMaps) == 2 > Amount(p.hard, ConfigMaps)
  {
    var rules := Rules(true, false, true);
    run := ClaimedLate(rules);
    var one := WITH_PROJECT.(objects := map[FIRST := NAMED, SECOND := PLAIN]);
    var two := WITH_PROJECT.(objects := map[FIRST := NAMED, SECOND := NAMED]);
    ConfigMapIsNamed(rules, Last(run), FIRST, one);
    run := TakeStep(rules, run, UpdateObject(FIRST, PLAIN), one);
    ConfigMapIsNamed(rules, one, SECOND, two);
    run := TakeStep(rules, run, UpdateObject(SECOND, PLAIN), two);
    TwoAreCharged();
  }

  lemma ClaimedLate(rules: Rules) returns (run: Run)
    requires !rules.covering
    ensures Execution(rules, run) && Last(run) == WITH_PROJECT.(objects := map[FIRST := PLAIN, SECOND := PLAIN])
  {
    var none := EMPTY.(objects := map[FIRST := PLAIN, SECOND := PLAIN]);
    run := Run([none], []);
    ProjectIsCreated(Rules(false, false, false));
    assert Commit(none, Created(NEW_PROJECT)) == Commit(EMPTY, Created(NEW_PROJECT)).(objects := none.objects);
    run := TakeStep(rules, run, CreateProject(NEW_PROJECT), WITH_PROJECT.(objects := none.objects));
  }

  lemma ConfigMapIsNamed(rules: Rules, s: State, k: ObjectKey, t: State)
    requires s == WITH_PROJECT.(objects := s.objects) && k in s.objects && s.objects[k] == PLAIN
    requires k.kind == ConfigMap && k.ns == "a"
    requires t == s.(objects := s.objects[k := NAMED])
    ensures Next(rules, s, UpdateObject(k, PLAIN), t)
  {
    assert Gates(s.projects, "team", k);
    assert Defaulted(s.projects, k, PLAIN) == NAMED;
    assert Annotated(NAMED) && !Annotated(PLAIN) && FindObjects(NAMED) == {"team"};
    assert PutObject(s, k, NAMED) == t;
  }

  function NamedBy(n: string): Object {
    PLAIN.(annotations := map[ANNOTATION := n])
  }

  /** A user creates a config map where nothing is limited and annotates it. */
  lemma AnnotatedByHand(rules: Rules, run: Run, k: ObjectKey, n: string) returns (longer: Run)
    requires Execution(rules, run) && !rules.tidy && k.kind == ConfigMap && k !in Last(run).objects
    requires forall m :: m in Last(run).projects ==> Last(run).projects[m].hard == map[]
    ensures Execution(rules, longer)
    ensures var s := Last(run); Last(longer) == s.(objects := s.objects[k := NamedBy(n)], queue := s.queue + {n})
  {
    var s := Last(run);
    var plain := s.(objects := s.objects[k := PLAIN]);
    assert Defaulted(s.projects, k, PLAIN) == PLAIN;
    longer := TakeStep(rules, run, CreateObject(k, PLAIN), plain);
    var named := s.(objects := s.objects[k := NamedBy(n)], queue := s.queue + {n});
    assert plain.objects[k := NamedBy(n)] == named.objects;
    NameIsWritten(rules, plain, k, n, named);
    longer := TakeStep(rules, longer, UpdateObject(k, NamedBy(n)), named);
  }

  lemma NameIsWritten(rules: Rules, s: State, k: ObjectKey, n: string, t: State)
    requires !rules.tidy && k.kind == ConfigMap && k in s.objects && s.objects[k] == PLAIN
    requires forall m :: m in s.projects ==> s.projects[m].hard == map[]
    requires t == s.(objects := s.objects[k := NamedBy(n)], queue := s.queue + {n})
    ensures Next(rules, s, UpdateObject(k, NamedBy(n)), t)
  {
    assert Defaulted(s.projects, k, NamedBy(n)) == NamedBy(n);
    assert Annotated(NamedBy(n)) && !Annotated(PLAIN);
    assert FindObjects(NamedBy(n)) == {n} && NamesAt(s.objects, k) == {};
    assert PutObject(s, k, NamedBy(n)) == t;
  }

  lemma NothingIsRecorded(objects: Store, namespaces: seq<string>)
    ensures Recount(map[], objects, Cells(namespaces)) == map[]
  {
    var used := Recount(map[], objects, Cells(namespaces));
    forall r: ResourceName ensures r !in used {
      RecountKeys(map[], objects, namespaces, r);
    }
  }

  const ONE_CONFIGMAP: ResourceList := map[ConfigMaps := 1]

  /** The idle project without limits gets a limit of one config map, while every object
      there is annotated, and is settled. */
  lemma LimitIsSet(rules: Rules, run: Run) returns (longer: Run)
    requires Execution(rules, run) && Ready(Last(run), ["a"], map[], Last(run).objects)
    requires forall k :: k in Last(run).objects ==> Annotated(Last(run).objects[k])
    requires !rules.tidy
    ensures Execution(rules, longer) && Ready(Last(longer), ["a"], ONE_CONFIGMAP, Last(run).objects)
  {
    var s := Last(run);
    var p := s.projects["team"];
    NothingIsRecorded(s.objects, ["a"]);
    var edited := Edited(p, ["a"], ONE_CONFIGMAP, [FINALIZER]);
    assert AdmitsProjectUpdate(s.projects, edited);
    assert ConfigMaps in edited.hard && ConfigMaps !in p.hard;
    longer := TakeStep(rules, run, UpdateProject("team", ["a"], ONE_CONFIGMAP, [FINALIZER]), Commit(s, edited));
    longer := SettlingRun(rules, longer, "team");
  }

  /** Without tidy users: two config maps were annotated by hand while the project did not
      limit them, and then a limit of one was set. */
  lemma HandWrittenOvershoots() returns (run: Run)
    ensures Execution(Rules(false, true, true), run)
    ensures "team" in Last(run).projects
    ensures var p := Last(run).projects["team"];
            Usage(Last(run).objects, Elements(p.namespaces), ConfigMaps) == 2 > Amount(p.hard, ConfigMaps)
  {
    var rules := Rules(false, true, true);
    run := ReadyRun(rules, ["a"], map[]);
    run := AnnotatedByHand(rules, run, FIRST, "team");
    run := AnnotatedByHand(rules, run, SECOND, "team");
    run := SettlingRun(rules, run, "team");
    var none: Store := map[];
    assert none[FIRST := NAMED][SECOND := NAMED] == map[FIRST := NAMED, SECOND := NAMED];
    run := LimitIsSet(rules, run);
    TwoAreCharged();
  }

  /** Without tidy users: a config map annotated by hand with the name of nobody is charged
      to the project that limits config maps later, and its deletion goes unnoticed.  The
      project is live and idle and records one config map, and there is none. */
  lemma UnnoticedDeletionLeavesStale() returns (run: Run)
    ensures Execution(Rules(false, true, true), run)
    ensures var s := Last(run);
            && "team" in s.projects && !s.projects["team"].deleting && Idle(s, "team") && s.objects == map[]
            && Amount(s.projects["team"].used, ConfigMaps) == 1 && !UpToDate(s.projects["team"], s.objects)
  {
    var rules := Rules(false, true, true);
    run := ChargedToNobody(rules);
    var s := Last(run);
    var t := DropObject(s, FIRST);
    var once := ["a"];
    OneIsCharged(FIRST, NamedBy("nobody"));
    assert once[..0] == [] && UsageBySequence(s.objects, once, ConfigMaps) == 1;
    RecountIsUsage(ONE_CONFIGMAP, s.objects, once, ConfigMaps);
    RecountIsUsage(ONE_CONFIGMAP, t.objects, once, ConfigMaps);
    NothingIsCharged(once, ConfigMaps);
    run := TakeStep(rules, run, DeleteObject(FIRST), t);
  }

  lemma ChargedToNobody(rules: Rules) returns (run: Run)
    requires rules == Rules(false, true, true)
    ensures Execution(rules, run) && Ready(Last(run), ["a"], ONE_CONFIGMAP, map[FIRST := NamedBy("nobody")])
  {
    run := ReadyRun(rules, ["a"], map[]);
    run := AnnotatedByHand(rules, run, FIRST, "nobody");
    var s := Last(run);
    var none: Store := map[];
    assert none[FIRST := NamedBy("nobody")] == map[FIRST := NamedBy("nobody")];
    run := TakeStep(rules, run, Begin("nobody", []), s.(queue := {}));
    NothingIsRecorded(none, ["a"]);
    NothingIsRecorded(s.objects, ["a"]);
    run := LimitIsSet(rules, run);
  }
}
