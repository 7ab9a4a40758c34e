/** The cluster as a state machine.  Users, the kubelet and the garbage collector
    write objects and projects through the webhooks; one controller worker takes
    project names from a queue and reconciles them, one API call at a time, so
    that every other step may fall between any two of its calls.
 */
module Machine {
  import opened ResourceModel
  import opened Tally
  import opened Accounting
  import opened Admission

  /** Where the worker stands in one reconciliation.  Stripping walks the cells of
      the namespaces to clean; pending holds the annotated objects of the last
      list that are still to be updated, as they were listed.  Counting walks the
      cells of spec.namespaces and holds the totals so far. */
  datatype Phase =
    | Stripping(next: nat, pending: Store)
    | Counting(next: nat, used: ResourceList)

  /** snapshot is the project as it was fetched. */
  datatype Job = Job(snapshot: Prq, targets: seq<string>, phase: Phase)

  datatype State = State(
    projects: ProjectStore,
    objects: Store,
    queue: set<string>,
    job: Option<Job>,
    revision: nat)

  datatype Step =
    // users, controllers of other kinds, the kubelet
    | CreateObject(k: ObjectKey, o: Object)
    | UpdateObject(k: ObjectKey, o: Object)
    | DeleteObject(k: ObjectKey)
    | SetPhase(k: ObjectKey, phase: PodPhase)
    | CreateProject(p: Prq)
    | UpdateProject(name: string, namespaces: seq<string>, hard: ResourceList, finalizers: seq<string>)
    | DeleteProject(name: string)
    // an event without any change to the modelled fields; a controller crash
    | Resync(name: string)
    | Restart
    // the controller worker
    | Begin(name: string, targets: seq<string>)
    | ListCell
    | StripObject(k: ObjectKey)
    | BeginCount
    | CountNext
    | WriteStatus
    | ReleaseProject
    | Fail

  // ---- Writes and the events they raise ----

  /** An event of an object queues the project that the object names. */
  function FindObjects(o: Object): (names: set<string>)
    ensures forall n :: n in names <==> Project(o) == Some(n)
  {
    if Annotated(o) then {o.annotations[ANNOTATION]} else {}
  }

  function NamesAt(objects: Store, k: ObjectKey): set<string> {
    if k in objects then FindObjects(objects[k]) else {}
  }

  /** A write that changes nothing raises no event; any other is delivered with
      the old and the new object. */
  function PutObject(s: State, k: ObjectKey, o: Object): State {
    if k in s.objects && s.objects[k] == o then s
    else s.(objects := s.objects[k := o], queue := s.queue + NamesAt(s.objects, k) + FindObjects(o))
  }

  function DropObject(s: State, k: ObjectKey): State {
    s.(objects := s.objects - {k}, queue := s.queue + NamesAt(s.objects, k))
  }

  /** Write a project: nothing if nothing changed, removal once it is being
      deleted and holds no finalizer, otherwise a new version. */
  function Commit(s: State, p: Prq): State {
    if p.name in s.projects && s.projects[p.name] == p then s
    else if p.deleting && p.finalizers == [] then
      s.(projects := s.projects - {p.name}, queue := s.queue + {p.name}, revision := s.revision + 1)
    else
      s.(projects := s.projects[p.name := p.(version := s.revision + 1)], queue := s.queue + {p.name}, revision := s.revision + 1)
  }

  function WithFinalizer(finalizers: seq<string>): seq<string> {
    if FINALIZER in finalizers then finalizers else finalizers + [FINALIZER]
  }

  function Without(finalizers: seq<string>, name: string): seq<string> {
    if finalizers == [] then []
    else if finalizers[0] == name then Without(finalizers[1..], name)
    else [finalizers[0]] + Without(finalizers[1..], name)
  }

  /** The object without the project annotation, as the controller submits it. */
  function Stripped(o: Object): Object {
    o.(annotations := o.annotations - {ANNOTATION})
  }

  /** What becomes of an object that the controller submits without the annotation. */
  ghost function HandedOver(projects: ProjectStore, k: ObjectKey, o: Object): Object {
    Defaulted(projects, k, Stripped(o))
  }

  /** A project as it is stored on creation: status is dropped, the finalizer added. */
  function Created(p: Prq): Prq {
    p.(used := map[], recorded := [], deleting := false, finalizers := WithFinalizer(p.finalizers))
  }

  /** A project after an edit of its main resource: the status stays, and a live
      project gets the finalizer back. */
  function Edited(p: Prq, namespaces: seq<string>, hard: ResourceList, finalizers: seq<string>): Prq {
    p.(namespaces := namespaces, hard := hard, finalizers := if p.deleting then finalizers else WithFinalizer(finalizers))
  }

  /** A project without the controller's finalizer. */
  function LetGo(p: Prq): Prq {
    p.(finalizers := Without(p.finalizers, FINALIZER))
  }

  /** Fields that an update of the main resource cannot change. */
  predicate SameFixedFields(before: Object, after: Object) {
    before.phase == after.phase && before.requests == after.requests && before.limits == after.limits
  }

  /** The namespaces a pass has to clean: all of them when the project is being
      deleted, otherwise those recorded at the last pass and listed no more. */
  function ToClean(p: Prq): set<string> {
    if p.deleting then Elements(p.namespaces) else Elements(p.recorded) - Elements(p.namespaces)
  }

  function PendingIn(objects: Store, cell: Cell): Store {
    map k | k in objects && k.ns == cell.ns && k.kind == cell.kind && Annotated(objects[k]) :: objects[k]
  }

  predicate Unchanged(s: State, p: Prq) {
    p.name in s.projects && s.projects[p.name].version == p.version
  }

  // ---- Steps ----

  ghost predicate Effect(s: State, step: Step, t: State) {
    match step
    case CreateObject(k, o) =>
      && k !in s.objects
      && AdmitsCreate(s.projects, k.kind, Defaulted(s.projects, k, o))
      && t == PutObject(s, k, Defaulted(s.projects, k, o))
    case UpdateObject(k, o) =>
      && k in s.objects && SameFixedFields(s.objects[k], o)
      && AdmitsUpdate(s.projects, k.kind, s.objects[k], Defaulted(s.projects, k, o))
      && t == PutObject(s, k, Defaulted(s.projects, k, o))
    case DeleteObject(k) =>
      k in s.objects && t == DropObject(s, k)
    case SetPhase(k, phase) =>
      && k in s.objects && k.kind == Pod
      && (Terminated(s.objects[k]) ==> Terminated(s.objects[k].(phase := phase)))
      && t == PutObject(s, k, s.objects[k].(phase := phase))
    case CreateProject(p) =>
      && p.name !in s.projects
      && AdmitsProject(s.projects, Created(p))
      && t == Commit(s, Created(p))
    case UpdateProject(name, namespaces, hard, finalizers) =>
      && name in s.projects
      && var edited := Edited(s.projects[name], namespaces, hard, finalizers);
      && AdmitsProjectUpdate(s.projects, edited)
      && t == Commit(s, edited)
    case DeleteProject(name) =>
      && name in s.projects
      && t == Commit(s, s.projects[name].(deleting := true))
    case Resync(name) =>
      t == s.(queue := s.queue + {name})
    case Restart =>
      t == s.(job := None, queue := s.projects.Keys + set k, n | k in s.objects && n in FindObjects(s.objects[k]) :: n)
    case Begin(name, targets) =>
      && s.job.None? && name in s.queue
      && if name !in s.projects then t == s.(queue := s.queue - {name})
         else
           && Elements(targets) == ToClean(s.projects[name])
           && t == s.(queue := s.queue - {name}, job := Some(Job(s.projects[name], targets, Stripping(0, map[]))))
    case ListCell =>
      && s.job.Some? && s.job.value.phase.Stripping?
      && var j := s.job.value;
      && j.phase.pending == map[] && j.phase.next < |Cells(j.targets)|
      && t == s.(job := Some(j.(phase := Stripping(j.phase.next + 1, PendingIn(s.objects, Cells(j.targets)[j.phase.next])))))
    case StripObject(k) =>
      && s.job.Some? && s.job.value.phase.Stripping?
      && var j := s.job.value;
      && k in j.phase.pending && k in s.objects && s.objects[k] == j.phase.pending[k]
      && var o := HandedOver(s.projects, k, s.objects[k]);
      && AdmitsUpdate(s.projects, k.kind, s.objects[k], o)
      && t == PutObject(s, k, o).(job := Some(j.(phase := Stripping(j.phase.next, j.phase.pending - {k}))))
    case BeginCount =>
      && StripDone(s)
      && !s.job.value.snapshot.deleting
      && t == s.(job := Some(s.job.value.(phase := Counting(0, map[]))))
    case CountNext =>
      && s.job.Some? && s.job.value.phase.Counting?
      && var j := s.job.value;
      && j.phase.next < |Cells(j.snapshot.namespaces)|
      && var cell := Cells(j.snapshot.namespaces)[j.phase.next];
      && t == s.(job := Some(j.(phase :=
           Counting(j.phase.next + 1, CountCell(j.phase.used, j.snapshot.hard, s.objects, cell)))))
    case WriteStatus =>
      && s.job.Some? && s.job.value.phase.Counting?
      && var j := s.job.value;
      && j.phase.next == |Cells(j.snapshot.namespaces)|
      && Unchanged(s, j.snapshot)
      && t == Commit(s, s.projects[j.snapshot.name].(used := j.phase.used, recorded := j.snapshot.namespaces)).(job := None)
    case ReleaseProject =>
      && StripDone(s)
      && s.job.value.snapshot.deleting
      && Unchanged(s, s.job.value.snapshot)
      && var p := s.projects[s.job.value.snapshot.name];
      && var q := LetGo(p);
      && AdmitsProjectUpdate(s.projects, q)
      && t == Commit(s, q).(job := None)
    case Fail =>
      && s.job.Some?
      && t == s.(job := None, queue := s.queue + {s.job.value.snapshot.name})
  }

  /** Every cell of the namespaces to clean has been listed and updated. */
  predicate StripDone(s: State) {
    && s.job.Some? && s.job.value.phase.Stripping?
    && s.job.value.phase.pending == map[]
    && s.job.value.phase.next == |Cells(s.job.value.targets)|
  }

  // ---- What the environment is held to ----

  ghost predicate GateExists(projects: ProjectStore, k: ObjectKey) {
    exists n :: Gates(projects, n, k)
  }

  /** Users leave the annotation to the webhooks, claim a namespace only when no
      annotated object of another project is in it, drop a namespace only after it
      was recorded, delete a project only when nothing is left to clean, and do
      not edit the namespaces or remove the finalizer of a project being deleted. */
  ghost predicate Tidy(s: State, step: Step) {
    match step
    case CreateObject(k, o) =>
      Annotated(o) ==> GateExists(s.projects, k)
    case UpdateObject(k, o) =>
      Annotated(o) ==> GateExists(s.projects, k) || (k in s.objects && Project(o) == Project(s.objects[k]))
    case CreateProject(p) =>
      forall k :: k in s.objects && k.ns in p.namespaces ==> !Annotated(s.objects[k])
    case UpdateProject(name, namespaces, hard, finalizers) =>
      name in s.projects ==>
        var p := s.projects[name];
        && (forall k :: k in s.objects && k.ns in namespaces && k.ns !in p.namespaces && Annotated(s.objects[k]) ==>
              Project(s.objects[k]) == Some(name))
        && (if p.deleting then namespaces == p.namespaces && (FINALIZER in p.finalizers ==> FINALIZER in finalizers)
            else forall ns :: ns in p.namespaces && ns !in namespaces ==> ns in p.recorded)
    case DeleteProject(name) =>
      name in s.projects && !s.projects[name].deleting ==>
        forall ns :: ns in s.projects[name].recorded ==> ns in s.projects[name].namespaces
    case _ => true
  }

  /** A namespace is claimed only while it holds no object at all and is listed
      once; a gate key is added only when no object of that kind would be left
      without the annotation. */
  ghost predicate Covering(s: State, step: Step) {
    match step
    case CreateProject(p) =>
      NoRepeats(p.namespaces) && forall k :: k in s.objects ==> k.ns !in p.namespaces
    case UpdateProject(name, namespaces, hard, finalizers) =>
      name in s.projects ==>
        var p := s.projects[name];
        && NoRepeats(namespaces)
        && (forall k :: k in s.objects && k.ns in namespaces ==> k.ns in p.namespaces)
        && (forall k :: k in s.objects && k.ns in namespaces && GateKey(k.kind) in hard && GateKey(k.kind) !in p.hard ==>
              Annotated(s.objects[k]))
    case _ => true
  }

  ghost predicate Idle(s: State, n: string) {
    n !in s.queue && (s.job.Some? ==> s.job.value.snapshot.name != n)
  }

  /** Admissions and changes of spec.hard happen only while the controller has no
      work left for the project: on creation of an object, and on a service update
      that changes the type. */
  ghost predicate Serial(s: State, step: Step) {
    match step
    case CreateObject(k, o) =>
      var d := Defaulted(s.projects, k, o);
      Annotated(d) ==> Idle(s, d.annotations[ANNOTATION])
    case UpdateObject(k, o) =>
      var d := Defaulted(s.projects, k, o);
      k in s.objects && k.kind == Service && s.objects[k].serviceType != d.serviceType && Annotated(d) ==>
        Idle(s, d.annotations[ANNOTATION])
    case UpdateProject(name, namespaces, hard, finalizers) =>
      name in s.projects && s.projects[name].hard != hard ==> Idle(s, name)
    case _ => true
  }

  /** Which of these a run keeps to. */
  datatype Rules = Rules(tidy: bool, covering: bool, serial: bool)

  ghost predicate Permits(rules: Rules, s: State, step: Step) {
    && (rules.tidy ==> Tidy(s, step))
    && (rules.covering ==> Covering(s, step))
    && (rules.serial ==> Serial(s, step))
  }

  ghost predicate Next(rules: Rules, s: State, step: Step, t: State) {
    Effect(s, step, t) && Permits(rules, s, step)
  }

  // ---- Runs ----

  /** The cluster before the first project: arbitrary objects, none annotated. */
  ghost predicate Initial(s: State) {
    && s.projects == map[] && s.job == None
    && forall k :: k in s.objects ==> !Annotated(s.objects[k])
  }

  datatype Run = Run(states: seq<State>, steps: seq<Step>)

  ghost predicate Path(rules: Rules, run: Run) {
    && |run.states| == |run.steps| + 1
    && forall i :: 0 <= i < |run.steps| ==> Next(rules, run.states[i], run.steps[i], run.states[i + 1])
  }

  ghost predicate Execution(rules: Rules, run: Run) {
    Path(rules, run) && Initial(run.states[0])
  }

  function Last(run: Run): State
    requires run.states != []
  {
    run.states[|run.states| - 1]
  }

  function Extend(run: Run, step: Step, t: State): Run {
    Run(run.states + [t], run.steps + [step])
  }

  function Before(run: Run): Run
    requires run.steps != [] && |run.states| == |run.steps| + 1
  {
    Run(run.states[..|run.steps|], run.steps[..|run.steps| - 1])
  }

  lemma ExtendIsPath(rules: Rules, run: Run, step: Step, t: State)
    requires Path(rules, run) && Next(rules, Last(run), step, t)
    ensures Path(rules, Extend(run, step, t)) && Last(Extend(run, step, t)) == t
    ensures Initial(run.states[0]) ==> Execution(rules, Extend(run, step, t))
  {
    var longer := Extend(run, step, t);
    forall i | 0 <= i < |longer.steps| ensures Next(rules, longer.states[i], longer.steps[i], longer.states[i + 1]) {
      if i < |run.steps| {
        assert longer.states[i] == run.states[i] && longer.states[i + 1] == run.states[i + 1];
      }
    }
  }
}
