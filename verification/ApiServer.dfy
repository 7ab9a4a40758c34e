/** The API server as the controller sees it: every call may be preceded by any
    steps of others, may fail, and is recorded as a step of the state machine. */
module ApiServer {
  import opened ResourceModel
  import opened Tally
  import opened Accounting
  import opened Admission
  import opened Machine
  import opened Projects
  import opened Metadata
  import opened Webhooks
  import opened Cleanup

  datatype Item = Item(key: ObjectKey, value: Object)

  /** The answer to a list call: every object of the cell once, in any order. */
  ghost predicate Lists(items: seq<Item>, objects: Store, cell: Cell) {
    && (forall i :: 0 <= i < |items| ==>
          items[i].key in objects && objects[items[i].key] == items[i].value && Cell(items[i].key.ns, items[i].key.kind) == cell)
    && (forall i, j :: 0 <= i < j < |items| ==> items[i].key != items[j].key)
    && (forall k :: k in objects && Cell(k.ns, k.kind) == cell ==> Item(k, objects[k]) in items)
  }

  ghost predicate Continues(a: Run, b: Run) {
    a.states <= b.states && a.steps <= b.steps
  }

  /** The step that led to the present state. */
  function LastStep(run: Run): Option<Step> {
    if run.steps == [] then None else Some(run.steps[|run.steps| - 1])
  }

  /** The worker's decoded copy of a project. */
  class PrqCopy {
    const fetched: Prq
    const meta: ObjectMeta
    var used: ResourceList
    var recorded: seq<string>

    constructor (p: Prq)
      ensures fetched == p && used == p.used && recorded == p.recorded
      ensures fresh(meta) && meta.finalizers == p.finalizers
    {
      fetched := p;
      used := p.used;
      recorded := p.recorded;
      meta := new ObjectMeta(map[], p.finalizers);
    }
  }

  class Server {
    var projects: ProjectStore
    var objects: Store
    var revision: nat
    ghost var queue: set<string>
    ghost var job: Option<Job>
    ghost var run: Run
    /** The discipline of the other clients, and whether there are any. */
    ghost const rules: Rules
    ghost const quiet: bool
    /** No call fails by itself: a read is answered, and a write fails only on a conflict
        or when a webhook refuses it. */
    const reliable: bool

    ghost function Now(): State
      reads this
    {
      State(projects, objects, queue, job, revision)
    }

    /** What the server holds is the last state of an execution. */
    ghost predicate Valid()
      reads this
    {
      Execution(rules, run) && Last(run) == Now()
    }

    constructor (objects: Store, ghost rules: Rules, ghost quiet: bool, reliable: bool)
      requires forall k :: k in objects ==> !Annotated(objects[k])
      ensures Valid() && this.objects == objects && projects == map[] && job == None
      ensures this.rules == rules && this.quiet == quiet && this.reliable == reliable
    {
      this.projects, this.objects, this.revision := map[], objects, 0;
      this.queue, this.job := {}, None;
      this.run := Run([State(map[], objects, {}, None, 0)], []);
      this.rules, this.quiet, this.reliable := rules, quiet, reliable;
    }

    /** What the projects of every execution satisfy. */
    lemma ProjectsAreDisjoint()
      requires Valid()
      ensures Disjoint(projects) && forall n :: n in projects ==> projects[n].name == n && projects[n].finalizers != []
    {
      WellformedRun(rules, run);
    }

    /** A fetched project whose version is still stored is still stored. */
    lemma FetchedIsStored(p: Prq)
      requires Valid() && job.Some? && job.value.snapshot == p
      requires p.name in projects && projects[p.name].version == p.version
      ensures projects[p.name] == p
      ensures p.finalizers != []
    {
      WellformedRun(rules, run);
    }

    /** Others run: any number of steps, unless the server is quiet.  The body is
        empty on purpose; callers know only what is promised here: others take no job
        and nothing from the queue. */
    method Interfere()
      requires Valid()
      modifies this
      ensures Valid() && Continues(old(run), run) && job == old(job) && old(queue) <= queue
      ensures quiet ==> Now() == old(Now())
    {
    }

    /** Record a step that the worker has just taken. */
    ghost method Record(step: Step, before: State)
      requires Execution(rules, run) && Last(run) == before && Next(rules, before, step, Now())
      modifies this`run
      ensures Valid() && Continues(old(run), run) && LastStep(run) == Some(step)
    {
      ExtendIsPath(rules, run, step, Now());
      run := Extend(run, step, Now());
    }

    /** A step of the worker that writes nothing. */
    ghost method Advance(step: Step, j: Option<Job>, q: set<string>)
      requires Valid() && Next(rules, Now(), step, Now().(job := j, queue := q))
      modifies this`job, this`queue, this`run
      ensures Valid() && Continues(old(run), run) && LastStep(run) == Some(step)
      ensures Now() == old(Now()).(job := j, queue := q)
    {
      var before := Now();
      job, queue := j, q;
      Record(step, before);
    }

    /** The queue takes the name of a failed job back. */
    ghost method Requeue()
      requires Valid()
      modifies this`job, this`queue, this`run
      ensures Valid() && Continues(old(run), run) && job == None
      ensures projects == old(projects) && objects == old(objects)
      ensures queue == old(queue) + if old(job).Some? then {old(job).value.snapshot.name} else {}
      ensures old(job).None? ==> run == old(run)
    {
      if job.Some? {
        Advance(Fail, None, queue + {job.value.snapshot.name});
      }
    }

    method Get(name: string) returns (ok: bool, found: Option<Prq>)
      requires Valid()
      modifies this
      ensures Valid() && Continues(old(run), run) && job == old(job) && old(queue) <= queue
      ensures quiet ==> Now() == old(Now())
      ensures ok ==> found == if name in projects then Some(projects[name]) else None
      ensures reliable ==> ok
    {
      Interfere();
      ok := *;
      ok := ok || reliable;
      found := if name in projects then Some(projects[name]) else None;
    }

    method List(cell: Cell) returns (ok: bool, items: seq<Item>)
      requires Valid()
      modifies this
      ensures Valid() && Continues(old(run), run) && job == old(job)
      ensures quiet ==> Now() == old(Now())
      ensures ok ==> Lists(items, objects, cell)
      ensures reliable ==> ok
    {
      Interfere();
      ok := *;
      ok := ok || reliable;
      items := [];
      var rest := set k | k in objects && Cell(k.ns, k.kind) == cell;
      while rest != {}
        invariant forall k :: k in rest ==> k in objects && Cell(k.ns, k.kind) == cell
        invariant forall i :: 0 <= i < |items| ==> items[i].key !in rest
        invariant forall i :: 0 <= i < |items| ==>
          items[i].key in objects && objects[items[i].key] == items[i].value && Cell(items[i].key.ns, items[i].key.kind) == cell
        invariant forall i, j :: 0 <= i < j < |items| ==> items[i].key != items[j].key
        invariant forall k :: k in objects && Cell(k.ns, k.kind) == cell ==> k in rest || Item(k, objects[k]) in items
      {
        var k :| k in rest;
        items := items + [Item(k, objects[k])];
        rest := rest - {k};
      }
    }

    method ListProjects() returns (items: seq<Prq>)
      requires Valid()
      ensures Listing(items, projects)
    {
      ProjectsAreDisjoint();
      items := [];
      var rest := projects.Keys;
      while rest != {}
        invariant rest <= projects.Keys
        invariant forall i :: 0 <= i < |items| ==> items[i].name in projects && projects[items[i].name] == items[i]
        invariant forall n :: n in projects ==> n in rest || projects[n] in items
      {
        var n :| n in rest;
        items := items + [projects[n]];
        rest := rest - {n};
      }
    }

    /** The update of one pending object, through the webhooks of its kind. */
    method UpdateObject(k: ObjectKey, listed: Object, meta: ObjectMeta) returns (ok: bool)
      requires Valid()
      requires job.Some? && job.value.phase.Stripping? && k in job.value.phase.pending && job.value.phase.pending[k] == listed
      requires meta.annotations == Stripped(listed).annotations
      modifies this, meta
      ensures Valid() && Continues(old(run), run)
      ensures ok ==> LastStep(run) == Some(StripObject(k))
      ensures ok ==> job == Some(old(job).value.(phase :=
                       Stripping(old(job).value.phase.next, old(job).value.phase.pending - {k})))
      ensures !ok ==> job == old(job)
      ensures quiet ==> projects == old(projects)
      ensures quiet ==> objects == if ok then StripKeys(old(projects), old(objects), {k}) else old(objects)
      ensures quiet && reliable ==>
                (ok <==> k in old(objects) && old(objects)[k] == listed && CanStrip(old(projects), k, listed))
    {
      Interfere();
      ok := *;
      ok := ok || reliable;
      if !ok || k !in objects || objects[k] != listed {
        return false;
      }
      var items := ListProjects();
      Default(items, k, meta);
      var o := listed.(annotations := meta.annotations);
      ProjectsAreDisjoint();
      DefaultIsFirstMatch(items, projects, k, Stripped(listed));
      assert o == HandedOver(projects, k, objects[k]);
      var verdict := ValidateUpdate(projects, k.kind, listed, o);
      if !verdict.Allowed? {
        return false;
      }
      Write(k, o);
    }

    /** What the API server does with an admitted update. */
    method Write(k: ObjectKey, o: Object)
      requires Valid()
      requires job.Some? && job.value.phase.Stripping? && k in job.value.phase.pending
      requires k in objects && objects[k] == job.value.phase.pending[k]
      requires o == HandedOver(projects, k, objects[k]) && AdmitsUpdate(projects, k.kind, objects[k], o)
      modifies this`objects, this`queue, this`job, this`run
      ensures Valid() && Continues(old(run), run) && LastStep(run) == Some(StripObject(k))
      ensures job == Some(old(job).value.(phase := Stripping(old(job).value.phase.next, old(job).value.phase.pending - {k})))
      ensures objects == StripKeys(projects, old(objects), {k})
    {
      ghost var before := Now();
      ghost var after := PutObject(before, k, o);
      objects := objects[k := o];
      queue := after.queue;
      job := Some(job.value.(phase := Stripping(job.value.phase.next, job.value.phase.pending - {k})));
      assert Now() == after.(job := job);
      Record(StripObject(k), before);
    }

    /** The write of the status subresource. */
    method UpdateStatus(prq: PrqCopy) returns (ok: bool)
      requires Valid()
      requires job.Some? && job.value.snapshot == prq.fetched
      requires job.value.phase == Counting(|Cells(prq.fetched.namespaces)|, prq.used) && prq.recorded == prq.fetched.namespaces
      modifies this
      ensures Valid() && Continues(old(run), run)
      ensures if ok then job == None && LastStep(run) == Some(WriteStatus) else job == old(job)
      ensures quiet ==> objects == old(objects)
      ensures quiet && !ok ==> projects == old(projects)
      ensures quiet && reliable ==>
                (ok <==> prq.fetched.name in old(projects) && old(projects)[prq.fetched.name].version == prq.fetched.version)
      ensures quiet && ok ==> old(prq.fetched.name in projects) && StatusWritten(old(projects), projects, prq.fetched.name, prq.used, prq.recorded)
    {
      Interfere();
      ok := *;
      ok := ok || reliable;
      var name := prq.fetched.name;
      if !ok || name !in projects || projects[name].version != prq.fetched.version {
        return false;
      }
      var p := projects[name].(used := prq.used, recorded := prq.recorded);
      ghost var before := Now();
      FetchedIsStored(prq.fetched);
      CommitWrite(p);
      job := None;
      assert Now() == Commit(before, p).(job := None);
      Record(WriteStatus, before);
    }

    /** The main-resource update of a project being deleted, through its webhooks. */
    method UpdateProject(prq: PrqCopy) returns (ok: bool)
      requires Valid()
      requires StripDone(Now()) && job.value.snapshot == prq.fetched && prq.fetched.deleting
      requires prq.meta.finalizers == Without(prq.fetched.finalizers, FINALIZER)
      modifies this, prq.meta
      ensures Valid() && Continues(old(run), run)
      ensures if ok then job == None && LastStep(run) == Some(ReleaseProject) else job == old(job)
      ensures quiet ==> objects == old(objects)
      ensures quiet && !ok ==> projects == old(projects)
      ensures quiet && reliable ==>
                (ok <==> && prq.fetched.name in old(projects) && old(projects)[prq.fetched.name].version == prq.fetched.version
                         && AdmitsProjectUpdate(old(projects), LetGo(prq.fetched)))
      ensures quiet && ok ==> prq.fetched.name in old(projects) && FinalizerRemoved(old(projects), projects, prq.fetched)
    {
      Interfere();
      ok := *;
      ok := ok || reliable;
      var name := prq.fetched.name;
      if !ok || name !in projects || projects[name].version != prq.fetched.version {
        return false;
      }
      FetchedIsStored(prq.fetched);
      ProjectsAreDisjoint();
      DefaultProject(projects[name].deleting, prq.meta);
      var p := projects[name].(finalizers := prq.meta.finalizers);
      var items := ListProjects();
      var verdict := ValidateProjectUpdate(items, projects, p);
      if !verdict.Allowed? {
        return false;
      }
      WriteRelease(p);
    }

    /** What the API server does with an admitted removal of the finalizer. */
    method WriteRelease(p: Prq)
      requires Valid() && StripDone(Now()) && job.value.snapshot.deleting && Unchanged(Now(), job.value.snapshot)
      requires projects[job.value.snapshot.name] == job.value.snapshot && p == LetGo(job.value.snapshot)
      requires AdmitsProjectUpdate(projects, p) && job.value.snapshot.finalizers != []
      modifies this`projects, this`revision, this`queue, this`job, this`run
      ensures Valid() && Continues(old(run), run) && LastStep(run) == Some(ReleaseProject)
      ensures job == None && FinalizerRemoved(old(projects), projects, old(job).value.snapshot)
    {
      ghost var before := Now();
      CommitWrite(p);
      job := None;
      assert Now() == Commit(before, p).(job := None);
      Record(ReleaseProject, before);
    }

    // ---- Requests of users ----

    /** The mutating webhook of the object's kind. */
    method Annotate(k: ObjectKey, o: Object) returns (d: Object)
      requires Valid()
      ensures d == Defaulted(projects, k, o)
    {
      var items := ListProjects();
      var meta := new ObjectMeta(o.annotations, []);
      Default(items, k, meta);
      d := o.(annotations := meta.annotations);
      ProjectsAreDisjoint();
      DefaultIsFirstMatch(items, projects, k, o);
    }

    /** A creation goes through the annotator and the validator, and is stored exactly
        if it is admitted. */
    method Create(k: ObjectKey, o: Object) returns (verdict: Verdict)
      requires Valid() && Permits(rules, Now(), CreateObject(k, o))
      modifies this`objects, this`queue, this`run
      ensures Valid() && Continues(old(run), run)
      ensures verdict.Allowed? <==>
                k !in old(objects) && AdmitsCreate(projects, k.kind, Defaulted(projects, k, o))
      ensures objects == if verdict.Allowed? then old(objects)[k := Defaulted(projects, k, o)] else old(objects)
      ensures queue == old(queue) + if verdict.Allowed? then FindObjects(Defaulted(projects, k, o)) else {}
      ensures if verdict.Allowed? then LastStep(run) == Some(CreateObject(k, o)) else run == old(run)
    {
      if k in objects {
        return AlreadyExists;
      }
      var d := Annotate(k, o);
      verdict := ValidateCreate(projects, k.kind, d);
      if !verdict.Allowed? {
        return;
      }
      ghost var before := Now();
      objects := objects[k := d];
      queue := PutObject(before, k, d).queue;
      assert Now() == PutObject(before, k, d);
      Record(CreateObject(k, o), before);
    }

    /** An update of the main resource of a stored object. */
    method Update(k: ObjectKey, o: Object) returns (verdict: Verdict)
      requires Valid() && Permits(rules, Now(), Step.UpdateObject(k, o))
      requires k in objects && SameFixedFields(objects[k], o)
      modifies this`objects, this`queue, this`run
      ensures Valid() && Continues(old(run), run)
      ensures verdict.Allowed? <==> AdmitsUpdate(projects, k.kind, old(objects)[k], Defaulted(projects, k, o))
      ensures objects == if verdict.Allowed? then old(objects)[k := Defaulted(projects, k, o)] else old(objects)
      ensures queue == old(queue) + if objects == old(objects) then {} else FindObjects(old(objects)[k]) + FindObjects(objects[k])
      ensures if verdict.Allowed? then LastStep(run) == Some(Step.UpdateObject(k, o)) else run == old(run)
    {
      var d := Annotate(k, o);
      verdict := ValidateUpdate(projects, k.kind, objects[k], d);
      if !verdict.Allowed? {
        return;
      }
      ghost var before := Now();
      objects := objects[k := d];
      queue := PutObject(before, k, d).queue;
      assert Now() == PutObject(before, k, d);
      Record(Step.UpdateObject(k, o), before);
    }

    /** The creation of a project: status is dropped, the finalizer is added. */
    method CreatePrq(p: Prq) returns (verdict: Verdict)
      requires Valid() && Permits(rules, Now(), CreateProject(p))
      modifies this`projects, this`revision, this`queue, this`run
      ensures Valid() && Continues(old(run), run)
      ensures verdict.Allowed? <==> p.name !in old(projects) && AdmitsProject(old(projects), p)
      ensures !verdict.Allowed? ==> Now() == old(Now()) && run == old(run)
      ensures verdict.Allowed? ==>
                && LastStep(run) == Some(CreateProject(p)) && queue == old(queue) + {p.name}
                && projects.Keys == old(projects).Keys + {p.name}
                && (forall n :: n in old(projects) ==> projects[n] == old(projects)[n])
                && var q := projects[p.name];
                   && q.name == p.name && q.namespaces == p.namespaces && q.hard == p.hard
                   && !q.deleting && q.used == map[] && q.recorded == []
                   && q.finalizers == if FINALIZER in p.finalizers then p.finalizers else p.finalizers + [FINALIZER]
    {
      if p.name in projects {
        return AlreadyExists;
      }
      var meta := new ObjectMeta(map[], p.finalizers);
      DefaultProject(false, meta);
      var q := p.(used := map[], recorded := [], deleting := false, finalizers := meta.finalizers);
      ProjectsAreDisjoint();
      var items := ListProjects();
      verdict := ValidateProjectCreate(items, projects, q);
      if !verdict.Allowed? {
        return;
      }
      ghost var before := Now();
      CommitWrite(q);
      Record(CreateProject(p), before);
    }

    /** The edit of a project's spec: status stays as it is stored, the finalizer of a
        live project comes back. */
    method UpdatePrq(name: string, namespaces: seq<string>, hard: ResourceList, finalizers: seq<string>) returns (verdict: Verdict)
      requires Valid() && Permits(rules, Now(), Step.UpdateProject(name, namespaces, hard, finalizers))
      modifies this`projects, this`revision, this`queue, this`run
      ensures Valid() && Continues(old(run), run)
      ensures verdict.Allowed? <==>
                name in old(projects)
                && AdmitsProjectUpdate(old(projects), old(projects)[name].(namespaces := namespaces, hard := hard))
      ensures !verdict.Allowed? ==> Now() == old(Now()) && run == old(run)
      ensures verdict.Allowed? ==>
                && LastStep(run) == Some(Step.UpdateProject(name, namespaces, hard, finalizers))
                && queue == old(queue) + (if projects == old(projects) then {} else {name})
                && (forall n :: n != name ==> (n in projects <==> n in old(projects)) && (n in projects ==> projects[n] == old(projects)[n]))
                && var p := old(projects)[name];
                   if p.deleting && finalizers == [] then name !in projects
                   else
                     && name in projects && projects[name].name == p.name
                     && projects[name].namespaces == namespaces && projects[name].hard == hard
                     && projects[name].used == p.used && projects[name].recorded == p.recorded && projects[name].deleting == p.deleting
                     && projects[name].finalizers == if p.deleting || FINALIZER in finalizers then finalizers else finalizers + [FINALIZER]
    {
      if name !in projects {
        return NotFound(name);
      }
      var stored := projects[name];
      var meta := new ObjectMeta(map[], finalizers);
      DefaultProject(stored.deleting, meta);
      var q := stored.(namespaces := namespaces, hard := hard, finalizers := meta.finalizers);
      ProjectsAreDisjoint();
      var items := ListProjects();
      verdict := ValidateProjectUpdate(items, projects, q);
      if !verdict.Allowed? {
        return;
      }
      ghost var before := Now();
      CommitWrite(q);
      CommitStores(before, q);
      Record(Step.UpdateProject(name, namespaces, hard, finalizers), before);
    }

    /** Store a project: nothing if nothing changed, removal of a deleted project
        without finalizers, otherwise a new version. */
    method CommitWrite(p: Prq)
      modifies this`projects, this`revision, this`queue
      ensures Now() == Commit(old(Now()), p)
    {
      ghost var after := Commit(Now(), p);
      if p.name in projects && projects[p.name] == p {
        return;
      }
      revision := revision + 1;
      if p.deleting && p.finalizers == [] {
        projects := projects - {p.name};
      } else {
        projects := projects[p.name := p.(version := revision)];
      }
      queue := after.queue;
    }
  }

  /** What the write of a stored project leaves: the new project or none, an event if
      anything changed, and every other project as it was. */
  lemma CommitStores(s: State, p: Prq)
    requires p.name in s.projects && s.projects[p.name].version == p.version && s.projects[p.name].finalizers != []
    ensures var t := Commit(s, p);
            && t.queue == s.queue + (if t.projects == s.projects then {} else {p.name})
            && (forall n :: n != p.name ==> (n in t.projects <==> n in s.projects) && (n in t.projects ==> t.projects[n] == s.projects[n]))
            && if p.deleting && p.finalizers == [] then p.name !in t.projects
               else p.name in t.projects && t.projects[p.name] == p.(version := t.projects[p.name].version)
  {
  }

  /** The new status is stored; nothing else about any project changes but the
      version of this one, and not even that if the status is the old one. */
  ghost predicate StatusWritten(before: ProjectStore, after: ProjectStore, n: string, used: ResourceList, recorded: seq<string>)
    requires n in before
  {
    && after.Keys == before.Keys
    && after[n] == before[n].(used := used, recorded := recorded, version := after[n].version)
    && (forall m :: m in before && m != n ==> after[m] == before[m])
    && (before[n].used == used && before[n].recorded == recorded ==> after == before)
  }

  /** The project leaves the store with its last finalizer, or stays without the
      controller's; every other project stays as it is. */
  ghost predicate FinalizerRemoved(before: ProjectStore, after: ProjectStore, p: Prq) {
    if LetGo(p).finalizers == [] then after == before - {p.name}
    else
      && after.Keys == before.Keys && p.name in after
      && after[p.name] == LetGo(p).(version := after[p.name].version)
      && forall m :: m in before && m != p.name ==> after[m] == before[m]
  }
}
