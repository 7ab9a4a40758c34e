/** Taking the annotation off the objects of a set of namespaces, as one function:
    what an interrupted pass leaves behind and what a completed one hands over. */
module Cleanup {
  import opened ResourceModel
  import opened Tally
  import opened Accounting
  import opened Admission
  import opened Machine

  /** Each object under keys is submitted without the annotation and stored as the
      webhook leaves it. */
  ghost function StripKeys(projects: ProjectStore, objects: Store, keys: set<ObjectKey>): Store {
    map k | k in objects :: if k in keys then HandedOver(projects, k, objects[k]) else objects[k]
  }

  ghost function Dirty(objects: Store, cells: seq<Cell>): set<ObjectKey> {
    set k | k in objects && Annotated(objects[k]) && Cell(k.ns, k.kind) in cells
  }

  lemma StripAgain(projects: ProjectStore, k: ObjectKey, o: Object)
    ensures Defaulted(projects, k, Stripped(HandedOver(projects, k, o))) == HandedOver(projects, k, o)
    ensures Annotated(HandedOver(projects, k, o)) <==> GateExists(projects, k)
  {
    assert Stripped(HandedOver(projects, k, o)) == Stripped(o);
  }

  lemma StripTwice(projects: ProjectStore, objects: Store, a: set<ObjectKey>, b: set<ObjectKey>)
    ensures StripKeys(projects, StripKeys(projects, objects, a), b) == StripKeys(projects, objects, a + b)
  {
    forall k | k in objects
      ensures StripKeys(projects, StripKeys(projects, objects, a), b)[k] == StripKeys(projects, objects, a + b)[k]
    {
      StripAgain(projects, k, objects[k]);
    }
  }

  /** What was done together with what is dirty now is what was dirty at first. */
  lemma DirtyLater(projects: ProjectStore, objects: Store, done: set<ObjectKey>, cells: seq<Cell>, more: seq<Cell>)
    requires done == Dirty(objects, cells)
    ensures done + Dirty(StripKeys(projects, objects, done), more) == Dirty(objects, cells + more)
  {
    var later := StripKeys(projects, objects, done);
    forall k | k in objects
      ensures k in done + Dirty(later, more) <==> k in Dirty(objects, cells + more)
    {
      if k !in done { assert later[k] == objects[k]; }
    }
  }

  /** Crash-safe cleanup: a pass that stopped after any of its updates, followed by
      a full pass, ends in the same objects as one uninterrupted pass. */
  lemma RetryEndsTheSame(projects: ProjectStore, objects: Store, done: set<ObjectKey>, cells: seq<Cell>)
    requires done <= Dirty(objects, cells)
    ensures var stopped := StripKeys(projects, objects, done);
            StripKeys(projects, stopped, Dirty(stopped, cells)) == StripKeys(projects, objects, Dirty(objects, cells))
  {
    var stopped := StripKeys(projects, objects, done);
    StripTwice(projects, objects, done, Dirty(stopped, cells));
    forall k | k in objects ensures k in done + Dirty(stopped, cells) <==> k in Dirty(objects, cells) {
      if k !in done { assert stopped[k] == objects[k]; }
    }
  }

  ghost function NamedIn(objects: Store, n: string, cells: seq<Cell>): set<ObjectKey> {
    set k | k in objects && Project(objects[k]) == Some(n) && Cell(k.ns, k.kind) in cells
  }

  /** Every update of a pass takes one object away from the project it cleans, and
      none comes back: the objects left to do are those not done. */
  lemma EveryUpdateCounts(projects: ProjectStore, objects: Store, p: Prq, targets: seq<string>, done: set<ObjectKey>)
    requires Disjoint(projects) && p.name in projects && projects[p.name] == p && Elements(targets) == ToClean(p)
    ensures NamedIn(StripKeys(projects, objects, done), p.name, Cells(targets)) == NamedIn(objects, p.name, Cells(targets)) - done
  {
    CellsContain(targets);
    var later := StripKeys(projects, objects, done);
    forall k | k in objects && Cell(k.ns, k.kind) in Cells(targets)
      ensures Project(later[k]) == Some(p.name) <==> k !in done && Project(objects[k]) == Some(p.name)
    {
      assert k.ns in Elements(targets);
      assert !Gates(projects, p.name, k);
    }
  }

  /** A stripped object carries exactly the name of the project that gates it. */
  lemma StripGives(projects: ProjectStore, k: ObjectKey, o: Object, n: string)
    requires Disjoint(projects)
    ensures Project(HandedOver(projects, k, o)) == Some(n) <==> Gates(projects, n, k)
    ensures Stripped(HandedOver(projects, k, o)) == Stripped(o)
  {
  }

  /** Exactly when an update that leaves the annotation out is admitted: always, except
      that a service needs a live project that limits services in its namespace, to
      put the annotation back, and has room for it. */
  lemma UnannotatedUpdateIff(projects: ProjectStore, k: ObjectKey, before: Object, after: Object)
    requires Disjoint(projects) && !Annotated(after)
    ensures AdmitsUpdate(projects, k.kind, before, Defaulted(projects, k, after)) <==>
            (k.kind == Service ==> exists n :: Gates(projects, n, k) && TypeChangeFits(projects[n], before, after))
  {
    if k.kind == Service {
      forall n {
        DefaultedNames(projects, k, after, n);
      }
    }
  }

  lemma DefaultedNames(projects: ProjectStore, k: ObjectKey, o: Object, n: string)
    requires Disjoint(projects) && !Annotated(o)
    ensures Project(Defaulted(projects, k, o)) == Some(n) <==> Gates(projects, n, k)
    ensures Defaulted(projects, k, o).serviceType == o.serviceType
  {
  }

  /** So the controller can take the annotation off any object, except that a service
      needs a new owner that is below its limit on services. */
  lemma StripIsAdmittedIff(projects: ProjectStore, k: ObjectKey, o: Object)
    requires Disjoint(projects)
    ensures AdmitsUpdate(projects, k.kind, o, HandedOver(projects, k, o)) <==>
            (k.kind == Service ==> exists n :: Gates(projects, n, k) && Below(projects[n], Services))
  {
    UnannotatedUpdateIff(projects, k, o, Stripped(o));
  }

  /** The webhooks let the update that takes the annotation off through. */
  ghost predicate CanStrip(projects: ProjectStore, k: ObjectKey, o: Object) {
    AdmitsUpdate(projects, k.kind, o, HandedOver(projects, k, o))
  }

  /** So they do a second time if they did once. */
  lemma CanStripAgain(projects: ProjectStore, k: ObjectKey, o: Object)
    ensures CanStrip(projects, k, HandedOver(projects, k, o)) <==> CanStrip(projects, k, o)
  {
    StripAgain(projects, k, o);
  }

  ghost predicate Strippable(projects: ProjectStore, objects: Store, keys: set<ObjectKey>) {
    forall k :: k in keys && k in objects ==> CanStrip(projects, k, objects[k])
  }

  lemma StrippableLater(projects: ProjectStore, objects: Store, done: set<ObjectKey>, keys: set<ObjectKey>)
    ensures Strippable(projects, StripKeys(projects, objects, done), keys) <==> Strippable(projects, objects, keys)
  {
    var later := StripKeys(projects, objects, done);
    forall k | k in objects ensures CanStrip(projects, k, later[k]) <==> CanStrip(projects, k, objects[k]) {
      CanStripAgain(projects, k, objects[k]);
    }
  }

  /** Hand-over: after a full pass nothing in the namespaces to clean names the
      project, an object that was annotated carries exactly what the webhook gives it
      for the current owner, and everything else is untouched. */
  lemma HandOver(projects: ProjectStore, objects: Store, p: Prq, targets: seq<string>, k: ObjectKey)
    requires Disjoint(projects) && p.name in projects && projects[p.name] == p && Elements(targets) == ToClean(p)
    requires k in objects
    ensures var after := StripKeys(projects, objects, Dirty(objects, Cells(targets)))[k];
            if k.ns in targets && Annotated(objects[k]) then
              && Project(after) != Some(p.name)
              && (forall n :: Project(after) == Some(n) <==> Gates(projects, n, k))
              && Stripped(after) == Stripped(objects[k])
            else after == objects[k]
  {
    CellsContain(targets);
    assert k in Dirty(objects, Cells(targets)) <==> k.ns in targets && Annotated(objects[k]);
    if k in Dirty(objects, Cells(targets)) {
      assert k.ns in Elements(targets) && !Gates(projects, p.name, k);
      forall n {
        StripGives(projects, k, objects[k], n);
      }
    }
  }
}
