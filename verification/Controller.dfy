/** The reconciler as it runs against the API server.  Each method is proved to take
    only steps of the state machine, whatever others do between its calls, and to
    compute what the accounting and cleanup functions say when nobody does.
 */
module Controller {
  import opened ResourceModel
  import opened Tally
  import opened Accounting
  import opened Admission
  import opened Machine
  import opened Projects
  import opened Staleness
  import opened Metadata
  import opened Cleanup
  import opened ApiServer
  import opened Listings

  // ---- Helpers of the pod totals ----

  method IsPodTerminated(o: Object) returns (terminated: bool)
    ensures terminated == Terminated(o)
  {
    terminated := o.phase == Failed || o.phase == Succeeded;
  }

  /** Add the quantities of src to those of dst. */
  method AddResourceList(dst: ResourceList, src: ResourceList) returns (sum: ResourceList)
    ensures sum.Keys == dst.Keys + src.Keys
    ensures forall r: ResourceName :: Amount(sum, r) == Amount(dst, r) + Amount(src, r)
  {
    sum := dst;
    var rest := src.Keys;
    while rest != {}
      invariant rest <= src.Keys
      invariant sum.Keys == dst.Keys + (src.Keys - rest)
      invariant forall r: ResourceName :: Amount(sum, r) == Amount(dst, r) + if r in rest then 0 else Amount(src, r)
    {
      var name :| name in rest;
      if name in sum {
        sum := sum[name := sum[name] + src[name]];
      } else {
        sum := sum[name := src[name]];
      }
      rest := rest - {name};
    }
  }

  // ---- Pending items ----

  /** The annotated items from position i on, which are still to be updated. */
  ghost function PendingFrom(items: seq<Item>, i: nat): Store
    decreases |items| - i
  {
    if i >= |items| then map[]
    else if Annotated(items[i].value) then PendingFrom(items, i + 1)[items[i].key := items[i].value]
    else PendingFrom(items, i + 1)
  }

  lemma {:induction false} PendingFromKeys(items: seq<Item>, objects: Store, cell: Cell, i: nat)
    requires Lists(items, objects, cell)
    ensures forall k :: k in PendingFrom(items, i) <==>
              exists m :: i <= m < |items| && items[m].key == k && Annotated(items[m].value)
    ensures forall k :: k in PendingFrom(items, i) ==> k in objects && PendingFrom(items, i)[k] == objects[k]
    decreases |items| - i
  {
    if i < |items| {
      PendingFromKeys(items, objects, cell, i + 1);
    }
  }

  lemma PendingAtFirst(items: seq<Item>, objects: Store, cell: Cell)
    requires Lists(items, objects, cell)
    ensures PendingFrom(items, 0) == PendingIn(objects, cell)
  {
    PendingFromKeys(items, objects, cell, 0);
    forall k | k in PendingIn(objects, cell) ensures k in PendingFrom(items, 0) {
      assert Item(k, objects[k]) in items;
    }
  }

  ghost function KeyOf(item: Item): set<ObjectKey> {
    if Annotated(item.value) then {item.key} else {}
  }

  lemma PendingAfter(items: seq<Item>, objects: Store, cell: Cell, i: nat)
    requires Lists(items, objects, cell) && i < |items|
    ensures Annotated(items[i].value) ==>
              items[i].key in PendingFrom(items, i) && PendingFrom(items, i)[items[i].key] == items[i].value
    ensures PendingFrom(items, i) - KeyOf(items[i]) == PendingFrom(items, i + 1)
  {
    PendingFromKeys(items, objects, cell, i + 1);
    assert items[i].key !in PendingFrom(items, i + 1);
    TakeBack(PendingFrom(items, i + 1), items[i].key, items[i].value);
  }

  lemma TakeBack(pending: Store, k: ObjectKey, o: Object)
    requires k !in pending
    ensures pending[k := o] - {k} == pending && pending - {} == pending
  {
  }

  ghost function KeysUpTo(items: seq<Item>, i: nat): set<ObjectKey>
    requires i <= |items|
  {
    set m | 0 <= m < i && Annotated(items[m].value) :: items[m].key
  }

  lemma KeysNext(items: seq<Item>, i: nat)
    requires i < |items|
    ensures KeysUpTo(items, i + 1) == KeysUpTo(items, i) + KeyOf(items[i])
  {
  }

  /** What one turn of the update loop relies on. */
  lemma ItemStep(projects: ProjectStore, items: seq<Item>, objects: Store, cell: Cell, i: nat)
    requires Lists(items, objects, cell) && i < |items|
    ensures Annotated(items[i].value) ==>
              items[i].key in PendingFrom(items, i) && PendingFrom(items, i)[items[i].key] == items[i].value
    ensures PendingFrom(items, i) - KeyOf(items[i]) == PendingFrom(items, i + 1)
    ensures KeysUpTo(items, i) + KeyOf(items[i]) == KeysUpTo(items, i + 1)
    ensures KeysUpTo(items, i) <= Dirty(objects, [cell])
    ensures StripKeys(projects, StripKeys(projects, objects, KeysUpTo(items, i)), KeyOf(items[i]))
            == StripKeys(projects, objects, KeysUpTo(items, i + 1))
    ensures StripKeys(projects, StripKeys(projects, objects, KeysUpTo(items, i)), {})
            == StripKeys(projects, objects, KeysUpTo(items, i))
  {
    PendingAfter(items, objects, cell, i);
    KeysNext(items, i);
    KeysAtLast(items, objects, cell, i);
    StripTwice(projects, objects, KeysUpTo(items, i), KeyOf(items[i]));
    StripTwice(projects, objects, KeysUpTo(items, i), {});
    assert KeysUpTo(items, i) + {} == KeysUpTo(items, i);
  }

  lemma KeysAtLast(items: seq<Item>, objects: Store, cell: Cell, i: nat)
    requires Lists(items, objects, cell) && i <= |items|
    ensures KeysUpTo(items, i) <= Dirty(objects, [cell])
    ensures i == |items| ==> KeysUpTo(items, i) == Dirty(objects, [cell])
  {
    forall k | k in Dirty(objects, [cell]) && i == |items| ensures k in KeysUpTo(items, i) {
      assert Item(k, objects[k]) in items;
    }
  }

  /** An item still to come is as it was listed, and counts among the objects to strip if
      it is annotated. */
  lemma NotYetStripped(projects: ProjectStore, items: seq<Item>, objects: Store, cell: Cell, i: nat)
    requires Lists(items, objects, cell) && i < |items|
    ensures var now := StripKeys(projects, objects, KeysUpTo(items, i));
            items[i].key in now && now[items[i].key] == items[i].value == objects[items[i].key]
    ensures Annotated(items[i].value) ==> items[i].key in Dirty(objects, [cell])
  {
    assert items[i].key !in KeysUpTo(items, i);
  }

  // ---- The keys of a cell ----

  /** The compute keys in the order in which the controller adds them. */
  const COMPUTE_KEYS: seq<ResourceName> :=
    [Cpu, RequestsCpu, Memory, RequestsMemory, Storage, RequestsStorage, EphemeralStorage, RequestsEphemeralStorage,
     LimitsCpu, LimitsMemory, LimitsEphemeralStorage]

  lemma ComputeKeysDistinct(i: nat)
    requires i < |COMPUTE_KEYS|
    ensures IsCompute(COMPUTE_KEYS[i]) && COMPUTE_KEYS[i] !in [Pods] + COMPUTE_KEYS[..i]
  {
    forall h | 0 <= h < i ensures COMPUTE_KEYS[h] != COMPUTE_KEYS[i] {
    }
  }

  lemma KeysSoFar(i: nat)
    requires i <= |COMPUTE_KEYS|
    ensures i == 0 ==> [] + [Pods] == [Pods] + COMPUTE_KEYS[..i]
    ensures i > 0 ==> [Pods] + COMPUTE_KEYS[..i - 1] + [COMPUTE_KEYS[i - 1]] == [Pods] + COMPUTE_KEYS[..i]
    ensures i == |COMPUTE_KEYS| ==> COMPUTE_KEYS[..i] == COMPUTE_KEYS
  {
  }

  lemma PodKeysAreAll(r: ResourceName)
    ensures r in [Pods] + COMPUTE_KEYS <==> KindOf(r) == Some(Pod)
  {
    assert COMPUTE_KEYS[0] == Cpu && COMPUTE_KEYS[1] == RequestsCpu && COMPUTE_KEYS[2] == Memory && COMPUTE_KEYS[3] == RequestsMemory;
    assert COMPUTE_KEYS[4] == Storage && COMPUTE_KEYS[5] == RequestsStorage && COMPUTE_KEYS[6] == EphemeralStorage;
    assert COMPUTE_KEYS[7] == RequestsEphemeralStorage && COMPUTE_KEYS[8] == LimitsCpu && COMPUTE_KEYS[9] == LimitsMemory;
    assert COMPUTE_KEYS[10] == LimitsEphemeralStorage;
  }

  lemma PodKeys(used: ResourceList, hard: ResourceList, objects: Store, cell: Cell)
    requires cell.kind == Pod && Pods in hard
    ensures Partial(used, hard, objects, cell.ns, [Pods] + COMPUTE_KEYS) == CountCell(used, hard, objects, cell)
  {
    forall r ensures r in [Pods] + COMPUTE_KEYS <==> KindOf(r) == Some(Pod) {
      PodKeysAreAll(r);
    }
    PartialAll(used, hard, objects, cell, [Pods] + COMPUTE_KEYS);
  }

  lemma ServiceKeys(used: ResourceList, hard: ResourceList, objects: Store, cell: Cell)
    requires cell.kind == Service && Services in hard
    ensures Partial(used, hard, objects, cell.ns, [Services, ServicesNodePorts, ServicesLoadBalancers])
            == CountCell(used, hard, objects, cell)
  {
    PartialAll(used, hard, objects, cell, [Services, ServicesNodePorts, ServicesLoadBalancers]);
  }

  lemma PlainKeys(used: ResourceList, hard: ResourceList, objects: Store, cell: Cell)
    requires cell.kind != Service && cell.kind != Pod && GateKey(cell.kind) in hard
    ensures AddIfLimited(used, hard, GateKey(cell.kind), Usage(objects, {cell.ns}, GateKey(cell.kind)))
            == CountCell(used, hard, objects, cell)
  {
    var gate := GateKey(cell.kind);
    PartialNone(used, hard, objects, cell.ns);
    PartialNext(used, hard, objects, cell.ns, [], gate);
    assert [] + [gate] == [gate];
    PartialAll(used, hard, objects, cell, [gate]);
  }

  class Reconciler {
    const client: Server

    constructor (client: Server)
      ensures this.client == client
    {
      this.client := client;
    }

    /** The worker is in the strip of its job, at cell next. */
    ghost predicate AtCell(next: nat)
      reads client
    {
      && client.Valid()
      && client.job.Some? && client.job.value.phase == Stripping(next, map[])
      && next <= |Cells(client.job.value.targets)|
    }

    /** Skip an item without the annotation; submit any other without it. */
    method StripItem(item: Item) returns (ok: bool, ghost now: set<ObjectKey>)
      requires client.Valid() && client.job.Some? && client.job.value.phase.Stripping?
      requires Annotated(item.value) ==>
                 item.key in client.job.value.phase.pending && client.job.value.phase.pending[item.key] == item.value
      modifies client
      ensures client.Valid() && Continues(old(client.run), client.run)
      ensures now == if ok then KeyOf(item) else {}
      ensures !ok ==> client.job == old(client.job)
      ensures ok ==> client.job == Some(old(client.job).value.(phase :=
                       Stripping(old(client.job).value.phase.next, old(client.job).value.phase.pending - now)))
      ensures client.quiet ==> client.projects == old(client.projects)
      ensures client.quiet ==> client.objects == StripKeys(client.projects, old(client.objects), now)
      ensures client.quiet && client.reliable && item.key in old(client.objects) && old(client.objects)[item.key] == item.value ==>
                (ok <==> Annotated(item.value) ==> CanStrip(old(client.projects), item.key, item.value))
    {
      now := {};
      assert StripKeys(client.projects, client.objects, {}) == client.objects;
      var meta := new ObjectMeta(item.value.annotations, []);
      if !meta.IsAnnotationExists(ANNOTATION) {
        assert client.job.value.phase.pending - {} == client.job.value.phase.pending;
        return true, {};
      }
      meta.RemoveAnnotation(ANNOTATION);
      ok := client.UpdateObject(item.key, item.value, meta);
      now := if ok then {item.key} else {};
    }

    /** Go through a listing that was just taken, one update at a time. */
    method StripItems(items: seq<Item>, ghost listed: Store, ghost cell: Cell, ghost next: nat)
      returns (ok: bool, ghost done: set<ObjectKey>)
      requires client.Valid() && client.objects == listed && Lists(items, listed, cell)
      requires client.job.Some? && client.job.value.phase == Stripping(next, PendingFrom(items, 0))
      modifies client
      ensures client.Valid() && Continues(old(client.run), client.run)
      ensures ok ==> client.job == Some(old(client.job).value.(phase := Stripping(next, map[])))
      ensures client.job.Some? && client.job.value.snapshot == old(client.job).value.snapshot
      ensures client.quiet ==> client.projects == old(client.projects)
      ensures client.quiet ==> client.objects == StripKeys(client.projects, listed, done)
      ensures done <= Dirty(listed, [cell])
      ensures ok ==> done == Dirty(listed, [cell])
      ensures client.quiet && client.reliable ==> (ok <==> Strippable(client.projects, listed, Dirty(listed, [cell])))
    {
      ok, done := true, {};
      ghost var projects, j := client.projects, client.job.value;
      assert StripKeys(projects, listed, {}) == listed;
      for i := 0 to |items|
        invariant client.Valid() && Continues(old(client.run), client.run)
        invariant ok && client.job == Some(j.(phase := Stripping(next, PendingFrom(items, i))))
        invariant done == KeysUpTo(items, i)
        invariant client.quiet ==> client.projects == projects && client.objects == StripKeys(projects, listed, done)
        invariant client.quiet && client.reliable ==> Strippable(projects, listed, done)
      {
        ItemStep(projects, items, listed, cell, i);
        NotYetStripped(projects, items, listed, cell, i);
        ghost var now: set<ObjectKey>;
        ok, now := StripItem(items[i]);
        if !ok {
          assert done + {} == done;
          return;
        }
        done := done + now;
      }
      KeysAtLast(items, listed, cell, |items|);
    }

    /** List the objects of one kind in one namespace and take the annotation off
        those that carry it. */
    method StripCell(cell: Cell, ghost next: nat) returns (ok: bool, ghost done: set<ObjectKey>)
      requires AtCell(next) && next < |Cells(client.job.value.targets)| && Cells(client.job.value.targets)[next] == cell
      modifies client
      ensures client.Valid() && Continues(old(client.run), client.run)
      ensures ok ==> client.job == Some(old(client.job).value.(phase := Stripping(next + 1, map[])))
      ensures client.job.Some? && client.job.value.snapshot == old(client.job).value.snapshot
      ensures client.quiet ==> client.projects == old(client.projects)
      ensures client.quiet ==> client.objects == StripKeys(client.projects, old(client.objects), done)
      ensures client.quiet ==> done <= Dirty(old(client.objects), [cell])
      ensures client.quiet && ok ==> done == Dirty(old(client.objects), [cell])
      ensures client.quiet && client.reliable ==>
                (ok <==> Strippable(client.projects, old(client.objects), Dirty(old(client.objects), [cell])))
    {
      done := {};
      var items: seq<Item>;
      ok, items := client.List(cell);
      if !ok {
        assert StripKeys(client.projects, client.objects, {}) == client.objects;
        return;
      }
      PendingAtFirst(items, client.objects, cell);
      client.Advance(ListCell, Some(client.job.value.(phase := Stripping(next + 1, PendingIn(client.objects, cell)))), client.queue);
      ok, done := StripItems(items, client.objects, cell, next + 1);
    }

    /** One cell, and in a quiet pass the next step of the cleanup. */
    method StripStep(ghost targets: seq<string>, ghost next: nat, cell: Cell, ghost projects: ProjectStore, ghost objects: Store,
                     ghost before: set<ObjectKey>)
      returns (ok: bool, ghost done: set<ObjectKey>)
      requires AtCell(next) && client.job.value.targets == targets && next < |Cells(targets)| && Cells(targets)[next] == cell
      requires client.quiet ==> CleanedTo(projects, objects, targets, next, before)
      requires client.quiet && client.reliable ==> Strippable(projects, objects, before)
      modifies client
      ensures client.Valid() && Continues(old(client.run), client.run)
      ensures ok ==> client.job == Some(old(client.job).value.(phase := Stripping(next + 1, map[])))
      ensures client.job.Some? && client.job.value.snapshot == old(client.job).value.snapshot
      ensures client.quiet ==> StoppedAt(projects, objects, targets, done)
      ensures client.quiet && ok ==> CleanedTo(projects, objects, targets, next + 1, done)
      ensures client.quiet && client.reliable ==>
                if ok then Strippable(projects, objects, done) else !Strippable(projects, objects, Dirty(objects, Cells(targets)))
    {
      ghost var now: set<ObjectKey>;
      ok, now := StripCell(cell, next);
      if client.quiet {
        CleanedNext(projects, objects, targets, next, before, now, ok);
        StrippableNext(projects, objects, targets, next, before);
      }
      done := before + now;
    }

    /** Clean one namespace, kind by kind; stop at the first failure. */
    method StripNamespace(targets: seq<string>, i: nat, ghost projects: ProjectStore, ghost objects: Store,
                          ghost before: set<ObjectKey>)
      returns (ok: bool, ghost done: set<ObjectKey>)
      requires i < |targets| && AtCell(7 * i) && client.job.value.targets == targets
      requires client.quiet ==> CleanedTo(projects, objects, targets, 7 * i, before)
      requires client.quiet && client.reliable ==> Strippable(projects, objects, before)
      modifies client
      ensures client.Valid() && Continues(old(client.run), client.run)
      ensures ok ==> 7 * i + 7 <= |Cells(targets)|
                     && client.job == Some(old(client.job).value.(phase := Stripping(7 * i + 7, map[])))
      ensures client.job.Some? && client.job.value.snapshot == old(client.job).value.snapshot
      ensures client.quiet ==> StoppedAt(projects, objects, targets, done)
      ensures client.quiet && ok ==> CleanedTo(projects, objects, targets, 7 * i + 7, done)
      ensures client.quiet && client.reliable ==>
                if ok then Strippable(projects, objects, done) else !Strippable(projects, objects, Dirty(objects, Cells(targets)))
    {
      ok, done := true, before;
      ghost var j := client.job.value;
      var cells := CellsOf(targets[i]);
      for h := 0 to |cells|
        invariant ok && client.Valid() && Continues(old(client.run), client.run)
        invariant 7 * i + h <= |Cells(targets)| && client.job == Some(j.(phase := Stripping(7 * i + h, map[])))
        invariant client.quiet ==> CleanedTo(projects, objects, targets, 7 * i + h, done)
        invariant client.quiet && client.reliable ==> Strippable(projects, objects, done)
      {
        CellAt(targets, i, h);
        ok, done := StripStep(targets, 7 * i + h, cells[h], projects, objects, done);
        if !ok {
          return;
        }
      }
      if client.quiet { PrefixIsDirty(objects, targets, 7 * i + 7); }
    }

    /** Clean every namespace of the list; stop at the first failure. */
    method RemoveAnnotationFromObjects(targets: seq<string>) returns (ok: bool, ghost done: set<ObjectKey>)
      requires AtCell(0) && client.job.value.targets == targets
      modifies client
      ensures client.Valid() && Continues(old(client.run), client.run)
      ensures ok ==> client.job == Some(old(client.job).value.(phase := Stripping(|Cells(targets)|, map[])))
      ensures client.job.Some? && client.job.value.snapshot == old(client.job).value.snapshot
      ensures client.quiet ==> StoppedAt(old(client.projects), old(client.objects), targets, done)
      ensures client.quiet && ok ==> done == Dirty(old(client.objects), Cells(targets))
      ensures client.quiet && client.reliable ==>
                (ok <==> Strippable(old(client.projects), old(client.objects), Dirty(old(client.objects), Cells(targets))))
    {
      ok, done := true, {};
      ghost var objects, projects, j := client.objects, client.projects, client.job.value;
      assert StripKeys(projects, objects, {}) == objects;
      for i := 0 to |targets|
        invariant ok && client.Valid() && Continues(old(client.run), client.run)
        invariant 7 * i <= |Cells(targets)| && client.job == Some(j.(phase := Stripping(7 * i, map[])))
        invariant client.quiet ==> CleanedTo(projects, objects, targets, 7 * i, done)
        invariant client.quiet && client.reliable ==> Strippable(projects, objects, done)
      {
        ok, done := StripNamespace(targets, i, projects, objects, done);
        if !ok {
          return;
        }
      }
      CellsCount(targets);
      PrefixIsDirty(objects, targets, |Cells(targets)|);
    }

    // ---- Accounting ----

    /** The worker counts, has counted next cells, and its copy holds the totals. */
    ghost predicate Counts(prq: PrqCopy, next: nat)
      reads client, prq
    {
      && client.Valid()
      && client.job.Some? && client.job.value.snapshot == prq.fetched
      && client.job.value.phase == Counting(next, prq.used)
      && next <= |Cells(prq.fetched.namespaces)|
    }

    /** The cell at position next of the job, with a listing of it just taken: the job
        holds the totals that the copy is to reach. */
    ghost predicate Listed(prq: PrqCopy, cell: Cell, next: nat, used: ResourceList)
      reads client, prq
    {
      && client.Valid()
      && client.job.Some? && client.job.value.snapshot == prq.fetched
      && client.job.value.phase == Counting(next + 1, CountCell(used, prq.fetched.hard, client.objects, cell))
      && next < |Cells(prq.fetched.namespaces)|
    }

    /** A kind without its gate key is passed over. */
    ghost method SkipCell(prq: PrqCopy, cell: Cell, next: nat)
      requires Counts(prq, next) && next < |Cells(prq.fetched.namespaces)| && Cells(prq.fetched.namespaces)[next] == cell
      requires GateKey(cell.kind) !in prq.fetched.hard
      modifies client`job, client`queue, client`run
      ensures Counts(prq, next + 1) && Continues(old(client.run), client.run)
    {
      client.Advance(CountNext, Some(client.job.value.(phase := Counting(next + 1, prq.used))), client.queue);
    }

    method ListForCount(prq: PrqCopy, cell: Cell, ghost next: nat) returns (ok: bool, items: seq<Item>)
      requires Counts(prq, next) && next < |Cells(prq.fetched.namespaces)| && Cells(prq.fetched.namespaces)[next] == cell
      modifies client
      ensures client.Valid() && Continues(old(client.run), client.run)
      ensures client.job.Some? && client.job.value.snapshot == prq.fetched
      ensures ok ==> Lists(items, client.objects, cell) && Listed(prq, cell, next, prq.used)
      ensures client.quiet ==> client.objects == old(client.objects) && client.projects == old(client.projects)
      ensures client.reliable ==> ok
    {
      ok, items := client.List(cell);
      if !ok {
        return;
      }
      client.Advance(CountNext,
                     Some(client.job.value.(phase :=
                       Counting(next + 1, CountCell(prq.used, prq.fetched.hard, client.objects, cell)))),
                     client.queue);
    }

    /** Add an amount to status.used if the key is limited. */
    method AddUsed(prq: PrqCopy, r: ResourceName, amount: nat)
      modifies prq`used
      ensures prq.used == AddIfLimited(old(prq.used), prq.fetched.hard, r, amount)
    {
      if r in prq.fetched.hard {
        prq.used := prq.used[r := Amount(prq.used, r) + amount];
      }
    }

    method PlainTotal(items: seq<Item>, ghost kind: Kind) returns (count: nat)
      requires kind != Pod && kind != Service
      ensures count == Charges(items, GateKey(kind))
    {
      count := 0;
      for i := 0 to |items|
        invariant count == Charges(items[..i], GateKey(kind))
      {
        ChargesNext(items, i, GateKey(kind));
        if ANNOTATION in items[i].value.annotations {
          count := count + 1;
        }
      }
      assert items[..|items|] == items;
    }

    /** The five kinds that are only counted. */
    method CountPlain(prq: PrqCopy, cell: Cell, ghost next: nat) returns (ok: bool)
      requires Counts(prq, next) && next < |Cells(prq.fetched.namespaces)| && Cells(prq.fetched.namespaces)[next] == cell
      requires cell.kind != Pod && cell.kind != Service
      modifies client, prq`used
      ensures client.Valid() && Continues(old(client.run), client.run)
      ensures client.job.Some? && client.job.value.snapshot == prq.fetched
      ensures ok ==> Counts(prq, next + 1)
      ensures client.quiet && ok ==> prq.used == CountCell(old(prq.used), prq.fetched.hard, client.objects, cell)
      ensures client.quiet ==> client.objects == old(client.objects) && client.projects == old(client.projects)
      ensures client.reliable ==> ok
    {
      var gate := GateKey(cell.kind);
      if gate !in prq.fetched.hard {
        SkipCell(prq, cell, next);
        return true;
      }
      var items: seq<Item>;
      ok, items := ListForCount(prq, cell, next);
      if !ok {
        return;
      }
      ghost var used := prq.used;
      var count := PlainTotal(items, cell.kind);
      ChargesAreUsage(items, client.objects, cell, gate);
      AddUsed(prq, gate, count);
      PlainKeys(used, prq.fetched.hard, client.objects, cell);
    }

    /** The listing adds up to the two lists of resources. */
    ghost predicate AddsUp(items: seq<Item>, requests: ResourceList, limits: ResourceList) {
      forall r :: IsCompute(r) ==> Amount(if ReadsLimits(r) then limits else requests, BaseKey(r)) == Charges(items, r)
    }

    /** What the pods of one listing add up to. */
    method PodTotals(items: seq<Item>) returns (count: nat, requests: ResourceList, limits: ResourceList)
      ensures count == Charges(items, Pods)
      ensures AddsUp(items, requests, limits)
    {
      count := 0;
      for i := 0 to |items|
        invariant count == Charges(items[..i], Pods)
      {
        ChargesNext(items, i, Pods);
        if ANNOTATION !in items[i].value.annotations {
          continue;
        }
        var terminated := IsPodTerminated(items[i].value);
        if terminated {
          continue;
        }
        count := count + 1;
      }
      requests, limits := map[], map[];
      for i := 0 to |items|
        invariant AddsUp(items[..i], requests, limits)
      {
        forall r ensures Charges(items[..i + 1], r) == Charges(items[..i], r) + Charge(r, items[i].value) {
          ChargesNext(items, i, r);
        }
        if ANNOTATION !in items[i].value.annotations {
          continue;
        }
        var terminated := IsPodTerminated(items[i].value);
        if terminated {
          continue;
        }
        requests := AddResourceList(requests, items[i].value.requests);
        limits := AddResourceList(limits, items[i].value.limits);
      }
      assert items[..|items|] == items;
    }

    method CountPods(prq: PrqCopy, cell: Cell, ghost next: nat) returns (ok: bool)
      requires Counts(prq, next) && next < |Cells(prq.fetched.namespaces)| && Cells(prq.fetched.namespaces)[next] == cell
      requires cell.kind == Pod
      modifies client, prq`used
      ensures client.Valid() && Continues(old(client.run), client.run)
      ensures client.job.Some? && client.job.value.snapshot == prq.fetched
      ensures ok ==> Counts(prq, next + 1)
      ensures client.quiet && ok ==> prq.used == CountCell(old(prq.used), prq.fetched.hard, client.objects, cell)
      ensures client.quiet ==> client.objects == old(client.objects) && client.projects == old(client.projects)
      ensures client.reliable ==> ok
    {
      if Pods !in prq.fetched.hard {
        SkipCell(prq, cell, next);
        return true;
      }
      var items: seq<Item>;
      ok, items := ListForCount(prq, cell, next);
      if !ok {
        return;
      }
      ghost var used := prq.used;
      var count, requests, limits := PodTotals(items);
      AddPods(prq, items, client.objects, cell, count, requests, limits);
      PodKeys(used, prq.fetched.hard, client.objects, cell);
    }

    /** One more key of the listed cell. */
    method AddKey(prq: PrqCopy, r: ResourceName, amount: nat,
                  ghost used: ResourceList, ghost objects: Store, ghost ns: string, ghost keys: seq<ResourceName>)
      requires r !in keys && amount == Usage(objects, {ns}, r)
      requires prq.used == Partial(used, prq.fetched.hard, objects, ns, keys)
      modifies prq`used
      ensures prq.used == Partial(used, prq.fetched.hard, objects, ns, keys + [r])
    {
      PartialNext(used, prq.fetched.hard, objects, ns, keys, r);
      AddUsed(prq, r, amount);
    }

    ghost function KeysTo(i: nat): seq<ResourceName>
      requires i <= |COMPUTE_KEYS|
    {
      [Pods] + COMPUTE_KEYS[..i]
    }

    /** The block of one compute key. */
    method AddComputeKey(prq: PrqCopy, r: ResourceName, requests: ResourceList, limits: ResourceList,
                         ghost used: ResourceList, ghost items: seq<Item>, ghost objects: Store, ghost cell: Cell, ghost keys: seq<ResourceName>)
      requires Lists(items, objects, cell) && cell.kind == Pod && AddsUp(items, requests, limits)
      requires IsCompute(r) && r !in keys
      requires prq.used == Partial(used, prq.fetched.hard, objects, cell.ns, keys)
      modifies prq`used
      ensures prq.used == Partial(used, prq.fetched.hard, objects, cell.ns, keys + [r])
    {
      ChargesAreUsage(items, objects, cell, r);
      AddKey(prq, r, Amount(if ReadsLimits(r) then limits else requests, BaseKey(r)), used, objects, cell.ns, keys);
    }

    /** The count, and after it one block for each of the eleven compute keys. */
    method AddPods(prq: PrqCopy, ghost items: seq<Item>, ghost objects: Store, ghost cell: Cell,
                   count: nat, requests: ResourceList, limits: ResourceList)
      requires Lists(items, objects, cell) && cell.kind == Pod && AddsUp(items, requests, limits)
      requires count == Charges(items, Pods)
      modifies prq`used
      ensures prq.used == Partial(old(prq.used), prq.fetched.hard, objects, cell.ns, [Pods] + COMPUTE_KEYS)
    {
      ghost var used := prq.used;
      PartialNone(used, prq.fetched.hard, objects, cell.ns);
      ChargesAreUsage(items, objects, cell, Pods);
      AddKey(prq, Pods, count, used, objects, cell.ns, []);
      KeysSoFar(0);
      for i := 0 to |COMPUTE_KEYS|
        invariant prq.used == Partial(used, prq.fetched.hard, objects, cell.ns, KeysTo(i))
      {
        ComputeKeysDistinct(i);
        AddComputeKey(prq, COMPUTE_KEYS[i], requests, limits, used, items, objects, cell, KeysTo(i));
        KeysSoFar(i + 1);
      }
      KeysSoFar(|COMPUTE_KEYS|);
    }

    method CountServices(prq: PrqCopy, cell: Cell, ghost next: nat) returns (ok: bool)
      requires Counts(prq, next) && next < |Cells(prq.fetched.namespaces)| && Cells(prq.fetched.namespaces)[next] == cell
      requires cell.kind == Service
      modifies client, prq`used
      ensures client.Valid() && Continues(old(client.run), client.run)
      ensures client.job.Some? && client.job.value.snapshot == prq.fetched
      ensures ok ==> Counts(prq, next + 1)
      ensures client.quiet && ok ==> prq.used == CountCell(old(prq.used), prq.fetched.hard, client.objects, cell)
      ensures client.quiet ==> client.objects == old(client.objects) && client.projects == old(client.projects)
      ensures client.reliable ==> ok
    {
      if Services !in prq.fetched.hard {
        SkipCell(prq, cell, next);
        return true;
      }
      var items: seq<Item>;
      ok, items := ListForCount(prq, cell, next);
      if !ok {
        return;
      }
      ghost var used := prq.used;
      var count, npCount, lbCount := ServiceTotals(items);
      ChargesAreUsage(items, client.objects, cell, Services);
      ChargesAreUsage(items, client.objects, cell, ServicesNodePorts);
      ChargesAreUsage(items, client.objects, cell, ServicesLoadBalancers);
      AddServices(prq, client.objects, cell, count, npCount, lbCount);
      ServiceKeys(used, prq.fetched.hard, client.objects, cell);
    }

    method ServiceTotals(items: seq<Item>) returns (count: nat, npCount: nat, lbCount: nat)
      ensures count == Charges(items, Services)
      ensures npCount == Charges(items, ServicesNodePorts)
      ensures lbCount == Charges(items, ServicesLoadBalancers)
    {
      count, npCount, lbCount := 0, 0, 0;
      for i := 0 to |items|
        invariant count == Charges(items[..i], Services)
        invariant npCount == Charges(items[..i], ServicesNodePorts)
        invariant lbCount == Charges(items[..i], ServicesLoadBalancers)
      {
        ChargesNext(items, i, Services);
        ChargesNext(items, i, ServicesNodePorts);
        ChargesNext(items, i, ServicesLoadBalancers);
        if ANNOTATION in items[i].value.annotations {
          count := count + 1;
          match items[i].value.serviceType
          case NodePort => npCount := npCount + 1;
          case LoadBalancer => lbCount := lbCount + 1;
          case _ =>
        }
      }
      assert items[..|items|] == items;
    }

    method AddServices(prq: PrqCopy, ghost objects: Store, ghost cell: Cell, count: nat, npCount: nat, lbCount: nat)
      requires count == Usage(objects, {cell.ns}, Services)
      requires npCount == Usage(objects, {cell.ns}, ServicesNodePorts)
      requires lbCount == Usage(objects, {cell.ns}, ServicesLoadBalancers)
      modifies prq`used
      ensures prq.used == Partial(old(prq.used), prq.fetched.hard, objects, cell.ns,
                                  [Services, ServicesNodePorts, ServicesLoadBalancers])
    {
      ghost var used := prq.used;
      PartialNone(used, prq.fetched.hard, objects, cell.ns);
      AddKey(prq, Services, count, used, objects, cell.ns, []);
      assert [] + [Services] == [Services];
      AddKey(prq, ServicesNodePorts, npCount, used, objects, cell.ns, [Services]);
      assert [Services] + [ServicesNodePorts] == [Services, ServicesNodePorts];
      AddKey(prq, ServicesLoadBalancers, lbCount, used, objects, cell.ns, [Services, ServicesNodePorts]);
      assert [Services, ServicesNodePorts] + [ServicesLoadBalancers] == [Services, ServicesNodePorts, ServicesLoadBalancers];
    }

    /** One cell, by its kind. */
    method CountOne(prq: PrqCopy, cell: Cell, ghost next: nat) returns (ok: bool)
      requires Counts(prq, next) && next < |Cells(prq.fetched.namespaces)| && Cells(prq.fetched.namespaces)[next] == cell
      modifies client, prq`used
      ensures client.Valid() && Continues(old(client.run), client.run)
      ensures client.job.Some? && client.job.value.snapshot == prq.fetched
      ensures ok ==> Counts(prq, next + 1)
      ensures client.quiet && ok ==> prq.used == CountCell(old(prq.used), prq.fetched.hard, client.objects, cell)
      ensures client.quiet ==> client.objects == old(client.objects) && client.projects == old(client.projects)
      ensures client.reliable ==> ok
    {
      match cell.kind
      case Pod => ok := CountPods(prq, cell, next);
      case Service => ok := CountServices(prq, cell, next);
      case _ => ok := CountPlain(prq, cell, next);
    }

    /** The totals of a quiet count are those of the accounting. */
    ghost predicate CountedTo(prq: PrqCopy, objects: Store, n: nat)
      reads client, prq
    {
      && client.objects == objects
      && n <= |Cells(prq.fetched.namespaces)|
      && prq.used == Recount(prq.fetched.hard, objects, Cells(prq.fetched.namespaces)[..n])
    }

    /** One cell, and in a quiet count the next step of the accounting. */
    method CountStep(prq: PrqCopy, ghost next: nat, cell: Cell, ghost objects: Store) returns (ok: bool)
      requires Counts(prq, next) && next < |Cells(prq.fetched.namespaces)| && Cells(prq.fetched.namespaces)[next] == cell
      requires client.quiet ==> CountedTo(prq, objects, next)
      modifies client, prq`used
      ensures client.Valid() && Continues(old(client.run), client.run)
      ensures client.job.Some? && client.job.value.snapshot == prq.fetched
      ensures ok ==> Counts(prq, next + 1)
      ensures client.quiet && ok ==> CountedTo(prq, objects, next + 1)
      ensures client.quiet ==> client.objects == old(client.objects) && client.projects == old(client.projects)
      ensures client.reliable ==> ok
    {
      RecountNext(prq.fetched.hard, objects, Cells(prq.fetched.namespaces), next);
      ok := CountOne(prq, cell, next);
    }

    method CountNamespace(prq: PrqCopy, i: nat, ghost objects: Store) returns (ok: bool)
      requires i < |prq.fetched.namespaces| && Counts(prq, 7 * i)
      requires client.quiet ==> CountedTo(prq, objects, 7 * i)
      modifies client, prq`used
      ensures client.Valid() && Continues(old(client.run), client.run)
      ensures client.job.Some? && client.job.value.snapshot == prq.fetched
      ensures ok ==> Counts(prq, 7 * i + 7)
      ensures client.quiet && ok ==> CountedTo(prq, objects, 7 * i + 7)
      ensures client.quiet ==> client.objects == old(client.objects) && client.projects == old(client.projects)
      ensures client.reliable ==> ok
    {
      ok := true;
      var cells := CellsOf(prq.fetched.namespaces[i]);
      for h := 0 to |cells|
        invariant ok && Counts(prq, 7 * i + h) && Continues(old(client.run), client.run)
        invariant client.quiet ==> CountedTo(prq, objects, 7 * i + h) && client.projects == old(client.projects)
      {
        CellAt(prq.fetched.namespaces, i, h);
        ok := CountStep(prq, 7 * i + h, cells[h], objects);
        if !ok {
          return;
        }
      }
    }

    method ClearUsed(prq: PrqCopy)
      modifies prq`used
      ensures prq.used == map[]
    {
      while prq.used.Keys != {}
        decreases prq.used.Keys
      {
        var r :| r in prq.used.Keys;
        prq.used := prq.used - {r};
      }
    }

    /** Clear status.used and recompute it from the objects. */
    method CountAll(prq: PrqCopy) returns (ok: bool)
      requires client.Valid() && client.job.Some? && client.job.value.snapshot == prq.fetched
      requires client.job.value.phase == Counting(0, map[])
      modifies client, prq`used
      ensures client.Valid() && Continues(old(client.run), client.run)
      ensures client.job.Some? && client.job.value.snapshot == prq.fetched
      ensures ok ==> Counts(prq, |Cells(prq.fetched.namespaces)|)
      ensures client.quiet ==> client.objects == old(client.objects) && client.projects == old(client.projects)
      ensures client.quiet && ok ==> prq.used == Fresh(prq.fetched, client.objects)
      ensures client.reliable ==> ok
    {
      ClearUsed(prq);
      ok := true;
      ghost var objects := client.objects;
      for i := 0 to |prq.fetched.namespaces|
        invariant ok && Counts(prq, 7 * i) && Continues(old(client.run), client.run)
        invariant client.quiet ==> CountedTo(prq, objects, 7 * i) && client.projects == old(client.projects)
      {
        ok := CountNamespace(prq, i, objects);
        if !ok {
          return;
        }
      }
      CellsCount(prq.fetched.namespaces);
      assert Cells(prq.fetched.namespaces)[..|Cells(prq.fetched.namespaces)|] == Cells(prq.fetched.namespaces);
    }

    // ---- Reconcile ----

    /** The namespaces to clean, listed. */
    method Removed(p: Prq) returns (targets: seq<string>)
      ensures Elements(targets) == ToClean(p)
    {
      var removed := if p.deleting then Elements(p.namespaces) else Elements(p.recorded) - Elements(p.namespaces);
      targets := [];
      while removed != {}
        invariant Elements(targets) + removed == ToClean(p)
      {
        var ns :| ns in removed;
        assert Elements(targets + [ns]) == Elements(targets) + {ns};
        targets, removed := targets + [ns], removed - {ns};
      }
    }

    /** Fetch the project, clean the namespaces it lost, and either let it go or
        recount it and write its status. */
    method Reconcile(name: string) returns (ok: bool)
      requires client.Valid() && client.job.None? && name in client.queue
      modifies client
      ensures client.Valid() && Continues(old(client.run), client.run)
      ensures ok ==> client.job.None? && Finished(LastStep(client.run), name)
      ensures client.job.Some? ==> client.job.value.snapshot.name == name
      ensures client.quiet && ok ==> QuietPass(old(client.projects), old(client.objects), client.projects, client.objects, name)
      ensures client.quiet && !ok ==> StoppedPass(old(client.projects), old(client.objects), client.projects, client.objects, name)
      ensures client.quiet && client.reliable ==> (ok <==> PassSucceeds(old(client.projects), old(client.objects), name))
      ensures !ok ==> client.job.Some? || name in client.queue
    {
      ghost var projects, objects := client.projects, client.objects;
      assert StripKeys(projects, objects, {}) == objects;
      var found: Option<Prq>;
      ok, found := client.Get(name);
      if !ok {
        return;
      }
      if found.None? {
        client.Advance(Begin(name, []), None, client.queue - {name});
        return true;
      }
      WellformedRun(client.rules, client.run);
      ok := Process(found.value);
    }

    /** The part of a reconciliation that follows a successful fetch. */
    method Process(p: Prq) returns (ok: bool)
      requires client.Valid() && client.job.None? && p.name in client.queue
      requires p.name in client.projects && client.projects[p.name] == p
      modifies client
      ensures client.Valid() && Continues(old(client.run), client.run)
      ensures ok ==> client.job.None? && LastStep(client.run) == Some(if p.deleting then ReleaseProject else WriteStatus)
      ensures client.job.Some? ==> client.job.value.snapshot.name == p.name
      ensures client.quiet && ok ==> QuietPass(old(client.projects), old(client.objects), client.projects, client.objects, p.name)
      ensures client.quiet && !ok ==> StoppedPass(old(client.projects), old(client.objects), client.projects, client.objects, p.name)
      ensures client.quiet && client.reliable ==> (ok <==> PassSucceeds(old(client.projects), old(client.objects), p.name))
      ensures !ok ==> client.job.Some?
    {
      ghost var before := client.run;
      ok := CleanUp(p);
      SucceedsIff(client.rules, before, p);
      if !ok {
        return;
      }
      var prq := new PrqCopy(p);
      if p.deleting {
        ok := Release(prq);
      } else {
        ok := RecountAndWrite(prq);
      }
    }

    /** Take the annotation off the objects of the namespaces to clean. */
    method CleanUp(p: Prq) returns (ok: bool)
      requires client.Valid() && client.job.None? && p.name in client.queue
      requires p.name in client.projects && client.projects[p.name] == p
      modifies client
      ensures client.Valid() && Continues(old(client.run), client.run)
      ensures client.job.Some? && client.job.value.snapshot == p
      ensures ok ==> StripDone(client.Now())
      ensures client.quiet ==> client.projects == old(client.projects)
      ensures client.quiet && ok ==>
                client.objects == StripKeys(old(client.projects), old(client.objects), DirtyIn(old(client.objects), ToClean(p)))
      ensures client.quiet && !ok ==> StoppedPass(old(client.projects), old(client.objects), client.projects, client.objects, p.name)
      ensures client.quiet && client.reliable ==>
                (ok <==> Strippable(old(client.projects), old(client.objects), DirtyIn(old(client.objects), ToClean(p))))
    {
      var targets := Removed(p);
      client.Advance(Begin(p.name, targets), Some(Job(p, targets, Stripping(0, map[]))), client.queue - {p.name});
      ghost var done: set<ObjectKey>;
      DirtyIsDirtyIn(client.objects, targets);
      ok, done := RemoveAnnotationFromObjects(targets);
    }

    /** The fetched version is the stored one. */
    predicate IsStored(p: Prq, projects: ProjectStore) {
      p.name in projects && projects[p.name].version == p.version
    }

    method Release(prq: PrqCopy) returns (ok: bool)
      requires client.Valid() && StripDone(client.Now()) && client.job.value.snapshot == prq.fetched && prq.fetched.deleting
      requires prq.meta.finalizers == prq.fetched.finalizers
      modifies client, prq.meta
      ensures client.Valid() && Continues(old(client.run), client.run)
      ensures if ok then client.job == None && LastStep(client.run) == Some(ReleaseProject) else client.job == old(client.job)
      ensures client.quiet ==> client.objects == old(client.objects)
      ensures client.quiet && !ok ==> client.projects == old(client.projects)
      ensures client.quiet && client.reliable && IsStored(prq.fetched, old(client.projects)) ==>
                (ok <==> AdmitsProjectUpdate(old(client.projects), LetGo(prq.fetched)))
      ensures client.quiet && ok ==>
                prq.fetched.name in old(client.projects) && FinalizerRemoved(old(client.projects), client.projects, prq.fetched)
    {
      prq.meta.RemoveFinalizer(FINALIZER);
      ok := client.UpdateProject(prq);
    }

    method RecountAndWrite(prq: PrqCopy) returns (ok: bool)
      requires client.Valid() && StripDone(client.Now()) && client.job.value.snapshot == prq.fetched && !prq.fetched.deleting
      modifies client, prq
      ensures client.Valid() && Continues(old(client.run), client.run)
      ensures ok ==> client.job.None? && LastStep(client.run) == Some(WriteStatus)
      ensures !ok ==> client.job.Some? && client.job.value.snapshot == prq.fetched
      ensures client.quiet ==> client.objects == old(client.objects)
      ensures client.quiet && !ok ==> client.projects == old(client.projects)
      ensures client.quiet && client.reliable && IsStored(prq.fetched, old(client.projects)) ==> ok
      ensures client.quiet && ok ==>
                && prq.fetched.name in old(client.projects)
                && StatusWritten(old(client.projects), client.projects, prq.fetched.name,
                                 Fresh(prq.fetched, client.objects), prq.fetched.namespaces)
    {
      client.Advance(BeginCount, Some(client.job.value.(phase := Counting(0, map[]))), client.queue);
      ok := CountAll(prq);
      if !ok {
        return;
      }
      prq.recorded := prq.fetched.namespaces;
      ok := client.UpdateStatus(prq);
    }

    /** One turn of the worker: reconcile, and queue the name again on failure.  With
        tidy users the theorems about runs hold of the outcome: every project that is
        not queued is settled. */
    method Work(name: string) returns (ok: bool)
      requires client.Valid() && client.job.None? && name in client.queue
      modifies client
      ensures client.Valid() && client.job.None? && Continues(old(client.run), client.run)
      ensures !ok ==> name in client.queue
      ensures ok ==> Finished(LastStep(client.run), name)
      ensures client.quiet ==>
                if ok then QuietPass(old(client.projects), old(client.objects), client.projects, client.objects, name)
                else StoppedPass(old(client.projects), old(client.objects), client.projects, client.objects, name)
      ensures client.quiet && client.reliable ==> (ok <==> PassSucceeds(old(client.projects), old(client.objects), name))
      ensures client.rules.tidy ==>
                forall n :: n in client.projects && n !in client.queue ==> Settled(client.projects[n], client.objects)
    {
      ok := Reconcile(name);
      if !ok {
        client.Requeue();
      }
      if client.rules.tidy {
        CurrentRun(client.rules, client.run);
        assert forall n :: n in client.projects && n !in client.queue ==> Idle(client.Now(), n);
      }
    }

    /** The pass went through part of the objects to clean and touched no other. */
    ghost predicate StoppedAt(projects: ProjectStore, objects: Store, targets: seq<string>, done: set<ObjectKey>)
      reads client
    {
      && client.projects == projects
      && client.objects == StripKeys(projects, objects, done)
      && done <= Dirty(objects, Cells(targets))
    }

    /** The objects as they are after the first n cells were cleaned. */
    ghost predicate CleanedTo(projects: ProjectStore, objects: Store, targets: seq<string>, n: nat, done: set<ObjectKey>)
      reads client
    {
      && client.projects == projects
      && client.objects == StripKeys(projects, objects, done)
      && n <= |Cells(targets)|
      && done == Dirty(objects, Cells(targets)[..n])
    }
  }

  lemma PrefixIsDirty(objects: Store, targets: seq<string>, n: nat)
    requires n <= |Cells(targets)|
    ensures Dirty(objects, Cells(targets)[..n]) <= Dirty(objects, Cells(targets))
    ensures n == |Cells(targets)| ==> Cells(targets)[..n] == Cells(targets)
  {
    assert forall cell :: cell in Cells(targets)[..n] ==> cell in Cells(targets);
  }

  lemma CleanedNext(projects: ProjectStore, objects: Store, targets: seq<string>, n: nat, done: set<ObjectKey>, now: set<ObjectKey>,
                    all: bool)
    requires n < |Cells(targets)| && done == Dirty(objects, Cells(targets)[..n])
    requires now <= Dirty(StripKeys(projects, objects, done), [Cells(targets)[n]])
    requires all ==> now == Dirty(StripKeys(projects, objects, done), [Cells(targets)[n]])
    ensures StripKeys(projects, StripKeys(projects, objects, done), now) == StripKeys(projects, objects, done + now)
    ensures done + now <= Dirty(objects, Cells(targets))
    ensures all ==> done + now == Dirty(objects, Cells(targets)[..n + 1])
  {
    StripTwice(projects, objects, done, now);
    DirtyNext(projects, objects, targets, n, done);
    PrefixIsDirty(objects, targets, n + 1);
    PartOfUnion(done, now, Dirty(StripKeys(projects, objects, done), [Cells(targets)[n]]), Dirty(objects, Cells(targets)));
  }

  /** One more cell can be cleaned exactly if everything up to it can. */
  lemma StrippableNext(projects: ProjectStore, objects: Store, targets: seq<string>, n: nat, done: set<ObjectKey>)
    requires n < |Cells(targets)| && done == Dirty(objects, Cells(targets)[..n])
    ensures var now := StripKeys(projects, objects, done);
            var more := Dirty(now, [Cells(targets)[n]]);
            && (Strippable(projects, objects, done) && Strippable(projects, now, more) ==> Strippable(projects, objects, done + more))
            && (!Strippable(projects, now, more) ==> !Strippable(projects, objects, Dirty(objects, Cells(targets))))
  {
    var now := StripKeys(projects, objects, done);
    var more := Dirty(now, [Cells(targets)[n]]);
    StrippableLater(projects, objects, done, more);
    DirtyNext(projects, objects, targets, n, done);
    PrefixIsDirty(objects, targets, n + 1);
    assert more <= Dirty(objects, Cells(targets));
  }

  lemma DirtyNext(projects: ProjectStore, objects: Store, targets: seq<string>, n: nat, done: set<ObjectKey>)
    requires n < |Cells(targets)| && done == Dirty(objects, Cells(targets)[..n])
    ensures done + Dirty(StripKeys(projects, objects, done), [Cells(targets)[n]]) == Dirty(objects, Cells(targets)[..n + 1])
  {
    var cells := Cells(targets);
    DirtyLater(projects, objects, done, cells[..n], [cells[n]]);
    assert cells[..n] + [cells[n]] == cells[..n + 1];
  }

  lemma PartOfUnion<T>(a: set<T>, part: set<T>, b: set<T>, all: set<T>)
    requires part <= b && a + b <= all
    ensures a + part <= all
  {
  }

  // ---- What a whole pass does when nobody interferes ----

  ghost function DirtyIn(objects: Store, namespaces: set<string>): set<ObjectKey> {
    set k | k in objects && Annotated(objects[k]) && k.ns in namespaces
  }

  lemma DirtyIsDirtyIn(objects: Store, targets: seq<string>)
    ensures Dirty(objects, Cells(targets)) == DirtyIn(objects, Elements(targets))
  {
    CellsContain(targets);
  }

  /** A reconciliation ends well with the status written, the finalizer taken away,
      or the name found to be gone. */
  predicate Finished(last: Option<Step>, name: string) {
    last == Some(WriteStatus) || last == Some(ReleaseProject) || last == Some(Begin(name, []))
  }

  /** A completed pass: nothing for an unknown name; otherwise the annotated objects
      of the namespaces to clean are handed over, a live project records its
      namespaces and an exact recount, and a deleted one loses the finalizer and, if it
      was the last, leaves the store. */
  ghost predicate QuietPass(projects: ProjectStore, objects: Store, projects': ProjectStore, objects': Store, name: string) {
    if name !in projects then projects' == projects && objects' == objects
    else
      var p := projects[name];
      && objects' == StripKeys(projects, objects, DirtyIn(objects, ToClean(p)))
      && (!p.deleting ==> StatusWritten(projects, projects', name, Fresh(p, objects'), p.namespaces))
      && (p.deleting ==> FinalizerRemoved(projects, projects', p))
  }

  /** What a pass needs when no call fails by itself and nobody interferes: each annotated
      service to clean has a live project that limits services, in its namespace and
      below its limit, and a deleted project is let go by its own validator. */
  ghost predicate PassSucceeds(projects: ProjectStore, objects: Store, name: string) {
    name in projects ==>
      var p := projects[name];
      && (forall k :: k in DirtyIn(objects, ToClean(p)) && k.kind == Service ==>
            exists n :: Gates(projects, n, k) && Below(projects[n], Services))
      && (p.deleting ==> AdmitsProjectUpdate(projects, LetGo(p)))
  }

  lemma SucceedsIff(rules: Rules, run: Run, p: Prq)
    requires Execution(rules, run) && p.name in Last(run).projects && Last(run).projects[p.name] == p
    ensures var s := Last(run);
            PassSucceeds(s.projects, s.objects, p.name) <==>
              && Strippable(s.projects, s.objects, DirtyIn(s.objects, ToClean(p)))
              && (p.deleting ==> AdmitsProjectUpdate(s.projects, LetGo(p)))
  {
    var s := Last(run);
    WellformedRun(rules, run);
    forall k | k in s.objects
      ensures CanStrip(s.projects, k, s.objects[k]) <==>
              (k.kind == Service ==> exists n :: Gates(s.projects, n, k) && Below(s.projects[n], Services))
    {
      StripIsAdmittedIff(s.projects, k, s.objects[k]);
    }
  }

  /** A pass that failed: no project was written, and some of the annotated objects of
      the namespaces to clean were handed over. */
  ghost predicate StoppedPass(projects: ProjectStore, objects: Store, projects': ProjectStore, objects': Store, name: string) {
    && projects' == projects
    && exists done: set<ObjectKey> ::
         && objects' == StripKeys(projects, objects, done)
         && done <= if name in projects then DirtyIn(objects, ToClean(projects[name])) else {}
  }

  /** Crash-safe cleanup: the stopped pass left the project and its recorded
      namespaces as they were, so the retry cleans the same namespaces, and the two
      together do exactly what one undisturbed pass does. */
  lemma RetryIsOnePass(projects: ProjectStore, objects: Store, objects1: Store, projects2: ProjectStore, objects2: Store, name: string)
    requires StoppedPass(projects, objects, projects, objects1, name)
    requires QuietPass(projects, objects1, projects2, objects2, name)
    ensures QuietPass(projects, objects, projects2, objects2, name)
  {
    if name in projects {
      var dirty := ToClean(projects[name]);
      var done :| objects1 == StripKeys(projects, objects, done) && done <= DirtyIn(objects, dirty);
      StripTwice(projects, objects, done, DirtyIn(objects1, dirty));
      assert done + DirtyIn(objects1, dirty) == DirtyIn(objects, dirty);
    }
  }

  /** A second undisturbed pass over a live project changes nothing. */
  lemma SecondPassChangesNothing(projects: ProjectStore, objects: Store, projects1: ProjectStore, objects1: Store,
                                 projects2: ProjectStore, objects2: Store, name: string)
    requires name in projects && !projects[name].deleting
    requires QuietPass(projects, objects, projects1, objects1, name)
    requires QuietPass(projects1, objects1, projects2, objects2, name)
    ensures UpToDate(projects1[name], objects1)
    ensures projects2 == projects1 && objects2 == objects1
  {
    assert ToClean(projects1[name]) == {};
    assert DirtyIn(objects1, {}) == {};
    assert StripKeys(projects1, objects1, {}) == objects1;
  }
}
