/** Accounting: the value that status.used is recomputed to, one cell
    (namespace, kind) at a time, and what that value means. */
module Accounting {
  import opened ResourceModel
  import opened Tally

  datatype Cell = Cell(ns: string, kind: Kind)

  /** The order in which every pass visits the kinds of one namespace. */
  function CellsOf(ns: string): (cells: seq<Cell>)
    ensures |cells| == 7
  {
    [Cell(ns, ConfigMap), Cell(ns, PersistentVolumeClaim), Cell(ns, Pod), Cell(ns, ReplicationController),
     Cell(ns, ResourceQuota), Cell(ns, Secret), Cell(ns, Service)]
  }

  function Cells(namespaces: seq<string>): seq<Cell> {
    if namespaces == [] then []
    else Cells(namespaces[..|namespaces| - 1]) + CellsOf(namespaces[|namespaces| - 1])
  }

  lemma {:induction false} CellsContain(namespaces: seq<string>)
    ensures forall cell :: cell in Cells(namespaces) <==> cell.ns in namespaces
  {
    if namespaces != [] {
      var n := |namespaces| - 1;
      CellsContain(namespaces[..n]);
      assert namespaces == namespaces[..n] + [namespaces[n]];
      forall cell: Cell ensures cell in CellsOf(namespaces[n]) <==> cell.ns == namespaces[n] {
        CellPosition(cell);
      }
    }
  }

  /** Where a kind stands among the seven cells of its namespace. */
  lemma CellPosition(cell: Cell)
    ensures cell in CellsOf(cell.ns)
  {
    var cells := CellsOf(cell.ns);
    match cell.kind
    case ConfigMap => assert cells[0] == cell;
    case PersistentVolumeClaim => assert cells[1] == cell;
    case Pod => assert cells[2] == cell;
    case ReplicationController => assert cells[3] == cell;
    case ResourceQuota => assert cells[4] == cell;
    case Secret => assert cells[5] == cell;
    case Service => assert cells[6] == cell;
  }

  /** A key is counted when it and its gate are both limited. */
  predicate Counted(hard: ResourceList, r: ResourceName) {
    r in hard && KindOf(r).Some? && GateKey(KindOf(r).value) in hard
  }

  /** Add one cell to the running totals.  A kind without its gate key is not
      even listed. */
  ghost function CountCell(used: ResourceList, hard: ResourceList, objects: Store, cell: Cell): ResourceList {
    if GateKey(cell.kind) !in hard then
      used
    else
      map r | r in used.Keys + hard.Keys && (r in used || KindOf(r) == Some(cell.kind)) ::
        Amount(used, r) + CellUsage(hard, objects, cell, r)
  }

  /** What a cell adds to r. */
  ghost function CellUsage(hard: ResourceList, objects: Store, cell: Cell, r: ResourceName): nat {
    if Counted(hard, r) && KindOf(r) == Some(cell.kind) then Usage(objects, {cell.ns}, r) else 0
  }

  ghost function Recount(hard: ResourceList, objects: Store, cells: seq<Cell>): ResourceList {
    if cells == [] then map[]
    else CountCell(Recount(hard, objects, cells[..|cells| - 1]), hard, objects, cells[|cells| - 1])
  }

  /** status.used of a project recounted against the given objects. */
  ghost function Fresh(p: Prq, objects: Store): ResourceList {
    Recount(p.hard, objects, Cells(p.namespaces))
  }

  lemma RecountNext(hard: ResourceList, objects: Store, cells: seq<Cell>, n: nat)
    requires n < |cells|
    ensures Recount(hard, objects, cells[..n + 1]) == CountCell(Recount(hard, objects, cells[..n]), hard, objects, cells[n])
  {
    assert cells[..n + 1][..n] == cells[..n];
  }

  // ---- What the recount is ----

  ghost function CellsUsage(hard: ResourceList, objects: Store, cells: seq<Cell>, r: ResourceName): nat {
    if cells == [] then 0
    else CellsUsage(hard, objects, cells[..|cells| - 1], r) + CellUsage(hard, objects, cells[|cells| - 1], r)
  }

  /** Usage added up namespace by namespace, repeated ones repeatedly. */
  ghost function UsageBySequence(objects: Store, namespaces: seq<string>, r: ResourceName): nat {
    if namespaces == [] then 0
    else UsageBySequence(objects, namespaces[..|namespaces| - 1], r) + Usage(objects, {namespaces[|namespaces| - 1]}, r)
  }

  lemma {:induction false} RecountCells(hard: ResourceList, objects: Store, cells: seq<Cell>, r: ResourceName)
    ensures Amount(Recount(hard, objects, cells), r) == CellsUsage(hard, objects, cells, r)
  {
    if cells != [] {
      var n := |cells| - 1;
      RecountCells(hard, objects, cells[..n], r);
      CountCellAdds(Recount(hard, objects, cells[..n]), hard, objects, cells[n], r);
    }
  }

  lemma CountCellAdds(used: ResourceList, hard: ResourceList, objects: Store, cell: Cell, r: ResourceName)
    ensures Amount(CountCell(used, hard, objects, cell), r) == Amount(used, r) + CellUsage(hard, objects, cell, r)
    ensures r in CountCell(used, hard, objects, cell) <==>
            r in used || (Counted(hard, r) && KindOf(r) == Some(cell.kind))
  {
  }

  lemma {:induction false} RecountCellKeys(hard: ResourceList, objects: Store, cells: seq<Cell>, r: ResourceName)
    ensures r in Recount(hard, objects, cells) <==>
            Counted(hard, r) && exists cell :: cell in cells && KindOf(r) == Some(cell.kind)
  {
    if cells != [] {
      var n := |cells| - 1;
      RecountCellKeys(hard, objects, cells[..n], r);
      CountCellAdds(Recount(hard, objects, cells[..n]), hard, objects, cells[n], r);
      assert forall cell :: cell in cells <==> cell in cells[..n] || cell == cells[n];
    }
  }

  lemma {:induction false} CellsUsageAppend(hard: ResourceList, objects: Store, a: seq<Cell>, b: seq<Cell>, r: ResourceName)
    ensures CellsUsage(hard, objects, a + b, r) == CellsUsage(hard, objects, a, r) + CellsUsage(hard, objects, b, r)
  {
    if b == [] {
      assert a + b == a;
    } else {
      var n := |b| - 1;
      assert (a + b)[..|a + b| - 1] == a + b[..n];
      CellsUsageAppend(hard, objects, a, b[..n], r);
    }
  }

  lemma CellsUsageNext(hard: ResourceList, objects: Store, cells: seq<Cell>, n: nat, r: ResourceName)
    requires n < |cells|
    ensures CellsUsage(hard, objects, cells[n..], r)
            == CellUsage(hard, objects, cells[n], r) + CellsUsage(hard, objects, cells[n + 1..], r)
  {
    assert cells[n..] == [cells[n]] + cells[n + 1..];
    CellsUsageAppend(hard, objects, [cells[n]], cells[n + 1..], r);
    assert CellsUsage(hard, objects, [cells[n]], r) == CellUsage(hard, objects, cells[n], r) by {
      assert [cells[n]][..0] == [];
    }
  }

  lemma OneNamespace(hard: ResourceList, objects: Store, ns: string, r: ResourceName)
    ensures CellsUsage(hard, objects, CellsOf(ns), r) == if Counted(hard, r) then Usage(objects, {ns}, r) else 0
  {
    var cells := CellsOf(ns);
    CellsUsageNext(hard, objects, cells, 0, r);
    CellsUsageNext(hard, objects, cells, 1, r);
    CellsUsageNext(hard, objects, cells, 2, r);
    LastFour(hard, objects, ns, r);
    assert cells[0..] == cells;
  }

  lemma LastFour(hard: ResourceList, objects: Store, ns: string, r: ResourceName)
    ensures CellsUsage(hard, objects, CellsOf(ns)[3..], r)
            == CellUsage(hard, objects, Cell(ns, ReplicationController), r) + CellUsage(hard, objects, Cell(ns, ResourceQuota), r)
               + CellUsage(hard, objects, Cell(ns, Secret), r) + CellUsage(hard, objects, Cell(ns, Service), r)
  {
    var cells := CellsOf(ns);
    CellsUsageNext(hard, objects, cells, 3, r);
    CellsUsageNext(hard, objects, cells, 4, r);
    CellsUsageNext(hard, objects, cells, 5, r);
    CellsUsageNext(hard, objects, cells, 6, r);
    assert cells[7..] == [];
  }

  lemma {:induction false} CellsUsageIsUsage(hard: ResourceList, objects: Store, namespaces: seq<string>, r: ResourceName)
    ensures CellsUsage(hard, objects, Cells(namespaces), r)
            == if Counted(hard, r) then UsageBySequence(objects, namespaces, r) else 0
  {
    if namespaces != [] {
      var n := |namespaces| - 1;
      CellsUsageIsUsage(hard, objects, namespaces[..n], r);
      CellsUsageAppend(hard, objects, Cells(namespaces[..n]), CellsOf(namespaces[n]), r);
      OneNamespace(hard, objects, namespaces[n], r);
    }
  }

  /** The nested loops compute, for every key, exactly the sum of the annotated
      non-terminal objects of the listed namespaces. */
  lemma RecountIsUsage(hard: ResourceList, objects: Store, namespaces: seq<string>, r: ResourceName)
    ensures Amount(Recount(hard, objects, Cells(namespaces)), r)
            == if Counted(hard, r) then UsageBySequence(objects, namespaces, r) else 0
  {
    RecountCells(hard, objects, Cells(namespaces), r);
    CellsUsageIsUsage(hard, objects, namespaces, r);
  }

  /** The recorded keys are exactly the limited keys whose gate is limited, and
      none at all when the project lists no namespace. */
  lemma RecountKeys(hard: ResourceList, objects: Store, namespaces: seq<string>, r: ResourceName)
    ensures r in Recount(hard, objects, Cells(namespaces)) <==> namespaces != [] && Counted(hard, r)
  {
    var cells := Cells(namespaces);
    RecountCellKeys(hard, objects, cells, r);
    CellsContain(namespaces);
    if namespaces != [] && Counted(hard, r) {
      assert Cell(namespaces[0], KindOf(r).value) in cells;
    }
    if cells != [] {
      assert cells[0] in cells;
    }
  }

  ghost predicate NoRepeats(namespaces: seq<string>) {
    forall i, j :: 0 <= i < j < |namespaces| ==> namespaces[i] != namespaces[j]
  }

  /** A namespace listed twice is counted twice: the recorded amount is never
      below the project's usage, and it is exact if and only if every repeated
      namespace charges nothing. */
  lemma {:induction false} SequenceVersusSet(objects: Store, namespaces: seq<string>, r: ResourceName)
    ensures Usage(objects, Elements(namespaces), r) <= UsageBySequence(objects, namespaces, r)
    ensures Usage(objects, Elements(namespaces), r) == UsageBySequence(objects, namespaces, r) <==>
            forall i, j :: 0 <= i < j < |namespaces| && namespaces[i] == namespaces[j] ==>
              Usage(objects, {namespaces[j]}, r) == 0
  {
    if namespaces == [] {
      assert Elements(namespaces) == {};
      SumNothing(objects, Selector({}, r, false));
    } else {
      var n := |namespaces| - 1;
      var front, last := namespaces[..n], namespaces[n];
      SequenceVersusSet(objects, front, r);
      assert Elements(namespaces) == Elements(front) + {last};
      if last in front {
        var i :| 0 <= i < n && front[i] == last;
        assert namespaces[i] == namespaces[n];
        assert Elements(namespaces) == Elements(front);
      } else {
        UsageAdds(objects, Elements(front), last, r);
      }
    }
  }

  lemma NoRepeatsIsExact(objects: Store, namespaces: seq<string>, r: ResourceName)
    requires NoRepeats(namespaces)
    ensures UsageBySequence(objects, namespaces, r) == Usage(objects, Elements(namespaces), r)
  {
    SequenceVersusSet(objects, namespaces, r);
  }

  /** Neither the order of the namespaces nor anything else about the listing
      matters: two duplicate-free listings of one set recount alike. */
  lemma RecountOrderFree(hard: ResourceList, objects: Store, a: seq<string>, b: seq<string>)
    requires NoRepeats(a) && NoRepeats(b) && Elements(a) == Elements(b)
    ensures Recount(hard, objects, Cells(a)) == Recount(hard, objects, Cells(b))
  {
    assert a == [] <==> b == [] by {
      if a != [] { assert a[0] in Elements(a); }
      if b != [] { assert b[0] in Elements(b); }
    }
    forall r: ResourceName
      ensures r in Recount(hard, objects, Cells(a)) <==> r in Recount(hard, objects, Cells(b))
      ensures Amount(Recount(hard, objects, Cells(a)), r) == Amount(Recount(hard, objects, Cells(b)), r)
    {
      RecountKeys(hard, objects, a, r);
      RecountKeys(hard, objects, b, r);
      RecountIsUsage(hard, objects, a, r);
      RecountIsUsage(hard, objects, b, r);
      NoRepeatsIsExact(objects, a, r);
      NoRepeatsIsExact(objects, b, r);
    }
    SameAmounts(Recount(hard, objects, Cells(a)), Recount(hard, objects, Cells(b)));
  }

  lemma SameAmounts(a: ResourceList, b: ResourceList)
    requires forall r :: r in a <==> r in b
    requires forall r: ResourceName :: Amount(a, r) == Amount(b, r)
    ensures a == b
  {
    forall r | r in a ensures a[r] == b[r] {
      assert Amount(a, r) == Amount(b, r);
    }
  }

  ghost predicate Aliases(a: ResourceName, b: ResourceName) {
    || (a == Cpu && b == RequestsCpu)
    || (a == Memory && b == RequestsMemory)
    || (a == Storage && b == RequestsStorage)
    || (a == EphemeralStorage && b == RequestsEphemeralStorage)
  }

  /** The two names of one request always record the same amount. */
  lemma AliasesAgree(hard: ResourceList, objects: Store, namespaces: seq<string>, a: ResourceName, b: ResourceName)
    requires Aliases(a, b)
    requires a in Recount(hard, objects, Cells(namespaces)) && b in Recount(hard, objects, Cells(namespaces))
    ensures Recount(hard, objects, Cells(namespaces))[a] == Recount(hard, objects, Cells(namespaces))[b]
  {
    RecountKeys(hard, objects, namespaces, a);
    RecountKeys(hard, objects, namespaces, b);
    RecountIsUsage(hard, objects, namespaces, a);
    RecountIsUsage(hard, objects, namespaces, b);
    AliasSequences(objects, namespaces, a, b);
  }

  lemma {:induction false} AliasSequences(objects: Store, namespaces: seq<string>, a: ResourceName, b: ResourceName)
    requires Aliases(a, b)
    ensures UsageBySequence(objects, namespaces, a) == UsageBySequence(objects, namespaces, b)
  {
    if namespaces != [] {
      var n := |namespaces| - 1;
      AliasSequences(objects, namespaces[..n], a, b);
      AliasUsage(objects, {namespaces[n]}, a, b);
    }
  }

  lemma AliasUsage(objects: Store, namespaces: set<string>, a: ResourceName, b: ResourceName)
    requires Aliases(a, b)
    ensures Usage(objects, namespaces, a) == Usage(objects, namespaces, b)
  {
    SumAtMost(objects, Selector(namespaces, a, false), Selector(namespaces, b, false));
    SumAtMost(objects, Selector(namespaces, b, false), Selector(namespaces, a, false));
  }

  // ---- What the recount depends on ----

  /** Two stores that agree on the usage of every listed namespace recount alike. */
  lemma {:induction false} RecountFrame(hard: ResourceList, before: Store, after: Store, cells: seq<Cell>)
    requires forall cell, r :: cell in cells ==> Usage(before, {cell.ns}, r) == Usage(after, {cell.ns}, r)
    ensures Recount(hard, before, cells) == Recount(hard, after, cells)
  {
    if cells != [] {
      var n := |cells| - 1;
      RecountFrame(hard, before, after, cells[..n]);
      assert cells[n] in cells;
      CountCellFrame(Recount(hard, before, cells[..n]), hard, before, after, cells[n]);
    }
  }

  lemma CountCellFrame(used: ResourceList, hard: ResourceList, before: Store, after: Store, cell: Cell)
    requires forall r :: Usage(before, {cell.ns}, r) == Usage(after, {cell.ns}, r)
    ensures CountCell(used, hard, before, cell) == CountCell(used, hard, after, cell)
  {
    forall r: ResourceName ensures CellUsage(hard, before, cell, r) == CellUsage(hard, after, cell, r) {
    }
  }

  /** Fewer charges, smaller totals. */
  lemma {:induction false} CellsUsageShrinks(hard: ResourceList, before: Store, after: Store, cells: seq<Cell>, r: ResourceName)
    requires forall cell :: cell in cells ==> Usage(after, {cell.ns}, r) <= Usage(before, {cell.ns}, r)
    ensures CellsUsage(hard, after, cells, r) <= CellsUsage(hard, before, cells, r)
  {
    if cells != [] {
      var n := |cells| - 1;
      CellsUsageShrinks(hard, before, after, cells[..n], r);
      assert cells[n] in cells;
    }
  }
}
