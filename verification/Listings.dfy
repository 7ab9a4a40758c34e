/** Adding up one listing: the sums the controller builds object by object and key by
    key are those of the accounting. */
module Listings {
  import opened ResourceModel
  import opened Tally
  import opened Accounting
  import opened ApiServer

  // ---- A listing and its sums ----

  function Charge(r: ResourceName, o: Object): nat {
    if Annotated(o) then Weight(r, o) else 0
  }

  function Charges(items: seq<Item>, r: ResourceName): nat {
    if items == [] then 0 else Charges(items[..|items| - 1], r) + Charge(r, items[|items| - 1].value)
  }

  lemma ChargesNext(items: seq<Item>, n: nat, r: ResourceName)
    requires n < |items|
    ensures Charges(items[..n + 1], r) == Charges(items[..n], r) + Charge(r, items[n].value)
  {
    assert items[..n + 1][..n] == items[..n];
  }

  /** Adding up a listing, in whatever order it came, gives the usage of its cell. */
  lemma {:induction false} ChargesAreUsage(items: seq<Item>, objects: Store, cell: Cell, r: ResourceName)
    requires Lists(items, objects, cell) && KindOf(r) == Some(cell.kind)
    ensures Charges(items, r) == Usage(objects, {cell.ns}, r)
    decreases |items|
  {
    var sel := Selector({cell.ns}, r, false);
    if items == [] {
      SumNothing(objects, sel);
    } else {
      var n := |items| - 1;
      var k := items[n].key;
      SumDrop(objects, sel, k);
      FewerItems(items, objects, cell);
      ChargesAreUsage(items[..n], objects - {k}, cell, r);
    }
  }

  lemma FewerItems(items: seq<Item>, objects: Store, cell: Cell)
    requires Lists(items, objects, cell) && items != []
    ensures Lists(items[..|items| - 1], objects - {items[|items| - 1].key}, cell)
  {
    var n := |items| - 1;
    forall k | k in objects - {items[n].key} && Cell(k.ns, k.kind) == cell ensures Item(k, objects[k]) in items[..n] {
      assert Item(k, objects[k]) in items && Item(k, objects[k]) != items[n];
    }
  }

  /** The totals after some of the keys of a cell have been added. */
  ghost function Partial(used: ResourceList, hard: ResourceList, objects: Store, ns: string, keys: seq<ResourceName>): ResourceList {
    map r | r in used.Keys + hard.Keys && (r in used || r in keys) ::
      Amount(used, r) + if r in hard && r in keys then Usage(objects, {ns}, r) else 0
  }

  function AddIfLimited(used: ResourceList, hard: ResourceList, r: ResourceName, amount: nat): ResourceList {
    if r in hard then used[r := Amount(used, r) + amount] else used
  }

  lemma PartialNext(used: ResourceList, hard: ResourceList, objects: Store, ns: string, keys: seq<ResourceName>, r: ResourceName)
    requires r !in keys
    ensures Partial(used, hard, objects, ns, keys + [r])
            == AddIfLimited(Partial(used, hard, objects, ns, keys), hard, r, Usage(objects, {ns}, r))
  {
  }

  lemma PartialNone(used: ResourceList, hard: ResourceList, objects: Store, ns: string)
    ensures Partial(used, hard, objects, ns, []) == used
  {
  }

  lemma PartialAll(used: ResourceList, hard: ResourceList, objects: Store, cell: Cell, keys: seq<ResourceName>)
    requires GateKey(cell.kind) in hard
    requires forall r :: r in keys <==> KindOf(r) == Some(cell.kind)
    ensures Partial(used, hard, objects, cell.ns, keys) == CountCell(used, hard, objects, cell)
  {
  }

  // ---- The positions of the cells ----

  lemma {:induction false} CellAt(namespaces: seq<string>, i: nat, j: nat)
    requires i < |namespaces| && j < 7
    ensures 7 * i + j < |Cells(namespaces)| == 7 * |namespaces|
    ensures Cells(namespaces)[7 * i + j] == CellsOf(namespaces[i])[j]
  {
    var n := |namespaces| - 1;
    CellsCount(namespaces[..n]);
    if i < n {
      CellAt(namespaces[..n], i, j);
    }
  }

  lemma {:induction false} CellsCount(namespaces: seq<string>)
    ensures |Cells(namespaces)| == 7 * |namespaces|
  {
    if namespaces != [] {
      CellsCount(namespaces[..|namespaces| - 1]);
    }
  }
}
