/** Sums over the stored objects, independent of any order.  Everything the
    controller counts and everything the limits bound is one of these sums. */
module Tally {
  import opened ResourceModel

  type Store = map<ObjectKey, Object>

  /** Which objects to add up: those in the given namespaces that are counted
      under resource, either all of them or only the annotated ones. */
  datatype Selector = Selector(namespaces: set<string>, resource: ResourceName, everything: bool)

  function Share(sel: Selector, k: ObjectKey, o: Object): nat {
    if k.ns in sel.namespaces && KindOf(sel.resource) == Some(k.kind) && (sel.everything || Annotated(o))
    then Weight(sel.resource, o)
    else 0
  }

  ghost function Sum(objects: Store, sel: Selector): nat
    decreases objects.Keys
  {
    if objects.Keys == {} then 0
    else
      var k :| k in objects.Keys;
      Share(sel, k, objects[k]) + Sum(objects - {k}, sel)
  }

  /** What the annotated objects of a set of namespaces charge to r. */
  ghost function Usage(objects: Store, namespaces: set<string>, r: ResourceName): nat {
    Sum(objects, Selector(namespaces, r, false))
  }

  /** The same over all objects, annotated or not. */
  ghost function Total(objects: Store, namespaces: set<string>, r: ResourceName): nat {
    Sum(objects, Selector(namespaces, r, true))
  }

  /** Any object can be taken out first. */
  lemma {:induction false} SumPick(objects: Store, sel: Selector, k: ObjectKey)
    requires k in objects
    ensures Sum(objects, sel) == Share(sel, k, objects[k]) + Sum(objects - {k}, sel)
    decreases objects.Keys
  {
    var first :| first in objects.Keys && Sum(objects, sel) == Share(sel, first, objects[first]) + Sum(objects - {first}, sel);
    if first != k {
      SumPick(objects - {first}, sel, k);
      SumPick(objects - {k}, sel, first);
      assert objects - {first} - {k} == objects - {k} - {first};
    }
  }

  function ShareIn(sel: Selector, objects: Store, k: ObjectKey): nat {
    if k in objects then Share(sel, k, objects[k]) else 0
  }

  lemma SumPut(objects: Store, sel: Selector, k: ObjectKey, o: Object)
    ensures Sum(objects[k := o], sel) + ShareIn(sel, objects, k) == Sum(objects, sel) + Share(sel, k, o)
  {
    SumPick(objects[k := o], sel, k);
    if k in objects {
      SumPick(objects, sel, k);
      assert objects[k := o] - {k} == objects - {k};
    } else {
      assert objects[k := o] - {k} == objects;
    }
  }

  lemma SumDrop(objects: Store, sel: Selector, k: ObjectKey)
    ensures Sum(objects - {k}, sel) + ShareIn(sel, objects, k) == Sum(objects, sel)
  {
    if k in objects {
      SumPick(objects, sel, k);
    } else {
      assert objects - {k} == objects;
    }
  }

  /** Sums compare as their shares do. */
  lemma {:induction false} SumAtMost(objects: Store, a: Selector, b: Selector)
    requires forall k :: k in objects ==> Share(a, k, objects[k]) <= Share(b, k, objects[k])
    ensures Sum(objects, a) <= Sum(objects, b)
    decreases objects.Keys
  {
    if objects.Keys != {} {
      var k :| k in objects.Keys;
      SumPick(objects, a, k);
      SumPick(objects, b, k);
      SumAtMost(objects - {k}, a, b);
    }
  }

  lemma {:induction false} SumOfSum(objects: Store, a: Selector, b: Selector, c: Selector)
    requires forall k :: k in objects ==> Share(a, k, objects[k]) + Share(b, k, objects[k]) <= Share(c, k, objects[k])
    ensures Sum(objects, a) + Sum(objects, b) <= Sum(objects, c)
    decreases objects.Keys
  {
    if objects.Keys != {} {
      var k :| k in objects.Keys;
      SumPick(objects, a, k);
      SumPick(objects, b, k);
      SumPick(objects, c, k);
      SumOfSum(objects - {k}, a, b, c);
    }
  }

  lemma {:induction false} SumSplit(objects: Store, a: Selector, b: Selector, c: Selector)
    requires forall k :: k in objects ==> Share(a, k, objects[k]) + Share(b, k, objects[k]) == Share(c, k, objects[k])
    ensures Sum(objects, a) + Sum(objects, b) == Sum(objects, c)
    decreases objects.Keys
  {
    if objects.Keys != {} {
      var k :| k in objects.Keys;
      SumPick(objects, a, k);
      SumPick(objects, b, k);
      SumPick(objects, c, k);
      SumSplit(objects - {k}, a, b, c);
    }
  }

  /** A sum is zero only if every share is. */
  lemma SumZero(objects: Store, sel: Selector)
    requires Sum(objects, sel) == 0
    ensures forall k :: k in objects ==> Share(sel, k, objects[k]) == 0
  {
    forall k | k in objects ensures Share(sel, k, objects[k]) == 0 {
      SumPick(objects, sel, k);
    }
  }

  lemma {:induction false} SumNothing(objects: Store, sel: Selector)
    requires forall k :: k in objects ==> Share(sel, k, objects[k]) == 0
    ensures Sum(objects, sel) == 0
    decreases objects.Keys
  {
    if objects.Keys != {} {
      var k :| k in objects.Keys;
      SumPick(objects, sel, k);
      SumNothing(objects - {k}, sel);
    }
  }

  lemma UsageAdds(objects: Store, namespaces: set<string>, ns: string, r: ResourceName)
    requires ns !in namespaces
    ensures Usage(objects, namespaces + {ns}, r) == Usage(objects, namespaces, r) + Usage(objects, {ns}, r)
  {
    SumSplit(objects, Selector(namespaces, r, false), Selector({ns}, r, false), Selector(namespaces + {ns}, r, false));
  }

  /** An empty gate empties every key behind it: a project without charged
      pods has no compute usage, one without services no node ports. */
  lemma GateBounds(objects: Store, namespaces: set<string>, r: ResourceName, kind: Kind)
    requires KindOf(r) == Some(kind)
    requires Usage(objects, namespaces, GateKey(kind)) == 0
    ensures Usage(objects, namespaces, r) == 0
  {
    SumZero(objects, Selector(namespaces, GateKey(kind), false));
    SumNothing(objects, Selector(namespaces, r, false));
  }

  /** Node ports and load balancers together never outnumber the services. */
  lemma ServiceTypesBounded(objects: Store, namespaces: set<string>)
    ensures Usage(objects, namespaces, ServicesNodePorts) + Usage(objects, namespaces, ServicesLoadBalancers)
            <= Usage(objects, namespaces, Services)
  {
    SumOfSum(objects, Selector(namespaces, ServicesNodePorts, false), Selector(namespaces, ServicesLoadBalancers, false),
             Selector(namespaces, Services, false));
  }
}
