/** The metadata of a decoded object and the helpers that change it in place. */
module Metadata {
  import opened Machine

  class ObjectMeta {
    var annotations: map<string, string>
    var finalizers: seq<string>

    constructor (annotations: map<string, string>, finalizers: seq<string>)
      ensures this.annotations == annotations && this.finalizers == finalizers
    {
      this.annotations := annotations;
      this.finalizers := finalizers;
    }

    method AddFinalizer(name: string)
      modifies this`finalizers
      ensures finalizers == if name in old(finalizers) then old(finalizers) else old(finalizers) + [name]
    {
      var found := false;
      for i := 0 to |finalizers|
        invariant found <==> name in finalizers[..i]
      {
        if finalizers[i] == name {
          found := true;
          break;
        }
      }
      if !found {
        finalizers := finalizers + [name];
      }
    }

    method RemoveFinalizer(name: string)
      modifies this`finalizers
      ensures finalizers == Without(old(finalizers), name)
    {
      var kept: seq<string> := [];
      for i := 0 to |finalizers|
        invariant kept + Without(finalizers[i..], name) == Without(finalizers, name)
      {
        assert finalizers[i..][1..] == finalizers[i + 1..];
        if finalizers[i] == name {
          continue;
        }
        kept := kept + [finalizers[i]];
      }
      finalizers := kept;
    }

    predicate IsAnnotationExists(key: string)
      reads this
    {
      key in annotations
    }

    method AddAnnotation(key: string, value: string)
      modifies this`annotations
      ensures annotations == old(annotations)[key := value]
    {
      annotations := annotations[key := value];
    }

    method RemoveAnnotation(key: string)
      modifies this`annotations
      ensures annotations == old(annotations) - {key}
    {
      annotations := annotations - {key};
    }
  }

  /** Removal looks at each name on its own and keeps the order: what is left of two lists
      is left of their concatenation. */
  lemma {:induction false} RemovalSplits(a: seq<string>, b: seq<string>, name: string)
    ensures Without(a + b, name) == Without(a, name) + Without(b, name)
    ensures forall other :: Without([other], name) == if other == name then [] else [other]
  {
    if a == [] {
      assert a + b == b;
    } else {
      assert (a + b)[1..] == a[1..] + b;
      RemovalSplits(a[1..], b, name);
    }
  }

  /** Adding and then removing a finalizer that was not there changes nothing, and
      removal takes exactly the one name away and keeps the order of the others. */
  lemma {:induction false} AddThenRemove(finalizers: seq<string>, name: string)
    requires name !in finalizers
    ensures Without(finalizers + [name], name) == finalizers
  {
    if finalizers != [] {
      assert (finalizers + [name])[1..] == finalizers[1..] + [name];
      AddThenRemove(finalizers[1..], name);
    }
  }
}
