/** The target cluster's API endpoint as seen by the manifest applier, and the
    "read, then create if not found" apply of decoded objects against it. */
module RemoteCluster {
  import opened Kube
  import opened Manifest

  /** Contexts of the errors createObject builds. */
  const GetObjectContext: string := "getting object from remote cluster"
  const CreateObjectContext: string := "creating object in remote cluster"

  /** The errors the endpoint returns for an injected failing read or create. */
  const ReadFailure: Error := Failure("read failed")
  const CreateFailure: Error := Failure("create failed")

  /** The remote objects after an apply, the create calls issued (in order)
      and the error the apply returned, if any. */
  datatype Applied = Applied(objects: map<ObjKey, Obj>, creates: seq<Obj>, err: Option<Error>)

  /** createObject on one object: a failing read is an error, an existing
      object is left alone, a missing one is created. */
  function CreateSpec(objects: map<ObjKey, Obj>, unreadable: set<ObjKey>, uncreatable: set<ObjKey>, o: Obj): Applied {
    var k := KeyOf(o);
    if k in unreadable then Applied(objects, [], Some(Wrapped(GetObjectContext, ReadFailure)))
    else if k in objects then Applied(objects, [], None)
    else if k in uncreatable then Applied(objects, [o], Some(Wrapped(CreateObjectContext, CreateFailure)))
    else Applied(objects[k := o], [o], None)
  }

  /** The creates issued earlier, before what the rest of the walk did. */
  function Then(earlier: seq<Obj>, rest: Applied): Applied {
    rest.(creates := earlier + rest.creates)
  }

  /** The loop of applyImportManifest: createObject on each object in order,
      stopping at the first error. */
  function ApplySpec(objects: map<ObjKey, Obj>, unreadable: set<ObjKey>, uncreatable: set<ObjKey>, objs: seq<Obj>): Applied
    decreases |objs|
  {
    if objs == [] then Applied(objects, [], None)
    else
      var first := CreateSpec(objects, unreadable, uncreatable, objs[0]);
      if first.err.Some? then first
      else Then(first.creates, ApplySpec(first.objects, unreadable, uncreatable, objs[1..]))
  }

  /** A remote endpoint: the objects it holds, keyed by (gvk, namespace, name),
      the keys whose reads fail with an error other than NotFound, and the keys
      whose creates fail. `creates` logs every create call it receives. */
  class Endpoint {
    var objects: map<ObjKey, Obj>
    const unreadable: set<ObjKey>
    const uncreatable: set<ObjKey>
    ghost var creates: seq<Obj>

    constructor (objects: map<ObjKey, Obj>, unreadable: set<ObjKey>, uncreatable: set<ObjKey>)
      ensures this.objects == objects && this.unreadable == unreadable && this.uncreatable == uncreatable
      ensures creates == []
    {
      this.objects := objects;
      this.unreadable := unreadable;
      this.uncreatable := uncreatable;
      creates := [];
    }

    /** Client.Get: the stored object, NotFound, or a read failure. */
    method Get(k: ObjKey) returns (r: Outcome<Obj>)
      ensures k in unreadable ==> r == Err(ReadFailure)
      ensures k !in unreadable && k in objects ==> r == Ok(objects[k])
      ensures k !in unreadable && k !in objects ==> r == Err(NotFound)
    {
      if k in unreadable {
        r := Err(ReadFailure);
      } else if k in objects {
        r := Ok(objects[k]);
      } else {
        r := Err(NotFound);
      }
    }

    /** Client.Create: stores the object unless its create is made to fail. */
    method Create(o: Obj) returns (err: Option<Error>)
      modifies this
      ensures creates == old(creates) + [o]
      ensures KeyOf(o) in uncreatable ==> err == Some(CreateFailure) && objects == old(objects)
      ensures KeyOf(o) !in uncreatable ==> err == None && objects == old(objects)[KeyOf(o) := o]
    {
      creates := creates + [o];
      if KeyOf(o) in uncreatable {
        err := Some(CreateFailure);
      } else {
        err := None;
        objects := objects[KeyOf(o) := o];
      }
    }

    /** createObject: read the object's key; if it is there do nothing, if it is
        NotFound create it, and return any other read error. */
    method CreateObject(o: Obj) returns (err: Option<Error>)
      modifies this
      ensures var a := CreateSpec(old(objects), unreadable, uncreatable, o);
              objects == a.objects && creates == old(creates) + a.creates && err == a.err
    {
      var got := Get(KeyOf(o));
      if got.Ok? {
        return None;
      }
      if !IsNotFound(got.error) {
        return Some(Wrapped(GetObjectContext, got.error));
      }
      var createErr := Create(o);
      if createErr.Some? {
        return Some(Wrapped(CreateObjectContext, createErr.value));
      }
      return None;
    }

    /** The loop of applyImportManifest over the decoded objects. */
    method Apply(objs: seq<Obj>) returns (err: Option<Error>)
      modifies this
      ensures var a := ApplySpec(old(objects), unreadable, uncreatable, objs);
              objects == a.objects && creates == old(creates) + a.creates && err == a.err
    {
      ghost var made: seq<Obj> := [];
      var i := 0;
      assert objs[0..] == objs;
      while i < |objs|
        invariant 0 <= i <= |objs|
        invariant creates == old(creates) + made
        invariant ApplySpec(old(objects), unreadable, uncreatable, objs)
                  == Then(made, ApplySpec(objects, unreadable, uncreatable, objs[i..]))
      {
        ghost var before := objects;
        ghost var step := CreateSpec(before, unreadable, uncreatable, objs[i]);
        ApplyFirst(before, unreadable, uncreatable, objs, i);
        var createErr := CreateObject(objs[i]);
        assert objects == step.objects && creates == old(creates) + made + step.creates && createErr == step.err;
        if createErr.Some? {
          assert ApplySpec(before, unreadable, uncreatable, objs[i..]) == step;
          return createErr;
        }
        ThenTwice(made, step.creates, ApplySpec(objects, unreadable, uncreatable, objs[i + 1..]));
        made := made + step.creates;
        i := i + 1;
      }
      assert objs[i..] == [];
      return None;
    }
  }

  /** One step of the walk over objs[i..]. */
  lemma ApplyFirst(objects: map<ObjKey, Obj>, unreadable: set<ObjKey>, uncreatable: set<ObjKey>, objs: seq<Obj>, i: nat)
    requires i < |objs|
    ensures var first := CreateSpec(objects, unreadable, uncreatable, objs[i]);
            ApplySpec(objects, unreadable, uncreatable, objs[i..])
            == if first.err.Some? then first
               else Then(first.creates, ApplySpec(first.objects, unreadable, uncreatable, objs[i + 1..]))
  {
  }

  lemma ThenTwice(a: seq<Obj>, b: seq<Obj>, rest: Applied)
    ensures Then(a, Then(b, rest)) == Then(a + b, rest)
  {
  }

  /** createObject's three outcomes: a read that fails with anything but
      NotFound is returned and nothing is created; an object already there
      causes no create and no error; a NotFound object gets exactly one create
      call, which stores it unless that create fails. */
  lemma CreateObjectCases(objects: map<ObjKey, Obj>, unreadable: set<ObjKey>, uncreatable: set<ObjKey>, o: Obj)
    ensures var a := CreateSpec(objects, unreadable, uncreatable, o);
            && (KeyOf(o) in unreadable ==> a == Applied(objects, [], Some(Wrapped(GetObjectContext, ReadFailure))))
            && (KeyOf(o) !in unreadable && KeyOf(o) in objects ==> a == Applied(objects, [], None))
            && (KeyOf(o) !in unreadable && KeyOf(o) !in objects ==>
                  && a.creates == [o]
                  && (KeyOf(o) !in uncreatable ==> a.objects == objects[KeyOf(o) := o] && a.err == None)
                  && (KeyOf(o) in uncreatable ==> a.objects == objects && a.err.Some?))
  {
  }

  /** Everything a walk does is what its first part does, then (if that part
      ended without error) what the second part does from there: objects
      created before a failure stay created. */
  lemma {:induction false} ApplyConcat(objects: map<ObjKey, Obj>, unreadable: set<ObjKey>, uncreatable: set<ObjKey>, a: seq<Obj>, b: seq<Obj>)
    ensures var first := ApplySpec(objects, unreadable, uncreatable, a);
            ApplySpec(objects, unreadable, uncreatable, a + b)
            == if first.err.Some? then first
               else Then(first.creates, ApplySpec(first.objects, unreadable, uncreatable, b))
    decreases |a|
  {
    if a == [] {
      assert a + b == b;
      var rest := ApplySpec(objects, unreadable, uncreatable, b);
      assert [] + rest.creates == rest.creates;
    } else {
      assert (a + b)[0] == a[0] && (a + b)[1..] == a[1..] + b;
      var step := CreateSpec(objects, unreadable, uncreatable, a[0]);
      if step.err.None? {
        ApplyConcat(step.objects, unreadable, uncreatable, a[1..], b);
        var mid := ApplySpec(step.objects, unreadable, uncreatable, a[1..]);
        if mid.err.None? {
          var rest := ApplySpec(mid.objects, unreadable, uncreatable, b);
          assert step.creates + (mid.creates + rest.creates) == (step.creates + mid.creates) + rest.creates;
        }
      }
    }
  }

  /** An apply never removes or changes an object that was there: it only adds
      objects, and only ones whose key was absent. Every create call was for
      an object whose key was absent and readable. */
  lemma {:induction false} ApplyOnlyAdds(objects: map<ObjKey, Obj>, unreadable: set<ObjKey>, uncreatable: set<ObjKey>, objs: seq<Obj>)
    ensures var a := ApplySpec(objects, unreadable, uncreatable, objs);
            && objects.Keys <= a.objects.Keys
            && (forall k :: k in objects ==> a.objects[k] == objects[k])
            && (forall k :: k in a.objects && k !in objects ==> exists o :: o in a.creates && KeyOf(o) == k)
            && (forall o :: o in a.creates ==> KeyOf(o) !in objects && KeyOf(o) !in unreadable)
    decreases |objs|
  {
    if objs != [] {
      var step := CreateSpec(objects, unreadable, uncreatable, objs[0]);
      if step.err.None? {
        ApplyOnlyAdds(step.objects, unreadable, uncreatable, objs[1..]);
        var rest := ApplySpec(step.objects, unreadable, uncreatable, objs[1..]);
        var a := ApplySpec(objects, unreadable, uncreatable, objs);
        assert a.creates == step.creates + rest.creates;
        forall k | k in a.objects && k !in objects
          ensures exists o :: o in a.creates && KeyOf(o) == k
        {
          if k in step.objects {
            assert KeyOf(objs[0]) == k && objs[0] in a.creates;
          } else {
            var o :| o in rest.creates && KeyOf(o) == k;
            assert o in a.creates;
          }
        }
      }
    }
  }

  /** After an apply that returned no error, every object's key is present on
      the endpoint and readable. */
  lemma {:induction false} ApplySuccessCoversAll(objects: map<ObjKey, Obj>, unreadable: set<ObjKey>, uncreatable: set<ObjKey>, objs: seq<Obj>)
    requires ApplySpec(objects, unreadable, uncreatable, objs).err.None?
    ensures forall o :: o in objs ==> KeyOf(o) in ApplySpec(objects, unreadable, uncreatable, objs).objects && KeyOf(o) !in unreadable
    decreases |objs|
  {
    if objs != [] {
      var step := CreateSpec(objects, unreadable, uncreatable, objs[0]);
      ApplySuccessCoversAll(step.objects, unreadable, uncreatable, objs[1..]);
      ApplyOnlyAdds(step.objects, unreadable, uncreatable, objs[1..]);
    }
  }

  /** When every object is already present and readable, an apply does
      nothing at all. */
  lemma {:induction false} ApplyAllPresentIsNoop(objects: map<ObjKey, Obj>, unreadable: set<ObjKey>, uncreatable: set<ObjKey>, objs: seq<Obj>)
    requires forall o :: o in objs ==> KeyOf(o) in objects && KeyOf(o) !in unreadable
    ensures ApplySpec(objects, unreadable, uncreatable, objs) == Applied(objects, [], None)
  {
    if objs != [] {
      assert objs[0] in objs;
      ApplyAllPresentIsNoop(objects, unreadable, uncreatable, objs[1..]);
    }
  }

  /** Applying the same objects a second time, after a first apply returned no
      error, issues no create and changes nothing. */
  lemma ApplyIsIdempotent(objects: map<ObjKey, Obj>, unreadable: set<ObjKey>, uncreatable: set<ObjKey>, objs: seq<Obj>)
    requires ApplySpec(objects, unreadable, uncreatable, objs).err.None?
    ensures var once := ApplySpec(objects, unreadable, uncreatable, objs).objects;
            ApplySpec(once, unreadable, uncreatable, objs) == Applied(once, [], None)
  {
    ApplySuccessCoversAll(objects, unreadable, uncreatable, objs);
    ApplyAllPresentIsNoop(ApplySpec(objects, unreadable, uncreatable, objs).objects, unreadable, uncreatable, objs);
  }
}
