/** Decoding a registration manifest into resource objects. The byte-level
    YAML/JSON work is abstracted: a manifest is the sequence of documents its
    YAML reader yields, each document already classified by what decoding it
    produced. */
module Manifest {
  import opened Kube

  /** The identity a remote read or create uses: group/version/kind, namespace, name. */
  datatype ObjKey = ObjKey(gvk: string, namespace: string, name: string)

  /** A decoded (unstructured) resource object; `content` stands for the rest of it. */
  datatype Obj = Obj(gvk: string, namespace: string, name: string, content: string)

  function KeyOf(o: Obj): ObjKey {
    ObjKey(o.gvk, o.namespace, o.name)
  }

  /** What one document of the stream decodes to:
      - `Empty`: the JSON map is empty (a blank document or a bare separator);
      - `Bad`: reading, converting to JSON, unmarshalling or decoding failed;
      - `Single`: one object;
      - `List`: an UnstructuredList, with its items in order. */
  datatype Document =
    | Empty
    | Bad(error: Error)
    | Single(obj: Obj)
    | List(items: seq<Obj>)

  /** What toObjects returns for one document. */
  function DocumentObjects(d: Document): Outcome<seq<Obj>> {
    match d
    case Empty => Ok([])
    case Bad(e) => Err(e)
    case Single(o) => Ok([o])
    case List(items) => Ok(items)
  }

  /** Objects before a further outcome, or that outcome's error. */
  function Prepend(objs: seq<Obj>, rest: Outcome<seq<Obj>>): Outcome<seq<Obj>> {
    match rest
    case Err(e) => Err(e)
    case Ok(more) => Ok(objs + more)
  }

  /** What manifestToObjects returns for a document stream: the objects of all
      documents in order, or the error of the first document that fails. */
  function Flatten(docs: seq<Document>): Outcome<seq<Obj>> {
    if docs == [] then Ok([])
    else match DocumentObjects(docs[0])
      case Err(e) => Err(e)
      case Ok(objs) => Prepend(objs, Flatten(docs[1..]))
  }

  /** toObjects: an empty document yields nothing, a list yields copies of its
      items in order, any other document yields itself. */
  method ToObjects(d: Document) returns (r: Outcome<seq<Obj>>)
    ensures d.Empty? ==> r == Ok([])
    ensures d.Bad? ==> r == Err(d.error)
    ensures d.Single? ==> r == Ok([d.obj])
    ensures d.List? ==> r == Ok(d.items)
    ensures r == DocumentObjects(d)
  {
    match d
    case Empty => return Ok([]);
    case Bad(e) => return Err(e);
    case Single(o) => return Ok([o]);
    case List(items) =>
      var result: seq<Obj> := [];
      var i := 0;
      while i < |items|
        invariant 0 <= i <= |items|
        invariant result == items[..i]
      {
        var copy := items[i];
        result := result + [copy];
        i := i + 1;
      }
      assert items[..i] == items;
      return Ok(result);
  }

  /** manifestToObjects: reads documents in order and appends what each one
      yields; the first failing document ends the walk with its error and
      no partial result. */
  method ManifestToObjects(docs: seq<Document>) returns (r: Outcome<seq<Obj>>)
    ensures r == Flatten(docs)
  {
    var result: seq<Obj> := [];
    var i := 0;
    assert docs[0..] == docs;
    PrependNothing(Flatten(docs));
    while i < |docs|
      invariant 0 <= i <= |docs|
      invariant Flatten(docs) == Prepend(result, Flatten(docs[i..]))
    {
      assert docs[i..][0] == docs[i] && docs[i..][1..] == docs[i + 1..];
      var objs := ToObjects(docs[i]);
      if objs.Err? {
        return Err(objs.error);
      }
      PrependTwice(result, objs.value, Flatten(docs[i + 1..]));
      result := result + objs.value;
      i := i + 1;
    }
    assert docs[i..] == [];
    assert result + [] == result;
    return Ok(result);
  }

  lemma PrependNothing(rest: Outcome<seq<Obj>>)
    ensures Prepend([], rest) == rest
  {
    if rest.Ok? {
      assert [] + rest.value == rest.value;
    }
  }

  lemma PrependTwice(a: seq<Obj>, b: seq<Obj>, rest: Outcome<seq<Obj>>)
    ensures Prepend(a, Prepend(b, rest)) == Prepend(a + b, rest)
  {
    if rest.Ok? {
      assert a + (b + rest.value) == (a + b) + rest.value;
    }
  }

  /** The stream a + b is decoded as a, then b: the objects are concatenated and
      the first error wins. */
  lemma {:induction false} FlattenConcat(a: seq<Document>, b: seq<Document>)
    ensures Flatten(a + b) == (match Flatten(a)
                               case Err(e) => Err(e)
                               case Ok(objs) => Prepend(objs, Flatten(b)))
  {
    if a == [] {
      assert a + b == b;
      assert Prepend([], Flatten(b)) == Flatten(b) by {
        if Flatten(b).Ok? { assert [] + Flatten(b).value == Flatten(b).value; }
      }
    } else {
      assert (a + b)[0] == a[0] && (a + b)[1..] == a[1..] + b;
      FlattenConcat(a[1..], b);
      if DocumentObjects(a[0]).Ok? {
        var h := DocumentObjects(a[0]).value;
        if Flatten(a[1..]).Ok? {
          PrependTwice(h, Flatten(a[1..]).value, Flatten(b));
        }
      }
    }
  }

  /** Decoding fails exactly when some document fails, and then it fails with
      the error of the first such document. */
  lemma {:induction false} FlattenFailsAtFirstBad(docs: seq<Document>)
    ensures Flatten(docs).Err? <==> exists i :: 0 <= i < |docs| && docs[i].Bad?
    ensures forall i :: 0 <= i < |docs| && docs[i].Bad? && (forall j :: 0 <= j < i ==> !docs[j].Bad?) ==>
              Flatten(docs) == Err(docs[i].error)
  {
    if docs != [] {
      FlattenFailsAtFirstBad(docs[1..]);
      if !docs[0].Bad? {
        forall i | 0 <= i < |docs| && docs[i].Bad? && (forall j :: 0 <= j < i ==> !docs[j].Bad?)
          ensures Flatten(docs) == Err(docs[i].error)
        {
          assert docs[1..][i - 1] == docs[i];
          assert forall j :: 0 <= j < i - 1 ==> docs[1..][j] == docs[j + 1];
        }
        if exists i :: 0 <= i < |docs| && docs[i].Bad? {
          var i :| 0 <= i < |docs| && docs[i].Bad?;
          assert docs[1..][i - 1] == docs[i];
        }
        if exists i :: 0 <= i < |docs[1..]| && docs[1..][i].Bad? {
          var i :| 0 <= i < |docs[1..]| && docs[1..][i].Bad?;
          assert docs[i + 1] == docs[1..][i];
        }
      }
    }
  }

  /** An empty document anywhere in the stream is skipped without error. */
  lemma EmptyDocumentIsSkipped(a: seq<Document>, b: seq<Document>)
    ensures Flatten(a + [Empty] + b) == Flatten(a + b)
  {
    FlattenConcat(a + [Empty], b);
    FlattenConcat(a, [Empty]);
    FlattenConcat(a, b);
    assert Flatten([Empty]) == Ok([]) by {
      assert [Empty][1..] == [];
      PrependNothing(Flatten([]));
    }
    if Flatten(a).Ok? {
      assert Flatten(a).value + [] == Flatten(a).value;
    }
  }

  /** Each object as a document of its own. */
  function Singles(items: seq<Obj>): (docs: seq<Document>)
    ensures |docs| == |items|
    ensures forall i :: 0 <= i < |items| ==> docs[i] == Single(items[i])
  {
    if items == [] then [] else [Single(items[0])] + Singles(items[1..])
  }

  lemma {:induction false} FlattenSingles(items: seq<Obj>)
    ensures Flatten(Singles(items)) == Ok(items)
  {
    if items != [] {
      var docs := Singles(items);
      assert docs[1..] == Singles(items[1..]);
      FlattenSingles(items[1..]);
      assert [items[0]] + items[1..] == items;
    }
  }

  /** A list document decodes exactly as its items written as separate
      documents, in their original order. */
  lemma ListExpandsInOrder(a: seq<Document>, items: seq<Obj>, b: seq<Document>)
    ensures Flatten(a + [List(items)] + b) == Flatten(a + Singles(items) + b)
  {
    FlattenConcat(a + [List(items)], b);
    FlattenConcat(a, [List(items)]);
    FlattenConcat(a + Singles(items), b);
    FlattenConcat(a, Singles(items));
    FlattenSingles(items);
    assert Flatten([List(items)]) == Ok(items) by {
      assert [List(items)][1..] == [];
      assert items + [] == items;
    }
  }
}
