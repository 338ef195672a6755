/** A YAML stream as the decoder and the discovery cache present it to the apply loops. */
module Manifest {
  import opened ApiServer

  datatype Unstructured = Unstructured(kind: string, key: Key, body: string)

  /**
   One document of the stream: undecodable, of a kind that discovery does not know,
   or an object whose resource discovery can name.
   */
  datatype Document =
    | Undecodable
    | Undiscoverable(kind: string)
    | Object(obj: Unstructured)

  type Filter = string -> bool

  predicate IsService(kind: string) { kind == "Service" }

  predicate IsWorkload(kind: string) { kind != "Service" && kind != "Ingress" }

  predicate IsUpdatableWorkload(kind: string) {
    kind != "Service" && kind != "Ingress" && kind != "Router"
  }

  predicate NotIngress(kind: string) { kind != "Ingress" }

  predicate AnyKind(kind: string) { true }

  predicate AllObjects(docs: seq<Document>) {
    forall i :: 0 <= i < |docs| ==> docs[i].Object?
  }

  /** The objects of the stream that a filter keeps, in stream order. */
  function Selected(keep: Filter, docs: seq<Document>): seq<Unstructured> {
    if docs == [] then []
    else
      var last := docs[|docs| - 1];
      Selected(keep, docs[..|docs| - 1])
      + if last.Object? && keep(last.obj.kind) then [last.obj] else []
  }

  function KeysOf(objs: seq<Unstructured>): set<Key> {
    if objs == [] then {} else KeysOf(objs[..|objs| - 1]) + {objs[|objs| - 1].key}
  }

  /** The keys of the objects that a filter keeps. */
  function Keys(keep: Filter, docs: seq<Document>): set<Key> {
    KeysOf(Selected(keep, docs))
  }

  /** No key occurs twice, and none is taken. */
  predicate Fresh(taken: set<Key>, objs: seq<Unstructured>) {
    objs == []
    || (Fresh(taken, objs[..|objs| - 1]) && objs[|objs| - 1].key !in taken + KeysOf(objs[..|objs| - 1]))
  }

  /** The body of the last object with each key. */
  function LastBodies(objs: seq<Unstructured>): map<Key, string> {
    if objs == [] then map[]
    else LastBodies(objs[..|objs| - 1])[objs[|objs| - 1].key := objs[|objs| - 1].body]
  }

  /** The name of the last object of each namespace. */
  function LastNames(objs: seq<Unstructured>): map<string, string> {
    if objs == [] then map[]
    else LastNames(objs[..|objs| - 1])[objs[|objs| - 1].key.namespace := objs[|objs| - 1].key.name]
  }

  /** The objects of the list whose key was taken or had occurred before, so that an upsert finds them. */
  function Met(taken: set<Key>, objs: seq<Unstructured>): seq<Unstructured> {
    if objs == [] then []
    else
      var front, last := objs[..|objs| - 1], objs[|objs| - 1];
      Met(taken, front) + if last.key in taken + KeysOf(front) then [last] else []
  }

  /** The cluster after the objects were created one after the other. */
  function CreateAll(c: Cluster, objs: seq<Unstructured>): Cluster {
    if objs == [] then c
    else Put(CreateAll(c, objs[..|objs| - 1]), objs[|objs| - 1].key, objs[|objs| - 1].body)
  }

  /** One more document adds at most its own object to the selection. */
  lemma SelectedStep(keep: Filter, docs: seq<Document>, i: nat)
    requires i < |docs|
    ensures Selected(keep, docs[..i + 1])
         == Selected(keep, docs[..i])
            + if docs[i].Object? && keep(docs[i].obj.kind) then [docs[i].obj] else []
  {
    assert docs[..i + 1][..i] == docs[..i];
  }

  /** Appending an object extends each of the folds by one step. */
  lemma FoldStep(objs: seq<Unstructured>, o: Unstructured)
    ensures LastBodies(objs + [o]) == LastBodies(objs)[o.key := o.body]
    ensures LastNames(objs + [o]) == LastNames(objs)[o.key.namespace := o.key.name]
    ensures KeysOf(objs + [o]) == KeysOf(objs) + {o.key}
  {
    assert (objs + [o])[..|objs|] == objs;
  }

  lemma FreshStep(taken: set<Key>, objs: seq<Unstructured>, o: Unstructured)
    ensures Fresh(taken, objs + [o]) <==> Fresh(taken, objs) && o.key !in taken + KeysOf(objs)
  {
    assert (objs + [o])[..|objs|] == objs;
  }

  lemma MetStep(taken: set<Key>, objs: seq<Unstructured>, o: Unstructured)
    ensures Met(taken, objs + [o]) == Met(taken, objs) + if o.key in taken + KeysOf(objs) then [o] else []
  {
    assert (objs + [o])[..|objs|] == objs;
  }

  /** Nothing is met exactly when everything is fresh. */
  lemma {:induction false} MetNothingIff(taken: set<Key>, objs: seq<Unstructured>)
    ensures Met(taken, objs) == [] <==> Fresh(taken, objs)
  {
    if objs != [] {
      MetNothingIff(taken, objs[..|objs| - 1]);
    }
  }

  lemma CreateAllStep(c: Cluster, objs: seq<Unstructured>, o: Unstructured)
    ensures CreateAll(c, objs + [o]) == Put(CreateAll(c, objs), o.key, o.body)
  {
    assert (objs + [o])[..|objs|] == objs;
  }

  /** Membership in the key set is occurrence in the list. */
  lemma {:induction false} KeysOfMember(objs: seq<Unstructured>, k: Key)
    ensures k in KeysOf(objs) <==> exists i :: 0 <= i < |objs| && objs[i].key == k
  {
    if objs != [] {
      var n := |objs| - 1;
      KeysOfMember(objs[..n], k);
      if k in KeysOf(objs[..n]) {
        var i :| 0 <= i < n && objs[..n][i].key == k;
        assert objs[i].key == k;
      } else if i :| 0 <= i < |objs| && objs[i].key == k {
        assert i < n ==> objs[..n][i].key == k;
      }
    }
  }

  /** Freshness is pairwise distinctness plus disjointness from the taken keys. */
  lemma {:induction false} FreshMeaning(taken: set<Key>, objs: seq<Unstructured>)
    ensures Fresh(taken, objs)
       <==> ((forall i :: 0 <= i < |objs| ==> objs[i].key !in taken)
             && (forall i, j :: 0 <= i < j < |objs| ==> objs[i].key != objs[j].key))
  {
    if objs != [] {
      var n := |objs| - 1;
      FreshMeaning(taken, objs[..n]);
      KeysOfMember(objs[..n], objs[n].key);
      assert forall i :: 0 <= i < n ==> objs[..n][i] == objs[i];
    }
  }

  /** A key is in the manifest exactly when a kept document carries it. */
  lemma {:induction false} KeysMember(keep: Filter, docs: seq<Document>, k: Key)
    ensures k in Keys(keep, docs)
       <==> exists i :: 0 <= i < |docs| && docs[i].Object? && keep(docs[i].obj.kind) && docs[i].obj.key == k
  {
    if docs != [] {
      hide Keys, Selected, KeysOf;
      var n := |docs| - 1;
      KeysMember(keep, docs[..n], k);
      KeysStep(keep, docs, n);
      assert docs[..n + 1] == docs;
      if k in Keys(keep, docs[..n]) {
        var i :| 0 <= i < n && docs[..n][i].Object? && keep(docs[..n][i].obj.kind) && docs[..n][i].obj.key == k;
        assert docs[i] == docs[..n][i];
      } else {
        assert forall i :: 0 <= i < n ==> docs[..n][i] == docs[i];
      }
    }
  }

  lemma KeysStep(keep: Filter, docs: seq<Document>, i: nat)
    requires i < |docs|
    ensures Keys(keep, docs[..i + 1])
         == Keys(keep, docs[..i]) + if docs[i].Object? && keep(docs[i].obj.kind) then {docs[i].obj.key} else {}
  {
    SelectedStep(keep, docs, i);
    var done := Selected(keep, docs[..i]);
    assert done + [] == done;
    if docs[i].Object? { FoldStep(done, docs[i].obj); }
  }

  /** What the filters of the passes keep, kind by kind. */
  lemma FiltersKeep(docs: seq<Document>, k: Key)
    ensures k in Keys(IsService, docs)
       <==> exists i :: 0 <= i < |docs| && docs[i].Object? && docs[i].obj.kind == "Service" && docs[i].obj.key == k
    ensures k in Keys(IsWorkload, docs)
       <==> exists i :: && 0 <= i < |docs| && docs[i].Object? && docs[i].obj.key == k
                        && docs[i].obj.kind !in {"Service", "Ingress"}
    ensures k in Keys(IsUpdatableWorkload, docs)
       <==> exists i :: && 0 <= i < |docs| && docs[i].Object? && docs[i].obj.key == k
                        && docs[i].obj.kind !in {"Service", "Ingress", "Router"}
    ensures k in Keys(NotIngress, docs)
       <==> exists i :: && 0 <= i < |docs| && docs[i].Object? && docs[i].obj.key == k && docs[i].obj.kind != "Ingress"
    ensures k in Keys(AnyKind, docs) <==> exists i :: 0 <= i < |docs| && docs[i].Object? && docs[i].obj.key == k
  {
    hide Keys;
    KeysMember(IsService, docs, k);
    KeysMember(IsWorkload, docs, k);
    KeysMember(IsUpdatableWorkload, docs, k);
    KeysMember(NotIngress, docs, k);
    KeysMember(AnyKind, docs, k);
  }

  /** A kept document that no later kept one shares its key with gives the key its last body. */
  lemma {:induction false} LastKeptBody(keep: Filter, docs: seq<Document>, i: nat)
    requires i < |docs| && docs[i].Object? && keep(docs[i].obj.kind)
    requires forall j :: i < j < |docs| && docs[j].Object? && keep(docs[j].obj.kind) ==>
               docs[j].obj.key != docs[i].obj.key
    ensures var bodies := LastBodies(Selected(keep, docs));
            docs[i].obj.key in bodies && bodies[docs[i].obj.key] == docs[i].obj.body
    decreases |docs|
  {
    hide Selected, LastBodies;
    var n := |docs| - 1;
    SelectedStep(keep, docs, n);
    assert docs[..n + 1] == docs;
    var front := Selected(keep, docs[..n]);
    if i < n {
      LastKeptBody(keep, docs[..n], i);
      assert front + [] == front;
    }
    if docs[n].Object? { FoldStep(front, docs[n].obj); }
  }

  /** A prefix of the stream has a subset of its keys. */
  lemma KeysOfPrefix(keep: Filter, docs: seq<Document>, n: nat)
    requires n <= |docs|
    ensures Keys(keep, docs[..n]) <= Keys(keep, docs)
  {
    forall k | k in Keys(keep, docs[..n]) ensures k in Keys(keep, docs) {
      KeysMember(keep, docs[..n], k);
      var i :| 0 <= i < n && docs[i].Object? && keep(docs[i].obj.kind) && docs[i].obj.key == k;
      KeysMember(keep, docs, k);
    }
  }

  /** The folded map is defined on exactly the keys of the list. */
  lemma {:induction false} LastBodiesKeys(objs: seq<Unstructured>)
    ensures LastBodies(objs).Keys == KeysOf(objs)
  {
    if objs != [] {
      LastBodiesKeys(objs[..|objs| - 1]);
    }
  }

  /**
   Creating a list of objects gives each of its keys a new incarnation and leaves
   every other object alone.
   */
  lemma {:induction false} CreateAllEffect(c: Cluster, objs: seq<Unstructured>)
    ensures CreateAll(c, objs).objects.Keys == c.objects.Keys + KeysOf(objs)
    ensures CreateAll(c, objs).revision == c.revision + |objs|
    ensures forall k :: k in KeysOf(objs) ==> c.revision < CreateAll(c, objs).objects[k].uid
    ensures forall k :: k in c.objects && k !in KeysOf(objs) ==> CreateAll(c, objs).objects[k] == c.objects[k]
    ensures c.Valid() ==> CreateAll(c, objs).Valid()
  {
    if objs != [] {
      CreateAllEffect(c, objs[..|objs| - 1]);
    }
  }

  /** Creating a list of objects leaves each key with its last body. */
  lemma {:induction false} CreateAllContents(c: Cluster, objs: seq<Unstructured>)
    ensures CreateAll(c, objs).Contents() == c.Contents() + LastBodies(objs)
  {
    if objs != [] {
      var front, o := objs[..|objs| - 1], objs[|objs| - 1];
      CreateAllContents(c, front);
      PutContents(CreateAll(c, front), o.key, o.body);
    }
  }

  lemma PutContents(c: Cluster, k: Key, body: string)
    ensures Put(c, k, body).Contents() == c.Contents()[k := body]
  {
  }
}
