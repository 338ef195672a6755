/** What the create-or-update pass promises while no other client writes. */
module UpsertProperties {
  import opened Results
  import opened ApiServer
  import opened Manifest
  import opened KubeCli
  import opened ApplyProperties

  /** `c'` is `c` with the kept objects of the first n documents brought to their last bodies. */
  ghost predicate UpsertedPrefix(keep: Filter, docs: seq<Document>, c: Cluster, c': Cluster, n: nat) {
    && n <= |docs|
    && AllObjects(docs[..n])
    && c'.Contents() == c.Contents() + LastBodies(Selected(keep, docs[..n]))
    && (forall k :: k in c.objects && k !in Keys(keep, docs[..n]) ==> k in c'.objects && c'.objects[k] == c.objects[k])
    && (forall k :: k in c.objects ==> k in c'.objects && c'.objects[k].uid == c.objects[k].uid)
    && (forall k :: k in c.objects ==> c'.objects[k] == c.objects[k] || c.revision < c'.objects[k].version)
    && (forall k :: k in c'.objects && k !in c.objects ==> c.revision < c'.objects[k].uid)
    && c.revision <= c'.revision
    && (c.Valid() ==> c'.Valid())
  }

  /** No failure stops the pass at this document. */
  predicate UpsertAnswers(keep: Filter, d: Document, fault: Fault) {
    d.Object? && fault != DiscoveryFault && (keep(d.obj.kind) ==> fault != GetFault && fault != WriteFault)
  }

  /** The write that a create-or-update makes for one object. */
  function Upserted(c: Cluster, o: Unstructured): Cluster {
    if o.key in c.objects then Replace(c, o.key, o.body) else Put(c, o.key, o.body)
  }

  lemma UpsertedContents(c: Cluster, o: Unstructured)
    ensures Upserted(c, o).Contents() == c.Contents()[o.key := o.body]
    ensures Upserted(c, o).objects.Keys == c.objects.Keys + {o.key}
    ensures forall k :: k in c.objects && k != o.key ==> Upserted(c, o).objects[k] == c.objects[k]
    ensures Upserted(c, o).objects[o.key].uid == if o.key in c.objects then c.objects[o.key].uid else c.revision + 1
    ensures Upserted(c, o).revision == c.revision + 1
    ensures Upserted(c, o).objects[o.key].version == c.revision + 1 && Upserted(c, o).objects[o.key].body == o.body
    ensures c.Valid() ==> Upserted(c, o).Valid()
  {
  }

  lemma UpsertedBodiesStep(keep: Filter, docs: seq<Document>, c0: Cluster, c: Cluster, i: nat)
    requires i < |docs| && docs[i].Object? && keep(docs[i].obj.kind)
    requires c.Contents() == c0.Contents() + LastBodies(Selected(keep, docs[..i]))
    ensures Upserted(c, docs[i].obj).Contents() == c0.Contents() + LastBodies(Selected(keep, docs[..i + 1]))
  {
    hide LastBodies, Selected, KeysOf, Upserted, Cluster.Contents;
    var done, o := Selected(keep, docs[..i]), docs[i].obj;
    SelectedStep(keep, docs, i);
    FoldStep(done, o);
    UpsertedContents(c, o);
    MapAddAbsorbs(c0.Contents(), LastBodies(done), o.key, o.body);
  }

  lemma UpsertedPrefixStep(keep: Filter, docs: seq<Document>, c0: Cluster, c: Cluster, i: nat)
    requires i < |docs| && UpsertedPrefix(keep, docs, c0, c, i) && docs[i].Object?
    ensures UpsertedPrefix(keep, docs, c0, if keep(docs[i].obj.kind) then Upserted(c, docs[i].obj) else c, i + 1)
  {
    hide LastBodies, Selected, KeysOf, Keys, Upserted, Cluster.Contents;
    SelectedStep(keep, docs, i);
    assert docs[..i + 1] == docs[..i] + [docs[i]];
    KeysStep(keep, docs, i);
    if keep(docs[i].obj.kind) {
      UpsertedContents(c, docs[i].obj);
      UpsertedBodiesStep(keep, docs, c0, c, i);
    } else {
      assert Selected(keep, docs[..i]) + [] == Selected(keep, docs[..i]);
    }
  }

  lemma UpsertedNamesStep(keep: Filter, docs: seq<Document>, c0: Cluster, c: Cluster, i: nat)
    requires i < |docs| && UpsertedPrefix(keep, docs, c0, c, i) && docs[i].Object?
    ensures var before, after := LastNames(Met(c0.objects.Keys, Selected(keep, docs[..i]))),
                                 LastNames(Met(c0.objects.Keys, Selected(keep, docs[..i + 1])));
            var o := docs[i].obj;
            after == if keep(o.kind) && o.key in c.objects then before[o.key.namespace := o.key.name] else before
  {
    hide LastBodies, LastNames, Selected, KeysOf, Met, Cluster.Contents;
    var taken, done, o := c0.objects.Keys, Selected(keep, docs[..i]), docs[i].obj;
    SelectedLast(keep, docs[..i + 1]);
    assert docs[..i + 1][..i] == docs[..i];
    MetStep(taken, done, o);
    FoldStep(Met(taken, done), o);
    UpsertedKeys(keep, docs, c0, c, i);
    assert Met(taken, done) + [] == Met(taken, done);
  }

  lemma UpsertedKeys(keep: Filter, docs: seq<Document>, c0: Cluster, c: Cluster, i: nat)
    requires UpsertedPrefix(keep, docs, c0, c, i)
    ensures c.objects.Keys == c0.objects.Keys + Keys(keep, docs[..i])
  {
    hide LastBodies, Selected, KeysOf;
    LastBodiesKeys(Selected(keep, docs[..i]));
    assert c.objects.Keys == c.Contents().Keys;
    assert c0.objects.Keys == c0.Contents().Keys;
  }

  lemma {:induction false} UpsertFromResidue(keep: Filter, docs: seq<Document>, i: nat, faults: Faults,
                                             c0: Cluster, c: Cluster, made: Names) returns (n: nat)
    requires i <= |docs| && UpsertedPrefix(keep, docs, c0, c, i)
    requires made == LastNames(Met(c0.objects.Keys, Selected(keep, docs[..i])))
    ensures var out := UpsertFrom(keep, docs, i, faults, c, made);
            && UpsertedPrefix(keep, docs, c0, out.cluster, n)
            && (out.result.Ok? <==> n == |docs|)
            && (out.result.Ok? ==> out.result.value == LastNames(Met(c0.objects.Keys, Selected(keep, docs))))
            && (n < |docs| ==> !UpsertAnswers(keep, docs[n], faults(n)))
            && (n < |docs| ==> out.result == Err(Cause(docs[n], faults(n), Unavailable)))
            && (forall j :: i <= j < n ==> UpsertAnswers(keep, docs[j], faults(j)))
    decreases |docs| - i
  {
    hide UpsertedPrefix, LastNames, Met, Selected;
    n := i;
    if i == |docs| {
      assert docs[..i] == docs;
    } else {
      var resolved := Resolve(docs[i], faults(i));
      if resolved.Ok? {
        var o := resolved.value;
        UpsertedPrefixStep(keep, docs, c0, c, i);
        UpsertedNamesStep(keep, docs, c0, c, i);
        if !keep(o.kind) {
          n := UpsertFromResidue(keep, docs, i + 1, faults, c0, c, made);
        } else if faults(i) == NoFault || faults(i) == DiscoveryFault {
          var made' := if o.key in c.objects then made[o.key.namespace := o.key.name] else made;
          n := UpsertFromResidue(keep, docs, i + 1, faults, c0, Upserted(c, o), made');
        }
      }
    }
  }

  /**
   Whatever fails, a create-or-update pass has brought exactly the kept objects of a
   prefix of the stream to their last bodies; it has changed no other object and
   recreated none. It succeeds exactly when the prefix is the whole stream, and then
   reports, per namespace, the last object that it found existing: created ones are not
   recorded. It stops at the first document whose decoding, discovery, Get or write fails,
   and its error says which.
   */
  lemma UpsertPassResidue(keep: Filter, docs: seq<Document>, faults: Faults, c: Cluster) returns (n: nat)
    ensures var out := UpsertPass(keep, docs, faults, c);
            && UpsertedPrefix(keep, docs, c, out.cluster, n)
            && (out.result.Ok? <==> n == |docs|)
            && (out.result.Ok? ==> out.result.value == LastNames(Met(c.objects.Keys, Selected(keep, docs))))
            && (n < |docs| ==> !UpsertAnswers(keep, docs[n], faults(n)))
            && (n < |docs| ==> out.result == Err(Cause(docs[n], faults(n), Unavailable)))
            && (forall j :: 0 <= j < n ==> UpsertAnswers(keep, docs[j], faults(j)))
  {
    UpsertStart(keep, docs, c);
    n := UpsertFromResidue(keep, docs, 0, faults, c, c, map[]);
  }

  lemma UpsertStart(keep: Filter, docs: seq<Document>, c: Cluster)
    ensures UpsertedPrefix(keep, docs, c, c, 0)
    ensures Met(c.objects.Keys, Selected(keep, docs[..0])) == []
  {
  }

  /** What `LastBodies` says of a key: the body of its last occurrence. */
  lemma {:induction false} LastBodiesMeaning(objs: seq<Unstructured>, k: Key) returns (i: nat)
    requires k in LastBodies(objs)
    ensures i < |objs| && objs[i].key == k && objs[i].body == LastBodies(objs)[k]
    ensures forall j :: i < j < |objs| ==> objs[j].key != k
  {
    i := |objs| - 1;
    if objs[i].key != k {
      i := LastBodiesMeaning(objs[..|objs| - 1], k);
    }
  }

  /**
   A create-or-update pass alone succeeds exactly when every document is an object that
   discovery answers for, and the Get and the write of every kept one go through.
   */
  lemma UpsertSucceedsIff(keep: Filter, docs: seq<Document>, faults: Faults, c: Cluster)
    ensures UpsertPass(keep, docs, faults, c).result.Ok?
       <==> forall j :: 0 <= j < |docs| ==>
              && docs[j].Object? && faults(j) != DiscoveryFault
              && (keep(docs[j].obj.kind) ==> faults(j) != GetFault && faults(j) != WriteFault)
  {
    hide UpsertPass;
    var n := UpsertPassResidue(keep, docs, faults, c);
  }

  // ---------- convergence ----------

  /** The cluster after one pass per failure pattern, each over the whole stream. */
  function Attempts(keep: Filter, docs: seq<Document>, patterns: seq<Faults>, c: Cluster): Cluster {
    if patterns == [] then c
    else UpsertPass(keep, docs, patterns[|patterns| - 1], Attempts(keep, docs, patterns[..|patterns| - 1], c)).cluster
  }

  lemma MapAddCovers(m: map<Key, string>, part: map<Key, string>, whole: map<Key, string>)
    requires part.Keys <= whole.Keys
    ensures m + part + whole == m + whole
  {
  }

  /** No number of attempts, failed or not, changes what a completed pass would reach. */
  lemma {:induction false} AttemptsKeepTarget(keep: Filter, docs: seq<Document>, patterns: seq<Faults>, c: Cluster)
    ensures Attempts(keep, docs, patterns, c).Contents() + LastBodies(Selected(keep, docs))
         == c.Contents() + LastBodies(Selected(keep, docs))
  {
    if patterns != [] {
      hide Selected, LastBodies, KeysOf, UpsertPass, Cluster.Contents;
      var front, last := patterns[..|patterns| - 1], patterns[|patterns| - 1];
      AttemptsKeepTarget(keep, docs, front, c);
      var mid := Attempts(keep, docs, front, c);
      var n := UpsertPassResidue(keep, docs, last, mid);
      KeysOfPrefix(keep, docs, n);
      LastBodiesKeys(Selected(keep, docs[..n]));
      LastBodiesKeys(Selected(keep, docs));
      MapAddCovers(mid.Contents(), LastBodies(Selected(keep, docs[..n])), LastBodies(Selected(keep, docs)));
    }
  }

  /**
   After any number of attempts with any failures, the next successful pass reaches
   the contents that one uninterrupted pass from the start reaches, and every key
   outside the stream holds the very object it held at the start.
   */
  lemma RetriesConverge(keep: Filter, docs: seq<Document>, patterns: seq<Faults>, last: Faults, calm: Faults,
                        c: Cluster)
    requires UpsertPass(keep, docs, last, Attempts(keep, docs, patterns, c)).result.Ok?
    requires Faultless(calm)
    ensures var reached := UpsertPass(keep, docs, last, Attempts(keep, docs, patterns, c)).cluster;
            && UpsertPass(keep, docs, calm, c).result.Ok?
            && reached.Contents() == UpsertPass(keep, docs, calm, c).cluster.Contents()
            && reached.Contents() == c.Contents() + LastBodies(Selected(keep, docs))
            && (forall k :: k in c.objects && k !in Keys(keep, docs)
                        ==> k in reached.objects && reached.objects[k] == c.objects[k])
  {
    hide UpsertPass, Selected, LastBodies, KeysOf, Attempts, Cluster.Contents;
    var mid := Attempts(keep, docs, patterns, c);
    AttemptsKeepTarget(keep, docs, patterns, c);
    var n := UpsertPassResidue(keep, docs, last, mid);
    assert docs[..n] == docs;
    var m := UpsertPassResidue(keep, docs, calm, c);
    assert m == |docs|;
    assert docs[..m] == docs;
    AttemptsKeepOthers(keep, docs, patterns, c);
  }

  lemma {:induction false} AttemptsKeepOthers(keep: Filter, docs: seq<Document>, patterns: seq<Faults>, c: Cluster)
    ensures forall k :: k in c.objects && k !in Keys(keep, docs) ==>
              k in Attempts(keep, docs, patterns, c).objects
                  && Attempts(keep, docs, patterns, c).objects[k] == c.objects[k]
  {
    if patterns != [] {
      hide Selected, LastBodies, KeysOf, UpsertPass, Cluster.Contents;
      var front, last := patterns[..|patterns| - 1], patterns[|patterns| - 1];
      AttemptsKeepOthers(keep, docs, front, c);
      var n := UpsertPassResidue(keep, docs, last, Attempts(keep, docs, front, c));
      KeysOfPrefix(keep, docs, n);
    }
  }

  /** A successful pass over a stream that was already applied changes no content. */
  lemma RerunChangesNothing(keep: Filter, docs: seq<Document>, faults: Faults, faults': Faults, c: Cluster)
    requires var first := UpsertPass(keep, docs, faults, c);
             first.result.Ok? && UpsertPass(keep, docs, faults', first.cluster).result.Ok?
    ensures var first := UpsertPass(keep, docs, faults, c);
            UpsertPass(keep, docs, faults', first.cluster).cluster.Contents() == first.cluster.Contents()
  {
    hide UpsertPass, Selected, LastBodies, Cluster.Contents;
    var first := UpsertPass(keep, docs, faults, c);
    var n := UpsertPassResidue(keep, docs, faults, c);
    var m := UpsertPassResidue(keep, docs, faults', first.cluster);
    assert docs[..n] == docs && docs[..m] == docs;
    MapAddCovers(c.Contents(), LastBodies(Selected(keep, docs)), LastBodies(Selected(keep, docs)));
  }

  /**
   On a cluster where the stream is fresh, create and create-or-update leave the same
   contents; create reports the last name of each namespace, create-or-update nothing.
   */
  lemma CreateAndUpsertAgree(keep: Filter, docs: seq<Document>, faults: Faults, faults': Faults, c: Cluster)
    requires Fresh(c.objects.Keys, Selected(keep, docs))
    requires CreatePass(keep, docs, faults, c).result.Ok? && UpsertPass(keep, docs, faults', c).result.Ok?
    ensures CreatePass(keep, docs, faults, c).cluster.Contents()
              == UpsertPass(keep, docs, faults', c).cluster.Contents()
    ensures CreatePass(keep, docs, faults, c).result.value == LastNames(Selected(keep, docs))
    ensures UpsertPass(keep, docs, faults', c).result.value == map[]
  {
    hide CreatePass, UpsertPass, Selected, LastBodies, Fresh, CreateAll, Cluster.Contents;
    CreatePassSuccess(keep, docs, faults, c);
    CreateAllContents(c, Selected(keep, docs));
    var n := UpsertPassResidue(keep, docs, faults', c);
    assert docs[..n] == docs;
    MetNothingIff(c.objects.Keys, Selected(keep, docs));
  }

  /** What `LastNames` says of a namespace: the name of its last object. */
  lemma {:induction false} LastNamesMeaning(objs: seq<Unstructured>, ns: string) returns (i: nat)
    requires ns in LastNames(objs)
    ensures i < |objs| && objs[i].key.namespace == ns && objs[i].key.name == LastNames(objs)[ns]
    ensures forall j :: i < j < |objs| ==> objs[j].key.namespace != ns
  {
    i := |objs| - 1;
    if objs[i].key.namespace != ns {
      i := LastNamesMeaning(objs[..|objs| - 1], ns);
    }
  }

  /** A namespace is in the map as soon as one of its objects was created. */
  lemma {:induction false} LastNamesComplete(objs: seq<Unstructured>, i: nat)
    requires i < |objs|
    ensures objs[i].key.namespace in LastNames(objs)
    decreases |objs|
  {
    if i < |objs| - 1 {
      LastNamesComplete(objs[..|objs| - 1], i);
    }
  }
}
