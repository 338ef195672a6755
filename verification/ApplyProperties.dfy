/** What the three passes promise, for every stream, filter and failure pattern. */
module ApplyProperties {
  import opened Results
  import opened ApiServer
  import opened Manifest
  import opened KubeCli

  // ---------- the create pass ----------

  /**
   `c'` is `c` with the kept objects of the first n documents created, none of
   which existed before.
   */
  ghost predicate CreatedPrefix(keep: Filter, docs: seq<Document>, c: Cluster, c': Cluster, n: nat) {
    && n <= |docs|
    && AllObjects(docs[..n])
    && Fresh(c.objects.Keys, Selected(keep, docs[..n]))
    && c' == CreateAll(c, Selected(keep, docs[..n]))
  }

  /** The n-th document can be created after the ones before it. */
  predicate Creatable(keep: Filter, d: Document, c: Cluster) {
    d.Object? && (keep(d.obj.kind) ==> d.obj.key !in c.objects)
  }

  /** No failure stops the create pass at this document: discovery answers, and the create if there is one. */
  predicate CreateAnswers(keep: Filter, d: Document, fault: Fault) {
    fault != DiscoveryFault && (d.Object? && keep(d.obj.kind) ==> fault != WriteFault)
  }

  /** A clean prefix grows by a document exactly when that document is creatable. */
  lemma CreatedPrefixStep(keep: Filter, docs: seq<Document>, c0: Cluster, c: Cluster, i: nat)
    requires i < |docs| && CreatedPrefix(keep, docs, c0, c, i)
    ensures Creatable(keep, docs[i], c)
        ==> CreatedPrefix(keep, docs, c0,
                          if keep(docs[i].obj.kind) then Put(c, docs[i].obj.key, docs[i].obj.body) else c, i + 1)
    ensures AllObjects(docs[..i + 1]) && Fresh(c0.objects.Keys, Selected(keep, docs[..i + 1]))
       <==> Creatable(keep, docs[i], c)
    ensures Creatable(keep, docs[i], c) && keep(docs[i].obj.kind)
        ==> LastNames(Selected(keep, docs[..i + 1]))
            == LastNames(Selected(keep, docs[..i]))[docs[i].obj.key.namespace := docs[i].obj.key.name]
    ensures Creatable(keep, docs[i], c) && !keep(docs[i].obj.kind)
        ==> Selected(keep, docs[..i + 1]) == Selected(keep, docs[..i])
  {
    hide Selected, KeysOf, LastNames, CreateAll, Fresh;
    var done := Selected(keep, docs[..i]);
    SelectedStep(keep, docs, i);
    assert done + [] == done;
    assert docs[..i + 1] == docs[..i] + [docs[i]];
    assert docs[..i + 1][i] == docs[i];
    if docs[i].Object? {
      FoldStep(done, docs[i].obj);
      FreshStep(c0.objects.Keys, done, docs[i].obj);
      CreateAllStep(c0, done, docs[i].obj);
      CreateAllEffect(c0, done);
    }
  }

  /** The create pass, resumed after a clean prefix, stops after a longer clean prefix. */
  lemma {:induction false} CreateFromResidue(keep: Filter, docs: seq<Document>, i: nat, faults: Faults,
                                             c0: Cluster, c: Cluster, made: Names) returns (n: nat)
    requires i <= |docs| && CreatedPrefix(keep, docs, c0, c, i)
    requires made == LastNames(Selected(keep, docs[..i]))
    ensures CreatedPrefix(keep, docs, c0, CreateFrom(keep, docs, i, faults, c, made).cluster, n)
    ensures CreateFrom(keep, docs, i, faults, c, made).result.Ok? <==> n == |docs|
    ensures CreateFrom(keep, docs, i, faults, c, made).result.Ok?
        ==> CreateFrom(keep, docs, i, faults, c, made).result.value == LastNames(Selected(keep, docs))
    ensures n < |docs| && CreateAnswers(keep, docs[n], faults(n))
        ==> !(AllObjects(docs[..n + 1]) && Fresh(c0.objects.Keys, Selected(keep, docs[..n + 1])))
    ensures forall j :: i <= j < n ==> CreateAnswers(keep, docs[j], faults(j))
    ensures n < |docs| ==>
              CreateFrom(keep, docs, i, faults, c, made).result
              == Err(Cause(docs[n], faults(n), if faults(n) == WriteFault then Unavailable else AlreadyExists))
    decreases |docs| - i
  {
    hide CreatedPrefix, Selected, LastNames, CreateAll, Fresh, KeysOf;
    n := i;
    if i == |docs| {
      assert docs[..i] == docs;
    } else {
      CreatedPrefixStep(keep, docs, c0, c, i);
      var resolved := Resolve(docs[i], faults(i));
      if resolved.Ok? {
        var o := resolved.value;
        if !keep(o.kind) {
          n := CreateFromResidue(keep, docs, i + 1, faults, c0, c, made);
        } else if CreateCall(c, o, faults(i)).error.None? {
          n := CreateFromResidue(keep, docs, i + 1, faults, c0, Put(c, o.key, o.body),
                                 made[o.key.namespace := o.key.name]);
        }
      }
    }
  }

  /**
   Whatever fails, a create pass leaves its start plus the kept objects of a prefix
   of the stream. It succeeds exactly when that prefix is the whole stream, and then
   reports the last created name of each namespace. It stops at the first failure that
   concerns it, or where the prefix cannot grow.
   */
  lemma CreatePassResidue(keep: Filter, docs: seq<Document>, faults: Faults, c: Cluster) returns (n: nat)
    ensures CreatedPrefix(keep, docs, c, CreatePass(keep, docs, faults, c).cluster, n)
    ensures CreatePass(keep, docs, faults, c).result.Ok? <==> n == |docs|
    ensures CreatePass(keep, docs, faults, c).result.Ok?
        ==> CreatePass(keep, docs, faults, c).result.value == LastNames(Selected(keep, docs))
    ensures n < |docs| && CreateAnswers(keep, docs[n], faults(n))
        ==> !(AllObjects(docs[..n + 1]) && Fresh(c.objects.Keys, Selected(keep, docs[..n + 1])))
    ensures forall j :: 0 <= j < n ==> CreateAnswers(keep, docs[j], faults(j))
    ensures n < |docs| ==>
              CreatePass(keep, docs, faults, c).result
              == Err(Cause(docs[n], faults(n), if faults(n) == WriteFault then Unavailable else AlreadyExists))
  {
    n := CreateFromResidue(keep, docs, 0, faults, c, c, map[]);
  }

  /** What a successful create pass did. */
  lemma CreatePassSuccess(keep: Filter, docs: seq<Document>, faults: Faults, c: Cluster)
    requires CreatePass(keep, docs, faults, c).result.Ok?
    ensures AllObjects(docs) && Fresh(c.objects.Keys, Selected(keep, docs))
    ensures CreatePass(keep, docs, faults, c)
         == Outcome(CreateAll(c, Selected(keep, docs)), Ok(LastNames(Selected(keep, docs))))
  {
    var n := CreatePassResidue(keep, docs, faults, c);
    assert docs[..n] == docs;
  }

  /** The selection of a prefix is a prefix of the selection. */
  lemma {:induction false} SelectedPrefix(keep: Filter, docs: seq<Document>, n: nat)
    requires n <= |docs|
    ensures Selected(keep, docs[..n]) <= Selected(keep, docs)
    decreases |docs|
  {
    if n < |docs| {
      SelectedPrefix(keep, docs[..|docs| - 1], n);
      assert docs[..|docs| - 1][..n] == docs[..n];
    } else {
      assert docs[..n] == docs;
    }
  }

  lemma {:induction false} FreshPrefix(taken: set<Key>, some: seq<Unstructured>, all: seq<Unstructured>)
    requires some <= all && Fresh(taken, all)
    ensures Fresh(taken, some)
  {
    if some != all {
      FreshPrefix(taken, some, all[..|all| - 1]);
    }
  }

  /**
   A create pass succeeds exactly when every document, filtered ones included, decodes and
   is discoverable, the kept keys are distinct and free, discovery answers for every
   document and every create of a kept one goes through.
   */
  lemma CreateSucceedsIff(keep: Filter, docs: seq<Document>, faults: Faults, c: Cluster)
    ensures CreatePass(keep, docs, faults, c).result.Ok?
       <==> && AllObjects(docs) && Fresh(c.objects.Keys, Selected(keep, docs))
            && forall i :: 0 <= i < |docs| ==>
                 faults(i) != DiscoveryFault && (keep(docs[i].obj.kind) ==> faults(i) != WriteFault)
  {
    hide CreatePass, Fresh, Selected;
    var n := CreatePassResidue(keep, docs, faults, c);
    if CreatePass(keep, docs, faults, c).result.Ok? {
      CreatePassSuccess(keep, docs, faults, c);
      forall i | 0 <= i < |docs|
        ensures faults(i) != DiscoveryFault && (keep(docs[i].obj.kind) ==> faults(i) != WriteFault)
      {
        assert CreateAnswers(keep, docs[i], faults(i));
      }
    } else if AllObjects(docs) && Fresh(c.objects.Keys, Selected(keep, docs))
              && CreateAnswers(keep, docs[n], faults(n)) {
      SelectedPrefix(keep, docs, n + 1);
      FreshPrefix(c.objects.Keys, Selected(keep, docs[..n + 1]), Selected(keep, docs));
    }
  }

  /** Without API failures only the documents decide. */
  lemma CalmCreateSucceedsIff(keep: Filter, docs: seq<Document>, faults: Faults, c: Cluster)
    requires Faultless(faults)
    ensures CreatePass(keep, docs, faults, c).result.Ok?
       <==> AllObjects(docs) && Fresh(c.objects.Keys, Selected(keep, docs))
  {
    hide CreatePass, Fresh, Selected;
    CreateSucceedsIff(keep, docs, faults, c);
  }

  // ---------- two passes equal one ----------

  lemma MapAddAbsorbs(m: map<Key, string>, m': map<Key, string>, k: Key, body: string)
    ensures m + m'[k := body] == (m + m')[k := body]
    ensures k !in m' ==> m[k := body] + m' == (m + m')[k := body]
  {
  }

  lemma MapAddAssociates(m: map<Key, string>, m': map<Key, string>, m'': map<Key, string>)
    ensures m + m' + m'' == m + (m' + m'')
  {
  }

  lemma {:induction false} FreshTaken(taken: set<Key>, objs: seq<Unstructured>, k: Key)
    ensures Fresh(taken + {k}, objs) <==> Fresh(taken, objs) && k !in KeysOf(objs)
  {
    if objs != [] {
      FreshTaken(taken, objs[..|objs| - 1], k);
    }
  }

  lemma {:induction false} FreshDisjoint(taken: set<Key>, objs: seq<Unstructured>)
    requires Fresh(taken, objs)
    ensures taken !! KeysOf(objs)
  {
    if objs != [] {
      FreshDisjoint(taken, objs[..|objs| - 1]);
    }
  }

  /** How the last document of a stream enters a selection. */
  lemma SelectedLast(keep: Filter, docs: seq<Document>)
    requires docs != []
    ensures var front, last := Selected(keep, docs[..|docs| - 1]), docs[|docs| - 1];
            Selected(keep, docs) == if last.Object? && keep(last.obj.kind) then front + [last.obj] else front
  {
    var front := Selected(keep, docs[..|docs| - 1]);
    assert front + [] == front;
  }

  /** How one more object enters the split, given what is known of the objects before it. */
  lemma SplitStep(taken: set<Key>, services: seq<Unstructured>, workloads: seq<Unstructured>, both: seq<Unstructured>,
                  o: Unstructured)
    requires KeysOf(both) == KeysOf(services) + KeysOf(workloads)
    requires Fresh(taken, both) <==> Fresh(taken, services) && Fresh(taken + KeysOf(services), workloads)
    ensures KeysOf(both + [o]) == KeysOf(services + [o]) + KeysOf(workloads)
              == KeysOf(services) + KeysOf(workloads + [o])
    ensures Fresh(taken, both + [o]) <==>
              Fresh(taken, services + [o]) && Fresh(taken + KeysOf(services + [o]), workloads)
    ensures Fresh(taken, both + [o]) <==> Fresh(taken, services) && Fresh(taken + KeysOf(services), workloads + [o])
  {
    hide KeysOf, Fresh, LastBodies, LastNames;
    FoldStep(both, o);
    FoldStep(services, o);
    FoldStep(workloads, o);
    FreshStep(taken, both, o);
    FreshStep(taken, services, o);
    FreshStep(taken + KeysOf(services), workloads, o);
    FreshTaken(taken + KeysOf(services), workloads, o.key);
    assert taken + KeysOf(services) + {o.key} == taken + KeysOf(services + [o]);
  }

  /** The Service pass and the workload pass split the stream without its Ingress objects. */
  lemma {:induction false} SplitStream(docs: seq<Document>, taken: set<Key>)
    ensures Keys(NotIngress, docs) == Keys(IsService, docs) + Keys(IsWorkload, docs)
    ensures Fresh(taken, Selected(NotIngress, docs))
       <==> Fresh(taken, Selected(IsService, docs))
            && Fresh(taken + Keys(IsService, docs), Selected(IsWorkload, docs))
  {
    if docs != [] {
      hide Selected, Fresh, KeysOf;
      var front, last := docs[..|docs| - 1], docs[|docs| - 1];
      SplitStream(front, taken);
      SelectedLast(IsService, docs);
      SelectedLast(IsWorkload, docs);
      SelectedLast(NotIngress, docs);
      if last.Object? && NotIngress(last.obj.kind) {
        SplitStep(taken, Selected(IsService, front), Selected(IsWorkload, front), Selected(NotIngress, front),
                  last.obj);
      }
    } else {
      assert Fresh(taken, Selected(NotIngress, docs));
    }
  }

  lemma {:induction false} SplitBodies(docs: seq<Document>)
    requires Keys(IsService, docs) !! Keys(IsWorkload, docs)
    ensures LastBodies(Selected(IsService, docs)) + LastBodies(Selected(IsWorkload, docs))
         == LastBodies(Selected(NotIngress, docs))
  {
    if docs != [] {
      hide Selected, KeysOf, LastBodies;
      var front, last := docs[..|docs| - 1], docs[|docs| - 1];
      KeysOfPrefix(IsService, docs, |docs| - 1);
      KeysOfPrefix(IsWorkload, docs, |docs| - 1);
      SplitBodies(front);
      SelectedLast(IsService, docs);
      SelectedLast(IsWorkload, docs);
      SelectedLast(NotIngress, docs);
      if last.Object? && NotIngress(last.obj.kind) {
        var o := last.obj;
        var services, workloads := Selected(IsService, front), Selected(IsWorkload, front);
        FoldStep(services, o);
        FoldStep(workloads, o);
        FoldStep(Selected(NotIngress, front), o);
        LastBodiesKeys(workloads);
        MapAddAbsorbs(LastBodies(services), LastBodies(workloads), o.key, o.body);
      }
    }
  }

  /**
   However the kinds are interleaved in the stream, CreateService then CreateInstance
   over the same documents succeeds exactly when one pass over everything but Ingress
   does, and reaches the same contents.
   */
  lemma TwoPassesEqualOne(docs: seq<Document>, faults1: Faults, faults2: Faults, faults: Faults, c: Cluster)
    requires Faultless(faults1) && Faultless(faults2) && Faultless(faults)
    ensures var first := CreatePass(IsService, docs, faults1, c);
            var second := CreatePass(IsWorkload, docs, faults2, first.cluster);
            var single := CreatePass(NotIngress, docs, faults, c);
            && (first.result.Ok? && second.result.Ok? <==> single.result.Ok?)
            && (single.result.Ok? ==> second.cluster.Contents() == single.cluster.Contents())
  {
    hide CreatePass, Selected, Fresh, KeysOf, CreateAll;
    var first := CreatePass(IsService, docs, faults1, c);
    CalmCreateSucceedsIff(IsService, docs, faults1, c);
    CalmCreateSucceedsIff(NotIngress, docs, faults, c);
    CalmCreateSucceedsIff(IsWorkload, docs, faults2, first.cluster);
    SplitStream(docs, c.objects.Keys);
    if first.result.Ok? {
      CreatePassSuccess(IsService, docs, faults1, c);
      CreateAllEffect(c, Selected(IsService, docs));
      if CreatePass(NotIngress, docs, faults, c).result.Ok? {
        TwoPassContents(docs, faults2, faults, c);
      }
    }
  }

  /** Two successful passes and one successful pass leave the same contents, whatever calls could have failed. */
  lemma TwoPassContents(docs: seq<Document>, faults2: Faults, faults: Faults, c: Cluster)
    requires CreatePass(IsWorkload, docs, faults2, CreateAll(c, Selected(IsService, docs))).result.Ok?
    requires CreatePass(NotIngress, docs, faults, c).result.Ok?
    ensures CreatePass(IsWorkload, docs, faults2, CreateAll(c, Selected(IsService, docs))).cluster.Contents()
         == CreatePass(NotIngress, docs, faults, c).cluster.Contents()
  {
    hide CreatePass, Selected, Fresh, KeysOf, CreateAll, LastBodies, Cluster.Contents;
    var services, workloads := Selected(IsService, docs), Selected(IsWorkload, docs);
    var mid := CreateAll(c, services);
    CreatePassSuccess(IsWorkload, docs, faults2, mid);
    CreatePassSuccess(NotIngress, docs, faults, c);
    CreateAllEffect(c, services);
    FreshDisjoint(mid.objects.Keys, workloads);
    SplitBodies(docs);
    CreateAllContents(c, services);
    CreateAllContents(mid, workloads);
    CreateAllContents(c, Selected(NotIngress, docs));
    MapAddAssociates(c.Contents(), LastBodies(services), LastBodies(workloads));
  }
}
