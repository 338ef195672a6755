/** What the delete pass promises, for every stream and failure pattern. */
module DeleteProperties {
  import opened Results
  import opened ApiServer
  import opened Manifest
  import opened KubeCli
  import ApplyProperties

  /** `c'` is `c` without the objects of the first n documents. */
  ghost predicate DeletedPrefix(docs: seq<Document>, c: Cluster, c': Cluster, n: nat) {
    && n <= |docs|
    && AllObjects(docs[..n])
    && c'.objects == c.objects - Keys(AnyKind, docs[..n])
    && c.revision <= c'.revision
  }

  lemma DeletedPrefixStep(docs: seq<Document>, c0: Cluster, c: Cluster, i: nat)
    requires i < |docs| && DeletedPrefix(docs, c0, c, i) && docs[i].Object?
    ensures DeletedPrefix(docs, c0, Delete(c, docs[i].obj.key).cluster, i + 1)
  {
    hide Selected, KeysOf, Keys;
    KeysStep(AnyKind, docs, i);
    assert docs[..i + 1] == docs[..i] + [docs[i]];
    var k := docs[i].obj.key;
    assert c.objects - {k} == c0.objects - (Keys(AnyKind, docs[..i]) + {k});
    if k !in c.objects {
      assert c.objects - {k} == c.objects;
    }
  }

  lemma {:induction false} DeleteFromResidue(docs: seq<Document>, i: nat, faults: Faults, c0: Cluster, c: Cluster)
    returns (n: nat)
    requires i <= |docs| && DeletedPrefix(docs, c0, c, i)
    ensures var out := DeleteFrom(docs, i, faults, c);
            && DeletedPrefix(docs, c0, out.cluster, n)
            && (out.result.Ok? <==> n == |docs|)
            && (n < |docs| ==> !docs[n].Object? || faults(n).DiscoveryFault? || faults(n).WriteFault?)
            && (n < |docs| ==> out.result == Err(Cause(docs[n], faults(n), Unavailable)))
            && (n == |docs| ==> out.result == Ok(map[]))
            && (forall j :: i <= j < n ==> docs[j].Object? && faults(j) != DiscoveryFault && faults(j) != WriteFault)
    decreases |docs| - i
  {
    hide DeletedPrefix;
    n := i;
    if i < |docs| {
      var resolved := Resolve(docs[i], faults(i));
      if resolved.Ok? && !faults(i).WriteFault? {
        DeletedPrefixStep(docs, c0, c, i);
        n := DeleteFromResidue(docs, i + 1, faults, c0, Delete(c, resolved.value.key).cluster);
      }
    }
  }

  /**
   Whatever fails, a delete pass has removed exactly the keys of a prefix of the
   stream, whether or not they were present. It succeeds exactly when the prefix is
   the whole stream, and stops at the first document that is not an object or whose
   discovery or delete fails; its error says which.
   */
  lemma DeletePassResidue(docs: seq<Document>, faults: Faults, c: Cluster) returns (n: nat)
    ensures var out := DeletePass(docs, faults, c);
            && DeletedPrefix(docs, c, out.cluster, n)
            && (out.result.Ok? <==> n == |docs|)
            && (n < |docs| ==> !docs[n].Object? || faults(n).DiscoveryFault? || faults(n).WriteFault?)
            && (n < |docs| ==> out.result == Err(Cause(docs[n], faults(n), Unavailable)))
            && (n == |docs| ==> out.result == Ok(map[]))
            && (forall j :: 0 <= j < n ==> docs[j].Object? && faults(j) != DiscoveryFault && faults(j) != WriteFault)
  {
    assert c.objects - {} == c.objects;
    n := DeleteFromResidue(docs, 0, faults, c, c);
  }

  /**
   A delete pass succeeds exactly when every document is an object, discovery answers for
   it and its delete goes through, whether or not the object is there.
   */
  lemma DeleteSucceedsIff(docs: seq<Document>, faults: Faults, c: Cluster)
    ensures DeletePass(docs, faults, c).result.Ok?
       <==> forall j :: 0 <= j < |docs| ==> docs[j].Object? && faults(j) != DiscoveryFault && faults(j) != WriteFault
  {
    hide DeletePass;
    var n := DeletePassResidue(docs, faults, c);
  }

  /** A successful delete pass leaves exactly the objects that are not in the stream. */
  lemma DeletePassSuccess(docs: seq<Document>, faults: Faults, c: Cluster)
    requires DeletePass(docs, faults, c).result.Ok?
    ensures DeletePass(docs, faults, c).cluster.objects == c.objects - Keys(AnyKind, docs)
    ensures AllObjects(docs)
  {
    var n := DeletePassResidue(docs, faults, c);
    assert docs[..n] == docs;
  }

  /**
   If a create pass over a stream once succeeded, under any filter, and discovery
   answers, then deleting the stream can fail only because a delete call fails.
   */
  lemma DecodabilityCarriesOver(keep: Filter, docs: seq<Document>, faults: Faults, c: Cluster, faults': Faults,
                                c': Cluster)
    requires CreatePass(keep, docs, faults, c).result.Ok?
    requires forall i :: faults'(i) != DiscoveryFault
    ensures var out := DeletePass(docs, faults', c');
            out.result.Ok? || out.result == Err(CallFailed(Unavailable))
    ensures (forall i :: faults'(i) != WriteFault) ==> DeletePass(docs, faults', c').result.Ok?
  {
    ApplyProperties.CreatePassSuccess(keep, docs, faults, c);
    var n := DeletePassResidue(docs, faults', c');
  }
}
