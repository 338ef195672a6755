/**
 The Kubernetes API server as the broker sees it: a keyed store with optimistic
 concurrency (Kubernetes API Conventions, section "Concurrency Control and
 Consistency").
 */
module ApiServer {
  import opened Results

  /** A namespaced resource interface plus an object name. */
  datatype Key = Key(resource: string, namespace: string, name: string)

  /** `uid` identifies one incarnation of an object; `version` is its resourceVersion. */
  datatype Stored = Stored(uid: nat, version: nat, body: string)

  datatype Cluster = Cluster(objects: map<Key, Stored>, revision: nat) {
    /** Every uid and every resourceVersion was handed out by this server. */
    ghost predicate Valid() {
      forall k :: k in objects ==> objects[k].uid <= objects[k].version <= revision
    }

    function Contents(): map<Key, string> {
      map k | k in objects :: objects[k].body
    }
  }

  datatype ApiError = NotFound | AlreadyExists | Conflict | Unavailable

  datatype Reply = Reply(cluster: Cluster, error: Option<ApiError>)

  /** The write every successful create performs. */
  function Put(c: Cluster, k: Key, body: string): Cluster {
    Cluster(c.objects[k := Stored(c.revision + 1, c.revision + 1, body)], c.revision + 1)
  }

  /** The write every successful update performs. */
  function Replace(c: Cluster, k: Key, body: string): Cluster
    requires k in c.objects
  {
    Cluster(c.objects[k := Stored(c.objects[k].uid, c.revision + 1, body)], c.revision + 1)
  }

  function Create(c: Cluster, k: Key, body: string): Reply {
    if k in c.objects then Reply(c, Some(AlreadyExists)) else Reply(Put(c, k, body), None)
  }

  function Update(c: Cluster, k: Key, body: string, version: nat): Reply {
    if k !in c.objects then Reply(c, Some(NotFound))
    else if c.objects[k].version != version then Reply(c, Some(Conflict))
    else Reply(Replace(c, k, body), None)
  }

  function Delete(c: Cluster, k: Key): Reply {
    if k !in c.objects then Reply(c, Some(NotFound))
    else Reply(Cluster(c.objects - {k}, c.revision + 1), None)
  }

  /**
   Objects are only kept, rewritten under a newer resourceVersion, removed, or created
   with a new uid.
   */
  ghost predicate Evolves(c: Cluster, c': Cluster) {
    && c.revision <= c'.revision
    && c'.Valid()
    && forall k :: k in c'.objects ==>
         || (k in c.objects && c'.objects[k] == c.objects[k])
         || (k in c.objects && c'.objects[k].uid == c.objects[k].uid && c.revision < c'.objects[k].version)
         || c.revision < c'.objects[k].uid
  }

  lemma EvolvesNot(c: Cluster)
    requires c.Valid()
    ensures Evolves(c, c)
  {
  }

  lemma EvolvesValid(c: Cluster, c': Cluster)
    requires Evolves(c, c')
    ensures c'.Valid()
  {
  }

  lemma EvolvesTransitive(c: Cluster, c': Cluster, c'': Cluster)
    requires Evolves(c, c') && Evolves(c', c'')
    ensures Evolves(c, c'')
  {
  }
}
