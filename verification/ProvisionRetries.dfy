/** When Provision can succeed at all, what its failures really leave behind, and when it can be retried. */
module ProvisionRetries {
  import opened ApiServer
  import opened Manifest
  import opened KubeCli
  import opened ApplyProperties
  import opened Broker
  import opened Lifecycle

  // ---------- when Provision succeeds ----------

  /** Neither store fails during the call. */
  ghost predicate Calm(env: ProvisionEnv) {
    !env.selectDown && !env.insertDown && Faultless(env.services) && Faultless(env.workloads)
  }

  /**
   What the creates and the hooks after them need: both manifests are made of objects,
   their keys are distinct and free, and the hooks agree.
   */
  ghost predicate Committable(cfg: Config, taken: set<Key>, req: ProvisionRequest, p: Prepared, now: nat) {
    var docs, finished := cfg.decode(p.yaml), Finished(cfg, p, now);
    && AllObjects(docs)
    && Fresh(taken, Selected(IsService, docs))
    && finished.Some?
    && AllObjects(cfg.decode(finished.value))
    && Fresh(taken + Keys(IsService, docs), Selected(IsWorkload, cfg.decode(finished.value)))
    && DashboardURL(cfg, p.serviceName, now, req.parameters, LastNames(Selected(IsService, docs))).Some?
  }

  /** The id is free, the request can be rendered, and what it renders can be created. */
  ghost predicate Provisionable(cfg: Config, w: World, req: ProvisionRequest, now: nat) {
    var p := Prepare(cfg, req, now);
    && req.instanceID !in w.table && req.instanceID != ""
    && p.Some?
    && Committable(cfg, w.cluster.objects.Keys, req, p.value, now)
  }

  lemma CommitSucceedsIff(cfg: Config, w: World, req: ProvisionRequest, env: ProvisionEnv, p: Prepared)
    ensures Commit(cfg, w, req, env, p).1.Provisioned? ==>
              req.instanceID !in w.table && Committable(cfg, w.cluster.objects.Keys, req, p, env.now)
    ensures Calm(env) && req.instanceID !in w.table && Committable(cfg, w.cluster.objects.Keys, req, p, env.now) ==>
              Commit(cfg, w, req, env, p).1.Provisioned?
  {
    hide CreatePass, Selected, Fresh, KeysOf, CreateAll, LastNames, ApplySpecial, DashboardURL, Faultless;
    var docs := cfg.decode(p.yaml);
    var first := CreatePass(IsService, docs, env.services, w.cluster);
    if Calm(env) { CalmCreateSucceedsIff(IsService, docs, env.services, w.cluster); }
    if first.result.Ok? {
      CreatePassSuccess(IsService, docs, env.services, w.cluster);
      CreateAllEffect(w.cluster, Selected(IsService, docs));
      var finished := Finished(cfg, p, env.now);
      if finished.Some? {
        var docs' := cfg.decode(finished.value);
        if Calm(env) { CalmCreateSucceedsIff(IsWorkload, docs', env.workloads, first.cluster); }
        if CreatePass(IsWorkload, docs', env.workloads, first.cluster).result.Ok? {
          CreatePassSuccess(IsWorkload, docs', env.workloads, first.cluster);
        }
      }
    }
  }

  /**
   Provision succeeds only if the request is provisionable, whatever fails, and without
   failures it then does.
   */
  lemma ProvisionSucceedsIff(cfg: Config, w: World, req: ProvisionRequest, env: ProvisionEnv)
    ensures ProvisionSpec(cfg, w, req, env).1.Provisioned? ==> Provisionable(cfg, w, req, env.now)
    ensures Calm(env) ==> (ProvisionSpec(cfg, w, req, env).1.Provisioned? <==> Provisionable(cfg, w, req, env.now))
  {
    hide Commit, Prepare, Committable, Faultless;
    var p := Prepare(cfg, req, env.now);
    if p.Some? { CommitSucceedsIff(cfg, w, req, env, p.value); }
    if ProvisionSpec(cfg, w, req, env).1.Provisioned? { var n := ProvisionResidue(cfg, w, req, env); }
  }

  // ---------- what failures leave, and that they do leave it ----------

  /** The only failure is that discovery does not answer for document n. */
  function StopAt(n: nat): Faults {
    i => if i == n then DiscoveryFault else NoFault
  }

  /** Such a pass creates exactly the prefix before n. */
  lemma {:induction false} CreateStopsAt(keep: Filter, docs: seq<Document>, i: nat, n: nat, c0: Cluster, c: Cluster,
                                         made: Names)
    requires i <= n < |docs| && CreatedPrefix(keep, docs, c0, c, i)
    requires AllObjects(docs[..n]) && Fresh(c0.objects.Keys, Selected(keep, docs[..n]))
    ensures CreatedPrefix(keep, docs, c0, CreateFrom(keep, docs, i, StopAt(n), c, made).cluster, n)
    ensures CreateFrom(keep, docs, i, StopAt(n), c, made).result.Err?
    decreases n - i
  {
    hide CreatedPrefix, Selected, Fresh;
    if i < n {
      assert docs[..n][..i + 1] == docs[..i + 1];
      SelectedPrefix(keep, docs[..n], i + 1);
      FreshPrefix(c0.objects.Keys, Selected(keep, docs[..i + 1]), Selected(keep, docs[..n]));
      CreatedPrefixStep(keep, docs, c0, c, i);
      var o := docs[i].obj;
      if keep(o.kind) {
        CreateStopsAt(keep, docs, i + 1, n, c0, Put(c, o.key, o.body), made[o.key.namespace := o.key.name]);
      } else {
        CreateStopsAt(keep, docs, i + 1, n, c0, c, made);
      }
    }
  }

  lemma CreatePassStopsAt(keep: Filter, docs: seq<Document>, n: nat, c: Cluster)
    requires n < |docs| && AllObjects(docs) && Fresh(c.objects.Keys, Selected(keep, docs))
    ensures CreatedPrefix(keep, docs, c, CreatePass(keep, docs, StopAt(n), c).cluster, n)
    ensures CreatePass(keep, docs, StopAt(n), c).result.Err?
  {
    assert CreatedPrefix(keep, docs, c, c, 0);
    hide CreatedPrefix, Selected, Fresh;
    SelectedPrefix(keep, docs, n);
    FreshPrefix(c.objects.Keys, Selected(keep, docs[..n]), Selected(keep, docs));
    CreateStopsAt(keep, docs, 0, n, c, c, map[]);
  }

  /** No prefix of the Services is too short or too long to be left by a failing Provision. */
  lemma ServiceResidueIsReached(cfg: Config, w: World, req: ProvisionRequest, now: nat, n: nat)
    returns (env: ProvisionEnv)
    requires Provisionable(cfg, w, req, now) && n < |cfg.decode(Prepare(cfg, req, now).value.yaml)|
    ensures env.now == now
    ensures ProvisionSpec(cfg, w, req, env).1 == ProvisionFailed(InternalServerError)
    ensures ServicesCreated(cfg, Prepare(cfg, req, now).value, w.cluster, ProvisionSpec(cfg, w, req, env).0.cluster, n)
  {
    hide Prepare, CreatePass, CreatedPrefix, Selected, Fresh, KeysOf;
    env := ProvisionEnv(now, false, StopAt(n), StopAt(0), false);
    CreatePassStopsAt(IsService, cfg.decode(Prepare(cfg, req, now).value.yaml), n, w.cluster);
  }

  /** Nor is any prefix of the workloads, up to all of them. */
  lemma WorkloadResidueIsReached(cfg: Config, w: World, req: ProvisionRequest, now: nat, n: nat)
    returns (env: ProvisionEnv)
    requires Provisionable(cfg, w, req, now)
    requires n <= |cfg.decode(Finished(cfg, Prepare(cfg, req, now).value, now).value)|
    ensures env.now == now
    ensures var all := |cfg.decode(Finished(cfg, Prepare(cfg, req, now).value, now).value)|;
            ProvisionSpec(cfg, w, req, env).1
            == ProvisionFailed(if n < all then InternalServerError else ServiceUnavailable)
    ensures WorkloadsCreated(cfg, Prepare(cfg, req, now).value, now, w.cluster,
              ProvisionSpec(cfg, w, req, env).0.cluster, n)
  {
    hide Prepare, CreatePass, CreatedPrefix, Selected, Fresh, KeysOf, CreateAll, ApplySpecial, LastNames;
    var p := Prepare(cfg, req, now).value;
    var docs, docs' := cfg.decode(p.yaml), cfg.decode(Finished(cfg, p, now).value);
    var mid := CreateAll(w.cluster, Selected(IsService, docs));
    CreateAllEffect(w.cluster, Selected(IsService, docs));
    env := ProvisionEnv(now, false, _ => NoFault, if n < |docs'| then StopAt(n) else _ => NoFault, true);
    CalmCreateSucceedsIff(IsService, docs, env.services, w.cluster);
    CreatePassSuccess(IsService, docs, env.services, w.cluster);
    if n < |docs'| {
      CreatePassStopsAt(IsWorkload, docs', n, mid);
    } else {
      CalmCreateSucceedsIff(IsWorkload, docs', env.workloads, mid);
      var m := CreatePassResidue(IsWorkload, docs', env.workloads, mid);
    }
  }

  // ---------- retrying ----------

  lemma {:induction false} FreshFewer(taken: set<Key>, taken': set<Key>, objs: seq<Unstructured>)
    requires taken <= taken' && Fresh(taken', objs)
    ensures Fresh(taken, objs)
  {
    if objs != [] {
      FreshFewer(taken, taken', objs[..|objs| - 1]);
    }
  }

  /** Fewer objects in the way only help. */
  lemma ProvisionableWithFewer(cfg: Config, w: World, w': World, req: ProvisionRequest, now: nat)
    requires Provisionable(cfg, w', req, now)
    requires req.instanceID !in w.table && w.cluster.objects.Keys <= w'.cluster.objects.Keys
    ensures Provisionable(cfg, w, req, now)
  {
    hide Prepare, Selected, Fresh, KeysOf, Keys, ApplySpecial, DashboardURL, LastNames;
    var p := Prepare(cfg, req, now).value;
    var docs, docs' := cfg.decode(p.yaml), cfg.decode(Finished(cfg, p, now).value);
    var taken, taken' := w.cluster.objects.Keys, w'.cluster.objects.Keys;
    FreshFewer(taken, taken', Selected(IsService, docs));
    FreshFewer(taken + Keys(IsService, docs), taken' + Keys(IsService, docs), Selected(IsWorkload, docs'));
  }

  /** What a failed Provision leaves belongs to the request. */
  lemma ResidueKeys(cfg: Config, w: World, req: ProvisionRequest, env: ProvisionEnv)
    requires Provisionable(cfg, w, req, env.now) && !ProvisionSpec(cfg, w, req, env).1.Provisioned?
    ensures var w' := ProvisionSpec(cfg, w, req, env).0;
            var p := Prepare(cfg, req, env.now).value;
            && w'.table == w.table
            && w.cluster.objects.Keys <= w'.cluster.objects.Keys
            && w'.cluster.objects.Keys <=
                 w.cluster.objects.Keys + CreatedKeys(cfg, p.yaml, Finished(cfg, p, env.now).value)
            && (w'.cluster.objects.Keys == w.cluster.objects.Keys ==> w'.cluster.objects == w.cluster.objects)
  {
    hide ProvisionSpec, Prepare, Selected, Fresh, KeysOf, CreateAll, LastNames, ApplySpecial, DashboardURL;
    var n := ProvisionResidue(cfg, w, req, env);
    var w' := ProvisionSpec(cfg, w, req, env).0;
    if w' != w {
      var p := Prepare(cfg, req, env.now).value;
      var docs, docs' := cfg.decode(p.yaml), cfg.decode(Finished(cfg, p, env.now).value);
      if ServicesCreated(cfg, p, w.cluster, w'.cluster, n) {
        CreatedPrefixKeys(IsService, docs, w.cluster, w'.cluster, n);
      } else {
        var mid := CreateAll(w.cluster, Selected(IsService, docs));
        assert docs[..|docs|] == docs;
        CreatedPrefixKeys(IsService, docs, w.cluster, mid, |docs|);
        CreatedPrefixKeys(IsWorkload, docs', mid, w'.cluster, n);
      }
    }
  }

  lemma CreatedPrefixKeys(keep: Filter, docs: seq<Document>, c: Cluster, c': Cluster, n: nat)
    requires CreatedPrefix(keep, docs, c, c', n)
    ensures c.objects.Keys <= c'.objects.Keys <= c.objects.Keys + Keys(keep, docs)
    ensures forall k :: k in c.objects ==> c'.objects[k] == c.objects[k]
  {
    hide Selected, Fresh, KeysOf, CreateAll;
    CreateAllEffect(c, Selected(keep, docs[..n]));
    FreshDisjoint(c.objects.Keys, Selected(keep, docs[..n]));
    KeysOfPrefix(keep, docs, n);
  }

  /** A key of the request that is in use stands in the way. */
  lemma InTheWay(cfg: Config, w: World, req: ProvisionRequest, now: nat, k: Key)
    requires k in w.cluster.objects && Provisionable(cfg, w, req, now)
    ensures var p := Prepare(cfg, req, now).value;
            k !in CreatedKeys(cfg, p.yaml, Finished(cfg, p, now).value)
  {
    hide Prepare, Selected, Fresh, KeysOf, ApplySpecial, DashboardURL, LastNames;
    var p := Prepare(cfg, req, now).value;
    var docs, docs' := cfg.decode(p.yaml), cfg.decode(Finished(cfg, p, now).value);
    FreshDisjoint(w.cluster.objects.Keys, Selected(IsService, docs));
    FreshDisjoint(w.cluster.objects.Keys + Keys(IsService, docs), Selected(IsWorkload, docs'));
  }

  /**
   A Provision that could have succeeded failed. Retrying it, for hooks that answer as
   before and without failures, succeeds if and only if the failed attempt left no object.
   */
  lemma RetrySucceedsIff(cfg: Config, w: World, req: ProvisionRequest, env: ProvisionEnv, env': ProvisionEnv)
    requires Provisionable(cfg, w, req, env.now) && !ProvisionSpec(cfg, w, req, env).1.Provisioned?
    requires Calm(env') && env'.now == env.now
    ensures var w' := ProvisionSpec(cfg, w, req, env).0;
            ProvisionSpec(cfg, w', req, env').1.Provisioned? <==> w'.cluster.objects == w.cluster.objects
  {
    hide ProvisionSpec, Prepare, Committable, CreatedKeys;
    var w' := ProvisionSpec(cfg, w, req, env).0;
    ResidueKeys(cfg, w, req, env);
    ProvisionSucceedsIff(cfg, w', req, env');
    if w'.cluster.objects.Keys == w.cluster.objects.Keys {
      ProvisionableWithFewer(cfg, w', w, req, env.now);
    } else if Provisionable(cfg, w', req, env.now) {
      var k :| k in w'.cluster.objects && k !in w.cluster.objects;
      InTheWay(cfg, w', req, env.now, k);
    }
  }
}
