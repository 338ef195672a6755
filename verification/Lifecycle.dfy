/** What single handler calls and pairs of calls promise, for every failure pattern. */
module Lifecycle {
  import opened Results
  import opened ApiServer
  import opened Manifest
  import opened KubeCli
  import opened ApplyProperties
  import opened DeleteProperties
  import opened UpsertProperties
  import opened Catalog
  import opened Pods
  import opened Dao
  import opened Broker

  // ---------- Provision ----------

  /** The manifest that Provision stores, once all its Services exist. */
  function Finished(cfg: Config, p: Prepared, now: nat): Option<string> {
    ApplySpecial(cfg, p.serviceName, now, p.yaml, LastNames(Selected(IsService, cfg.decode(p.yaml))))
  }

  /** The Services of the first n documents were created, and nothing else. */
  ghost predicate ServicesCreated(cfg: Config, p: Prepared, c: Cluster, c': Cluster, n: nat) {
    CreatedPrefix(IsService, cfg.decode(p.yaml), c, c', n)
  }

  /** All Services were created, then the workloads of the first n documents of the finished manifest. */
  ghost predicate WorkloadsCreated(cfg: Config, p: Prepared, now: nat, c: Cluster, c': Cluster, n: nat) {
    var docs := cfg.decode(p.yaml);
    && AllObjects(docs)
    && Fresh(c.objects.Keys, Selected(IsService, docs))
    && Finished(cfg, p, now).Some?
    && CreatedPrefix(IsWorkload, cfg.decode(Finished(cfg, p, now).value),
                     CreateAll(c, Selected(IsService, docs)), c', n)
  }

  /**
   The exact residue of every exit from the first create on. The table changes only
   on success. Otherwise the cluster is the start plus the Services of a prefix of the
   rendered manifest, or all Services plus the workloads of a prefix of the finished one.
   */
  lemma CommitResidue(cfg: Config, w: World, req: ProvisionRequest, env: ProvisionEnv, p: Prepared) returns (n: nat)
    ensures var (w', reply) := Commit(cfg, w, req, env, p);
            && (reply.ProvisionFailed? ==>
                  && w'.table == w.table
                  && (|| ServicesCreated(cfg, p, w.cluster, w'.cluster, n)
                      || WorkloadsCreated(cfg, p, env.now, w.cluster, w'.cluster, n)))
            && (reply.ProvisionFailed? ==> reply.status in {InternalServerError, ServiceUnavailable})
            && (reply == ProvisionFailed(ServiceUnavailable) || reply.Provisioned? ==>
                  && WorkloadsCreated(cfg, p, env.now, w.cluster, w'.cluster, n)
                  && n == |cfg.decode(Finished(cfg, p, env.now).value)|)
            && (reply.Provisioned? ==>
                  && req.instanceID !in w.table
                  && w'.table == w.table[req.instanceID := RowFor(req, p, Finished(cfg, p, env.now).value)])
  {
    hide CreatePass, CreatedPrefix, Selected, Fresh, CreateAll, LastNames;
    var docs := cfg.decode(p.yaml);
    var first := CreatePass(IsService, docs, env.services, w.cluster);
    n := CreatePassResidue(IsService, docs, env.services, w.cluster);
    if first.result.Ok? {
      CreatePassSuccess(IsService, docs, env.services, w.cluster);
      var special := Finished(cfg, p, env.now);
      if special.Some? {
        n := CreatePassResidue(IsWorkload, cfg.decode(special.value), env.workloads, first.cluster);
      }
    }
  }

  /**
   Exact failure residue of Provision. A request refused as bad or as conflicting, or
   because the table could not be read, changes nothing; every other failure leaves the
   table alone and the cluster as `CommitResidue` says; success leaves everything
   created and the row stored under an id that had none.
   */
  lemma ProvisionResidue(cfg: Config, w: World, req: ProvisionRequest, env: ProvisionEnv) returns (n: nat)
    ensures var (w', reply) := ProvisionSpec(cfg, w, req, env);
            var prepared := Prepare(cfg, req, env.now);
            && (reply.ProvisionFailed? && reply.status in {BadRequest, Conflicts} ==> w' == w)
            && (reply.ProvisionFailed? ==>
                  && w'.table == w.table
                  && (|| w' == w
                      || (prepared.Some? && ServicesCreated(cfg, prepared.value, w.cluster, w'.cluster, n))
                      || (prepared.Some? && WorkloadsCreated(cfg, prepared.value, env.now, w.cluster, w'.cluster, n))))
            && (reply == ProvisionFailed(ServiceUnavailable) ==>
                  || (env.selectDown && w' == w)
                  || (prepared.Some? && WorkloadsCreated(cfg, prepared.value, env.now, w.cluster, w'.cluster, n)
                      && n == |cfg.decode(Finished(cfg, prepared.value, env.now).value)|))
            && (reply.Provisioned? ==>
                  && prepared.Some?
                  && WorkloadsCreated(cfg, prepared.value, env.now, w.cluster, w'.cluster, n)
                  && n == |cfg.decode(Finished(cfg, prepared.value, env.now).value)|
                  && req.instanceID !in w.table && req.instanceID != ""
                  && w'.table == w.table[req.instanceID :=
                       RowFor(req, prepared.value, Finished(cfg, prepared.value, env.now).value)])
  {
    hide Commit, Prepare, ServicesCreated, WorkloadsCreated;
    n := 0;
    var selected := SelectRow(w.table, req.instanceID, env.selectDown);
    var prepared := Prepare(cfg, req, env.now);
    if selected.Ok? && selected.value.instanceID != req.instanceID && prepared.Some? {
      n := CommitResidue(cfg, w, req, env, prepared.value);
    }
  }

  /** The keys that a successful Provision creates. */
  function CreatedKeys(cfg: Config, rendered: string, finished: string): set<Key> {
    Keys(IsService, cfg.decode(rendered)) + Keys(IsWorkload, cfg.decode(finished))
  }

  /** A successful Provision in terms of key sets: it creates its keys, none of which existed, and touches no other. */
  lemma ProvisionedObjects(cfg: Config, w: World, req: ProvisionRequest, env: ProvisionEnv)
    requires ProvisionSpec(cfg, w, req, env).1.Provisioned?
    ensures var w' := ProvisionSpec(cfg, w, req, env).0;
            var p := Prepare(cfg, req, env.now);
            && p.Some? && Finished(cfg, p.value, env.now).Some?
            && req.instanceID !in w.table && req.instanceID != ""
            && w'.table == w.table[req.instanceID := RowFor(req, p.value, Finished(cfg, p.value, env.now).value)]
            && (var created := CreatedKeys(cfg, p.value.yaml, Finished(cfg, p.value, env.now).value);
                && created !! w.cluster.objects.Keys
                && w'.cluster.objects.Keys == w.cluster.objects.Keys + created
                && (forall k :: k in w.cluster.objects ==> w'.cluster.objects[k] == w.cluster.objects[k]))
            && AllObjects(cfg.decode(Finished(cfg, p.value, env.now).value))
  {
    hide ProvisionSpec, Prepare, Selected, Fresh, KeysOf, CreateAll, LastNames;
    var n := ProvisionResidue(cfg, w, req, env);
    var p := Prepare(cfg, req, env.now).value;
    var docs, docs' := cfg.decode(p.yaml), cfg.decode(Finished(cfg, p, env.now).value);
    assert docs'[..n] == docs';
    var mid := CreateAll(w.cluster, Selected(IsService, docs));
    CreateAllEffect(w.cluster, Selected(IsService, docs));
    CreateAllEffect(mid, Selected(IsWorkload, docs'));
    FreshDisjoint(w.cluster.objects.Keys, Selected(IsService, docs));
    FreshDisjoint(mid.objects.Keys, Selected(IsWorkload, docs'));
  }

  /** The stored row says who asked for what, and where it was put. */
  lemma StoredRowDescribesRequest(cfg: Config, w: World, req: ProvisionRequest, env: ProvisionEnv)
    requires ProvisionSpec(cfg, w, req, env).1.Provisioned?
    ensures var table := ProvisionSpec(cfg, w, req, env).0.table;
            && req.instanceID in table
            && (var row := table[req.instanceID];
                && row.instanceID == req.instanceID && row.serviceID == req.serviceID && row.planID == req.planID
                && row.organizationGUID == req.organizationGUID && row.spaceGUID == req.spaceGUID
                && "NAMESPACE" in req.parameters && row.namespace == req.parameters["NAMESPACE"]
                && "INSTANCE_NAME" in req.parameters && row.instanceName == req.parameters["INSTANCE_NAME"]
                && cfg.marshal(req.parameters) == Some(row.parameters)
                && GetServiceName(cfg.index, req.serviceID) == Ok(row.serviceName)
                && GetPlan(cfg.index, req.serviceID, req.planID).Ok?)
  {
    hide CreatePass;
    ProvisionedObjects(cfg, w, req, env);
  }

  /**
   The stored manifest is the service's template, rendered for this instance id and put
   through the parameter, plan and special hooks in that order; the special hook is told
   the last Service created in each namespace.
   */
  lemma StoredManifestIsRendered(cfg: Config, w: World, req: ProvisionRequest, env: ProvisionEnv)
    returns (rendered: string, withParams: string, withPlan: string)
    requires ProvisionSpec(cfg, w, req, env).1.Provisioned?
    ensures var table := ProvisionSpec(cfg, w, req, env).0.table;
            && req.instanceID in table
            && (var row := table[req.instanceID];
                && row.serviceName in cfg.services
                && (var s, plan := cfg.services[row.serviceName], GetPlan(cfg.index, req.serviceID, req.planID);
                    var template := GetServiceTemplate(cfg.index, row.serviceName);
                    && template.Ok? && plan.Ok?
                    && cfg.render(template.value, row.namespace, row.instanceName,
                                  if "STORAGECLASS" in req.parameters then req.parameters["STORAGECLASS"] else "",
                                  req.instanceID)
                       == Some(rendered)
                    && s.applyParameters(env.now, rendered, req.parameters) == Some(withParams)
                    && s.applyPlan(env.now, withParams, plan.value) == Some(withPlan)
                    && s.applySpecial(env.now, withPlan, LastNames(Selected(IsService, cfg.decode(withPlan))))
                        == Some(row.yaml)))
  {
    ProvisionedObjects(cfg, w, req, env);
    hide ProvisionSpec, LastNames, Selected, CreatedKeys;
    var p := Prepare(cfg, req, env.now).value;
    var template := GetServiceTemplate(cfg.index, p.serviceName).value;
    var s := cfg.services[p.serviceName];
    rendered := cfg.render(template, p.namespace, p.instanceName, StorageClass(req.parameters), req.instanceID).value;
    withParams := s.applyParameters(env.now, rendered, req.parameters).value;
    withPlan := p.yaml;
  }

  // ---------- what the handlers say exists ----------

  /**
   With the database up the handlers agree on which instances exist: Provision and
   Update conflict, Deprovision and LastOperation do not answer Gone. The empty id is
   the exception: it conflicts and is gone at once.
   */
  lemma HandlersAgreeOnExistence(cfg: Config, w: World, req: ProvisionRequest, up: UpdateRequest, env: ProvisionEnv,
                                 uenv: UpdateEnv, denv: DeprovisionEnv, lenv: LastOperationEnv)
    requires KeyedById(w.table) && up.instanceID == req.instanceID
    requires !env.selectDown && !uenv.selectDown && !denv.selectDown && !lenv.selectDown
    ensures var id := req.instanceID;
            && (ProvisionSpec(cfg, w, req, env).1 == ProvisionFailed(Conflicts) <==> id in w.table || id == "")
            && (UpdateSpec(cfg, w, up, uenv).1 == UpdateFailed(Conflicts) <==> id in w.table || id == "")
            && (DeprovisionSpec(cfg, w, id, denv).1 == DeprovisionFailed(Gone) <==> id !in w.table || id == "")
            && (LastOperationSpec(cfg, w.table, id, lenv) == LastOperationFailed(Gone) <==> id !in w.table || id == "")
  {
    hide Prepare, CreatePass, UpsertPass, DeletePass, Meaning, Containers;
    var id := req.instanceID;
    if ProvisionSpec(cfg, w, req, env).1 == ProvisionFailed(Conflicts) && id !in w.table && id != "" {
      var n := ProvisionResidue(cfg, w, req, env);
    }
  }

  // ---------- Deprovision ----------

  /** A row whose id the table uses and that Deprovision takes for present. */
  ghost predicate RowAt(w: World, id: string) {
    id in w.table && w.table[id].instanceID == id && id != ""
  }

  /** The documents that Deprovision of this id deletes. */
  function StoredManifest(cfg: Config, w: World, id: string): seq<Document>
    requires id in w.table
  {
    cfg.decode(w.table[id].yaml)
  }

  /**
   One Deprovision attempt: success removes exactly the row and the keys of its
   manifest; failure keeps the table and removes at most such keys. If the hook before
   the deletion refuses, nothing is removed; if the one after it does, everything is
   but the row.
   */
  lemma DeprovisionAttempt(cfg: Config, w: World, id: string, env: DeprovisionEnv)
    requires RowAt(w, id)
    ensures var (w', reply) := DeprovisionSpec(cfg, w, id, env);
            var keys := Keys(AnyKind, StoredManifest(cfg, w, id));
            && w.cluster.revision <= w'.cluster.revision
            && (reply.Deprovisioned? ==> w'.table == w.table - {id} && w'.cluster.objects == w.cluster.objects - keys)
            && (!reply.Deprovisioned? ==>
                  && w'.table == w.table
                  && w'.cluster.objects.Keys <= w.cluster.objects.Keys
                  && (forall k :: k in w.cluster.objects && k !in keys ==> k in w'.cluster.objects)
                  && (forall k :: k in w'.cluster.objects ==> w'.cluster.objects[k] == w.cluster.objects[k]))
            && (reply == DeprovisionFailed(ServiceUnavailable) && !env.selectDown ==>
                  w'.cluster.objects == w.cluster.objects - keys)
            && reply != DeprovisionFailed(Gone)
            && (var row := w.table[id];
                var registered := row.serviceName in cfg.services;
                && (!registered || !cfg.services[row.serviceName].beforeKubeDelete(env.now, row) ==> w' == w)
                && (registered && !cfg.services[row.serviceName].afterKubeDelete(env.now, row) ==> w'.table == w.table)
                && (registered && cfg.services[row.serviceName].beforeKubeDelete(env.now, row)
                    && !cfg.services[row.serviceName].afterKubeDelete(env.now, row)
                    && !env.selectDown && Faultless(env.deletes) && AllObjects(StoredManifest(cfg, w, id)) ==>
                      && reply == DeprovisionFailed(InternalServerError)
                      && w'.cluster.objects == w.cluster.objects - keys))
  {
    hide DeletePass, Keys;
    var docs := StoredManifest(cfg, w, id);
    var n := DeletePassResidue(docs, env.deletes, w.cluster);
    KeysOfPrefix(AnyKind, docs, n);
    assert Faultless(env.deletes) ==> env.deletes(n) == NoFault;
    if DeletePass(docs, env.deletes, w.cluster).result.Ok? {
      DeletePassSuccess(docs, env.deletes, w.cluster);
    }
  }

  /**
   Without failures, an instance is deprovisioned exactly when its manifest is made of
   objects only and both hooks agree, whether or not its objects are still there.
   */
  lemma DeprovisionSucceedsIff(cfg: Config, w: World, id: string, env: DeprovisionEnv)
    requires RowAt(w, id) && !env.selectDown && !env.deleteDown && Faultless(env.deletes)
    ensures DeprovisionSpec(cfg, w, id, env).1.Deprovisioned?
       <==> var row := w.table[id];
            && AllObjects(StoredManifest(cfg, w, id))
            && row.serviceName in cfg.services
            && cfg.services[row.serviceName].beforeKubeDelete(env.now, row)
            && cfg.services[row.serviceName].afterKubeDelete(env.now, row)
  {
    hide DeletePass;
    var docs := StoredManifest(cfg, w, id);
    var n := DeletePassResidue(docs, env.deletes, w.cluster);
    assert env.deletes(n) == NoFault;
    if DeletePass(docs, env.deletes, w.cluster).result.Ok? {
      DeletePassSuccess(docs, env.deletes, w.cluster);
    }
  }

  /** Attempts one after the other until one succeeds; tells whether one did. */
  function DeprovisionUntil(cfg: Config, w: World, id: string, envs: seq<DeprovisionEnv>): (World, bool)
    decreases |envs|
  {
    if envs == [] then (w, false)
    else
      var (w', reply) := DeprovisionSpec(cfg, w, id, envs[0]);
      if reply.Deprovisioned? then (w', true) else DeprovisionUntil(cfg, w', id, envs[1..])
  }

  /**
   Deprovision retries converge. While attempts fail, whatever fails, the row stays,
   the objects still present only shrink, and no key outside the manifest changes.
   The first success leaves exactly the objects of the start that are outside the
   manifest, and no row.
   */
  lemma {:induction false} DeprovisionRetriesConverge(cfg: Config, w: World, id: string, envs: seq<DeprovisionEnv>)
    requires RowAt(w, id)
    ensures var (w', done) := DeprovisionUntil(cfg, w, id, envs);
            var keys := Keys(AnyKind, StoredManifest(cfg, w, id));
            && (done ==> w'.table == w.table - {id} && w'.cluster.objects == w.cluster.objects - keys)
            && (!done ==>
                  && w'.table == w.table
                  && w'.cluster.objects.Keys <= w.cluster.objects.Keys
                  && (forall k :: k in w.cluster.objects && k !in keys ==> k in w'.cluster.objects)
                  && (forall k :: k in w'.cluster.objects ==> w'.cluster.objects[k] == w.cluster.objects[k]))
    decreases |envs|
  {
    if envs != [] {
      hide DeprovisionSpec, Keys;
      DeprovisionAttempt(cfg, w, id, envs[0]);
      var (w', reply) := DeprovisionSpec(cfg, w, id, envs[0]);
      if !reply.Deprovisioned? {
        DeprovisionRetriesConverge(cfg, w', id, envs[1..]);
        var (w'', done) := DeprovisionUntil(cfg, w', id, envs[1..]);
        var keys := Keys(AnyKind, StoredManifest(cfg, w, id));
        if done {
          assert w'.cluster.objects - keys == w.cluster.objects - keys;
        }
      }
    }
  }

  /**
   If only the deletion of the row failed, the next attempt needs no object: none of
   the manifest is left, and without failures it removes the row and changes nothing else.
   */
  lemma RetryAfterRowDeletionFailed(cfg: Config, w: World, id: string, env: DeprovisionEnv, env': DeprovisionEnv)
    requires RowAt(w, id) && !env.selectDown
    requires DeprovisionSpec(cfg, w, id, env).1 == DeprovisionFailed(ServiceUnavailable)
    requires !env'.selectDown && !env'.deleteDown && Faultless(env'.deletes)
    requires BeforeKubeDelete(cfg, env'.now, w.table[id]) && AfterKubeDelete(cfg, env'.now, w.table[id])
    ensures var w' := DeprovisionSpec(cfg, w, id, env).0;
            && Keys(AnyKind, StoredManifest(cfg, w, id)) !! w'.cluster.objects.Keys
            && DeprovisionSpec(cfg, w', id, env').1 == Deprovisioned
            && DeprovisionSpec(cfg, w', id, env').0.cluster.objects == w'.cluster.objects
            && DeprovisionSpec(cfg, w', id, env').0.table == w.table - {id}
  {
    var w' := DeprovisionSpec(cfg, w, id, env).0;
    var keys := Keys(AnyKind, StoredManifest(cfg, w, id));
    assert AllObjects(StoredManifest(cfg, w, id)) by {
      DeletePassSuccess(StoredManifest(cfg, w, id), env.deletes, w.cluster);
    }
    hide DeprovisionSpec, Keys;
    DeprovisionAttempt(cfg, w, id, env);
    DeprovisionSucceedsIff(cfg, w', id, env');
    DeprovisionAttempt(cfg, w', id, env');
    assert w'.cluster.objects - keys == w'.cluster.objects;
  }

  // ---------- Provision, then Deprovision ----------

  /** Some of the keys belong to every kind's selection. */
  lemma {:induction false} KeysOfAnyKind(keep: Filter, docs: seq<Document>)
    ensures Keys(keep, docs) <= Keys(AnyKind, docs)
  {
    forall k | k in Keys(keep, docs) ensures k in Keys(AnyKind, docs) {
      KeysMember(keep, docs, k);
      KeysMember(AnyKind, docs, k);
    }
  }

  /** What is in the cluster after a successful Provision and a successful Deprovision. */
  lemma ProvisionDeprovisionObjects(cfg: Config, w: World, req: ProvisionRequest, env: ProvisionEnv,
                                    env': DeprovisionEnv)
    requires var (w1, first) := ProvisionSpec(cfg, w, req, env);
             first.Provisioned? && DeprovisionSpec(cfg, w1, req.instanceID, env').1.Deprovisioned?
    ensures var w1 := ProvisionSpec(cfg, w, req, env).0;
            var w2 := DeprovisionSpec(cfg, w1, req.instanceID, env').0;
            var p := Prepare(cfg, req, env.now);
            && w2.table == w.table
            && p.Some? && Finished(cfg, p.value, env.now).Some?
            && w2.cluster.objects
               == w1.cluster.objects - Keys(AnyKind, cfg.decode(Finished(cfg, p.value, env.now).value))
  {
    hide ProvisionSpec, DeprovisionSpec, Prepare, Keys, CreatedKeys;
    ProvisionedObjects(cfg, w, req, env);
    var w1 := ProvisionSpec(cfg, w, req, env).0;
    DeprovisionAttempt(cfg, w1, req.instanceID, env');
    assert w1.table - {req.instanceID} == w.table;
  }

  /**
   Provision then Deprovision, both successful, restores the table always, and the
   cluster's objects if and only if no key of the finished manifest was in use before,
   Ingress included, and the finished manifest still names every Service created from
   the rendered one. The Ingress documents are deleted without ever having been created.
   */
  lemma ProvisionDeprovisionIsIdentityIff(cfg: Config, w: World, req: ProvisionRequest, env: ProvisionEnv,
                                          env': DeprovisionEnv)
    requires var (w1, first) := ProvisionSpec(cfg, w, req, env);
             first.Provisioned? && DeprovisionSpec(cfg, w1, req.instanceID, env').1.Deprovisioned?
    ensures var w1 := ProvisionSpec(cfg, w, req, env).0;
            var w2 := DeprovisionSpec(cfg, w1, req.instanceID, env').0;
            var p := Prepare(cfg, req, env.now);
            && w2.table == w.table
            && p.Some? && Finished(cfg, p.value, env.now).Some?
            && (var rendered, finished := cfg.decode(p.value.yaml), cfg.decode(Finished(cfg, p.value, env.now).value);
                w2.cluster.objects == w.cluster.objects
                <==> Keys(AnyKind, finished) !! w.cluster.objects.Keys
                     && Keys(IsService, rendered) <= Keys(AnyKind, finished))
  {
    hide ProvisionSpec, DeprovisionSpec, Prepare, Keys;
    ProvisionedObjects(cfg, w, req, env);
    ProvisionDeprovisionObjects(cfg, w, req, env, env');
    var w1 := ProvisionSpec(cfg, w, req, env).0;
    var w2 := DeprovisionSpec(cfg, w1, req.instanceID, env').0;
    var p := Prepare(cfg, req, env.now).value;
    var y := Finished(cfg, p, env.now).value;
    KeysOfAnyKind(IsWorkload, cfg.decode(y));
    RestoredIff(w.cluster.objects, w1.cluster.objects, w2.cluster.objects,
                Keys(IsService, cfg.decode(p.yaml)), Keys(IsWorkload, cfg.decode(y)), Keys(AnyKind, cfg.decode(y)));
  }

  lemma RestoredIff<V>(m: map<Key, V>, m1: map<Key, V>, m2: map<Key, V>, services: set<Key>, workloads: set<Key>,
                       deleted: set<Key>)
    requires m1.Keys == m.Keys + (services + workloads) && (services + workloads) !! m.Keys
    requires forall k :: k in m ==> m1[k] == m[k]
    requires m2 == m1 - deleted && workloads <= deleted
    ensures m2 == m <==> deleted !! m.Keys && services <= deleted
  {
    if m2 == m {
      forall k | k in services ensures k in deleted {
        assert k !in m2;
      }
      forall k | k in m ensures k !in deleted {
        assert k in m2;
      }
    }
  }

  // ---------- Update ----------

  /**
   What a successful Update did, where it gets that far: the Services of the rendered
   manifest and the updatable workloads of the finished one have their last bodies, and
   every object that no such document names is untouched, Ingress and Router included.
   The special hook was told only the Services that existed already.
   */
  lemma UpdateApplies(cfg: Config, w: World, up: UpdateRequest, env: UpdateEnv) returns (p: Prepared, finished: string)
    requires UpdateSpec(cfg, w, up, env).1.Updated?
    ensures var w' := UpdateSpec(cfg, w, up, env).0;
            var docs, docs' := cfg.decode(p.yaml), cfg.decode(finished);
            && AllObjects(docs) && AllObjects(docs')
            && up.planID.Some? && !env.selectDown
            && (up.instanceID !in w.table || w.table[up.instanceID].instanceID != up.instanceID)
            && Prepare(cfg, AsProvision(up, up.planID.value, SelectRow(w.table, up.instanceID, false).value), env.now)
               == Some(p)
            && ApplySpecial(cfg, p.serviceName, env.now, p.yaml,
                            LastNames(Met(w.cluster.objects.Keys, Selected(IsService, docs))))
               == Some(finished)
            && w'.cluster.Contents() == w.cluster.Contents() + LastBodies(Selected(IsService, docs))
                                        + LastBodies(Selected(IsUpdatableWorkload, docs'))
            && (forall k :: k in w.cluster.objects && k !in Keys(IsService, docs)
                            && k !in Keys(IsUpdatableWorkload, docs')
                  ==> k in w'.cluster.objects && w'.cluster.objects[k] == w.cluster.objects[k])
  {
    hide UpsertPass, Prepare, ApplySpecial, UpdateRow;
    hide LastBodies, LastNames, Selected, Met, KeysOf, Keys, Cluster.Contents;
    var selected := SelectRow(w.table, up.instanceID, env.selectDown).value;
    p := Prepare(cfg, AsProvision(up, up.planID.value, selected), env.now).value;
    var first := UpsertPass(IsService, cfg.decode(p.yaml), env.services, w.cluster);
    finished := ApplySpecial(cfg, p.serviceName, env.now, p.yaml, first.result.value).value;
    TwoUpserts(cfg.decode(p.yaml), cfg.decode(finished), env.services, env.workloads, w.cluster);
  }

  lemma TwoUpserts(docs: seq<Document>, docs': seq<Document>, faults: Faults, faults': Faults, c: Cluster)
    requires var first := UpsertPass(IsService, docs, faults, c);
             first.result.Ok? && UpsertPass(IsUpdatableWorkload, docs', faults', first.cluster).result.Ok?
    ensures var first := UpsertPass(IsService, docs, faults, c);
            var c' := UpsertPass(IsUpdatableWorkload, docs', faults', first.cluster).cluster;
            && AllObjects(docs) && AllObjects(docs')
            && first.result.value == LastNames(Met(c.objects.Keys, Selected(IsService, docs)))
            && c'.Contents() == c.Contents() + LastBodies(Selected(IsService, docs))
                + LastBodies(Selected(IsUpdatableWorkload, docs'))
            && (forall k :: k in c.objects && k !in Keys(IsService, docs) && k !in Keys(IsUpdatableWorkload, docs')
                  ==> k in c'.objects && c'.objects[k] == c.objects[k])
  {
    hide UpsertPass, LastBodies, LastNames, Selected, Met, Cluster.Contents, Keys;
    var first := UpsertPass(IsService, docs, faults, c);
    var n := UpsertPassResidue(IsService, docs, faults, c);
    var m := UpsertPassResidue(IsUpdatableWorkload, docs', faults', first.cluster);
    assert docs[..n] == docs && docs'[..m] == docs';
  }
}
