/**
 What each handler answers and what it has changed by then, in terms of the request's
 parameters, the catalog indexes and the fields of the service's hooks.
 */
module Answers {
  import opened Results
  import opened ApiServer
  import opened Manifest
  import opened KubeCli
  import opened ApplyProperties
  import opened Catalog
  import opened Pods
  import opened Dao
  import opened Broker
  import opened Lifecycle

  // ---------- rendering ----------

  /** The name of an indexed service, and the plan. */
  ghost predicate Indexed(cfg: Config, serviceID: string, planID: string, name: string, plan: Plan) {
    && serviceID in cfg.index.serviceIdName && cfg.index.serviceIdName[serviceID] == name
    && serviceID in cfg.index.serviceIdPlan && planID in cfg.index.serviceIdPlan[serviceID]
    && cfg.index.serviceIdPlan[serviceID][planID] == plan
  }

  /** The parameters name a namespace and an instance. */
  ghost predicate Addressed(params: Params) {
    "NAMESPACE" in params && "INSTANCE_NAME" in params
  }

  /** The template rendered for an instance id; a missing storage class is the empty one. */
  function RenderedFor(cfg: Config, id: string, name: string, params: Params): Option<string>
    requires Addressed(params) && name in cfg.index.serviceTemplates
  {
    cfg.render(cfg.index.serviceTemplates[name], params["NAMESPACE"], params["INSTANCE_NAME"],
               if "STORAGECLASS" in params then params["STORAGECLASS"] else "", id)
  }

  /** Everything that rendering needs is there, no hook refuses, and this comes out. */
  ghost predicate RendersTo(cfg: Config, id: string, serviceID: string, planID: string, params: Params, now: nat,
                            p: Prepared)
  {
    exists plan, withParams ::
      && Indexed(cfg, serviceID, planID, p.serviceName, plan)
      && p.serviceName in cfg.index.serviceTemplates && p.serviceName in cfg.services && Addressed(params)
      && p.namespace == params["NAMESPACE"] && p.instanceName == params["INSTANCE_NAME"]
      && RenderedFor(cfg, id, p.serviceName, params).Some?
      && var s, rendered := cfg.services[p.serviceName], RenderedFor(cfg, id, p.serviceName, params).value;
      && s.applyParameters(now, rendered, params) == Some(withParams)
      && s.applyPlan(now, withParams, plan) == Some(p.yaml)
      && cfg.marshal(params) == Some(p.params)
  }

  /** Rendering succeeds with exactly what it comes to. */
  lemma PrepareIff(cfg: Config, req: ProvisionRequest, now: nat, p: Prepared)
    ensures Prepare(cfg, req, now) == Some(p)
       <==> RendersTo(cfg, req.instanceID, req.serviceID, req.planID, req.parameters, now, p)
  {
    if Prepare(cfg, req, now) == Some(p) {
      var plan := GetPlan(cfg.index, req.serviceID, req.planID).value;
      var rendered := RenderedFor(cfg, req.instanceID, p.serviceName, req.parameters).value;
      var withParams := cfg.services[p.serviceName].applyParameters(now, rendered, req.parameters).value;
      assert Indexed(cfg, req.serviceID, req.planID, p.serviceName, plan);
    }
  }

  // ---------- Provision ----------

  /**
   When Provision refuses before it touches anything: 503 if the table cannot be read, 409
   for an id that is in use or empty, and 400 exactly if the request does not render. A
   request without a namespace or an instance name, or for an unknown service, plan or
   template, is among those.
   */
  lemma ProvisionRefuses(cfg: Config, w: World, req: ProvisionRequest, env: ProvisionEnv)
    requires KeyedById(w.table)
    ensures env.selectDown ==> ProvisionSpec(cfg, w, req, env) == (w, ProvisionFailed(ServiceUnavailable))
    ensures !env.selectDown && (req.instanceID in w.table || req.instanceID == "") ==>
              ProvisionSpec(cfg, w, req, env) == (w, ProvisionFailed(Conflicts))
    ensures !env.selectDown && req.instanceID !in w.table && req.instanceID != "" ==>
              && (ProvisionSpec(cfg, w, req, env).1 == ProvisionFailed(BadRequest) <==>
                    forall p :: !RendersTo(cfg, req.instanceID, req.serviceID, req.planID, req.parameters, env.now, p))
              && (ProvisionSpec(cfg, w, req, env).1 == ProvisionFailed(BadRequest) ==>
                    ProvisionSpec(cfg, w, req, env).0 == w)
              && ("NAMESPACE" !in req.parameters || "INSTANCE_NAME" !in req.parameters
                  || req.serviceID !in cfg.index.serviceIdName || req.serviceID !in cfg.index.serviceIdPlan
                  || req.planID !in cfg.index.serviceIdPlan[req.serviceID]
                  || cfg.index.serviceIdName[req.serviceID] !in cfg.index.serviceTemplates
                  || cfg.index.serviceIdName[req.serviceID] !in cfg.services ==>
                    ProvisionSpec(cfg, w, req, env) == (w, ProvisionFailed(BadRequest)))
  {
    hide Commit, RendersTo;
    var prepared := Prepare(cfg, req, env.now);
    if prepared.Some? {
      PrepareIff(cfg, req, env.now, prepared.value);
      RendersOnlyIf(cfg, req.instanceID, req.serviceID, req.planID, req.parameters, env.now, prepared.value);
      var n := ProvisionResidue(cfg, w, req, env);
      CommitNeverRefuses(cfg, w, req, env, prepared.value);
    } else {
      hide Prepare;
      forall p ensures !RendersTo(cfg, req.instanceID, req.serviceID, req.planID, req.parameters, env.now, p) {
        PrepareIff(cfg, req, env.now, p);
      }
    }
  }

  lemma RendersOnlyIf(cfg: Config, id: string, serviceID: string, planID: string, params: Params, now: nat, p: Prepared)
    requires RendersTo(cfg, id, serviceID, planID, params, now, p)
    ensures "NAMESPACE" in params && "INSTANCE_NAME" in params
    ensures serviceID in cfg.index.serviceIdName && serviceID in cfg.index.serviceIdPlan
    ensures planID in cfg.index.serviceIdPlan[serviceID]
    ensures cfg.index.serviceIdName[serviceID] in cfg.index.serviceTemplates
    ensures cfg.index.serviceIdName[serviceID] in cfg.services
  {
  }

  lemma CommitNeverRefuses(cfg: Config, w: World, req: ProvisionRequest, env: ProvisionEnv, p: Prepared)
    ensures var reply := Commit(cfg, w, req, env, p).1;
            reply.ProvisionFailed? ==> reply.status in {InternalServerError, ServiceUnavailable}
  {
    var n := CommitResidue(cfg, w, req, env, p);
  }

  /**
   What a request that renders is answered: 500 if a pass fails or a hook refuses, 503 if
   only the insert fails, and otherwise the dashboard address that the service's hook gives
   for the Services just created.
   */
  lemma ProvisionAnswers(cfg: Config, w: World, req: ProvisionRequest, env: ProvisionEnv, p: Prepared)
    requires !env.selectDown && req.instanceID !in w.table && req.instanceID != ""
    requires RendersTo(cfg, req.instanceID, req.serviceID, req.planID, req.parameters, env.now, p)
    ensures var s, docs := cfg.services[p.serviceName], cfg.decode(p.yaml);
            var first := CreatePass(IsService, docs, env.services, w.cluster);
            var made := LastNames(Selected(IsService, docs));
            var finished := s.applySpecial(env.now, p.yaml, made);
            var url := s.getDashboardURL(env.now, req.parameters, made);
            var reply := ProvisionSpec(cfg, w, req, env).1;
            if first.result.Ok? && finished.Some? && url.Some?
               && CreatePass(IsWorkload, cfg.decode(finished.value), env.workloads, first.cluster).result.Ok?
            then reply == if env.insertDown then ProvisionFailed(ServiceUnavailable) else Provisioned(url.value)
            else reply == ProvisionFailed(InternalServerError)
  {
    PrepareIff(cfg, req, env.now, p);
    RendersOnlyIf(cfg, req.instanceID, req.serviceID, req.planID, req.parameters, env.now, p);
    hide CreatePass, Prepare, LastNames, Selected, RendersTo;
    var docs := cfg.decode(p.yaml);
    if CreatePass(IsService, docs, env.services, w.cluster).result.Ok? {
      CreatePassSuccess(IsService, docs, env.services, w.cluster);
    }
  }

  // ---------- Deprovision ----------

  /**
   What Deprovision answers and has changed: 503 if the table cannot be read, 410 without
   a row, 500 with nothing changed if the row's service is not registered or its
   before-hook refuses, 500 with the row kept if a delete fails or the after-hook refuses,
   503 with the row kept if only the row deletion fails.
   */
  lemma DeprovisionAnswers(cfg: Config, w: World, id: string, env: DeprovisionEnv)
    ensures env.selectDown ==> DeprovisionSpec(cfg, w, id, env) == (w, DeprovisionFailed(ServiceUnavailable))
    ensures !env.selectDown && (id !in w.table || w.table[id].instanceID == "") ==>
              DeprovisionSpec(cfg, w, id, env) == (w, DeprovisionFailed(Gone))
    ensures !env.selectDown && id in w.table && w.table[id].instanceID != "" ==>
              var row := w.table[id];
              var deleted := DeletePass(cfg.decode(row.yaml), env.deletes, w.cluster);
              DeprovisionSpec(cfg, w, id, env)
              == if row.serviceName !in cfg.services
                 || !cfg.services[row.serviceName].beforeKubeDelete(env.now, row) then
                   (w, DeprovisionFailed(InternalServerError))
                 else if deleted.result.Err? || !cfg.services[row.serviceName].afterKubeDelete(env.now, row) then
                   (World(deleted.cluster, w.table), DeprovisionFailed(InternalServerError))
                 else if env.deleteDown then
                   (World(deleted.cluster, w.table), DeprovisionFailed(ServiceUnavailable))
                 else (World(deleted.cluster, w.table - {id}), Deprovisioned)
  {
    hide DeletePass;
  }

  // ---------- Update ----------

  /**
   What Update refuses before it touches anything. For an id without a row it renders with
   an empty instance id, and a request that names no plan crashes it.
   */
  lemma UpdateRefuses(cfg: Config, w: World, up: UpdateRequest, env: UpdateEnv)
    requires KeyedById(w.table)
    ensures env.selectDown ==> UpdateSpec(cfg, w, up, env) == (w, UpdateFailed(ServiceUnavailable))
    ensures !env.selectDown && (up.instanceID in w.table || up.instanceID == "") ==>
              UpdateSpec(cfg, w, up, env) == (w, UpdateFailed(Conflicts))
    ensures !env.selectDown && up.instanceID !in w.table && up.instanceID != "" ==>
              if up.serviceID !in cfg.index.serviceIdName then
                UpdateSpec(cfg, w, up, env) == (w, UpdateFailed(BadRequest))
              else if up.planID.None? then UpdateSpec(cfg, w, up, env) == (w, UpdateCrashed)
              else
                && (UpdateSpec(cfg, w, up, env).1 == UpdateFailed(BadRequest) <==>
                      forall p :: !RendersTo(cfg, "", up.serviceID, up.planID.value, up.parameters, env.now, p))
                && (UpdateSpec(cfg, w, up, env).1 == UpdateFailed(BadRequest) ==> UpdateSpec(cfg, w, up, env).0 == w)
                && ("NAMESPACE" !in up.parameters || "INSTANCE_NAME" !in up.parameters ==>
                      UpdateSpec(cfg, w, up, env) == (w, UpdateFailed(BadRequest)))
  {
    hide RendersTo, UpsertPass, UpdateRow, ApplySpecial;
    if !env.selectDown && up.instanceID !in w.table && up.instanceID != "" && up.planID.Some? {
      var req := AsProvision(up, up.planID.value, NO_INSTANCE);
      var prepared := Prepare(cfg, req, env.now);
      if prepared.Some? {
        PrepareIff(cfg, req, env.now, prepared.value);
        RendersOnlyIf(cfg, "", up.serviceID, up.planID.value, up.parameters, env.now, prepared.value);
      } else {
        hide Prepare;
        forall p ensures !RendersTo(cfg, "", up.serviceID, up.planID.value, up.parameters, env.now, p) {
          PrepareIff(cfg, req, env.now, p);
        }
      }
    }
  }

  /**
   What an Update that renders is answered: 500 if a pass fails or the special hook, which
   is told the Services that existed, refuses; 503 if only the row update fails.
   */
  lemma UpdateAnswers(cfg: Config, w: World, up: UpdateRequest, env: UpdateEnv, p: Prepared)
    requires !env.selectDown && up.instanceID !in w.table && up.instanceID != "" && up.planID.Some?
    requires RendersTo(cfg, "", up.serviceID, up.planID.value, up.parameters, env.now, p)
    ensures var s := cfg.services[p.serviceName];
            var first := UpsertPass(IsService, cfg.decode(p.yaml), env.services, w.cluster);
            var reply := UpdateSpec(cfg, w, up, env).1;
            if first.result.Ok? && s.applySpecial(env.now, p.yaml, first.result.value).Some?
               && UpsertPass(IsUpdatableWorkload, cfg.decode(s.applySpecial(env.now, p.yaml, first.result.value).value),
                             env.workloads, first.cluster).result.Ok?
            then reply == if env.updateDown then UpdateFailed(ServiceUnavailable) else Updated
            else reply == UpdateFailed(InternalServerError)
  {
    PrepareIff(cfg, AsProvision(up, up.planID.value, NO_INSTANCE), env.now, p);
    RendersOnlyIf(cfg, "", up.serviceID, up.planID.value, up.parameters, env.now, p);
    hide UpsertPass, Prepare, RendersTo;
  }

  /** The manifests that a successful Update applied. */
  ghost predicate UpdatedFrom(cfg: Config, w: World, up: UpdateRequest, env: UpdateEnv, p: Prepared, finished: string) {
    && UpdateSpec(cfg, w, up, env).1.Updated?
    && up.planID.Some? && RendersTo(cfg, "", up.serviceID, up.planID.value, up.parameters, env.now, p)
    && cfg.services[p.serviceName].applySpecial(env.now, p.yaml,
         LastNames(Met(w.cluster.objects.Keys, Selected(IsService, cfg.decode(p.yaml))))) == Some(finished)
  }

  /** There are such manifests, rendered without an instance id, and every document of both is an object. */
  lemma UpdateApplied(cfg: Config, w: World, up: UpdateRequest, env: UpdateEnv) returns (p: Prepared, finished: string)
    requires KeyedById(w.table) && UpdateSpec(cfg, w, up, env).1.Updated?
    ensures UpdatedFrom(cfg, w, up, env, p, finished)
    ensures AllObjects(cfg.decode(p.yaml)) && AllObjects(cfg.decode(finished))
    ensures var w' := UpdateSpec(cfg, w, up, env).0;
            && w'.cluster.Contents() == w.cluster.Contents()
                 + LastBodies(Selected(IsService, cfg.decode(p.yaml)))
                 + LastBodies(Selected(IsUpdatableWorkload, cfg.decode(finished)))
            && (forall k :: k in w.cluster.objects && k !in Keys(IsService, cfg.decode(p.yaml))
                            && k !in Keys(IsUpdatableWorkload, cfg.decode(finished))
                  ==> k in w'.cluster.objects && w'.cluster.objects[k] == w.cluster.objects[k])
  {
    hide UpdateSpec, Prepare, LastNames, Met, Selected, LastBodies, RendersTo, Keys, Cluster.Contents;
    p, finished := UpdateApplies(cfg, w, up, env);
    assert up.instanceID !in w.table;
    PrepareIff(cfg, AsProvision(up, up.planID.value, NO_INSTANCE), env.now, p);
  }

  lemma UpdatedFromOne(cfg: Config, w: World, up: UpdateRequest, env: UpdateEnv, p: Prepared, finished: string,
                       q: Prepared, finished': string)
    requires UpdatedFrom(cfg, w, up, env, p, finished) && UpdatedFrom(cfg, w, up, env, q, finished')
    ensures p == q && finished == finished'
  {
    hide UpdateSpec, RendersTo, LastNames, Met, Selected;
    var req := AsProvision(up, up.planID.value, NO_INSTANCE);
    PrepareIff(cfg, req, env.now, p);
    PrepareIff(cfg, req, env.now, q);
  }

  /**
   A key that only Service, Ingress and Router documents of the finished manifest carry,
   and no Service document of the rendered one, is left alone: what was there is as it
   was, and what was absent is still absent.
   */
  lemma UpdateLeavesAlone(cfg: Config, w: World, up: UpdateRequest, env: UpdateEnv, p: Prepared, finished: string,
                          k: Key)
    requires KeyedById(w.table) && UpdatedFrom(cfg, w, up, env, p, finished)
    requires forall d :: d in cfg.decode(p.yaml) && d.Object? && d.obj.key == k ==> d.obj.kind != "Service"
    requires forall d :: d in cfg.decode(finished) && d.Object? && d.obj.key == k ==>
               d.obj.kind in {"Service", "Ingress", "Router"}
    ensures var w' := UpdateSpec(cfg, w, up, env).0;
            && (k in w'.cluster.objects <==> k in w.cluster.objects)
            && (k in w.cluster.objects ==> w'.cluster.objects[k] == w.cluster.objects[k])
  {
    assert UpdateSpec(cfg, w, up, env).1.Updated?;
    hide UpdateSpec, UpdatedFrom, LastBodies, Selected, Keys;
    var q, finished' := UpdateApplied(cfg, w, up, env);
    UpdatedFromOne(cfg, w, up, env, p, finished, q, finished');
    var docs, docs' := cfg.decode(p.yaml), cfg.decode(finished);
    FiltersKeep(docs, k);
    FiltersKeep(docs', k);
    NotBodied(IsService, docs, k);
    NotBodied(IsUpdatableWorkload, docs', k);
    var w' := UpdateSpec(cfg, w, up, env).0;
    assert k in w'.cluster.Contents() <==> k in w'.cluster.objects;
    assert k in w.cluster.Contents() <==> k in w.cluster.objects;
  }

  lemma NotBodied(keep: Filter, docs: seq<Document>, k: Key)
    ensures k in LastBodies(Selected(keep, docs)) <==> k in Keys(keep, docs)
  {
    LastBodiesKeys(Selected(keep, docs));
  }

  /**
   Every other document of the finished manifest is applied: what its key holds in the end
   is the body of the last document of such a kind.
   */
  lemma UpdateAppliesDocument(cfg: Config, w: World, up: UpdateRequest, env: UpdateEnv, p: Prepared, finished: string,
                              i: nat)
    requires KeyedById(w.table) && UpdatedFrom(cfg, w, up, env, p, finished)
    requires i < |cfg.decode(finished)| && cfg.decode(finished)[i].Object?
    requires cfg.decode(finished)[i].obj.kind !in {"Service", "Ingress", "Router"}
    requires var docs := cfg.decode(finished);
             forall j :: i < j < |docs| && docs[j].Object? && docs[j].obj.key == docs[i].obj.key ==>
               docs[j].obj.kind in {"Service", "Ingress", "Router"}
    ensures var w', o := UpdateSpec(cfg, w, up, env).0, cfg.decode(finished)[i].obj;
            o.key in w'.cluster.objects && w'.cluster.objects[o.key].body == o.body
  {
    assert UpdateSpec(cfg, w, up, env).1.Updated?;
    hide UpdateSpec, UpdatedFrom, LastBodies, Selected, Keys;
    var q, finished' := UpdateApplied(cfg, w, up, env);
    UpdatedFromOne(cfg, w, up, env, p, finished, q, finished');
    LastKeptBody(IsUpdatableWorkload, cfg.decode(finished), i);
    var w', o := UpdateSpec(cfg, w, up, env).0, cfg.decode(finished)[i].obj;
    assert o.key in w'.cluster.Contents() && w'.cluster.Contents()[o.key] == o.body;
  }

  // ---------- LastOperation ----------

  /** What LastOperation answers in every situation. */
  lemma LastOperationAnswers(cfg: Config, table: Table, id: string, env: LastOperationEnv)
    ensures var reply := LastOperationSpec(cfg, table, id, env);
            if env.selectDown then reply == LastOperationFailed(ServiceUnavailable)
            else if id !in table || table[id].instanceID == "" then reply == LastOperationFailed(Gone)
            else if env.pods.None? then reply == LastOperationFailed(InternalServerError)
            else
              var cs, row := Containers(env.pods.value), table[id];
              if exists c :: c in cs && !c.ready && c.waiting.None? then reply == Crashed
              else if exists c :: c in cs && !c.ready && c.waiting != Some("ContainerCreating") then
                reply == State("failed")
              else if forall c :: c in cs ==> c.ready then reply == State("processing")
              else if row.serviceName !in cfg.services then reply == LastOperationFailed(InternalServerError)
              else
                var hook := cfg.services[row.serviceName].lastStateCheck(env.now, row);
                reply == if hook.None? then LastOperationFailed(InternalServerError)
                         else if hook.value.0 then State("processing")
                         else if hook.value.2 then State("failed")
                         else State("succeed")
  {
    hide Containers, Meaning;
    if env.pods.Some? {
      ExactlyOneResult(Containers(env.pods.value));
    }
  }
}
