/**
 The request handlers of the broker (pkg/broker/logic.go). Each handler is a method
 that performs its effects in order with early exits, specified by a function from the
 old stores to the new stores and the reply.
 */
module Broker {
  import opened Results
  import opened ApiServer
  import opened Manifest
  import opened KubeCli
  import opened Catalog
  import opened Pods
  import opened Dao

  /** Request parameters, each value as it prints. */
  type Params = map<string, string>

  /**
   A service's hooks. The first argument is the moment of the request: a hook may
   answer differently each time, and may fail.
   */
  datatype Service = Service(
    applyParameters: (nat, string, Params) -> Option<string>,
    applyPlan: (nat, string, Plan) -> Option<string>,
    applySpecial: (nat, string, Names) -> Option<string>,
    getDashboardURL: (nat, Params, Names) -> Option<string>,
    beforeKubeDelete: (nat, Instance) -> bool,
    afterKubeDelete: (nat, Instance) -> bool,
    lastStateCheck: (nat, Instance) -> Option<(bool, bool, bool)>)

  /**
   What the handlers read: the catalog indexes, the services by name, the template
   engine (template, namespace, instance name, storage class, instance id), the JSON
   encoder and the YAML reader.
   */
  datatype Config = Config(
    index: Index,
    services: map<string, Service>,
    render: (string, string, string, string, string) -> Option<string>,
    marshal: Params -> Option<string>,
    decode: string -> seq<Document>)

  datatype World = World(cluster: Cluster, table: Table)

  datatype ProvisionRequest = ProvisionRequest(
    instanceID: string,
    serviceID: string,
    planID: string,
    organizationGUID: string,
    spaceGUID: string,
    parameters: Params)

  /** An update names a plan or, as the API allows, none. */
  datatype UpdateRequest = UpdateRequest(instanceID: string, serviceID: string, planID: Option<string>,
                                         parameters: Params)

  /** The failures that a Provision call meets. */
  datatype ProvisionEnv = ProvisionEnv(now: nat, selectDown: bool, services: Faults, workloads: Faults,
                                       insertDown: bool)

  /** The failures that a Deprovision call meets. */
  datatype DeprovisionEnv = DeprovisionEnv(now: nat, selectDown: bool, deletes: Faults, deleteDown: bool)

  /** The failures that an Update call meets. */
  datatype UpdateEnv = UpdateEnv(now: nat, selectDown: bool, services: Faults, workloads: Faults, updateDown: bool)

  /** What a LastOperation call meets; no pods if listing them fails. */
  datatype LastOperationEnv = LastOperationEnv(now: nat, selectDown: bool, pods: Option<seq<Pod>>)

  /** HTTP status codes of the error exits. */
  datatype Status = BadRequest | Conflicts | Gone | InternalServerError | ServiceUnavailable

  datatype ProvisionReply = ProvisionFailed(status: Status) | Provisioned(dashboardURL: string)

  datatype DeprovisionReply = DeprovisionFailed(status: Status) | Deprovisioned

  datatype UpdateReply = UpdateFailed(status: Status) | UpdateCrashed | Updated

  datatype LastOperationReply = LastOperationFailed(status: Status) | Crashed | State(state: string)

  function Parameter(params: Params, name: string): Option<string> {
    if name in params then Some(params[name]) else None
  }

  function StorageClass(params: Params): string {
    if "STORAGECLASS" in params then params["STORAGECLASS"] else ""
  }

  function ServiceNamed(cfg: Config, name: string): Option<Service> {
    if name in cfg.services then Some(cfg.services[name]) else None
  }

  function ApplyParameters(cfg: Config, name: string, now: nat, yaml: string, params: Params): Option<string> {
    var s :- ServiceNamed(cfg, name);
    s.applyParameters(now, yaml, params)
  }

  function ApplyPlan(cfg: Config, name: string, now: nat, yaml: string, plan: Plan): Option<string> {
    var s :- ServiceNamed(cfg, name);
    s.applyPlan(now, yaml, plan)
  }

  function ApplySpecial(cfg: Config, name: string, now: nat, yaml: string, made: Names): Option<string> {
    var s :- ServiceNamed(cfg, name);
    s.applySpecial(now, yaml, made)
  }

  function DashboardURL(cfg: Config, name: string, now: nat, params: Params, made: Names): Option<string> {
    var s :- ServiceNamed(cfg, name);
    s.getDashboardURL(now, params, made)
  }

  predicate BeforeKubeDelete(cfg: Config, now: nat, i: Instance) {
    i.serviceName in cfg.services && cfg.services[i.serviceName].beforeKubeDelete(now, i)
  }

  predicate AfterKubeDelete(cfg: Config, now: nat, i: Instance) {
    i.serviceName in cfg.services && cfg.services[i.serviceName].afterKubeDelete(now, i)
  }

  function LastStateCheck(cfg: Config, now: nat, i: Instance): Option<(bool, bool, bool)> {
    var s :- ServiceNamed(cfg, i.serviceName);
    s.lastStateCheck(now, i)
  }

  // ---------- Provision ----------

  /** What a request is turned into before anything is created. */
  datatype Prepared = Prepared(serviceName: string, namespace: string, instanceName: string, yaml: string,
                               params: string)

  /** Lookups and rendering; every failure here is a bad request. */
  function Prepare(cfg: Config, req: ProvisionRequest, now: nat): Option<Prepared> {
    var serviceName :- GetServiceName(cfg.index, req.serviceID).ToOption();
    var plan :- GetPlan(cfg.index, req.serviceID, req.planID).ToOption();
    var template :- GetServiceTemplate(cfg.index, serviceName).ToOption();
    var namespace :- Parameter(req.parameters, "NAMESPACE");
    var instanceName :- Parameter(req.parameters, "INSTANCE_NAME");
    var rendered :- cfg.render(template, namespace, instanceName, StorageClass(req.parameters), req.instanceID);
    var withParams :- ApplyParameters(cfg, serviceName, now, rendered, req.parameters);
    var withPlan :- ApplyPlan(cfg, serviceName, now, withParams, plan);
    var params :- cfg.marshal(req.parameters);
    Some(Prepared(serviceName, namespace, instanceName, withPlan, params))
  }

  function RowFor(req: ProvisionRequest, p: Prepared, yaml: string): Instance {
    Instance(req.instanceID, req.serviceID, p.instanceName, p.serviceName, req.planID, p.namespace,
             req.organizationGUID, req.spaceGUID, p.params, yaml)
  }

  /** From the first create on. */
  function Commit(cfg: Config, w: World, req: ProvisionRequest, env: ProvisionEnv, p: Prepared)
    : (World, ProvisionReply)
  {
    AfterServicePass(cfg, w.table, req, env, p, CreatePass(IsService, cfg.decode(p.yaml), env.services, w.cluster))
  }

  function AfterServicePass(cfg: Config, table: Table, req: ProvisionRequest, env: ProvisionEnv, p: Prepared,
                            first: Outcome)
    : (World, ProvisionReply)
  {
    if first.result.Err? then (World(first.cluster, table), ProvisionFailed(InternalServerError))
    else
      var special := ApplySpecial(cfg, p.serviceName, env.now, p.yaml, first.result.value);
      if special.None? then (World(first.cluster, table), ProvisionFailed(InternalServerError))
      else
        AfterWorkloadPass(cfg, table, req, env, p, special.value, first.result.value,
                          CreatePass(IsWorkload, cfg.decode(special.value), env.workloads, first.cluster))
  }

  function AfterWorkloadPass(cfg: Config, table: Table, req: ProvisionRequest, env: ProvisionEnv, p: Prepared,
                             yaml: string, made: Names, second: Outcome)
    : (World, ProvisionReply)
  {
    if second.result.Err? then (World(second.cluster, table), ProvisionFailed(InternalServerError))
    else
      var url := DashboardURL(cfg, p.serviceName, env.now, req.parameters, made);
      if url.None? then (World(second.cluster, table), ProvisionFailed(InternalServerError))
      else
        var inserted := InsertRow(table, RowFor(req, p, yaml), env.insertDown);
        (World(second.cluster, inserted.0),
         if inserted.1.Err? then ProvisionFailed(ServiceUnavailable) else Provisioned(url.value))
  }

  function ProvisionSpec(cfg: Config, w: World, req: ProvisionRequest, env: ProvisionEnv): (World, ProvisionReply) {
    var selected := SelectRow(w.table, req.instanceID, env.selectDown);
    if selected.Err? then (w, ProvisionFailed(ServiceUnavailable))
    else if selected.value.instanceID == req.instanceID then (w, ProvisionFailed(Conflicts))
    else
      match Prepare(cfg, req, env.now)
      case None => (w, ProvisionFailed(BadRequest))
      case Some(p) => Commit(cfg, w, req, env, p)
  }

  // ---------- Deprovision ----------

  function DeprovisionSpec(cfg: Config, w: World, id: string, env: DeprovisionEnv): (World, DeprovisionReply) {
    var selected := SelectRow(w.table, id, env.selectDown);
    if selected.Err? then (w, DeprovisionFailed(ServiceUnavailable))
    else if selected.value.instanceID == "" then (w, DeprovisionFailed(Gone))
    else if !BeforeKubeDelete(cfg, env.now, selected.value) then (w, DeprovisionFailed(InternalServerError))
    else
      var deleted := DeletePass(cfg.decode(selected.value.yaml), env.deletes, w.cluster);
      if deleted.result.Err? || !AfterKubeDelete(cfg, env.now, selected.value) then
        (World(deleted.cluster, w.table), DeprovisionFailed(InternalServerError))
      else
        var removed := DeleteRow(w.table, id, env.deleteDown);
        (World(deleted.cluster, removed.0),
         if removed.1.Err? then DeprovisionFailed(ServiceUnavailable) else Deprovisioned)
  }

  // ---------- Update, with its guard as written ----------

  /** What an update renders: with the id of the selected row, which is empty when there is none. */
  function AsProvision(req: UpdateRequest, planID: string, selected: Instance): ProvisionRequest {
    ProvisionRequest(selected.instanceID, req.serviceID, planID, "", "", req.parameters)
  }

  function UpdatedRow(req: UpdateRequest, planID: string, p: Prepared, yaml: string): Instance {
    Instance(req.instanceID, req.serviceID, "", p.serviceName, planID, p.namespace, "", "", p.params, yaml)
  }

  /** From the first create-or-update on. */
  function Reapply(cfg: Config, w: World, req: UpdateRequest, planID: string, env: UpdateEnv, p: Prepared)
    : (World, UpdateReply)
  {
    var first := UpsertPass(IsService, cfg.decode(p.yaml), env.services, w.cluster);
    if first.result.Err? then (World(first.cluster, w.table), UpdateFailed(InternalServerError))
    else
      var special := ApplySpecial(cfg, p.serviceName, env.now, p.yaml, first.result.value);
      if special.None? then (World(first.cluster, w.table), UpdateFailed(InternalServerError))
      else
        var second := UpsertPass(IsUpdatableWorkload, cfg.decode(special.value), env.workloads, first.cluster);
        if second.result.Err? then (World(second.cluster, w.table), UpdateFailed(InternalServerError))
        else
          var updated := UpdateRow(w.table, UpdatedRow(req, planID, p, special.value), env.updateDown);
          (World(second.cluster, updated.0), if updated.1.Err? then UpdateFailed(ServiceUnavailable) else Updated)
  }

  function UpdateSpec(cfg: Config, w: World, req: UpdateRequest, env: UpdateEnv): (World, UpdateReply) {
    var selected := SelectRow(w.table, req.instanceID, env.selectDown);
    if selected.Err? then (w, UpdateFailed(ServiceUnavailable))
    else if selected.value.instanceID == req.instanceID then (w, UpdateFailed(Conflicts))
    else if GetServiceName(cfg.index, req.serviceID).Err? then (w, UpdateFailed(BadRequest))
    else if req.planID.None? then (w, UpdateCrashed)
    else
      match Prepare(cfg, AsProvision(req, req.planID.value, selected.value), env.now)
      case None => (w, UpdateFailed(BadRequest))
      case Some(p) => Reapply(cfg, w, req, req.planID.value, env, p)
  }

  // ---------- LastOperation ----------

  function LastOperationSpec(cfg: Config, table: Table, id: string, env: LastOperationEnv): LastOperationReply {
    var selected := SelectRow(table, id, env.selectDown);
    if selected.Err? then LastOperationFailed(ServiceUnavailable)
    else if selected.value.instanceID == "" then LastOperationFailed(Gone)
    else if env.pods.None? then LastOperationFailed(InternalServerError)
    else
      match Meaning(Containers(env.pods.value))
      case NilDereference => Crashed
      case ListFailed => LastOperationFailed(InternalServerError)
      case Verdict(podCreating, _, podFailed) =>
        if podFailed then State("failed")
        else if podCreating then State("processing")
        else
          match LastStateCheck(cfg, env.now, selected.value)
          case None => LastOperationFailed(InternalServerError)
          case Some((processing, _, failed)) =>
            State(if processing then "processing" else if failed then "failed" else "succeed")
  }

  class BusinessLogic {
    var index: Index
    const services: map<string, Service>
    const render: (string, string, string, string, string) -> Option<string>
    const marshal: Params -> Option<string>
    const decode: string -> seq<Document>
    const db: Dao
    const kcl: KubeCli

    constructor (cfg: Config, db: Dao, kcl: KubeCli)
      ensures this.db == db && this.kcl == kcl && Settings() == cfg
    {
      this.index := cfg.index;
      this.services := cfg.services;
      this.render := cfg.render;
      this.marshal := cfg.marshal;
      this.decode := cfg.decode;
      this.db := db;
      this.kcl := kcl;
    }

    ghost function Settings(): Config
      reads this
    {
      Config(index, services, render, marshal, decode)
    }

    ghost function Stores(): World
      reads this, db, kcl
    {
      World(kcl.cluster, db.table)
    }

    /** Fills the catalog fields; on failure they stay as they were. */
    method InitServiceCatalog(src: Source, names: seq<string>) returns (r: Option<InitError>)
      modifies this`index
      ensures r.None? <==> forall name :: name in names ==> Usable(src, name)
      ensures r.None? ==> BuiltFrom(index, src, names)
      ensures r.Some? ==> index == old(index)
    {
      var built := InitServiceTemplate(src, names);
      if built.Err? { return Some(built.error); }
      index := built.value;
      return None;
    }

    method Hooks(name: string) returns (s: Option<Service>)
      ensures s == ServiceNamed(Settings(), name)
    {
      if name in services { return Some(services[name]); }
      return None;
    }

    /** The lookups and the rendering that Provision and Update have in common; nothing is changed yet. */
    method Render(req: ProvisionRequest, now: nat) returns (p: Option<Prepared>)
      ensures p == Prepare(Settings(), req, now)
    {
      var serviceName := GetServiceName(index, req.serviceID);
      if serviceName.Err? { return None; }
      var plan := GetPlan(index, req.serviceID, req.planID);
      if plan.Err? { return None; }
      var template := GetServiceTemplate(index, serviceName.value);
      if template.Err? { return None; }
      var namespace := Parameter(req.parameters, "NAMESPACE");
      if namespace.None? { return None; }
      var instanceName := Parameter(req.parameters, "INSTANCE_NAME");
      if instanceName.None? { return None; }
      var afterInit := render(template.value, namespace.value, instanceName.value, StorageClass(req.parameters),
                              req.instanceID);
      if afterInit.None? { return None; }
      var s := Hooks(serviceName.value);
      if s.None? { return None; }
      var afterParams := s.value.applyParameters(now, afterInit.value, req.parameters);
      if afterParams.None? { return None; }
      var afterPlan := s.value.applyPlan(now, afterParams.value, plan.value);
      if afterPlan.None? { return None; }
      var params := marshal(req.parameters);
      if params.None? { return None; }
      return Some(Prepared(serviceName.value, namespace.value, instanceName.value, afterPlan.value, params.value));
    }

    method Provision(req: ProvisionRequest, env: ProvisionEnv) returns (reply: ProvisionReply)
      modifies db, kcl
      ensures (Stores(), reply) == ProvisionSpec(Settings(), old(Stores()), req, env)
    {
      hide CreatePass, InsertRow, Prepare;
      var instance := db.SelectInstance(req.instanceID, env.selectDown);
      if instance.Err? { return ProvisionFailed(ServiceUnavailable); }
      if instance.value.instanceID == req.instanceID { return ProvisionFailed(Conflicts); }
      var prepared := Render(req, env.now);
      if prepared.None? { return ProvisionFailed(BadRequest); }
      var p := prepared.value;

      var kubeServices := kcl.CreateService(decode(p.yaml), env.services);
      if kubeServices.Err? { return ProvisionFailed(InternalServerError); }
      var s := Hooks(p.serviceName);
      if s.None? { return ProvisionFailed(InternalServerError); }
      var finish := s.value.applySpecial(env.now, p.yaml, kubeServices.value);
      if finish.None? { return ProvisionFailed(InternalServerError); }
      var workloads := kcl.CreateInstance(decode(finish.value), env.workloads);
      if workloads.Err? { return ProvisionFailed(InternalServerError); }
      var dashboardURL := s.value.getDashboardURL(env.now, req.parameters, kubeServices.value);
      if dashboardURL.None? { return ProvisionFailed(InternalServerError); }

      var row := Instance(req.instanceID, req.serviceID, p.instanceName, p.serviceName, req.planID,
                          p.namespace, req.organizationGUID, req.spaceGUID, p.params, finish.value);
      var inserted := db.InsertInstance(row, env.insertDown);
      if inserted.Err? { return ProvisionFailed(ServiceUnavailable); }
      return Provisioned(dashboardURL.value);
    }

    method Update(req: UpdateRequest, env: UpdateEnv) returns (reply: UpdateReply)
      modifies db, kcl
      ensures (Stores(), reply) == UpdateSpec(Settings(), old(Stores()), req, env)
    {
      hide UpsertPass, UpdateRow, Prepare;
      var instance := db.SelectInstance(req.instanceID, env.selectDown);
      if instance.Err? { return UpdateFailed(ServiceUnavailable); }
      if instance.value.instanceID == req.instanceID { return UpdateFailed(Conflicts); }
      var serviceName := GetServiceName(index, req.serviceID);
      if serviceName.Err? { return UpdateFailed(BadRequest); }
      if req.planID.None? { return UpdateCrashed; }
      var prepared := Render(AsProvision(req, req.planID.value, instance.value), env.now);
      if prepared.None? { return UpdateFailed(BadRequest); }
      var p := prepared.value;

      var kubeServices := kcl.UpdateService(decode(p.yaml), env.services);
      if kubeServices.Err? { return UpdateFailed(InternalServerError); }
      var s := Hooks(p.serviceName);
      if s.None? { return UpdateFailed(InternalServerError); }
      var finish := s.value.applySpecial(env.now, p.yaml, kubeServices.value);
      if finish.None? { return UpdateFailed(InternalServerError); }
      var workloads := kcl.UpdateInstance(decode(finish.value), env.workloads);
      if workloads.Err? { return UpdateFailed(InternalServerError); }

      var row := Instance(req.instanceID, req.serviceID, "", p.serviceName, req.planID.value,
                          p.namespace, "", "", p.params, finish.value);
      var updated := db.UpdateInstance(row, env.updateDown);
      if updated.Err? { return UpdateFailed(ServiceUnavailable); }
      return Updated;
    }

    method Deprovision(id: string, env: DeprovisionEnv) returns (reply: DeprovisionReply)
      modifies db, kcl
      ensures (Stores(), reply) == DeprovisionSpec(Settings(), old(Stores()), id, env)
    {
      var instance := db.SelectInstance(id, env.selectDown);
      if instance.Err? { return DeprovisionFailed(ServiceUnavailable); }
      if instance.value.instanceID == "" { return DeprovisionFailed(Gone); }
      var s := Hooks(instance.value.serviceName);
      if s.None? || !s.value.beforeKubeDelete(env.now, instance.value) {
        return DeprovisionFailed(InternalServerError);
      }
      var deleted := kcl.DeleteInstance(decode(instance.value.yaml), env.deletes);
      if deleted.Err? { return DeprovisionFailed(InternalServerError); }
      if !s.value.afterKubeDelete(env.now, instance.value) {
        return DeprovisionFailed(InternalServerError);
      }
      var removed := db.DeleteInstance(id, env.deleteDown);
      if removed.Err? { return DeprovisionFailed(ServiceUnavailable); }
      return Deprovisioned;
    }

    method LastOperation(id: string, env: LastOperationEnv) returns (reply: LastOperationReply)
      ensures reply == LastOperationSpec(Settings(), db.table, id, env)
    {
      var instance := db.SelectInstance(id, env.selectDown);
      if instance.Err? { return LastOperationFailed(ServiceUnavailable); }
      if instance.value.instanceID == "" { return LastOperationFailed(Gone); }
      var check := CheckInstance(env.pods);
      if check.ListFailed? { return LastOperationFailed(InternalServerError); }
      if check.NilDereference? { return Crashed; }
      if check.third { return State("failed"); }
      if check.first { return State("processing"); }
      var s := Hooks(instance.value.serviceName);
      if s.None? { return LastOperationFailed(InternalServerError); }
      var last := s.value.lastStateCheck(env.now, instance.value);
      if last.None? { return LastOperationFailed(InternalServerError); }
      if last.value.0 { return State("processing"); }
      if last.value.2 { return State("failed"); }
      return State("succeed");
    }
  }
}
