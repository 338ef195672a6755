/**
 Whole runs: any sequence of handler calls on any instance ids, each handler atomic,
 each call meeting any failures, with other clients of the cluster in between.
 */
module Runs {
  import opened Results
  import opened ApiServer
  import opened Manifest
  import opened KubeCli
  import opened ApplyProperties
  import opened Catalog
  import opened Dao
  import opened Broker
  import opened Lifecycle
  import UpsertProperties

  /** One incarnation of an object that a successful Provision of `id` created. */
  datatype Owned = Owned(id: string, key: Key, uid: nat)

  /** The stores, and everything that successful Provisions ever created. */
  datatype Tracked = Tracked(world: World, committed: set<Owned>)

  datatype Event =
    | ProvisionCall(req: ProvisionRequest, penv: ProvisionEnv)
    | DeprovisionCall(id: string, denv: DeprovisionEnv)
    | UpdateCall(up: UpdateRequest, uenv: UpdateEnv)
    | LastOperationCall(id: string, lenv: LastOperationEnv)
    | OtherClients(after: Cluster)

  /** The incarnations that are in c' and not in c. */
  function NewObjects(id: string, c: Cluster, c': Cluster): set<Owned> {
    set k | k in c'.objects && (k !in c.objects || c.objects[k].uid != c'.objects[k].uid) ::
        Owned(id, k, c'.objects[k].uid)
  }

  /** Other clients may do anything a server admits; whatever it would not admit does not happen. */
  ghost function Step(cfg: Config, s: Tracked, e: Event): Tracked {
    match e
    case ProvisionCall(req, env) =>
      var (w', reply) := ProvisionSpec(cfg, s.world, req, env);
      Tracked(w', if reply.Provisioned? then s.committed + NewObjects(req.instanceID, s.world.cluster, w'.cluster)
                  else s.committed)
    case DeprovisionCall(id, env) => s.(world := DeprovisionSpec(cfg, s.world, id, env).0)
    case UpdateCall(up, env) => s.(world := UpdateSpec(cfg, s.world, up, env).0)
    case LastOperationCall(_, _) => s
    case OtherClients(after) => if Evolves(s.world.cluster, after) then s.(world := s.world.(cluster := after)) else s
  }

  ghost function Run(cfg: Config, s: Tracked, events: seq<Event>): Tracked {
    if events == [] then s
    else Step(cfg, Run(cfg, s, events[..|events| - 1]), events[|events| - 1])
  }

  /** Every Service of a rendered manifest is still named by the finished one. */
  ghost predicate SpecialKeepsServices(cfg: Config) {
    forall name, now: nat, yaml, made :: ApplySpecial(cfg, name, now, yaml, made).Some? ==>
      Keys(IsService, cfg.decode(yaml)) <= Keys(AnyKind, cfg.decode(ApplySpecial(cfg, name, now, yaml, made).value))
  }

  // ---------- no orphans ----------

  /** Each committed object that still exists has its row, and the row's manifest can be deleted and names it. */
  ghost predicate NoOrphan(cfg: Config, s: Tracked) {
    forall o :: o in s.committed && o.key in s.world.cluster.objects && s.world.cluster.objects[o.key].uid == o.uid ==>
      && RowAt(s.world, o.id)
      && AllObjects(StoredManifest(cfg, s.world, o.id))
      && o.key in Keys(AnyKind, StoredManifest(cfg, s.world, o.id))
  }

  ghost predicate Inv(cfg: Config, s: Tracked) {
    && s.world.cluster.Valid()
    && KeyedById(s.world.table)
    && (forall o :: o in s.committed ==> o.uid <= s.world.cluster.revision)
    && NoOrphan(cfg, s)
  }

  /** Creating, whatever is left of it, only adds new incarnations. */
  lemma CreateAllEvolves(c: Cluster, objs: seq<Unstructured>)
    requires c.Valid() && Fresh(c.objects.Keys, objs)
    ensures Evolves(c, CreateAll(c, objs))
    ensures forall k :: k in c.objects ==>
              k in CreateAll(c, objs).objects && CreateAll(c, objs).objects[k] == c.objects[k]
  {
    hide Fresh, KeysOf, CreateAll;
    CreateAllEffect(c, objs);
    FreshDisjoint(c.objects.Keys, objs);
  }

  lemma ProvisionEvolves(cfg: Config, w: World, req: ProvisionRequest, env: ProvisionEnv)
    requires w.cluster.Valid()
    ensures Evolves(w.cluster, ProvisionSpec(cfg, w, req, env).0.cluster)
    ensures !ProvisionSpec(cfg, w, req, env).1.Provisioned? ==> ProvisionSpec(cfg, w, req, env).0.table == w.table
  {
    hide ProvisionSpec, Prepare, Selected, Fresh, KeysOf, CreateAll, LastNames, Evolves;
    var n := ProvisionResidue(cfg, w, req, env);
    var w' := ProvisionSpec(cfg, w, req, env).0;
    if w' == w {
      EvolvesNot(w.cluster);
    } else {
      var p := Prepare(cfg, req, env.now).value;
      var docs := cfg.decode(p.yaml);
      if ServicesCreated(cfg, p, w.cluster, w'.cluster, n) {
        CreateAllEvolves(w.cluster, Selected(IsService, docs[..n]));
      } else {
        var mid := CreateAll(w.cluster, Selected(IsService, docs));
        CreateAllEvolves(w.cluster, Selected(IsService, docs));
        EvolvesValid(w.cluster, mid);
        CreateAllEvolves(mid, Selected(IsWorkload, cfg.decode(Finished(cfg, p, env.now).value)[..n]));
        EvolvesTransitive(w.cluster, mid, w'.cluster);
      }
    }
  }

  lemma DeprovisionEvolves(cfg: Config, w: World, id: string, env: DeprovisionEnv)
    requires w.cluster.Valid() && KeyedById(w.table)
    ensures Evolves(w.cluster, DeprovisionSpec(cfg, w, id, env).0.cluster)
    ensures !RowAt(w, id) ==> DeprovisionSpec(cfg, w, id, env).0 == w
  {
    hide DeletePass, Keys;
    if RowAt(w, id) {
      hide DeprovisionSpec;
      DeprovisionAttempt(cfg, w, id, env);
    }
  }

  lemma UpsertPassEvolves(keep: Filter, docs: seq<Document>, faults: Faults, c: Cluster)
    requires c.Valid()
    ensures Evolves(c, UpsertPass(keep, docs, faults, c).cluster)
  {
    hide UpsertPass;
    var n := UpsertProperties.UpsertPassResidue(keep, docs, faults, c);
  }

  /**
   Update as written changes no row: it refuses the instances that exist, and for the
   others there is no row to change. It may still create and rewrite objects.
   */
  lemma UpdateChangesNoRow(cfg: Config, w: World, up: UpdateRequest, env: UpdateEnv)
    requires w.cluster.Valid() && KeyedById(w.table)
    ensures UpdateSpec(cfg, w, up, env).0.table == w.table
    ensures up.instanceID in w.table ==> UpdateSpec(cfg, w, up, env).0 == w && !UpdateSpec(cfg, w, up, env).1.Updated?
    ensures Evolves(w.cluster, UpdateSpec(cfg, w, up, env).0.cluster)
  {
    hide UpsertPass, Prepare, Evolves;
    EvolvesNot(w.cluster);
    var selected := SelectRow(w.table, up.instanceID, env.selectDown);
    if selected.Ok? && up.planID.Some? {
      var p := Prepare(cfg, AsProvision(up, up.planID.value, selected.value), env.now);
      if p.Some? {
        var first := UpsertPass(IsService, cfg.decode(p.value.yaml), env.services, w.cluster);
        UpsertPassEvolves(IsService, cfg.decode(p.value.yaml), env.services, w.cluster);
        EvolvesValid(w.cluster, first.cluster);
        if first.result.Ok? {
          var special := ApplySpecial(cfg, p.value.serviceName, env.now, p.value.yaml, first.result.value);
          if special.Some? {
            UpsertPassEvolves(IsUpdatableWorkload, cfg.decode(special.value), env.workloads, first.cluster);
            EvolvesTransitive(w.cluster, first.cluster,
                              UpsertPass(IsUpdatableWorkload, cfg.decode(special.value), env.workloads,
                                         first.cluster).cluster);
          }
        }
      }
    }
  }

  lemma {:induction false} ProvisionKeepsInv(cfg: Config, s: Tracked, req: ProvisionRequest, env: ProvisionEnv)
    requires Inv(cfg, s) && SpecialKeepsServices(cfg)
    ensures Inv(cfg, Step(cfg, s, ProvisionCall(req, env)))
  {
    hide ProvisionSpec, Prepare, Keys, CreatedKeys;
    ProvisionEvolves(cfg, s.world, req, env);
    var s' := Step(cfg, s, ProvisionCall(req, env));
    if ProvisionSpec(cfg, s.world, req, env).1.Provisioned? {
      ProvisionedObjects(cfg, s.world, req, env);
      NewKeysInManifest(cfg, s.world, req, env);
    }
  }

  /** Everything a successful Provision creates is named by the manifest it stores. */
  lemma NewKeysInManifest(cfg: Config, w: World, req: ProvisionRequest, env: ProvisionEnv)
    requires ProvisionSpec(cfg, w, req, env).1.Provisioned? && SpecialKeepsServices(cfg)
    ensures var w' := ProvisionSpec(cfg, w, req, env).0;
            && RowAt(w', req.instanceID)
            && AllObjects(StoredManifest(cfg, w', req.instanceID))
            && w'.cluster.objects.Keys - w.cluster.objects.Keys
                <= Keys(AnyKind, StoredManifest(cfg, w', req.instanceID))
  {
    hide ProvisionSpec, Prepare, Keys, ApplySpecial;
    ProvisionedObjects(cfg, w, req, env);
    var p := Prepare(cfg, req, env.now).value;
    KeysOfAnyKind(IsWorkload, cfg.decode(Finished(cfg, p, env.now).value));
  }

  lemma DeprovisionKeepsInv(cfg: Config, s: Tracked, id: string, env: DeprovisionEnv)
    requires Inv(cfg, s)
    ensures Inv(cfg, Step(cfg, s, DeprovisionCall(id, env)))
  {
    hide DeprovisionSpec, Keys;
    DeprovisionEvolves(cfg, s.world, id, env);
    if RowAt(s.world, id) {
      DeprovisionAttempt(cfg, s.world, id, env);
    }
  }

  lemma {:induction false} RunKeepsInv(cfg: Config, s: Tracked, events: seq<Event>)
    requires Inv(cfg, s) && SpecialKeepsServices(cfg)
    ensures Inv(cfg, Run(cfg, s, events))
    decreases |events|
  {
    if events != [] {
      hide ProvisionSpec, DeprovisionSpec, UpdateSpec, Keys;
      var before, e := Run(cfg, s, events[..|events| - 1]), events[|events| - 1];
      RunKeepsInv(cfg, s, events[..|events| - 1]);
      match e
      case ProvisionCall(req, env) => ProvisionKeepsInv(cfg, before, req, env);
      case DeprovisionCall(id, env) => DeprovisionKeepsInv(cfg, before, id, env);
      case UpdateCall(up, env) => UpdateChangesNoRow(cfg, before.world, up, env);
      case LastOperationCall(_, _) =>
      case OtherClients(_) =>
    }
  }

  /**
   No orphan after commit. Start from any stores and let any handler calls and other
   clients follow, with any failures: every object that a successful Provision created
   and that still exists, rewritten or not, has the row of that instance, and the row
   holds a manifest that names the object, so Deprovision would delete it. Instances
   may share keys.
   */
  lemma NoOrphanAfterCommit(cfg: Config, w: World, events: seq<Event>)
    requires w.cluster.Valid() && KeyedById(w.table) && SpecialKeepsServices(cfg)
    ensures NoOrphan(cfg, Run(cfg, Tracked(w, {}), events))
  {
    RunKeepsInv(cfg, Tracked(w, {}), events);
  }

  // ---------- rows ----------

  /** A row names an indexed service and plan, and a manifest made of objects only. */
  ghost predicate RowServed(cfg: Config, i: Instance) {
    && i.instanceID != ""
    && GetServiceName(cfg.index, i.serviceID) == Ok(i.serviceName)
    && GetPlan(cfg.index, i.serviceID, i.planID).Ok?
    && AllObjects(cfg.decode(i.yaml))
  }

  ghost predicate RowsServed(cfg: Config, table: Table) {
    forall id :: id in table ==> table[id].instanceID == id && RowServed(cfg, table[id])
  }

  lemma PreparedIsIndexed(cfg: Config, req: ProvisionRequest, now: nat)
    requires Prepare(cfg, req, now).Some?
    ensures GetServiceName(cfg.index, req.serviceID) == Ok(Prepare(cfg, req, now).value.serviceName)
    ensures GetPlan(cfg.index, req.serviceID, req.planID).Ok?
  {
  }

  lemma ProvisionKeepsRowsServed(cfg: Config, w: World, req: ProvisionRequest, env: ProvisionEnv)
    requires RowsServed(cfg, w.table)
    ensures RowsServed(cfg, ProvisionSpec(cfg, w, req, env).0.table)
  {
    hide ProvisionSpec, Prepare, CreatedKeys;
    if ProvisionSpec(cfg, w, req, env).1.Provisioned? {
      ProvisionedObjects(cfg, w, req, env);
      PreparedIsIndexed(cfg, req, env.now);
    } else {
      hide WorkloadsCreated, ServicesCreated, RowsServed;
      var n := ProvisionResidue(cfg, w, req, env);
    }
  }

  lemma DeprovisionKeepsRowsServed(cfg: Config, w: World, id: string, env: DeprovisionEnv)
    requires RowsServed(cfg, w.table)
    ensures RowsServed(cfg, DeprovisionSpec(cfg, w, id, env).0.table)
  {
    hide DeprovisionSpec, Keys;
    if RowAt(w, id) {
      DeprovisionAttempt(cfg, w, id, env);
    } else {
      NothingToDeprovision(cfg, w, id, env);
    }
  }

  lemma {:induction false} RunKeepsRowsServed(cfg: Config, s: Tracked, events: seq<Event>)
    requires s.world.cluster.Valid() && RowsServed(cfg, s.world.table)
    ensures Run(cfg, s, events).world.cluster.Valid()
    ensures RowsServed(cfg, Run(cfg, s, events).world.table)
    decreases |events|
  {
    if events != [] {
      hide ProvisionSpec, DeprovisionSpec, UpdateSpec, RowsServed, Evolves;
      var w, e := Run(cfg, s, events[..|events| - 1]).world, events[|events| - 1];
      RunKeepsRowsServed(cfg, s, events[..|events| - 1]);
      RowsServedAreKeyed(cfg, w.table);
      match e
      case ProvisionCall(req, env) =>
        ProvisionKeepsRowsServed(cfg, w, req, env);
        ProvisionEvolves(cfg, w, req, env);
        EvolvesValid(w.cluster, ProvisionSpec(cfg, w, req, env).0.cluster);
      case DeprovisionCall(id, env) =>
        DeprovisionKeepsRowsServed(cfg, w, id, env);
        DeprovisionEvolves(cfg, w, id, env);
        EvolvesValid(w.cluster, DeprovisionSpec(cfg, w, id, env).0.cluster);
      case UpdateCall(up, env) =>
        UpdateChangesNoRow(cfg, w, up, env);
        EvolvesValid(w.cluster, UpdateSpec(cfg, w, up, env).0.cluster);
      case LastOperationCall(_, _) =>
      case OtherClients(after) =>
        if Evolves(w.cluster, after) { EvolvesValid(w.cluster, after); }
    }
  }

  lemma RowsServedAreKeyed(cfg: Config, table: Table)
    requires RowsServed(cfg, table)
    ensures KeyedById(table)
  {
  }

  /** Without a row, Deprovision answers Gone and does nothing. */
  lemma NothingToDeprovision(cfg: Config, w: World, id: string, env: DeprovisionEnv)
    requires KeyedById(w.table) && !RowAt(w, id)
    ensures DeprovisionSpec(cfg, w, id, env).0 == w
    ensures !env.selectDown ==> DeprovisionSpec(cfg, w, id, env).1 == DeprovisionFailed(Gone)
  {
  }

  /**
   In every run that starts with an empty table, every row names a service and a plan
   that a linear search of the catalogs finds, and can be deprovisioned: once nothing
   fails and the hooks agree, Deprovision succeeds and leaves none of the manifest's keys.
   */
  lemma EveryRowCanBeDeprovisioned(cfg: Config, c: Cluster, events: seq<Event>, id: string, env: DeprovisionEnv)
    requires AgreesWithSearch(cfg.index) && c.Valid()
    requires var w := Run(cfg, Tracked(World(c, map[]), {}), events).world;
             && id in w.table
             && !env.selectDown && !env.deleteDown && Faultless(env.deletes)
             && BeforeKubeDelete(cfg, env.now, w.table[id]) && AfterKubeDelete(cfg, env.now, w.table[id])
    ensures var w := Run(cfg, Tracked(World(c, map[]), {}), events).world;
            var (w', reply) := DeprovisionSpec(cfg, w, id, env);
            && SearchName(cfg.index.catalogs, w.table[id].serviceID) == Ok(w.table[id].serviceName)
            && SearchPlan(cfg.index.catalogs, w.table[id].serviceID, w.table[id].planID).Ok?
            && reply == Deprovisioned
            && w'.table == w.table - {id}
            && w'.cluster.objects == w.cluster.objects - Keys(AnyKind, StoredManifest(cfg, w, id))
  {
    hide Run, DeprovisionSpec, Keys;
    RunKeepsRowsServed(cfg, Tracked(World(c, map[]), {}), events);
    var w := Run(cfg, Tracked(World(c, map[]), {}), events).world;
    DeprovisionSucceedsIff(cfg, w, id, env);
    DeprovisionAttempt(cfg, w, id, env);
  }

  // ---------- objects that exist ----------

  /** Provision never touches an object that exists. */
  lemma ProvisionKeepsObjects(cfg: Config, w: World, req: ProvisionRequest, env: ProvisionEnv)
    requires w.cluster.Valid()
    ensures forall k :: k in w.cluster.objects ==>
              k in ProvisionSpec(cfg, w, req, env).0.cluster.objects
              && ProvisionSpec(cfg, w, req, env).0.cluster.objects[k] == w.cluster.objects[k]
  {
    hide ProvisionSpec, Prepare, Selected, Fresh, KeysOf, CreateAll, LastNames, Evolves;
    var n := ProvisionResidue(cfg, w, req, env);
    var w' := ProvisionSpec(cfg, w, req, env).0;
    if w' != w {
      var p := Prepare(cfg, req, env.now).value;
      var docs := cfg.decode(p.yaml);
      if ServicesCreated(cfg, p, w.cluster, w'.cluster, n) {
        CreateAllEvolves(w.cluster, Selected(IsService, docs[..n]));
      } else {
        var mid := CreateAll(w.cluster, Selected(IsService, docs));
        CreateAllEvolves(w.cluster, Selected(IsService, docs));
        EvolvesValid(w.cluster, mid);
        CreateAllEvolves(mid, Selected(IsWorkload, cfg.decode(Finished(cfg, p, env.now).value)[..n]));
      }
    }
  }

  lemma UpsertPassKeepsObjects(keep: Filter, docs: seq<Document>, faults: Faults, c: Cluster)
    ensures forall k :: k in c.objects ==>
              k in UpsertPass(keep, docs, faults, c).cluster.objects
              && UpsertPass(keep, docs, faults, c).cluster.objects[k].uid == c.objects[k].uid
  {
    hide UpsertPass;
    var n := UpsertProperties.UpsertPassResidue(keep, docs, faults, c);
  }

  /** Update may rewrite objects, but removes none. */
  lemma UpdateKeepsObjects(cfg: Config, w: World, up: UpdateRequest, env: UpdateEnv)
    ensures forall k :: k in w.cluster.objects ==>
              k in UpdateSpec(cfg, w, up, env).0.cluster.objects
              && UpdateSpec(cfg, w, up, env).0.cluster.objects[k].uid == w.cluster.objects[k].uid
  {
    hide UpsertPass, UpdateRow, Prepare, ApplySpecial;
    var selected := SelectRow(w.table, up.instanceID, env.selectDown);
    if selected.Ok? && up.planID.Some? {
      var p := Prepare(cfg, AsProvision(up, up.planID.value, selected.value), env.now);
      if p.Some? {
        var first := UpsertPass(IsService, cfg.decode(p.value.yaml), env.services, w.cluster);
        UpsertPassKeepsObjects(IsService, cfg.decode(p.value.yaml), env.services, w.cluster);
        if first.result.Ok? {
          var special := ApplySpecial(cfg, p.value.serviceName, env.now, p.value.yaml, first.result.value);
          if special.Some? {
            UpsertPassKeepsObjects(IsUpdatableWorkload, cfg.decode(special.value), env.workloads, first.cluster);
          }
        }
      }
    }
  }
}
