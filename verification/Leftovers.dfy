/**
 What the objects of a failed Provision do to later calls: they stay, and stand in the
 way of the request, until a Deprovision works on a row whose manifest names them.
 */
module Leftovers {
  import opened Results
  import opened ApiServer
  import opened Manifest
  import opened KubeCli
  import opened Catalog
  import opened Dao
  import opened Broker
  import opened ApplyProperties
  import opened Lifecycle
  import opened ProvisionRetries
  import opened Runs

  /**
   The call has no reason to remove these objects: a Deprovision finds no row that names
   one of them, and another client keeps them.
   */
  ghost predicate Spares(cfg: Config, w: World, e: Event, keys: set<Key>) {
    match e
    case DeprovisionCall(id, _) => id in w.table ==> Keys(AnyKind, StoredManifest(cfg, w, id)) !! keys
    case OtherClients(after) =>
      forall k :: k in keys && k in w.cluster.objects ==>
        k in after.objects && after.objects[k].uid == w.cluster.objects[k].uid
    case _ => true
  }

  /** So does every call of the run. */
  ghost predicate Spared(cfg: Config, s: Tracked, events: seq<Event>, keys: set<Key>) {
    events == []
    || (var front := events[..|events| - 1];
        Spared(cfg, s, front, keys) && Spares(cfg, Run(cfg, s, front).world, events[|events| - 1], keys))
  }

  /** The same incarnations are still there. */
  ghost predicate Kept(c: Cluster, c': Cluster, keys: set<Key>) {
    forall k :: k in keys && k in c.objects ==> k in c'.objects && c'.objects[k].uid == c.objects[k].uid
  }

  lemma ProvisionKeepsKeyed(cfg: Config, w: World, req: ProvisionRequest, env: ProvisionEnv)
    requires w.cluster.Valid() && KeyedById(w.table)
    ensures KeyedById(ProvisionSpec(cfg, w, req, env).0.table)
  {
    hide ProvisionSpec, Evolves, CreatedKeys;
    ProvisionEvolves(cfg, w, req, env);
    if ProvisionSpec(cfg, w, req, env).1.Provisioned? {
      ProvisionedObjects(cfg, w, req, env);
    }
  }

  lemma StepKeeps(cfg: Config, s: Tracked, e: Event, keys: set<Key>)
    requires s.world.cluster.Valid() && KeyedById(s.world.table) && Spares(cfg, s.world, e, keys)
    ensures var w' := Step(cfg, s, e).world;
            w'.cluster.Valid() && KeyedById(w'.table) && Kept(s.world.cluster, w'.cluster, keys)
  {
    hide ProvisionSpec, DeprovisionSpec, UpdateSpec, Keys;
    var w := s.world;
    match e
    case ProvisionCall(req, env) =>
      ProvisionEvolves(cfg, w, req, env);
      ProvisionKeepsKeyed(cfg, w, req, env);
      ProvisionKeepsObjects(cfg, w, req, env);
    case DeprovisionCall(id, env) =>
      DeprovisionEvolves(cfg, w, id, env);
      if RowAt(w, id) { DeprovisionAttempt(cfg, w, id, env); }
    case UpdateCall(up, env) =>
      UpdateChangesNoRow(cfg, w, up, env);
      UpdateKeepsObjects(cfg, w, up, env);
    case LastOperationCall(_, _) =>
    case OtherClients(_) =>
  }

  /** Calls that spare the objects keep them. */
  lemma {:induction false} SparedObjectsStay(cfg: Config, w: World, events: seq<Event>, keys: set<Key>)
    requires w.cluster.Valid() && KeyedById(w.table) && keys <= w.cluster.objects.Keys
    requires Spared(cfg, Tracked(w, {}), events, keys)
    ensures var w' := Run(cfg, Tracked(w, {}), events).world;
            w'.cluster.Valid() && KeyedById(w'.table) && Kept(w.cluster, w'.cluster, keys)
    decreases |events|
  {
    if events != [] {
      hide Step, Spares;
      var front := events[..|events| - 1];
      SparedObjectsStay(cfg, w, front, keys);
      StepKeeps(cfg, Run(cfg, Tracked(w, {}), front), events[|events| - 1], keys);
    }
  }

  lemma {:induction false} FirstNotSparing(cfg: Config, w: World, events: seq<Event>, k: Key) returns (m: nat)
    requires w.cluster.Valid() && KeyedById(w.table) && k in w.cluster.objects
    requires !Spared(cfg, Tracked(w, {}), events, {k})
    ensures m < |events|
    ensures !Spares(cfg, Run(cfg, Tracked(w, {}), events[..m]).world, events[m], {k})
    ensures Kept(w.cluster, Run(cfg, Tracked(w, {}), events[..m]).world.cluster, {k})
    decreases |events|
  {
    hide Run, Spares, Kept;
    var front := events[..|events| - 1];
    if Spared(cfg, Tracked(w, {}), front, {k}) {
      m := |events| - 1;
      SparedObjectsStay(cfg, w, front, {k});
    } else {
      m := FirstNotSparing(cfg, w, front, k);
      assert front[..m] == events[..m];
    }
  }

  /**
   An object leaves a run only by a Deprovision that works on a row whose manifest names
   it, or by another client. This is the first such call.
   */
  lemma WhoRemoved(cfg: Config, w: World, events: seq<Event>, k: Key) returns (m: nat)
    requires w.cluster.Valid() && KeyedById(w.table) && k in w.cluster.objects
    requires !Kept(w.cluster, Run(cfg, Tracked(w, {}), events).world.cluster, {k})
    ensures m < |events|
    ensures !Spares(cfg, Run(cfg, Tracked(w, {}), events[..m]).world, events[m], {k})
    ensures Kept(w.cluster, Run(cfg, Tracked(w, {}), events[..m]).world.cluster, {k})
  {
    hide Run, Spares, Kept, Spared;
    if Spared(cfg, Tracked(w, {}), events, {k}) {
      SparedObjectsStay(cfg, w, events, {k});
    }
    m := FirstNotSparing(cfg, w, events, k);
  }

  // ---------- what that does to the request ----------

  ghost predicate SucceedsAfter(cfg: Config, w: World, events: seq<Event>, req: ProvisionRequest, env: ProvisionEnv) {
    ProvisionSpec(cfg, Run(cfg, Tracked(w, {}), events).world, req, env).1.Provisioned?
  }

  /** The request succeeds after some run that spares everything that was there. */
  ghost predicate SucceedsEventually(cfg: Config, w: World, req: ProvisionRequest) {
    exists events, env ::
      Spared(cfg, Tracked(w, {}), events, w.cluster.objects.Keys) && SucceedsAfter(cfg, w, events, req, env)
  }

  /**
   A request for an id without a row succeeds after some calls of any kind, on any ids,
   that spare the objects of the start, if and only if it is provisionable from the start
   at some moment: waiting for other calls does not help.
   */
  lemma SucceedsEventuallyIff(cfg: Config, w: World, req: ProvisionRequest)
    requires w.cluster.Valid() && KeyedById(w.table) && req.instanceID !in w.table
    ensures SucceedsEventually(cfg, w, req) <==> exists now: nat :: Provisionable(cfg, w, req, now)
  {
    hide Provisionable, ProvisionSpec, Spares, Step;
    if now: nat :| Provisionable(cfg, w, req, now) {
      var env := ProvisionEnv(now, false, _ => NoFault, _ => NoFault, false);
      ProvisionSucceedsIff(cfg, w, req, env);
      assert SucceedsAfter(cfg, w, [], req, env) && Spared(cfg, Tracked(w, {}), [], w.cluster.objects.Keys);
    } else if events, env :| && Spared(cfg, Tracked(w, {}), events, w.cluster.objects.Keys)
                             && SucceedsAfter(cfg, w, events, req, env) {
      var w' := Run(cfg, Tracked(w, {}), events).world;
      SparedObjectsStay(cfg, w, events, w.cluster.objects.Keys);
      ProvisionSucceedsIff(cfg, w', req, env);
      ProvisionableWithFewer(cfg, w, w', req, env.now);
    }
  }

  /** Whatever the moment, a success of the request would create this key. */
  ghost predicate AlwaysCreates(cfg: Config, req: ProvisionRequest, k: Key) {
    forall now: nat ::
      Prepare(cfg, req, now).Some? && Finished(cfg, Prepare(cfg, req, now).value, now).Some? ==>
        var p := Prepare(cfg, req, now).value;
        k in CreatedKeys(cfg, p.yaml, Finished(cfg, p, now).value)
  }

  lemma ExistingObjectBlocks(cfg: Config, w: World, req: ProvisionRequest, k: Key, env: ProvisionEnv)
    requires k in w.cluster.objects && AlwaysCreates(cfg, req, k)
    ensures !ProvisionSpec(cfg, w, req, env).1.Provisioned?
  {
    hide ProvisionSpec, CreatedKeys, Prepare;
    if ProvisionSpec(cfg, w, req, env).1.Provisioned? {
      ProvisionedObjects(cfg, w, req, env);
    }
  }

  /**
   An object of the request that is already in the cluster wedges the request: after any
   calls on any ids, with or without failures, it is still there and the request still
   cannot succeed, unless a Deprovision found a row whose manifest names the object or
   another client removed it.
   */
  lemma LeftoverWedges(cfg: Config, w: World, req: ProvisionRequest, k: Key, events: seq<Event>)
    requires w.cluster.Valid() && KeyedById(w.table) && k in w.cluster.objects && AlwaysCreates(cfg, req, k)
    requires Spared(cfg, Tracked(w, {}), events, {k})
    ensures var w' := Run(cfg, Tracked(w, {}), events).world;
            && k in w'.cluster.objects && w'.cluster.objects[k].uid == w.cluster.objects[k].uid
            && forall env :: !ProvisionSpec(cfg, w', req, env).1.Provisioned?
  {
    hide ProvisionSpec, Run, Spared, AlwaysCreates;
    SparedObjectsStay(cfg, w, events, {k});
    var w' := Run(cfg, Tracked(w, {}), events).world;
    assert k in w'.cluster.objects;
    forall env ensures !ProvisionSpec(cfg, w', req, env).1.Provisioned? {
      ExistingObjectBlocks(cfg, w', req, k, env);
    }
  }

  /** Nothing but repeats of this request, and Deprovisions of its id, Updates and polls. */
  ghost predicate RepeatsOf(req: ProvisionRequest, events: seq<Event>) {
    forall i :: 0 <= i < |events| ==>
      match events[i]
      case ProvisionCall(r, _) => r == req
      case DeprovisionCall(id, _) => id == req.instanceID
      case OtherClients(_) => false
      case _ => true
  }

  /** The request is not provisionable, at any moment. */
  ghost predicate Wedged(cfg: Config, w: World, req: ProvisionRequest) {
    forall now: nat :: !Provisionable(cfg, w, req, now)
  }

  /** With more objects a wedged request stays wedged. */
  lemma StaysWedged(cfg: Config, w: World, w': World, req: ProvisionRequest, env: ProvisionEnv)
    requires Wedged(cfg, w, req) && req.instanceID !in w.table
    requires w.cluster.objects.Keys <= w'.cluster.objects.Keys
    ensures !ProvisionSpec(cfg, w', req, env).1.Provisioned?
  {
    hide ProvisionSpec, Provisionable;
    ProvisionSucceedsIff(cfg, w', req, env);
    if Provisionable(cfg, w', req, env.now) {
      ProvisionableWithFewer(cfg, w, w', req, env.now);
    }
  }

  /** No row and a wedged request: repeats never store a row, so no Deprovision finds one. */
  lemma {:induction false} RepeatsChangeNothing(cfg: Config, w: World, req: ProvisionRequest, events: seq<Event>)
    requires w.cluster.Valid() && KeyedById(w.table)
    requires req.instanceID !in w.table && Wedged(cfg, w, req) && RepeatsOf(req, events)
    ensures var w' := Run(cfg, Tracked(w, {}), events).world;
            && w'.table == w.table
            && Spared(cfg, Tracked(w, {}), events, w.cluster.objects.Keys)
            && (forall env :: !ProvisionSpec(cfg, w', req, env).1.Provisioned?)
            && (forall env :: !DeprovisionSpec(cfg, w', req.instanceID, env).1.Deprovisioned?)
    decreases |events|
  {
    hide ProvisionSpec, DeprovisionSpec, UpdateSpec, Wedged, Evolves;
    if events != [] {
      var front, e := events[..|events| - 1], events[|events| - 1];
      RepeatsChangeNothing(cfg, w, req, front);
      SparedObjectsStay(cfg, w, front, w.cluster.objects.Keys);
      var before := Run(cfg, Tracked(w, {}), front).world;
      match e
      case ProvisionCall(_, env) => ProvisionEvolves(cfg, before, req, env);
      case DeprovisionCall(_, env) => NothingToDeprovision(cfg, before, req.instanceID, env);
      case UpdateCall(up, env) => UpdateChangesNoRow(cfg, before, up, env);
      case LastOperationCall(_, _) =>
    }
    SparedObjectsStay(cfg, w, events, w.cluster.objects.Keys);
    hide Run, Spared;
    var w' := Run(cfg, Tracked(w, {}), events).world;
    forall env ensures !ProvisionSpec(cfg, w', req, env).1.Provisioned? {
      StaysWedged(cfg, w, w', req, env);
    }
    forall env ensures !DeprovisionSpec(cfg, w', req.instanceID, env).1.Deprovisioned? {
      NeverGone(cfg, w', req.instanceID, env);
    }
  }

  /** So repeating the request helps exactly if it could succeed at once at some moment. */
  lemma RepeatsSucceedIff(cfg: Config, w: World, req: ProvisionRequest)
    requires w.cluster.Valid() && KeyedById(w.table) && req.instanceID !in w.table
    ensures (exists events, env :: RepeatsOf(req, events) && SucceedsAfter(cfg, w, events, req, env))
       <==> exists now: nat :: Provisionable(cfg, w, req, now)
  {
    hide Provisionable, ProvisionSpec, Step, Spared;
    if now: nat :| Provisionable(cfg, w, req, now) {
      var env := ProvisionEnv(now, false, _ => NoFault, _ => NoFault, false);
      ProvisionSucceedsIff(cfg, w, req, env);
      assert RepeatsOf(req, []) && SucceedsAfter(cfg, w, [], req, env);
    } else {
      forall events, env | RepeatsOf(req, events) ensures !SucceedsAfter(cfg, w, events, req, env) {
        RepeatsChangeNothing(cfg, w, req, events);
      }
    }
  }

  lemma NeverGone(cfg: Config, w: World, id: string, env: DeprovisionEnv)
    requires id !in w.table
    ensures !DeprovisionSpec(cfg, w, id, env).1.Deprovisioned?
  {
    hide DeletePass;
  }

  /**
   Such states are reached, from every provisionable request: a failure after all
   Services and any prefix of the workloads leaves their objects without a row. Then no
   repeats of the request ever succeed, and nothing else helps that spares an object
   which the request always creates.
   */
  lemma FailureWedges(cfg: Config, w: World, req: ProvisionRequest, now: nat, n: nat, k: Key, events: seq<Event>)
    returns (env: ProvisionEnv)
    requires w.cluster.Valid() && KeyedById(w.table)
    requires Provisionable(cfg, w, req, now) && AlwaysCreates(cfg, req, k)
    requires var p := Prepare(cfg, req, now).value;
             var finished := cfg.decode(Finished(cfg, p, now).value);
             n <= |finished| && k in Keys(IsService, cfg.decode(p.yaml)) + Keys(IsWorkload, finished[..n])
    ensures var (w', reply) := ProvisionSpec(cfg, w, req, env);
            && env.now == now && reply.ProvisionFailed? && w'.table == w.table
            && WorkloadsCreated(cfg, Prepare(cfg, req, now).value, now, w.cluster, w'.cluster, n)
            && k !in w.cluster.objects && k in w'.cluster.objects
            && (var w'' := Run(cfg, Tracked(w', {}), events).world;
                && (RepeatsOf(req, events) ==>
                      && w''.table == w.table
                      && Spared(cfg, Tracked(w', {}), events, {k})
                      && (forall e :: !DeprovisionSpec(cfg, w'', req.instanceID, e).1.Deprovisioned?))
                && (Spared(cfg, Tracked(w', {}), events, {k}) ==>
                      && k in w''.cluster.objects && w''.cluster.objects[k].uid == w'.cluster.objects[k].uid
                      && (forall e :: !ProvisionSpec(cfg, w'', req, e).1.Provisioned?)))
  {
    hide ProvisionSpec, DeprovisionSpec, Prepare, Finished, Committable, Run, Evolves, Keys, CreatedKeys, Spared;
    env := WorkloadResidueIsReached(cfg, w, req, now, n);
    ResidueKeys(cfg, w, req, env);
    ProvisionEvolves(cfg, w, req, env);
    var w' := ProvisionSpec(cfg, w, req, env).0;
    EvolvesValid(w.cluster, w'.cluster);
    ResidueHas(cfg, Prepare(cfg, req, now).value, now, w.cluster, w'.cluster, n);
    if k in w.cluster.objects {
      ProvisionableIsFinished(cfg, w, req, now);
      InTheWay(cfg, w, req, now, k);
    }
    hide RepeatsOf;
    if RepeatsOf(req, events) {
      LeftoverIsWedged(cfg, w', req, k);
      RepeatsChangeNothing(cfg, w', req, events);
      SparedFewer(cfg, Tracked(w', {}), events, w'.cluster.objects.Keys, {k});
    }
    if Spared(cfg, Tracked(w', {}), events, {k}) {
      LeftoverWedges(cfg, w', req, k, events);
    }
  }

  lemma LeftoverIsWedged(cfg: Config, w: World, req: ProvisionRequest, k: Key)
    requires k in w.cluster.objects && AlwaysCreates(cfg, req, k)
    ensures Wedged(cfg, w, req)
  {
    hide Provisionable, CreatedKeys;
    forall now: nat ensures !Provisionable(cfg, w, req, now) {
      if Provisionable(cfg, w, req, now) {
        ProvisionableIsFinished(cfg, w, req, now);
        InTheWay(cfg, w, req, now, k);
      }
    }
  }

  lemma {:induction false} SparedFewer(cfg: Config, s: Tracked, events: seq<Event>, keys: set<Key>, keys': set<Key>)
    requires Spared(cfg, s, events, keys) && keys' <= keys
    ensures Spared(cfg, s, events, keys')
    decreases |events|
  {
    hide Keys, Run;
    if events != [] {
      SparedFewer(cfg, s, events[..|events| - 1], keys, keys');
    }
  }

  lemma ProvisionableIsFinished(cfg: Config, w: World, req: ProvisionRequest, now: nat)
    requires Provisionable(cfg, w, req, now)
    ensures Prepare(cfg, req, now).Some? && Finished(cfg, Prepare(cfg, req, now).value, now).Some?
  {
    hide Prepare, Finished, Fresh, Selected;
  }

  lemma ResidueHas(cfg: Config, p: Prepared, now: nat, c: Cluster, c': Cluster, n: nat)
    requires WorkloadsCreated(cfg, p, now, c, c', n)
    ensures Keys(IsService, cfg.decode(p.yaml)) + Keys(IsWorkload, cfg.decode(Finished(cfg, p, now).value)[..n])
         <= c'.objects.Keys
  {
    hide Selected, Fresh, KeysOf, CreateAll, Finished;
    CreateAllEffect(c, Selected(IsService, cfg.decode(p.yaml)));
    CreateAllEffect(CreateAll(c, Selected(IsService, cfg.decode(p.yaml))),
                    Selected(IsWorkload, cfg.decode(Finished(cfg, p, now).value)[..n]));
  }

  // ---------- what does free a request ----------

  /**
   Another request of the same id frees whatever its finished manifest names: it is
   provisioned and deprovisioned, and the row is gone with all those objects, also those
   that it never created.
   */
  lemma FreedByAnother(cfg: Config, w: World, other: ProvisionRequest, env: ProvisionEnv, denv: DeprovisionEnv)
    requires Runs.SpecialKeepsServices(cfg) && Calm(env) && Provisionable(cfg, w, other, env.now)
    requires !denv.selectDown && !denv.deleteDown && Faultless(denv.deletes)
    requires var p := Prepare(cfg, other, env.now).value;
             var row := RowFor(other, p, Finished(cfg, p, env.now).value);
             BeforeKubeDelete(cfg, denv.now, row) && AfterKubeDelete(cfg, denv.now, row)
    ensures var events := [ProvisionCall(other, env), DeprovisionCall(other.instanceID, denv)];
            var w' := Run(cfg, Tracked(w, {}), events).world;
            var finished := cfg.decode(Finished(cfg, Prepare(cfg, other, env.now).value, env.now).value);
            && w'.table == w.table
            && w'.cluster.objects == w.cluster.objects - Keys(AnyKind, finished)
  {
    hide ProvisionSpec, DeprovisionSpec, Prepare, Keys, Calm;
    var id := other.instanceID;
    var events := [ProvisionCall(other, env), DeprovisionCall(id, denv)];
    assert events[..1] == [events[0]] && events[..1][..0] == [];
    assert Run(cfg, Tracked(w, {}), []).world == w;
    var w1 := ProvisionSpec(cfg, w, other, env).0;
    assert Run(cfg, Tracked(w, {}), events[..1]).world == w1;
    ProvisionSucceedsIff(cfg, w, other, env);
    ProvisionedObjects(cfg, w, other, env);
    NewKeysInManifest(cfg, w, other, env);
    DeprovisionSucceedsIff(cfg, w1, id, denv);
    DeprovisionAttempt(cfg, w1, id, denv);
    assert w1.table - {id} == w.table;
  }

  // A broker with one service and two kinds of request: one renders a Service, the other
  // renders nothing, and its special hook adds that Service to the finished manifest.

  const RENDERS_SERVICE := "service"
  const RENDERS_NOTHING := "nothing"
  const ADDS_SERVICE := "added"

  function ExampleHooks(): Service {
    Service((_, yaml, _) => Some(yaml), (_, yaml, _) => Some(yaml),
            (_, yaml, _) => Some(if yaml == RENDERS_NOTHING then ADDS_SERVICE else yaml),
            (_, _, _) => Some(""), (_, _) => true, (_, _) => true, (_, _) => None)
  }

  function ExampleConfig(k: Key): Config {
    var plan := Plan("p", "", "", true, true, map[], None);
    Config(Index([], map["svc" := ""], map["s" := "svc"], map["s" := map["p" := plan]]),
           map["svc" := ExampleHooks()],
           (_, namespace, _, _, _) => Some(namespace),
           _ => Some(""),
           yaml => if yaml in {RENDERS_SERVICE, ADDS_SERVICE} then [Object(Unstructured("Service", k, ""))] else [])
  }

  function ExampleRequest(namespace: string): ProvisionRequest {
    ProvisionRequest("id", "s", "p", "", "", map["NAMESPACE" := namespace, "INSTANCE_NAME" := ""])
  }

  lemma ExamplePrepared(k: Key, namespace: string, now: nat)
    ensures var cfg := ExampleConfig(k);
            var p := Prepare(cfg, ExampleRequest(namespace), now);
            && p == Some(Prepared("svc", namespace, "", namespace, ""))
            && Finished(cfg, p.value, now) == Some(if namespace == RENDERS_NOTHING then ADDS_SERVICE else namespace)
            && (forall made :: DashboardURL(cfg, "svc", now, ExampleRequest(namespace).parameters, made) == Some(""))
            && (forall row: Instance :: row.serviceName == "svc" ==>
                  BeforeKubeDelete(cfg, now, row) && AfterKubeDelete(cfg, now, row))
  {
  }

  lemma OneServiceKeys(k: Key)
    ensures var docs := [Object(Unstructured("Service", k, ""))];
            && Selected(IsService, docs) == Selected(AnyKind, docs) == [Unstructured("Service", k, "")]
            && Selected(IsWorkload, docs) == []
            && Keys(IsService, docs) == Keys(AnyKind, docs) == {k} && Keys(IsWorkload, docs) == {}
  {
    var docs := [Object(Unstructured("Service", k, ""))];
    assert docs[..0] == [] && [] + [docs[0].obj] == [docs[0].obj];
    FoldStep([], docs[0].obj);
    SelectedLast(IsService, docs);
    SelectedLast(IsWorkload, docs);
    SelectedLast(AnyKind, docs);
  }

  lemma ExampleManifests(k: Key)
    ensures var cfg := ExampleConfig(k);
            && cfg.decode(RENDERS_SERVICE) == cfg.decode(ADDS_SERVICE) == [Object(Unstructured("Service", k, ""))]
            && cfg.decode(RENDERS_NOTHING) == []
  {
    assert RENDERS_NOTHING[0] != RENDERS_SERVICE[0] && RENDERS_NOTHING[0] != ADDS_SERVICE[0];
  }

  lemma ExampleKeepsServices(k: Key)
    ensures Runs.SpecialKeepsServices(ExampleConfig(k))
  {
    hide Keys;
    var cfg := ExampleConfig(k);
    ExampleManifests(k);
    OneServiceKeys(k);
    NoServices();
    forall name, now: nat, yaml, made | ApplySpecial(cfg, name, now, yaml, made).Some?
      ensures Keys(IsService, cfg.decode(yaml))
                <= Keys(AnyKind, cfg.decode(ApplySpecial(cfg, name, now, yaml, made).value))
    {
    }
  }

  lemma NoServices()
    ensures Keys(IsService, []) == {}
  {
  }

  lemma ExampleProvisionable(k: Key, w: World, now: nat)
    requires "id" !in w.table
    ensures Provisionable(ExampleConfig(k), w, ExampleRequest(RENDERS_NOTHING), now)
    ensures Provisionable(ExampleConfig(k), w, ExampleRequest(RENDERS_SERVICE), now) <==> k !in w.cluster.objects
  {
    ExampleManifests(k);
    OneServiceKeys(k);
    ExamplePrepared(k, RENDERS_NOTHING, now);
    ExamplePrepared(k, RENDERS_SERVICE, now);
    hide Prepare, Finished, DashboardURL, ExampleConfig;
  }

  lemma ExampleAlwaysCreates(k: Key)
    ensures AlwaysCreates(ExampleConfig(k), ExampleRequest(RENDERS_SERVICE), k)
  {
    hide Keys;
    ExampleManifests(k);
    OneServiceKeys(k);
  }

  /** A failing Provision leaves the Service, and the request is wedged. */
  lemma ExampleWedges(k: Key) returns (env: ProvisionEnv)
    ensures var cfg, req := ExampleConfig(k), ExampleRequest(RENDERS_SERVICE);
            var (w, reply) := ProvisionSpec(cfg, World(Cluster(map[], 0), map[]), req, env);
            && reply.ProvisionFailed? && w.table == map[] && k in w.cluster.objects && Wedged(cfg, w, req)
  {
    var cfg, req := ExampleConfig(k), ExampleRequest(RENDERS_SERVICE);
    var start := World(Cluster(map[], 0), map[]);
    ExampleManifests(k);
    OneServiceKeys(k);
    ExampleProvisionable(k, start, 0);
    ExampleAlwaysCreates(k);
    ExamplePrepared(k, RENDERS_SERVICE, 0);
    hide ProvisionSpec, Prepare, Finished, Provisionable, Keys, ExampleConfig, WorkloadsCreated, AlwaysCreates, Wedged;
    env := WorkloadResidueIsReached(cfg, start, req, 0, 0);
    var w := ProvisionSpec(cfg, start, req, env).0;
    ResidueKeys(cfg, start, req, env);
    ResidueHas(cfg, Prepare(cfg, req, 0).value, 0, start.cluster, w.cluster, 0);
    LeftoverIsWedged(cfg, w, req, k);
  }

  lemma ExampleFrees(k: Key, w: World, calm: ProvisionEnv, denv: DeprovisionEnv)
    requires "id" !in w.table && Calm(calm) && !denv.selectDown && !denv.deleteDown && Faultless(denv.deletes)
    ensures var other := ExampleRequest(RENDERS_NOTHING);
            var events := [ProvisionCall(other, calm), DeprovisionCall(other.instanceID, denv)];
            SucceedsAfter(ExampleConfig(k), w, events, ExampleRequest(RENDERS_SERVICE), calm)
  {
    var cfg, req, other := ExampleConfig(k), ExampleRequest(RENDERS_SERVICE), ExampleRequest(RENDERS_NOTHING);
    ExampleKeepsServices(k);
    ExampleManifests(k);
    OneServiceKeys(k);
    ExamplePrepared(k, RENDERS_NOTHING, calm.now);
    ExamplePrepared(k, RENDERS_NOTHING, denv.now);
    ExampleProvisionable(k, w, calm.now);
    hide ProvisionSpec, Prepare, Finished, Provisionable, Keys, Run, ExampleConfig, Calm, Runs.SpecialKeepsServices;
    hide BeforeKubeDelete, AfterKubeDelete;
    FreedByAnother(cfg, w, other, calm, denv);
    var events := [ProvisionCall(other, calm), DeprovisionCall(other.instanceID, denv)];
    var w' := Run(cfg, Tracked(w, {}), events).world;
    ExampleProvisionable(k, w', calm.now);
    ProvisionSucceedsIff(cfg, w', req, calm);
  }

  /**
   A wedged request can be freed by another request of its id. A failing Provision leaves
   the Service of its manifest; from then on the request is wedged. But the other request,
   whose finished manifest names that Service without creating it, is provisioned and
   deprovisioned, and then the first one succeeds. Nothing fails after the start.
   */
  lemma AnotherRequestFrees(k: Key) returns (env: ProvisionEnv, events: seq<Event>, calm: ProvisionEnv)
    ensures var cfg, req := ExampleConfig(k), ExampleRequest(RENDERS_SERVICE);
            var (w, reply) := ProvisionSpec(cfg, World(Cluster(map[], 0), map[]), req, env);
            && Runs.SpecialKeepsServices(cfg) && AlwaysCreates(cfg, req, k)
            && reply.ProvisionFailed? && w.table == map[] && k in w.cluster.objects && Wedged(cfg, w, req)
            && (forall e :: e in events ==> if e.ProvisionCall? then e.req.instanceID == req.instanceID
                                            else e.DeprovisionCall? && e.id == req.instanceID)
            && SucceedsAfter(cfg, w, events, req, calm)
  {
    var cfg, req, other := ExampleConfig(k), ExampleRequest(RENDERS_SERVICE), ExampleRequest(RENDERS_NOTHING);
    calm := ProvisionEnv(0, false, _ => NoFault, _ => NoFault, false);
    var denv := DeprovisionEnv(0, false, _ => NoFault, false);
    events := [ProvisionCall(other, calm), DeprovisionCall(other.instanceID, denv)];
    ExampleKeepsServices(k);
    ExampleAlwaysCreates(k);
    env := ExampleWedges(k);
    hide ProvisionSpec, ExampleConfig, Provisionable, Keys, Run, AlwaysCreates, Wedged, Runs.SpecialKeepsServices;
    ExampleFrees(k, ProvisionSpec(cfg, World(Cluster(map[], 0), map[]), req, env).0, calm, denv);
  }
}
