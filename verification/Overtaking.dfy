/**
 Why the claims about rows and objects are about atomic handlers: calls on one instance
 id that overtake each other leave objects without a row, or a row that describes other
 objects.
 */
module Overtaking {
  import opened Results
  import opened ApiServer
  import opened Manifest
  import opened KubeCli
  import opened DeleteProperties
  import opened Dao
  import opened Broker
  import opened Lifecycle
  import opened ProvisionRaces
  import opened Undisturbed

  /** The row can be deprovisioned at this moment, if nothing fails. */
  ghost predicate Removable(cfg: Config, w: World, id: string, now: nat) {
    && RowAt(w, id)
    && AllObjects(StoredManifest(cfg, w, id))
    && BeforeKubeDelete(cfg, now, w.table[id]) && AfterKubeDelete(cfg, now, w.table[id])
  }

  /** Without failures a removable row is reached by its deletion, its objects gone. */
  lemma ReachesRowRemoval(cfg: Config, w: World, id: string, env: DeprovisionEnv)
    requires Removable(cfg, w, id, env.now) && !env.selectDown && Faultless(env.deletes)
    ensures var (w', phase) := UpToRowRemoval(cfg, w, id, env);
            && phase == RemovingRow(id, w.table[id])
            && w'.table == w.table
            && w'.cluster.objects == w.cluster.objects - Keys(AnyKind, StoredManifest(cfg, w, id))
  {
    hide DeletePass, Keys;
    var docs := StoredManifest(cfg, w, id);
    var n := DeletePassResidue(docs, env.deletes, w.cluster);
    assert env.deletes(n) == NoFault;
    DeletePassSuccess(docs, env.deletes, w.cluster);
  }

  /**
   A Deprovision that stands before its row deletion is overtaken by a whole Provision of
   the same id: it then removes the new row, and everything the Provision created stays.
   */
  lemma OvertakenRemovalOrphans(cfg: Config, s: State, d: nat, p: nat, now: nat, req: ProvisionRequest,
                                env: ProvisionEnv)
    returns (turns: seq<Turn>)
    requires d < |s.calls| && p < |s.calls| && d != p
    requires s.calls[d].RemovingRow? && s.calls[d].id == req.instanceID && s.calls[p] == Requested(req)
    requires ProvisionSpec(cfg, s.world, req, env).1.Provisioned?
    ensures var s' := Run(cfg, s, turns);
            var end := ProvisionSpec(cfg, s.world, req, env);
            && s'.calls == s.calls[p := Answered(req, end.1)][d := Dismissed(req.instanceID, Deprovisioned)]
            && s'.world == World(end.0.cluster, s.world.table)
  {
    hide ProvisionSpec, Run, Prepare, CreatedKeys;
    var alone := AloneIsProvision(cfg, s, p, req, env);
    ProvisionedObjects(cfg, s.world, req, env);
    var mid := Run(cfg, s, alone);
    var id := req.instanceID;
    var m := Meets(now, false, NoFault);
    assert mid.world.table - {id} == s.world.table;
    EndsNow(cfg, mid, d, m, (World(mid.world.cluster, s.world.table), Dismissed(id, Deprovisioned)));
    RunAppend(cfg, s, alone, [Turn(d, m)]);
    turns := alone + [Turn(d, m)];
  }

  /**
   Two Deprovisions and a Provision of one id can orphan everything that the Provision
   creates. The first Deprovision stops before its row deletion, the second goes through,
   then the Provision, and then the first removes the new row. Nothing fails; it takes
   only a row that can be deprovisioned and a request that can be provisioned after that.
   */
  lemma OvertakenDeprovisionOrphans(cfg: Config, s: State, d: nat, d': nat, p: nat, id: string,
                                    env: DeprovisionEnv, req: ProvisionRequest, penv: ProvisionEnv)
    returns (turns: seq<Turn>, left: World)
    requires Initial(s) && d < |s.calls| && d' < |s.calls| && p < |s.calls| && d != d'
    requires s.calls[d] == s.calls[d'] == Withdrawn(id) && s.calls[p] == Requested(req) && req.instanceID == id
    requires !env.selectDown && !env.deleteDown && Faultless(env.deletes) && Removable(cfg, s.world, id, env.now)
    ensures var docs := StoredManifest(cfg, s.world, id);
            && left.table == s.world.table - {id}
            && left.cluster.objects == s.world.cluster.objects - Keys(AnyKind, docs)
    ensures ProvisionSpec(cfg, left, req, penv).1.Provisioned? ==>
              var s' := Run(cfg, s, turns);
              var prepared := Prepare(cfg, req, penv.now);
              && s'.calls[d] == s'.calls[d'] == Dismissed(id, Deprovisioned)
              && s'.calls[p].Answered? && s'.calls[p].reply.Provisioned?
              && s'.world.table == s.world.table - {id}
              && prepared.Some? && Finished(cfg, prepared.value, penv.now).Some?
              && s'.world.cluster.objects.Keys == left.cluster.objects.Keys
                   + CreatedKeys(cfg, prepared.value.yaml, Finished(cfg, prepared.value, penv.now).value)
  {
    hide Run, ProvisionSpec, DeprovisionSpec, UpToRowRemoval, Prepare, Finished, Keys, CreatedKeys;
    var toRemoval := RowRemovalAlone(cfg, s, d, id, env);
    ReachesRowRemoval(cfg, s.world, id, env);
    var s1 := Run(cfg, s, toRemoval);
    var whole := AloneIsDeprovision(cfg, s1, d', id, env);
    DeprovisionSucceedsIff(cfg, s1.world, id, env);
    DeprovisionAttempt(cfg, s1.world, id, env);
    var s2 := Run(cfg, s1, whole);
    left := s2.world;
    var keys := Keys(AnyKind, StoredManifest(cfg, s.world, id));
    assert s.world.cluster.objects - keys - keys == s.world.cluster.objects - keys;
    turns := toRemoval + whole;
    RunAppend(cfg, s, toRemoval, whole);
    if ProvisionSpec(cfg, left, req, penv).1.Provisioned? {
      var rest := OvertakenRemovalOrphans(cfg, s2, d, p, env.now, req, penv);
      ProvisionedObjects(cfg, left, req, penv);
      RunAppend(cfg, s, turns, rest);
      turns := turns + rest;
    }
  }

  /** The manifest an Update finishes: its special hook is told the Services that existed. */
  function SpecialOf(cfg: Config, c: Cluster, p: Prepared, now: nat): Option<string> {
    ApplySpecial(cfg, p.serviceName, now, p.yaml,
                 LastNames(Met(c.objects.Keys, Selected(IsService, cfg.decode(p.yaml)))))
  }

  /** What an Update that would succeed has done before it writes the row. */
  lemma ReachesRewriting(cfg: Config, w: World, up: UpdateRequest, env: UpdateEnv)
    returns (p: Prepared, finished: string)
    requires UpdateSpec(cfg, w, up, env).1.Updated?
    ensures up.planID.Some?
    ensures UpToRewriting(cfg, w, up, env)
         == (World(UpdateSpec(cfg, w, up, env).0.cluster, w.table),
             Rewriting(up, UpdatedRow(up, up.planID.value, p, finished)))
    ensures SpecialOf(cfg, w.cluster, p, env.now) == Some(finished)
    ensures Prepare(cfg, AsProvision(up, up.planID.value, SelectRow(w.table, up.instanceID, false).value), env.now)
              == Some(p)
  {
    hide UpsertPass, Prepare, ApplySpecial, UpdateRow;
    var row := UpToRewriting(cfg, w, up, env).1.row;
    finished := row.yaml;
    var selected := SelectRow(w.table, up.instanceID, env.selectDown).value;
    p := Prepare(cfg, AsProvision(up, up.planID.value, selected), env.now).value;
    var first := UpsertPass(IsService, cfg.decode(p.yaml), env.services, w.cluster);
    hide Met, LastNames, Selected;
    TwoUpserts(cfg.decode(p.yaml), cfg.decode(finished), env.services, env.workloads, w.cluster);
  }

  /**
   An Update that selected before a Provision of the same id inserted its row rewrites
   that row: it gets the manifest of the Update, which was rendered for an instance
   without an id, while the objects of the Provision are the ones that exist.
   */
  lemma OvertakenUpdateRewrites(cfg: Config, s: State, u: nat, p: nat, up: UpdateRequest, env: UpdateEnv,
                                req: ProvisionRequest, penv: ProvisionEnv)
    returns (turns: seq<Turn>, rendered: Prepared, finished: string)
    requires Initial(s) && u < |s.calls| && p < |s.calls|
    requires s.calls[u] == Renewing(up) && s.calls[p] == Requested(req) && req.instanceID == up.instanceID
    requires UpdateSpec(cfg, s.world, up, env).1.Updated?
    requires var mid := World(UpdateSpec(cfg, s.world, up, env).0.cluster, s.world.table);
             ProvisionSpec(cfg, mid, req, penv).1.Provisioned?
    ensures var s' := Run(cfg, s, turns);
            var id := req.instanceID;
            var mid := World(UpdateSpec(cfg, s.world, up, env).0.cluster, s.world.table);
            var w' := ProvisionSpec(cfg, mid, req, penv).0;
            && up.planID.Some? && id in w'.table
            && s'.calls[u] == Renewed(up, Updated)
            && s'.calls[p].Answered? && s'.calls[p].reply.Provisioned?
            && s'.world.cluster == w'.cluster
            && s'.world.table == w'.table[id :=
                Refreshed(w'.table[id], UpdatedRow(up, up.planID.value, rendered, finished))]
            && Prepare(cfg, AsProvision(up, up.planID.value, NO_INSTANCE), env.now) == Some(rendered)
            && SpecialOf(cfg, s.world.cluster, rendered, env.now) == Some(finished)
  {
    hide Run, ProvisionSpec, UpdateSpec, UpToRewriting, Prepare, CreatedKeys, SpecialOf;
    rendered, finished := ReachesRewriting(cfg, s.world, up, env);
    var toRewriting := RewritingAlone(cfg, s, u, up, env);
    var s1 := Run(cfg, s, toRewriting);
    ProvisionedObjects(cfg, s1.world, req, penv);
    var provision := AloneIsProvision(cfg, s1, p, req, penv);
    var s2 := Run(cfg, s1, provision);
    var m := Meets(env.now, false, NoFault);
    var row := UpdatedRow(up, up.planID.value, rendered, finished);
    EndsNow(cfg, s2, u, m, (World(s2.world.cluster, UpdateRow(s2.world.table, row, false).0), Renewed(up, Updated)));
    RunAppend(cfg, s, toRewriting, provision);
    RunAppend(cfg, s, toRewriting + provision, [Turn(u, m)]);
    turns := toRewriting + provision + [Turn(u, m)];
  }

  /**
   So everything the Provision created that the Update's manifest does not name is lost:
   it is in the cluster, the row does not name it, and when the instance is deprovisioned
   it stays without a row.
   */
  lemma OvertakenUpdateOrphans(cfg: Config, s: State, u: nat, p: nat, up: UpdateRequest, env: UpdateEnv,
                               req: ProvisionRequest, penv: ProvisionEnv, denv: DeprovisionEnv)
    returns (turns: seq<Turn>, rendered: Prepared, finished: string)
    requires Initial(s) && u < |s.calls| && p < |s.calls|
    requires s.calls[u] == Renewing(up) && s.calls[p] == Requested(req) && req.instanceID == up.instanceID
    requires UpdateSpec(cfg, s.world, up, env).1.Updated?
    requires var mid := World(UpdateSpec(cfg, s.world, up, env).0.cluster, s.world.table);
             ProvisionSpec(cfg, mid, req, penv).1.Provisioned?
    ensures Prepare(cfg, req, penv.now).Some? && Finished(cfg, Prepare(cfg, req, penv.now).value, penv.now).Some?
    ensures var w := Run(cfg, s, turns).world;
            var id, prepared := req.instanceID, Prepare(cfg, req, penv.now).value;
            var lost := CreatedKeys(cfg, prepared.yaml, Finished(cfg, prepared, penv.now).value)
                        - Keys(AnyKind, cfg.decode(finished));
            && SpecialOf(cfg, s.world.cluster, rendered, env.now) == Some(finished)
            && RowAt(w, id)
            && lost <= w.cluster.objects.Keys
            && lost !! Keys(AnyKind, StoredManifest(cfg, w, id))
            && (var (after, reply) := DeprovisionSpec(cfg, w, id, denv);
                reply.Deprovisioned? ==> id !in after.table && lost <= after.cluster.objects.Keys)
  {
    hide Run, ProvisionSpec, UpdateSpec, DeprovisionSpec, Prepare, Finished, CreatedKeys, SpecialOf, Keys;
    turns, rendered, finished := OvertakenUpdateRewrites(cfg, s, u, p, up, env, req, penv);
    ProvisionedObjects(cfg, World(UpdateSpec(cfg, s.world, up, env).0.cluster, s.world.table), req, penv);
    DeprovisionAttempt(cfg, Run(cfg, s, turns).world, req.instanceID, denv);
  }
}
