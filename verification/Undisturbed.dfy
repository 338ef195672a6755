/**
 A call of the interleaved machine that nothing disturbs does what its atomic handler
 does, for every failure pattern: the runs with atomic handlers are among the
 interleavings.
 */
module Undisturbed {
  import opened Results
  import opened Manifest
  import opened KubeCli
  import opened Dao
  import opened Broker
  import opened ProvisionRaces
  import UpdateRaces

  /** These turns bring call p to this phase and leave every other call where it was. */
  ghost predicate Ends(cfg: Config, s: State, p: nat, turns: seq<Turn>, end: (World, Phase)) {
    && p < |s.calls|
    && Run(cfg, s, turns).world == end.0
    && Run(cfg, s, turns).calls == s.calls[p := end.1]
  }

  lemma {:induction false} RunAppend(cfg: Config, s: State, turns: seq<Turn>, rest: seq<Turn>)
    ensures Run(cfg, s, turns + rest) == Run(cfg, Run(cfg, s, turns), rest)
    decreases |rest|
  {
    if rest == [] {
      assert turns + rest == turns;
    } else {
      var n := |rest| - 1;
      assert (turns + rest)[..|turns| + n] == turns + rest[..n];
      RunAppend(cfg, s, turns, rest[..n]);
    }
  }

  /** One turn, then turns that end the call from there. */
  lemma EndsAfter(cfg: Config, s: State, p: nat, t: Turn, rest: seq<Turn>, end: (World, Phase))
    requires p < |s.calls| && t.Turn? && t.p == p
    requires Ends(cfg, Step(cfg, s, t), p, rest, end)
    ensures Ends(cfg, s, p, [t] + rest, end)
  {
    hide Next, Happened;
    RunAppend(cfg, s, [t], rest);
    assert [t][..0] == [];
    assert Run(cfg, s, []) == s;
  }

  /** One turn that ends the call. */
  lemma EndsNow(cfg: Config, s: State, p: nat, m: Meets, end: (World, Phase))
    requires p < |s.calls| && Next(cfg, s.world, s.calls[p], m) == end
    ensures Ends(cfg, s, p, [Turn(p, m)], end)
  {
    hide Next, Happened;
    assert [Turn(p, m)][..0] == [];
    assert Run(cfg, s, []) == s;
  }

  /** Turns that end one call, then turns that end that or another call. */
  lemma EndsThen(cfg: Config, s: State, p: nat, turns: seq<Turn>, mid: (World, Phase), q: nat, rest: seq<Turn>,
                 end: (World, Phase))
    requires Ends(cfg, s, p, turns, mid) && Ends(cfg, Run(cfg, s, turns), q, rest, end)
    ensures Run(cfg, s, turns + rest).world == end.0
    ensures Run(cfg, s, turns + rest).calls == s.calls[p := mid.1][q := end.1]
  {
    hide Run;
    RunAppend(cfg, s, turns, rest);
  }

  // ---------- Provision ----------

  function AsPhase(req: ProvisionRequest, end: (World, ProvisionReply)): (World, Phase) {
    (end.0, Answered(req, end.1))
  }

  lemma InsertAlone(cfg: Config, s: State, p: nat, env: ProvisionEnv, prep: Prepared, yaml: string, names: Names)
    returns (turns: seq<Turn>)
    requires p < |s.calls| && s.calls[p].CreatingWorkloads?
    requires s.calls[p].p == prep && s.calls[p].yaml == yaml && s.calls[p].names == names
    requires s.calls[p].i >= |cfg.decode(yaml)|
    ensures var req := s.calls[p].req;
            Ends(cfg, s, p, turns,
                 AsPhase(req, AfterWorkloadPass(cfg, s.world.table, req, env, prep, yaml, names,
                                                Outcome(s.world.cluster, Ok(map[])))))
  {
    var req := s.calls[p].req;
    var m := Meets(env.now, env.insertDown, NoFault);
    var end := AsPhase(req, AfterWorkloadPass(cfg, s.world.table, req, env, prep, yaml, names,
                                              Outcome(s.world.cluster, Ok(map[]))));
    if DashboardURL(cfg, prep.serviceName, env.now, req.parameters, names).None? {
      turns := [Turn(p, m)];
      EndsNow(cfg, s, p, m, end);
    } else {
      var s1 := Step(cfg, s, Turn(p, m));
      EndsNow(cfg, s1, p, m, end);
      EndsAfter(cfg, s, p, Turn(p, m), [Turn(p, m)], end);
      turns := [Turn(p, m)] + [Turn(p, m)];
    }
  }

  lemma {:induction false} WorkloadsAlone(cfg: Config, s: State, p: nat, env: ProvisionEnv, made: Names)
    returns (turns: seq<Turn>)
    requires p < |s.calls| && s.calls[p].CreatingWorkloads? && s.calls[p].i <= |cfg.decode(s.calls[p].yaml)|
    ensures var c := s.calls[p];
            var second := CreateFrom(IsWorkload, cfg.decode(c.yaml), c.i, env.workloads, s.world.cluster, made);
            Ends(cfg, s, p, turns,
                 AsPhase(c.req, AfterWorkloadPass(cfg, s.world.table, c.req, env, c.p, c.yaml, c.names, second)))
    decreases |cfg.decode(s.calls[p].yaml)| - s.calls[p].i
  {
    var c := s.calls[p];
    var docs := cfg.decode(c.yaml);
    if c.i == |docs| {
      turns := InsertAlone(cfg, s, p, env, c.p, c.yaml, c.names);
    } else {
      var t := Turn(p, Meets(env.now, false, env.workloads(c.i)));
      var second := CreateFrom(IsWorkload, docs, c.i, env.workloads, s.world.cluster, made);
      var end := AsPhase(c.req, AfterWorkloadPass(cfg, s.world.table, c.req, env, c.p, c.yaml, c.names, second));
      var one := CreateOne(IsWorkload, docs[c.i], s.world.cluster, env.workloads(c.i));
      if one.1.None? {
        EndsNow(cfg, s, p, t.meets, end);
        turns := [t];
      } else {
        var rest := WorkloadsAlone(cfg, Step(cfg, s, t), p, env, Recorded(made, IsWorkload, one.1.value));
        EndsAfter(cfg, s, p, t, rest, end);
        turns := [t] + rest;
      }
    }
  }

  lemma {:induction false} ServicesAlone(cfg: Config, s: State, p: nat, env: ProvisionEnv) returns (turns: seq<Turn>)
    requires p < |s.calls| && s.calls[p].CreatingServices? && s.calls[p].i <= |cfg.decode(s.calls[p].p.yaml)|
    ensures var c := s.calls[p];
            var first := CreateFrom(IsService, cfg.decode(c.p.yaml), c.i, env.services, s.world.cluster, c.made);
            Ends(cfg, s, p, turns, AsPhase(c.req, AfterServicePass(cfg, s.world.table, c.req, env, c.p, first)))
    decreases |cfg.decode(s.calls[p].p.yaml)| - s.calls[p].i
  {
    var c := s.calls[p];
    var docs := cfg.decode(c.p.yaml);
    var t := Turn(p, Meets(env.now, false, env.services(c.i)));
    var first := CreateFrom(IsService, docs, c.i, env.services, s.world.cluster, c.made);
    var end := AsPhase(c.req, AfterServicePass(cfg, s.world.table, c.req, env, c.p, first));
    if c.i == |docs| {
      if ApplySpecial(cfg, c.p.serviceName, env.now, c.p.yaml, c.made).None? {
        EndsNow(cfg, s, p, t.meets, end);
        turns := [t];
      } else {
        var rest := WorkloadsAlone(cfg, Step(cfg, s, t), p, env, map[]);
        EndsAfter(cfg, s, p, t, rest, end);
        turns := [t] + rest;
      }
    } else if CreateOne(IsService, docs[c.i], s.world.cluster, env.services(c.i)).1.None? {
      EndsNow(cfg, s, p, t.meets, end);
      turns := [t];
    } else {
      var rest := ServicesAlone(cfg, Step(cfg, s, t), p, env);
      EndsAfter(cfg, s, p, t, rest, end);
      turns := [t] + rest;
    }
  }

  /**
   A Provision that is not disturbed does what the atomic handler does, for every
   failure pattern: the runs with atomic handlers are among the interleavings.
   */
  lemma AloneIsProvision(cfg: Config, s: State, p: nat, req: ProvisionRequest, env: ProvisionEnv)
    returns (turns: seq<Turn>)
    requires p < |s.calls| && s.calls[p] == Requested(req)
    ensures Ends(cfg, s, p, turns, AsPhase(req, ProvisionSpec(cfg, s.world, req, env)))
  {
    hide Prepare, Ends, CreateFrom;
    var t := Turn(p, Meets(env.now, env.selectDown, NoFault));
    var end := AsPhase(req, ProvisionSpec(cfg, s.world, req, env));
    if AfterRequest(cfg, s.world, req, t.meets).Answered? {
      EndsNow(cfg, s, p, t.meets, end);
      turns := [t];
    } else {
      var rest := ServicesAlone(cfg, Step(cfg, s, t), p, env);
      EndsAfter(cfg, s, p, t, rest, end);
      turns := [t] + rest;
    }
  }

  // ---------- Deprovision ----------

  /** Where a Deprovision stands after its delete pass. */
  function AfterDeletePass(cfg: Config, table: Table, id: string, row: Instance, env: DeprovisionEnv, out: Outcome)
    : (World, Phase)
  {
    (World(out.cluster, table),
     if out.result.Err? || !AfterKubeDelete(cfg, env.now, row) then DismissedWith(id, InternalServerError)
     else RemovingRow(id, row))
  }

  /** Where a Deprovision stands before its row deletion, if it gets that far. */
  function UpToRowRemoval(cfg: Config, w: World, id: string, env: DeprovisionEnv): (World, Phase) {
    var phase := AfterWithdrawal(cfg, w, id, Meets(env.now, env.selectDown, NoFault));
    if !phase.Deleting? then (w, phase)
    else
      AfterDeletePass(cfg, w.table, id, phase.row, env,
                      DeletePass(cfg.decode(phase.row.yaml), env.deletes, w.cluster))
  }

  lemma {:induction false} DeletesAlone(cfg: Config, s: State, d: nat, env: DeprovisionEnv) returns (turns: seq<Turn>)
    requires d < |s.calls| && s.calls[d].Deleting? && s.calls[d].i <= |cfg.decode(s.calls[d].row.yaml)|
    ensures var c := s.calls[d];
            var out := DeleteFrom(cfg.decode(c.row.yaml), c.i, env.deletes, s.world.cluster);
            Ends(cfg, s, d, turns, AfterDeletePass(cfg, s.world.table, c.id, c.row, env, out))
    decreases |cfg.decode(s.calls[d].row.yaml)| - s.calls[d].i
  {
    hide Ends;
    var c := s.calls[d];
    var docs := cfg.decode(c.row.yaml);
    var t := Turn(d, Meets(env.now, false, env.deletes(c.i)));
    var end := AfterDeletePass(cfg, s.world.table, c.id, c.row, env,
                               DeleteFrom(docs, c.i, env.deletes, s.world.cluster));
    if c.i == |docs| || !DeleteOne(docs[c.i], s.world.cluster, env.deletes(c.i)).1 {
      EndsNow(cfg, s, d, t.meets, end);
      turns := [t];
    } else {
      var rest := DeletesAlone(cfg, Step(cfg, s, t), d, env);
      EndsAfter(cfg, s, d, t, rest, end);
      turns := [t] + rest;
    }
  }

  lemma RowRemovalAlone(cfg: Config, s: State, d: nat, id: string, env: DeprovisionEnv) returns (turns: seq<Turn>)
    requires d < |s.calls| && s.calls[d] == Withdrawn(id)
    ensures Ends(cfg, s, d, turns, UpToRowRemoval(cfg, s.world, id, env))
  {
    hide Ends, DeleteFrom;
    var t := Turn(d, Meets(env.now, env.selectDown, NoFault));
    var end := UpToRowRemoval(cfg, s.world, id, env);
    if AfterWithdrawal(cfg, s.world, id, t.meets).Deleting? {
      var rest := DeletesAlone(cfg, Step(cfg, s, t), d, env);
      EndsAfter(cfg, s, d, t, rest, end);
      turns := [t] + rest;
    } else {
      EndsNow(cfg, s, d, t.meets, end);
      turns := [t];
    }
  }

  /** A Deprovision that is not disturbed. */
  lemma AloneIsDeprovision(cfg: Config, s: State, d: nat, id: string, env: DeprovisionEnv) returns (turns: seq<Turn>)
    requires d < |s.calls| && s.calls[d] == Withdrawn(id)
    ensures var end := DeprovisionSpec(cfg, s.world, id, env);
            Ends(cfg, s, d, turns, (end.0, Dismissed(id, end.1)))
  {
    hide DeleteFrom, Run;
    turns := RowRemovalAlone(cfg, s, d, id, env);
    var mid := UpToRowRemoval(cfg, s.world, id, env);
    if mid.1.RemovingRow? {
      var m := Meets(env.now, env.deleteDown, NoFault);
      var end := DeprovisionSpec(cfg, s.world, id, env);
      EndsNow(cfg, Run(cfg, s, turns), d, m, (end.0, Dismissed(id, end.1)));
      EndsThen(cfg, s, d, turns, mid, d, [Turn(d, m)], (end.0, Dismissed(id, end.1)));
      turns := turns + [Turn(d, m)];
    }
  }

  // ---------- Update ----------

  /** Where an Update stands after its second pass. */
  function AfterSecondUpserts(table: Table, up: UpdateRequest, planID: string, p: Prepared, yaml: string, out: Outcome)
    : (World, Phase)
  {
    (World(out.cluster, table),
     if out.result.Err? then RenewedWith(up, InternalServerError) else Rewriting(up, UpdatedRow(up, planID, p, yaml)))
  }

  function AfterFirstUpserts(cfg: Config, table: Table, up: UpdateRequest, planID: string, p: Prepared, env: UpdateEnv,
                             out: Outcome): (World, Phase)
  {
    if out.result.Err? then (World(out.cluster, table), RenewedWith(up, InternalServerError))
    else
      var special := ApplySpecial(cfg, p.serviceName, env.now, p.yaml, out.result.value);
      if special.None? then (World(out.cluster, table), RenewedWith(up, InternalServerError))
      else
        AfterSecondUpserts(table, up, planID, p, special.value,
                           UpsertPass(IsUpdatableWorkload, cfg.decode(special.value), env.workloads, out.cluster))
  }

  /** Where an Update stands before it writes the row, if it gets that far. */
  function UpToRewriting(cfg: Config, w: World, up: UpdateRequest, env: UpdateEnv): (World, Phase) {
    var phase := AfterRenewal(cfg, w, up, Meets(env.now, env.selectDown, NoFault));
    if !phase.Upserting? then (w, phase)
    else
      AfterFirstUpserts(cfg, w.table, up, phase.planID, phase.p, env,
                        UpsertPass(IsService, cfg.decode(phase.p.yaml), env.services, w.cluster))
  }

  /** A loop alone, to its end: its reads and writes add up to the upsert pass. */
  lemma {:induction false} UpsertsAlone(cfg: Config, s: State, p: nat, now: nat, faults: Faults)
    returns (turns: seq<Turn>, end: UpdateRaces.Loop)
    requires p < |s.calls| && s.calls[p].Upserting?
    requires s.calls[p].loop.phase.AtDocument? && s.calls[p].loop.phase.i <= |s.calls[p].loop.docs|
    ensures var c := s.calls[p];
            var out := UpsertFrom(c.loop.keep, c.loop.docs, c.loop.phase.i, faults, s.world.cluster, c.loop.made);
            && end.phase == UpdateRaces.Stopped(out.result)
            && Ends(cfg, s, p, turns, (World(out.cluster, s.world.table), c.(loop := end)))
    decreases |s.calls[p].loop.docs| - s.calls[p].loop.phase.i
  {
    hide Ends;
    var c := s.calls[p];
    var i := c.loop.phase.i;
    var t := Turn(p, Meets(now, false, faults(i)));
    var out := UpsertFrom(c.loop.keep, c.loop.docs, i, faults, s.world.cluster, c.loop.made);
    var s1 := Step(cfg, s, t);
    var c1 := s1.calls[p];
    if c1.loop.phase.Stopped? {
      end := c1.loop;
      EndsNow(cfg, s, p, t.meets, (World(out.cluster, s.world.table), c.(loop := end)));
      turns := [t];
    } else if c1.loop.phase.AtDocument? {
      var rest;
      rest, end := UpsertsAlone(cfg, s1, p, now, faults);
      EndsAfter(cfg, s, p, t, rest, (World(out.cluster, s.world.table), c.(loop := end)));
      turns := [t] + rest;
    } else {
      var s2 := Step(cfg, s1, t);
      var rest;
      if s2.calls[p].loop.phase.Stopped? {
        end, rest := s2.calls[p].loop, [t];
        EndsNow(cfg, s1, p, t.meets, (World(out.cluster, s.world.table), c.(loop := end)));
      } else {
        var more;
        more, end := UpsertsAlone(cfg, s2, p, now, faults);
        EndsAfter(cfg, s1, p, t, more, (World(out.cluster, s.world.table), c.(loop := end)));
        rest := [t] + more;
      }
      EndsAfter(cfg, s, p, t, rest, (World(out.cluster, s.world.table), c.(loop := end)));
      turns := [t] + rest;
    }
  }

  /** A loop alone, and the turn that evaluates its result. */
  lemma PassAlone(cfg: Config, s: State, p: nat, now: nat, faults: Faults) returns (turns: seq<Turn>)
    requires p < |s.calls| && s.calls[p].Upserting? && s.calls[p].loop.phase == UpdateRaces.AtDocument(0)
    requires s.calls[p].loop.made == map[]
    ensures var c := s.calls[p];
            var out := UpsertPass(c.loop.keep, c.loop.docs, faults, s.world.cluster);
            Ends(cfg, s, p, turns, (World(out.cluster, s.world.table),
                                    AfterUpserts(cfg, c.up, c.planID, c.p, c.finished, out.result, now)))
  {
    hide Run, AfterUpserts, UpdateRaces.LoopTurn, UpsertFrom;
    var c := s.calls[p];
    var out := UpsertPass(c.loop.keep, c.loop.docs, faults, s.world.cluster);
    var m := Meets(now, false, NoFault);
    var loop;
    turns, loop := UpsertsAlone(cfg, s, p, now, faults);
    var mid := (World(out.cluster, s.world.table), c.(loop := loop));
    var end := (World(out.cluster, s.world.table), AfterUpserts(cfg, c.up, c.planID, c.p, c.finished, out.result, now));
    EndsNow(cfg, Run(cfg, s, turns), p, m, end);
    EndsThen(cfg, s, p, turns, mid, p, [Turn(p, m)], end);
    turns := turns + [Turn(p, m)];
  }

  lemma RewritingAlone(cfg: Config, s: State, p: nat, up: UpdateRequest, env: UpdateEnv) returns (turns: seq<Turn>)
    requires p < |s.calls| && s.calls[p] == Renewing(up)
    ensures Ends(cfg, s, p, turns, UpToRewriting(cfg, s.world, up, env))
  {
    hide Run, UpsertPass, Prepare, ApplySpecial;
    var m := Meets(env.now, env.selectDown, NoFault);
    var first := AfterRenewal(cfg, s.world, up, m);
    var end := UpToRewriting(cfg, s.world, up, env);
    turns := [Turn(p, m)];
    EndsNow(cfg, s, p, m, (s.world, first));
    if first.Upserting? {
      var s1 := Run(cfg, s, turns);
      var pass := PassAlone(cfg, s1, p, env.now, env.services);
      var out := UpsertPass(IsService, cfg.decode(first.p.yaml), env.services, s.world.cluster);
      var mid := (World(out.cluster, s.world.table),
                  AfterUpserts(cfg, up, first.planID, first.p, None, out.result, env.now));
      EndsThen(cfg, s, p, turns, (s.world, first), p, pass, mid);
      turns := turns + pass;
      if mid.1.Upserting? {
        var pass' := PassAlone(cfg, Run(cfg, s, turns), p, env.now, env.workloads);
        EndsThen(cfg, s, p, turns, mid, p, pass', end);
        turns := turns + pass';
      }
    }
  }

  /** An Update that is not disturbed. */
  lemma AloneIsUpdate(cfg: Config, s: State, p: nat, up: UpdateRequest, env: UpdateEnv) returns (turns: seq<Turn>)
    requires p < |s.calls| && s.calls[p] == Renewing(up)
    ensures var end := UpdateSpec(cfg, s.world, up, env);
            Ends(cfg, s, p, turns, (end.0, Renewed(up, end.1)))
  {
    hide Run, UpsertPass, Prepare, ApplySpecial, UpdateRow;
    turns := RewritingAlone(cfg, s, p, up, env);
    var mid := UpToRewriting(cfg, s.world, up, env);
    if mid.1.Rewriting? {
      var m := Meets(env.now, env.updateDown, NoFault);
      var end := UpdateSpec(cfg, s.world, up, env);
      EndsNow(cfg, Run(cfg, s, turns), p, m, (end.0, Renewed(up, end.1)));
      EndsThen(cfg, s, p, turns, mid, p, [Turn(p, m)], (end.0, Renewed(up, end.1)));
      turns := turns + [Turn(p, m)];
    }
  }
}
