/**
 Provision, Deprovision and Update calls that run at the same time, one statement or
 API call per step, in any order. The lock that the broker embeds is never taken, so
 nothing but the stores themselves keeps the calls apart. Other clients of the cluster
 may act in between.
 */
module ProvisionRaces {
  import opened Results
  import opened ApiServer
  import opened Manifest
  import opened KubeCli
  import opened Catalog
  import opened Dao
  import opened Broker
  import UpdateRaces

  /**
   Where a call stands. An Update upserts the Services first and, once it has the
   finished manifest, the workloads; its loop reads and writes in separate steps.
   */
  datatype Phase =
    | Requested(req: ProvisionRequest)
    | CreatingServices(req: ProvisionRequest, p: Prepared, i: nat, made: Names)
    | CreatingWorkloads(req: ProvisionRequest, p: Prepared, yaml: string, names: Names, i: nat)
    | Inserting(req: ProvisionRequest, row: Instance, url: string)
    | Answered(req: ProvisionRequest, reply: ProvisionReply)
    | Withdrawn(id: string)
    | Deleting(id: string, row: Instance, i: nat)
    | RemovingRow(id: string, row: Instance)
    | Dismissed(id: string, answer: DeprovisionReply)
    | Renewing(up: UpdateRequest)
    | Upserting(up: UpdateRequest, planID: string, p: Prepared, finished: Option<string>, loop: UpdateRaces.Loop)
    | Rewriting(up: UpdateRequest, row: Instance)
    | Renewed(up: UpdateRequest, outcome: UpdateReply)

  /** What one step meets: the moment, whether the database is down, and what fails in the cluster. */
  datatype Meets = Meets(now: nat, down: bool, fault: Fault)

  /** A change of the table: who inserted or rewrote which row, or who removed which id. */
  datatype RowEvent =
    | Inserted(caller: nat, row: Instance)
    | Removed(caller: nat, id: string)
    | Rewritten(caller: nat, row: Instance)

  datatype State = State(world: World, calls: seq<Phase>, log: seq<RowEvent>)

  /** The scheduler lets one call make its next step, or other clients change the cluster. */
  datatype Turn = Turn(p: nat, meets: Meets) | OtherClients(after: Cluster)

  function FailedWith(req: ProvisionRequest, status: Status): Phase {
    Answered(req, ProvisionFailed(status))
  }

  function DismissedWith(id: string, status: Status): Phase {
    Dismissed(id, DeprovisionFailed(status))
  }

  /** The select, then lookups and rendering. */
  function AfterRequest(cfg: Config, w: World, req: ProvisionRequest, m: Meets): Phase {
    var selected := SelectRow(w.table, req.instanceID, m.down);
    if selected.Err? then FailedWith(req, ServiceUnavailable)
    else if selected.value.instanceID == req.instanceID then FailedWith(req, Conflicts)
    else
      var prepared := Prepare(cfg, req, m.now);
      if prepared.None? then FailedWith(req, BadRequest) else CreatingServices(req, prepared.value, 0, map[])
  }

  function AfterServices(cfg: Config, req: ProvisionRequest, p: Prepared, made: Names, m: Meets): Phase {
    var special := ApplySpecial(cfg, p.serviceName, m.now, p.yaml, made);
    if special.None? then FailedWith(req, InternalServerError) else CreatingWorkloads(req, p, special.value, made, 0)
  }

  function AfterWorkloads(cfg: Config, req: ProvisionRequest, p: Prepared, yaml: string, names: Names, m: Meets)
    : Phase
  {
    var url := DashboardURL(cfg, p.serviceName, m.now, req.parameters, names);
    if url.None? then FailedWith(req, InternalServerError) else Inserting(req, RowFor(req, p, yaml), url.value)
  }

  /** The create call for one document, if the filter keeps it; None if the pass must stop. */
  function CreateOne(keep: Filter, d: Document, c: Cluster, fault: Fault): (Cluster, Option<Unstructured>) {
    var resolved := Resolve(d, fault);
    if resolved.Err? then (c, None)
    else if !keep(resolved.value.kind) then (c, Some(resolved.value))
    else
      var reply := CreateCall(c, resolved.value, fault);
      (reply.cluster, if reply.error.Some? then None else Some(resolved.value))
  }

  /** The delete call for one document; false if the pass must stop. */
  function DeleteOne(d: Document, c: Cluster, fault: Fault): (Cluster, bool) {
    var resolved := Resolve(d, fault);
    if resolved.Err? then (c, false)
    else
      var reply := DeleteCall(c, resolved.value.key, fault);
      (reply.cluster, reply.error.None? || reply.error.value == NotFound)
  }

  function Recorded(made: Names, keep: Filter, o: Unstructured): Names {
    if keep(o.kind) then made[o.key.namespace := o.key.name] else made
  }

  function AfterWithdrawal(cfg: Config, w: World, id: string, m: Meets): Phase {
    var selected := SelectRow(w.table, id, m.down);
    if selected.Err? then DismissedWith(id, ServiceUnavailable)
    else if selected.value.instanceID == "" then DismissedWith(id, Gone)
    else if !BeforeKubeDelete(cfg, m.now, selected.value) then DismissedWith(id, InternalServerError)
    else Deleting(id, selected.value, 0)
  }

  function LoopOver(keep: Filter, docs: seq<Document>): UpdateRaces.Loop {
    UpdateRaces.Loop(keep, docs, UpdateRaces.AtDocument(0), map[])
  }

  function RenewedWith(up: UpdateRequest, status: Status): Phase {
    Renewed(up, UpdateFailed(status))
  }

  /** The select of an Update, then lookups and rendering. */
  function AfterRenewal(cfg: Config, w: World, up: UpdateRequest, m: Meets): Phase {
    var selected := SelectRow(w.table, up.instanceID, m.down);
    if selected.Err? then RenewedWith(up, ServiceUnavailable)
    else if selected.value.instanceID == up.instanceID then RenewedWith(up, Conflicts)
    else if GetServiceName(cfg.index, up.serviceID).Err? then RenewedWith(up, BadRequest)
    else if up.planID.None? then Renewed(up, UpdateCrashed)
    else
      var prepared := Prepare(cfg, AsProvision(up, up.planID.value, selected.value), m.now);
      if prepared.None? then RenewedWith(up, BadRequest)
      else Upserting(up, up.planID.value, prepared.value, None, LoopOver(IsService, cfg.decode(prepared.value.yaml)))
  }

  /** What follows the end of an upsert loop. */
  function AfterUpserts(cfg: Config, up: UpdateRequest, planID: string, p: Prepared, finished: Option<string>,
                        result: Result<Names, PassError>, now: nat): Phase
  {
    if result.Err? then RenewedWith(up, InternalServerError)
    else if finished.Some? then Rewriting(up, UpdatedRow(up, planID, p, finished.value))
    else
      var special := ApplySpecial(cfg, p.serviceName, now, p.yaml, result.value);
      if special.None? then RenewedWith(up, InternalServerError)
      else Upserting(up, planID, p, special, LoopOver(IsUpdatableWorkload, cfg.decode(special.value)))
  }

  /** One step of a call. */
  function Next(cfg: Config, w: World, phase: Phase, m: Meets): (World, Phase) {
    match phase
    case Requested(req) => (w, AfterRequest(cfg, w, req, m))
    case CreatingServices(req, p, i, made) =>
      var docs := cfg.decode(p.yaml);
      if i >= |docs| then (w, AfterServices(cfg, req, p, made, m))
      else
        var one := CreateOne(IsService, docs[i], w.cluster, m.fault);
        (World(one.0, w.table),
         if one.1.None? then FailedWith(req, InternalServerError)
         else CreatingServices(req, p, i + 1, Recorded(made, IsService, one.1.value)))
    case CreatingWorkloads(req, p, yaml, names, i) =>
      var docs := cfg.decode(yaml);
      if i >= |docs| then (w, AfterWorkloads(cfg, req, p, yaml, names, m))
      else
        var one := CreateOne(IsWorkload, docs[i], w.cluster, m.fault);
        (World(one.0, w.table),
         if one.1.None? then FailedWith(req, InternalServerError)
         else CreatingWorkloads(req, p, yaml, names, i + 1))
    case Inserting(req, row, url) =>
      var inserted := InsertRow(w.table, row, m.down);
      (World(w.cluster, inserted.0),
       if inserted.1.Err? then FailedWith(req, ServiceUnavailable) else Answered(req, Provisioned(url)))
    case Answered(_, _) => (w, phase)
    case Withdrawn(id) => (w, AfterWithdrawal(cfg, w, id, m))
    case Deleting(id, row, i) =>
      var docs := cfg.decode(row.yaml);
      if i >= |docs| then
        (w, if AfterKubeDelete(cfg, m.now, row) then RemovingRow(id, row) else DismissedWith(id, InternalServerError))
      else
        var one := DeleteOne(docs[i], w.cluster, m.fault);
        (World(one.0, w.table),
         if one.1 then Deleting(id, row, i + 1) else DismissedWith(id, InternalServerError))
    case RemovingRow(id, row) =>
      var removed := DeleteRow(w.table, id, m.down);
      (World(w.cluster, removed.0),
       if removed.1.Err? then DismissedWith(id, ServiceUnavailable) else Dismissed(id, Deprovisioned))
    case Dismissed(_, _) => (w, phase)
    case Renewing(up) => (w, AfterRenewal(cfg, w, up, m))
    case Upserting(up, planID, p, finished, loop) =>
      if loop.phase.Stopped? then (w, AfterUpserts(cfg, up, planID, p, finished, loop.phase.result, m.now))
      else
        var one := UpdateRaces.LoopTurn(w.cluster, loop, m.fault);
        (World(one.0, w.table), Upserting(up, planID, p, finished, one.1))
    case Rewriting(up, row) =>
      var updated := UpdateRow(w.table, row, m.down);
      (World(w.cluster, updated.0),
       if updated.1.Err? then RenewedWith(up, ServiceUnavailable) else Renewed(up, Updated))
    case Renewed(_, _) => (w, phase)
  }

  /** The table event of a step, read off the stores alone. */
  function Happened(log: seq<RowEvent>, p: nat, before: Phase, w: World, w': World): seq<RowEvent> {
    if before.Inserting? && before.row.instanceID !in w.table && before.row.instanceID in w'.table then
      log + [Inserted(p, before.row)]
    else if before.RemovingRow? && before.id in w.table && before.id !in w'.table then
      log + [Removed(p, before.id)]
    else if before.Rewriting? && w'.table != w.table then
      log + [Rewritten(p, before.row)]
    else log
  }

  /** Other clients may do anything a server admits; whatever it would not admit does not happen. */
  ghost function Step(cfg: Config, s: State, t: Turn): State {
    if t.OtherClients? then
      if Evolves(s.world.cluster, t.after) then s.(world := World(t.after, s.world.table)) else s
    else if t.p >= |s.calls| then s
    else
      var (w', phase) := Next(cfg, s.world, s.calls[t.p], t.meets);
      State.State(w', s.calls[t.p := phase], Happened(s.log, t.p, s.calls[t.p], s.world, w'))
  }

  ghost function Run(cfg: Config, s: State, turns: seq<Turn>): (r: State)
    ensures |r.calls| == |s.calls|
    decreases |turns|
  {
    if turns == [] then s else Step(cfg, Run(cfg, s, turns[..|turns| - 1]), turns[|turns| - 1])
  }

  /** Any number of calls, all just received. */
  ghost predicate Initial(s: State) {
    && s.log == []
    && forall p :: 0 <= p < |s.calls| ==> s.calls[p].Requested? || s.calls[p].Withdrawn? || s.calls[p].Renewing?
  }

  // ---------- the changes of the table ----------

  /** The table after the events. */
  function Rows(table: Table, log: seq<RowEvent>): Table {
    if log == [] then table
    else
      Applied(Rows(table, log[..|log| - 1]), log[|log| - 1])
  }

  function Applied(table: Table, e: RowEvent): Table {
    match e
    case Inserted(_, row) => table[row.instanceID := row]
    case Removed(_, id) => table - {id}
    case Rewritten(_, row) => UpdateRow(table, row, false).0
  }

  /** An insert meets no row of its id. */
  ghost predicate EventOk(start: Table, log: seq<RowEvent>, j: nat)
    requires j < |log|
  {
    log[j].Inserted? ==> log[j].row.instanceID !in Rows(start, log[..j])
  }

  /** A call's pending row carries its own id; it has answered success exactly if it inserted. */
  ghost predicate CallOk(s: State, p: nat)
    requires p < |s.calls|
  {
    var phase := s.calls[p];
    && (phase.Inserting? ==> phase.row.instanceID == phase.req.instanceID)
    && (phase.Answered? && phase.reply.Provisioned? ==>
          exists a :: 0 <= a < |s.log| && s.log[a].Inserted? && s.log[a].caller == p
                      && s.log[a].row.instanceID == phase.req.instanceID)
  }

  ghost predicate Inv(start: Table, s: State) {
    && Rows(start, s.log) == s.world.table
    && (forall j :: 0 <= j < |s.log| ==> EventOk(start, s.log, j))
    && (forall p :: 0 <= p < |s.calls| ==> CallOk(s, p))
    && (forall a :: 0 <= a < |s.log| && s.log[a].Inserted? ==>
          s.log[a].caller < |s.calls| && s.calls[s.log[a].caller].Answered?
              && s.calls[s.log[a].caller].reply.Provisioned?)
  }

  lemma LogGrows(start: Table, log: seq<RowEvent>, e: RowEvent)
    requires forall j :: 0 <= j < |log| ==> EventOk(start, log, j)
    requires e.Inserted? ==> e.row.instanceID !in Rows(start, log)
    ensures forall j :: 0 <= j < |log + [e]| ==> EventOk(start, log + [e], j)
    ensures Rows(start, log + [e]) == Applied(Rows(start, log), e)
  {
    var log' := log + [e];
    assert log'[..|log|] == log;
    forall j | 0 <= j < |log'| ensures EventOk(start, log', j) {
      if j < |log| {
        assert EventOk(start, log, j);
        assert log'[..j] == log[..j];
      }
    }
  }

  /** What a step can do to the table, and what it then answers. */
  lemma NextTable(cfg: Config, w: World, phase: Phase, m: Meets)
    ensures var (w', phase') := Next(cfg, w, phase, m);
            && (w'.table != w.table ==> phase.Inserting? || phase.RemovingRow? || phase.Rewriting?)
            && (phase.Inserting? && phase'.Answered? && phase'.reply.Provisioned? ==>
                  phase.row.instanceID !in w.table && w'.table == w.table[phase.row.instanceID := phase.row])
            && (phase.Inserting? && !phase'.Answered? ==> false)
            && (phase.Inserting? && phase'.reply.ProvisionFailed? ==> w'.table == w.table)
            && (phase.RemovingRow? ==>
                  && phase'.Dismissed? && phase'.id == phase.id
                  && (w'.table == w.table || w'.table == w.table - {phase.id}))
            && (phase.Rewriting? ==>
                  phase'.Renewed? && (w'.table == w.table || w'.table == UpdateRow(w.table, phase.row, false).0))
            && (phase'.Inserting? ==> phase'.row.instanceID == phase'.req.instanceID)
            && (phase'.Answered? && phase'.reply.Provisioned? ==>
                  phase == phase' || (phase.Inserting? && phase'.req == phase.req))
            && (phase.Answered? ==> phase' == phase)
  {
    hide Prepare;
  }

  /** A step that changes no table row and wins nothing. */
  lemma QuietStepKeepsInv(start: Table, s: State, s': State, p: nat, phase: Phase)
    requires Inv(start, s) && p < |s.calls|
    requires s' == State.State(s'.world, s.calls[p := phase], s.log) && s'.world.table == s.world.table
    requires phase.Inserting? ==> phase.row.instanceID == phase.req.instanceID
    requires phase.Answered? && phase.reply.Provisioned? ==> s.calls[p] == phase
    requires s.calls[p].Answered? ==> phase == s.calls[p]
    ensures Inv(start, s')
  {
    hide Rows, EventOk;
    forall q | 0 <= q < |s'.calls| ensures CallOk(s', q) {
      assert CallOk(s, q);
    }
    forall j | 0 <= j < |s'.log| ensures EventOk(start, s'.log, j) {
      assert EventOk(start, s.log, j);
    }
  }

  /** A step that changes the table and logs it. */
  lemma LoggedStepKeepsInv(start: Table, s: State, s': State, p: nat, phase: Phase, e: RowEvent)
    requires Inv(start, s) && p < |s.calls| && !s.calls[p].Answered?
    requires s' == State.State(s'.world, s.calls[p := phase], s.log + [e])
    requires s'.world.table == Applied(s.world.table, e)
    requires e.Inserted? ==> e.caller == p && e.row.instanceID !in s.world.table
                             && phase.Answered? && phase.reply.Provisioned? && e.row.instanceID == phase.req.instanceID
    requires e.Removed? ==> phase.Dismissed?
    requires e.Rewritten? ==> phase.Renewed?
    ensures Inv(start, s')
  {
    hide Rows, EventOk, Applied;
    LogGrows(start, s.log, e);
    assert s'.log[|s.log|] == e;
    forall q | 0 <= q < |s'.calls| ensures CallOk(s', q) {
      assert CallOk(s, q);
      if q != p && s.calls[q].Answered? && s.calls[q].reply.Provisioned? {
        var a :| 0 <= a < |s.log| && s.log[a].Inserted? && s.log[a].caller == q
                 && s.log[a].row.instanceID == s.calls[q].req.instanceID;
        assert s'.log[a] == s.log[a];
      }
    }
    forall a | 0 <= a < |s'.log| && s'.log[a].Inserted?
      ensures s'.log[a].caller < |s'.calls| && s'.calls[s'.log[a].caller].Answered?
              && s'.calls[s'.log[a].caller].reply.Provisioned?
    {
      assert a < |s.log| ==> s'.log[a] == s.log[a];
    }
  }

  lemma ForeignKeepsInv(start: Table, s: State, s': State)
    requires Inv(start, s) && s' == s.(world := s'.world) && s'.world.table == s.world.table
    ensures Inv(start, s')
  {
    hide Rows, EventOk;
    forall p | 0 <= p < |s'.calls| ensures CallOk(s', p) {
      assert CallOk(s, p);
    }
  }

  lemma StepKeepsInv(cfg: Config, start: Table, s: State, t: Turn)
    requires Inv(start, s)
    ensures Inv(start, Step(cfg, s, t))
  {
    if t.OtherClients? {
      ForeignKeepsInv(start, s, Step(cfg, s, t));
    } else if t.p < |s.calls| {
      var before := s.calls[t.p];
      var (w', phase) := Next(cfg, s.world, before, t.meets);
      var s' := Step(cfg, s, t);
      NextTable(cfg, s.world, before, t.meets);
      assert CallOk(s, t.p);
      hide Next, Inv;
      if before.Inserting? && phase.reply.Provisioned? {
        LoggedStepKeepsInv(start, s, s', t.p, phase, Inserted(t.p, before.row));
      } else if before.RemovingRow? && before.id in s.world.table && w'.table != s.world.table {
        LoggedStepKeepsInv(start, s, s', t.p, phase, Removed(t.p, before.id));
      } else if before.Rewriting? && w'.table != s.world.table {
        LoggedStepKeepsInv(start, s, s', t.p, phase, Rewritten(t.p, before.row));
      } else {
        if before.RemovingRow? && before.id !in s.world.table {
          assert s.world.table - {before.id} == s.world.table;
        }
        QuietStepKeepsInv(start, s, s', t.p, phase);
      }
    }
  }

  lemma {:induction false} RunKeepsInv(cfg: Config, s: State, turns: seq<Turn>)
    requires Initial(s)
    ensures Inv(s.world.table, Run(cfg, s, turns))
    decreases |turns|
  {
    if turns != [] {
      RunKeepsInv(cfg, s, turns[..|turns| - 1]);
      StepKeepsInv(cfg, s.world.table, Run(cfg, s, turns[..|turns| - 1]), turns[|turns| - 1]);
    }
  }

  lemma EventsOfPrefix(start: Table, log: seq<RowEvent>, n: nat)
    requires n <= |log| && forall j :: 0 <= j < |log| ==> EventOk(start, log, j)
    ensures forall j :: 0 <= j < n ==> EventOk(start, log[..n], j)
  {
    hide Rows;
    forall j | 0 <= j < n ensures EventOk(start, log[..n], j) {
      assert EventOk(start, log, j);
      assert log[..n][..j] == log[..j];
    }
  }

  /** Without a removal an inserted row stays, at most refreshed, and no other insert of its id succeeds. */
  lemma {:induction false} RowStays(start: Table, log: seq<RowEvent>, a: nat, id: string)
    requires a < |log| && log[a].Inserted? && log[a].row.instanceID == id
    requires forall j :: 0 <= j < |log| ==> EventOk(start, log, j)
    requires forall m :: a < m < |log| ==> !(log[m].Removed? && log[m].id == id)
    ensures id in Rows(start, log) && Refreshed(log[a].row, Rows(start, log)[id]) == Rows(start, log)[id]
    ensures (forall m :: a < m < |log| ==> !log[m].Rewritten?) ==> Rows(start, log)[id] == log[a].row
    ensures forall m :: a < m < |log| && log[m].Inserted? ==> log[m].row.instanceID != id
    decreases |log|
  {
    var n := |log| - 1;
    if a < n {
      var front := log[..n];
      EventsOfPrefix(start, log, n);
      RowStays(start, front, a, id);
      assert EventOk(start, log, n);
      assert forall m :: a < m < n ==> front[m] == log[m];
    }
  }

  function EventId(e: RowEvent): string {
    if e.Removed? then e.id else e.row.instanceID
  }
}
