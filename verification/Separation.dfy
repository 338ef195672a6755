/**
 A condition on the calls themselves under which none is ever overtaken: no two
 Deprovisions of one id, and no Update of an id that a Provision uses.
 */
module Separation {
  import opened Manifest
  import opened Dao
  import opened Broker
  import opened ProvisionRaces
  import opened Overlaps
  import Runs
  import UpdateRaces

  ghost predicate Apart(s: State) {
    && (forall p, q :: 0 <= p < |s.calls| && 0 <= q < |s.calls| && p != q ==>
          !(s.calls[p].Withdrawn? && s.calls[q].Withdrawn? && s.calls[p].id == s.calls[q].id))
    && (forall p, q :: 0 <= p < |s.calls| && 0 <= q < |s.calls| ==>
          !(s.calls[p].Renewing? && s.calls[q].Requested? && s.calls[p].up.instanceID == s.calls[q].req.instanceID))
  }

  // ---------- what a call stays ----------

  datatype Kind = ProvisionOf(id: string) | DeprovisionOf(id: string) | UpdateOf(id: string)

  function KindOf(phase: Phase): Kind {
    match phase
    case Requested(req) => ProvisionOf(req.instanceID)
    case CreatingServices(req, _, _, _) => ProvisionOf(req.instanceID)
    case CreatingWorkloads(req, _, _, _, _) => ProvisionOf(req.instanceID)
    case Inserting(req, _, _) => ProvisionOf(req.instanceID)
    case Answered(req, _) => ProvisionOf(req.instanceID)
    case Withdrawn(id) => DeprovisionOf(id)
    case Deleting(id, _, _) => DeprovisionOf(id)
    case RemovingRow(id, _) => DeprovisionOf(id)
    case Dismissed(id, _) => DeprovisionOf(id)
    case Renewing(up) => UpdateOf(up.instanceID)
    case Upserting(up, _, _, _, _) => UpdateOf(up.instanceID)
    case Rewriting(up, _) => UpdateOf(up.instanceID)
    case Renewed(up, _) => UpdateOf(up.instanceID)
  }

  /** A call never changes what it is about. */
  lemma NextKeepsKind(cfg: Config, w: World, phase: Phase, m: Meets)
    ensures KindOf(Next(cfg, w, phase, m).1) == KindOf(phase)
  {
    hide Prepare, ApplySpecial, DashboardURL, CreateOne, DeleteOne, UpdateRaces.LoopTurn;
  }

  lemma {:induction false} RunKeepsKinds(cfg: Config, s: State, turns: seq<Turn>, p: nat)
    requires p < |s.calls|
    ensures KindOf(Run(cfg, s, turns).calls[p]) == KindOf(s.calls[p])
    decreases |turns|
  {
    if turns != [] {
      hide KindOf, Next, Happened;
      var front, t := turns[..|turns| - 1], turns[|turns| - 1];
      var before := Run(cfg, s, front);
      RunKeepsKinds(cfg, s, front, p);
      if t.Turn? && t.p < |s.calls| {
        NextKeepsKind(cfg, before.world, before.calls[t.p], t.meets);
      }
    }
  }

  // ---------- nothing is overtaken ----------

  /** A row that was there at some point and is missing now was removed in between. */
  lemma {:induction false} RemovedSince(start: Table, log: seq<RowEvent>, at: nat, id: string) returns (j: nat)
    requires at <= |log| && id in Rows(start, log[..at]) && id !in Rows(start, log)
    ensures at <= j < |log| && log[j].Removed? && log[j].id == id
  {
    assert log[..|log|] == log;
    var n := |log| - 1;
    if log[n].Removed? && log[n].id == id {
      j := n;
    } else {
      assert log[..n][..at] == log[..at];
      j := RemovedSince(start, log[..n], at, id);
    }
  }

  /** A Deprovision that is alone with its id is not overtaken. */
  lemma RemovalNotOvertaken(cfg: Config, start: Table, t: Traced, d: nat, j: nat) returns (other: nat)
    requires TracedInv(cfg, start, t) && d < |t.s.calls| && t.s.calls[d].RemovingRow?
    requires t.notes[d].at <= j < |t.s.log| && t.s.log[j].Inserted? && t.s.log[j].row.instanceID == t.s.calls[d].id
    ensures other < |t.s.calls| && other != d && t.s.calls[other].Dismissed? && t.s.calls[other].id == t.s.calls[d].id
  {
    var log, id, at := t.s.log, t.s.calls[d].id, t.notes[d].at;
    assert NoteOk(cfg, start, t, d) && EventOk(start, log, j);
    assert log[..j][..at] == log[..at];
    hide Rows;
    var m := RemovedSince(start, log[..j], at, id);
    assert log[m] == log[..j][m] && EventFits(cfg, t, m);
    other := log[m].caller;
  }

  /** What was not overtaken stays so: who wrote is done, and its select is long past. */
  lemma NotOvertakenStays(cfg: Config, t: Traced, turn: Turn, m: nat)
    requires WritersDone(t) && m < |t.s.log| && !Overtaken(t, m)
    ensures m < |TracedStep(cfg, t, turn).s.log| && !Overtaken(TracedStep(cfg, t, turn), m)
  {
    var t' := TracedStep(cfg, t, turn);
    if turn.Turn? && turn.p < |t.s.calls| {
      StepShape(cfg, t, turn);
      hide TracedStep, Next;
    }
    assert forall j :: 0 <= j < |t.s.log| ==> t'.s.log[j] == t.s.log[j];
  }

  /**
   Whoever is overtaken has a rival: a Deprovision another Deprovision of the id, an
   Update a Provision of the id.
   */
  lemma OvertakenHasRival(cfg: Config, start: Table, t: Traced, turn: Turn) returns (rival: nat)
    requires TracedInv(cfg, start, t) && turn.Turn? && turn.p < |t.s.calls|
    requires |t.s.log| < |TracedStep(cfg, t, turn).s.log| && Overtaken(TracedStep(cfg, t, turn), |t.s.log|)
    ensures rival < |t.s.calls| && rival != turn.p
    ensures var phase, other := t.s.calls[turn.p], t.s.calls[rival];
            || (phase.RemovingRow? && other.Dismissed? && other.id == phase.id)
            || (phase.Rewriting? && other.Answered? && other.req.instanceID == phase.up.instanceID)
  {
    var t', p, n := TracedStep(cfg, t, turn), turn.p, |t.s.log|;
    StepShape(cfg, t, turn);
    hide TracedStep, Next, MadeBefore, NamesAll, Swept, NotRemovedSince, Rows;
    var e := t'.s.log[n];
    var j :| t'.notes[p].at <= j < n && t'.s.log[j].Inserted? && t'.s.log[j].row.instanceID == EventId(e);
    assert t'.s.log[j] == t.s.log[j] && EventFits(cfg, t, j) && NoteOk(cfg, start, t, p);
    if e.Removed? {
      hide TracedInv;
      rival := RemovalNotOvertaken(cfg, start, t, p, j);
    } else {
      rival := t.s.log[j].caller;
    }
  }

  /** The call in turn is not overtaken either. */
  lemma NewEventNotOvertaken(cfg: Config, s: State, turns: seq<Turn>, turn: Turn)
    requires Initial(s) && Apart(s)
    requires var t := TracedRun(cfg, s, turns);
             && TracedInv(cfg, s.world.table, t)
             && turn.Turn? && turn.p < |t.s.calls| && |t.s.log| < |TracedStep(cfg, t, turn).s.log|
    ensures var t := TracedRun(cfg, s, turns);
            !Overtaken(TracedStep(cfg, t, turn), |t.s.log|)
  {
    hide TracedStep, TracedInv, Overtaken, Run;
    var t := TracedRun(cfg, s, turns);
    if Overtaken(TracedStep(cfg, t, turn), |t.s.log|) {
      var rival := OvertakenHasRival(cfg, s.world.table, t, turn);
      RunKeepsKinds(cfg, s, turns, turn.p);
      RunKeepsKinds(cfg, s, turns, rival);
    }
  }

  /** Calls that are apart never overtake each other, in whatever order they take their steps. */
  lemma {:induction false} ApartIsNeverOvertaken(cfg: Config, s: State, turns: seq<Turn>)
    requires Initial(s) && s.world.cluster.Valid() && KeyedById(s.world.table) && Apart(s)
    requires Runs.SpecialKeepsServices(cfg)
    ensures NoneOvertaken(TracedRun(cfg, s, turns))
    decreases |turns|
  {
    if turns != [] {
      hide TracedStep, Overtaken, TracedInv, WritersDone, Apart, Runs.SpecialKeepsServices;
      var front, turn := turns[..|turns| - 1], turns[|turns| - 1];
      var t := TracedRun(cfg, s, front);
      ApartIsNeverOvertaken(cfg, s, front);
      TracedRunKeepsInv(cfg, s, front);
      RunKeepsWritersDone(cfg, s, front);
      var t' := TracedStep(cfg, t, turn);
      forall m | 0 <= m < |t'.s.log| ensures !Overtaken(t', m) {
        LogGrowsByOne(cfg, t, turn);
        if m < |t.s.log| {
          NotOvertakenStays(cfg, t, turn, m);
        } else {
          NewEventNotOvertaken(cfg, s, front, turn);
        }
      }
    }
  }

  lemma LogGrowsByOne(cfg: Config, t: Traced, turn: Turn)
    requires |t.notes| == |t.s.calls|
    ensures var t' := TracedStep(cfg, t, turn);
            && |t'.s.log| <= |t.s.log| + 1
            && (|t.s.log| < |t'.s.log| ==> turn.Turn? && turn.p < |t.s.calls|)
  {
    hide Next;
  }

  /**
   No orphan among calls that are apart: with at most one Deprovision of each id and no
   Update of an id that a Provision uses, any number of Provisions may overlap with them
   and with other clients, with any failures, and every object of a successful Provision
   that still exists has its row, with a deletable manifest that names it.
   */
  lemma NoOrphanWhenApart(cfg: Config, s: State, turns: seq<Turn>, p: nat, o: Incarnation)
    requires Initial(s) && s.world.cluster.Valid() && KeyedById(s.world.table) && Apart(s)
    requires Runs.SpecialKeepsServices(cfg)
    requires var t := TracedRun(cfg, s, turns);
             && p < |t.s.calls| && t.s.calls[p].Answered? && t.s.calls[p].reply.Provisioned?
             && o in t.notes[p].made && Alive(t.s.world.cluster, o)
    ensures var t := TracedRun(cfg, s, turns);
            var id := t.s.calls[p].req.instanceID;
            && t.s == Run(cfg, s, turns)
            && id in t.s.world.table
            && AllObjects(cfg.decode(t.s.world.table[id].yaml))
            && o.key in Keys(AnyKind, cfg.decode(t.s.world.table[id].yaml))
  {
    hide TracedRun, NoneOvertaken, Apart, Alive, Runs.SpecialKeepsServices, Keys;
    ApartIsNeverOvertaken(cfg, s, turns);
    NoOrphanUnlessOvertaken(cfg, s, turns, p, o);
  }
}
