/**
 The no-orphan theorems read off the states of the run: who made an object, and which
 turns a call that harms a row was overtaken in.
 */
module Orphans {
  import opened ApiServer
  import opened Manifest
  import opened Dao
  import opened Broker
  import opened ProvisionRaces
  import Overlaps
  import Runs
  import Separation
  import Turns
  import Winners

  predicate Exists(c: Cluster, k: Key, uid: nat) {
    k in c.objects && c.objects[k].uid == uid
  }

  /** In turn i, call p makes the object with this uid. */
  ghost predicate Makes(cfg: Config, s: State, turns: seq<Turn>, i: nat, p: nat, k: Key, uid: nat) {
    && i < |turns| && turns[i].Turn? && turns[i].p == p && p < |s.calls|
    && !Exists(Run(cfg, s, turns[..i]).world.cluster, k, uid)
    && Exists(Run(cfg, s, turns[..i + 1]).world.cluster, k, uid)
  }

  /**
   In turn b a call removes or changes the row of the id, which was inserted in turn j,
   after that call's select in turn a.
   */
  ghost predicate Overtaken(cfg: Config, s: State, turns: seq<Turn>, id: string, a: nat, j: nat, b: nat) {
    && a < j < b < |turns|
    && turns[a].Turn? && turns[b].Turn? && turns[a].p == turns[b].p < |s.calls|
    && (Run(cfg, s, turns[..a]).calls[turns[a].p].Withdrawn? || Run(cfg, s, turns[..a]).calls[turns[a].p].Renewing?)
    && id !in Run(cfg, s, turns[..j]).world.table && id in Run(cfg, s, turns[..j + 1]).world.table
    && var before, after := Run(cfg, s, turns[..b]).world.table, Run(cfg, s, turns[..b + 1]).world.table;
       id in before && (id in after ==> after[id] != before[id])
  }

  ghost predicate NeverOvertaken(cfg: Config, s: State, turns: seq<Turn>) {
    forall id, a, j, b :: !Overtaken(cfg, s, turns, id, a, j, b)
  }

  // ---------- what a Provision made is noted ----------

  /** The step of a Provision that makes something is one of its creates. */
  lemma MakerCreates(cfg: Config, w: World, phase: Phase, m: Meets, k: Key, uid: nat)
    requires Separation.KindOf(phase).ProvisionOf?
    requires !Exists(w.cluster, k, uid) && Exists(Next(cfg, w, phase, m).0.cluster, k, uid)
    ensures phase.CreatingServices? || phase.CreatingWorkloads?
  {
    hide CreateOne, AfterRequest, AfterServices, AfterWorkloads, InsertRow;
  }

  lemma {:induction false} MadeIsNoted(cfg: Config, s: State, turns: seq<Turn>, i: nat, p: nat, k: Key, uid: nat)
    requires Makes(cfg, s, turns, i, p, k, uid) && Separation.KindOf(s.calls[p]).ProvisionOf?
    ensures p < |Overlaps.TracedRun(cfg, s, turns).notes|
    ensures Overlaps.Incarnation(k, uid) in Overlaps.TracedRun(cfg, s, turns).notes[p].made
    decreases |turns|
  {
    hide Next, Separation.KindOf, Evolves, Happened;
    var n := |turns| - 1;
    var t, turn := Overlaps.TracedRun(cfg, s, turns[..n]), turns[n];
    if i == n {
      assert turns[..n + 1] == turns;
      Separation.RunKeepsKinds(cfg, s, turns[..n], p);
      MakerCreates(cfg, t.s.world, t.s.calls[p], turn.meets, k, uid);
    } else {
      assert turns[..n][..i] == turns[..i] && turns[..n][..i + 1] == turns[..i + 1];
      MadeIsNoted(cfg, s, turns[..n], i, p, k, uid);
    }
  }

  // ---------- where an event of the log is in the run ----------

  /** What a step that adds to the log does to the row. */
  lemma StepEvent(cfg: Config, s: State, t: Turn)
    ensures s.log <= Step(cfg, s, t).log && |Step(cfg, s, t).log| <= |s.log| + 1
    ensures |s.log| < |Step(cfg, s, t).log| ==>
              var s' := Step(cfg, s, t);
              var e := s'.log[|s.log|];
              var before, after, id := s.world.table, s'.world.table, EventId(e);
              && t.Turn? && t.p == e.caller < |s.calls|
              && !s.calls[t.p].Withdrawn? && !s.calls[t.p].Renewing?
              && (e.Inserted? ==> id !in before && id in after)
              && (!e.Inserted? ==> id in before && (id in after ==> after[id] != before[id]))
              && (e.Removed? ==> s.calls[t.p].RemovingRow?) && (e.Rewritten? ==> s.calls[t.p].Rewriting?)
  {
    hide Next, Evolves;
    if t.Turn? && t.p < |s.calls| {
      NextTable(cfg, s.world, s.calls[t.p], t.meets);
      if s.calls[t.p].Rewriting? { Turns.RewriteTurn(cfg, s.world, s.calls[t.p], t.meets); }
    }
  }

  lemma {:induction false} LogOnlyGrows(cfg: Config, s: State, turns: seq<Turn>, i: nat, j: nat)
    requires i <= j <= |turns|
    ensures |Run(cfg, s, turns[..i]).log| <= |Run(cfg, s, turns[..j]).log|
    decreases j
  {
    if i < j {
      hide Step, Run;
      LogOnlyGrows(cfg, s, turns, i, j - 1);
      Winners.RunStep(cfg, s, turns, j - 1);
      StepEvent(cfg, Run(cfg, s, turns[..j - 1]), turns[j - 1]);
    }
  }

  lemma {:induction false} EventTurn(cfg: Config, s: State, turns: seq<Turn>, m: nat) returns (b: nat)
    requires s.log == [] && m < |Run(cfg, s, turns).log|
    ensures b < |turns| && |Run(cfg, s, turns[..b]).log| == m
    ensures |Run(cfg, s, turns[..b + 1]).log| == m + 1
    ensures Run(cfg, s, turns[..b + 1]).log[m] == Run(cfg, s, turns).log[m]
    decreases |turns|
  {
    hide Step;
    var n := |turns| - 1;
    assert turns[..n + 1] == turns;
    StepEvent(cfg, Run(cfg, s, turns[..n]), turns[n]);
    if m < |Run(cfg, s, turns[..n]).log| {
      b := EventTurn(cfg, s, turns[..n], m);
      assert turns[..n][..b] == turns[..b] && turns[..n][..b + 1] == turns[..b + 1];
    } else {
      b := n;
    }
  }

  /** The turn of a call's select. */
  lemma {:induction false} SelectTurn(cfg: Config, s: State, turns: seq<Turn>, p: nat) returns (a: nat)
    requires p < |s.calls| && (s.calls[p].Withdrawn? || s.calls[p].Renewing?)
    requires !Run(cfg, s, turns).calls[p].Withdrawn? && !Run(cfg, s, turns).calls[p].Renewing?
    ensures a < |turns| && turns[a].Turn? && turns[a].p == p
    ensures Run(cfg, s, turns[..a]).calls[p].Withdrawn? || Run(cfg, s, turns[..a]).calls[p].Renewing?
    ensures p < |Overlaps.TracedRun(cfg, s, turns).notes|
    ensures Overlaps.TracedRun(cfg, s, turns).notes[p].at == |Run(cfg, s, turns[..a]).log|
    decreases |turns|
  {
    hide Next, Evolves, Happened;
    var n := |turns| - 1;
    var t := Overlaps.TracedRun(cfg, s, turns[..n]);
    if t.s.calls[p].Withdrawn? || t.s.calls[p].Renewing? {
      a := n;
    } else {
      a := SelectTurn(cfg, s, turns[..n], p);
      assert turns[..n][..a] == turns[..a];
    }
  }

  /** If the notes say that a call was overtaken, there are turns in which it was. */
  lemma OvertakenInTurns(cfg: Config, s: State, turns: seq<Turn>, m: nat) returns (id: string, a: nat, j: nat, b: nat)
    requires Initial(s) && m < |Run(cfg, s, turns).log| && Overlaps.Overtaken(Overlaps.TracedRun(cfg, s, turns), m)
    ensures Overtaken(cfg, s, turns, id, a, j, b)
  {
    hide Run, Step, Overlaps.TracedRun;
    var t := Overlaps.TracedRun(cfg, s, turns);
    var log := t.s.log;
    var p := log[m].caller;
    id := EventId(log[m]);
    var at :| t.notes[p].at <= at < m && log[at].Inserted? && log[at].row.instanceID == id;
    b := EventTurn(cfg, s, turns, m);
    Winners.RunStep(cfg, s, turns, b);
    StepEvent(cfg, Run(cfg, s, turns[..b]), turns[b]);
    j := EventTurn(cfg, s, turns, at);
    Winners.RunStep(cfg, s, turns, j);
    StepEvent(cfg, Run(cfg, s, turns[..j]), turns[j]);
    Overlaps.RunKeepsWritersDone(cfg, s, turns);
    Separation.RunKeepsKinds(cfg, s, turns, p);
    a := SelectTurn(cfg, s, turns, p);
    Winners.RunStep(cfg, s, turns, a);
    StepEvent(cfg, Run(cfg, s, turns[..a]), turns[a]);
    if j < a { LogOnlyGrows(cfg, s, turns, j + 1, a); }
    if b < j { LogOnlyGrows(cfg, s, turns, b + 1, j); }
  }

  lemma NoneOvertaken(cfg: Config, s: State, turns: seq<Turn>)
    requires Initial(s) && NeverOvertaken(cfg, s, turns)
    ensures Overlaps.NoneOvertaken(Overlaps.TracedRun(cfg, s, turns))
  {
    hide Overtaken, Overlaps.Overtaken, Overlaps.TracedRun, Run;
    forall m | 0 <= m < |Overlaps.TracedRun(cfg, s, turns).s.log|
      ensures !Overlaps.Overtaken(Overlaps.TracedRun(cfg, s, turns), m)
    {
      if Overlaps.Overtaken(Overlaps.TracedRun(cfg, s, turns), m) {
        var id, a, j, b := OvertakenInTurns(cfg, s, turns, m);
      }
    }
  }

  // ---------- the theorems ----------

  /** The id has a row, whose manifest can be deleted and names the object. */
  ghost predicate HasRow(cfg: Config, w: World, id: string, k: Key) {
    && id in w.table
    && var docs := cfg.decode(w.table[id].yaml);
       && (forall n :: 0 <= n < |docs| ==> docs[n].Object?)
       && exists n :: 0 <= n < |docs| && docs[n].Object? && docs[n].obj.key == k
  }

  lemma NamedIsInDocs(cfg: Config, w: World, id: string, k: Key)
    requires id in w.table
    requires AllObjects(cfg.decode(w.table[id].yaml)) && k in Keys(AnyKind, cfg.decode(w.table[id].yaml))
    ensures HasRow(cfg, w, id, k)
  {
    KeysMember(AnyKind, cfg.decode(w.table[id].yaml), k);
  }

  /**
   No orphan without overtaking. Let any number of Provisions, Deprovisions and Updates
   and other clients interleave, with any failures, and let no call remove or change a
   row that was inserted after the call's select. Then an object that a Provision made in
   some turn, and that still exists after the Provision has answered success, has the row
   of that instance, whose manifest can be deleted and names the object.
   */
  lemma NoOrphanUnlessOvertaken(cfg: Config, s: State, turns: seq<Turn>, i: nat, p: nat, k: Key, uid: nat)
    requires Initial(s) && s.world.cluster.Valid() && KeyedById(s.world.table)
    requires Runs.SpecialKeepsServices(cfg)
    requires NeverOvertaken(cfg, s, turns)
    requires Makes(cfg, s, turns, i, p, k, uid)
    requires var end := Run(cfg, s, turns);
             && end.calls[p].Answered? && end.calls[p].reply.Provisioned?
             && Exists(end.world.cluster, k, uid)
    ensures var end := Run(cfg, s, turns); HasRow(cfg, end.world, end.calls[p].req.instanceID, k)
  {
    assert p < |s.calls|;
    hide Makes, Run, HasRow, Runs.SpecialKeepsServices, Overlaps.TracedRun, Overlaps.NoneOvertaken, NeverOvertaken;
    NoneOvertaken(cfg, s, turns);
    Separation.RunKeepsKinds(cfg, s, turns, p);
    MadeIsNoted(cfg, s, turns, i, p, k, uid);
    Overlaps.NoOrphanUnlessOvertaken(cfg, s, turns, p, Overlaps.Incarnation(k, uid));
    var end := Run(cfg, s, turns);
    NamedIsInDocs(cfg, end.world, end.calls[p].req.instanceID, k);
  }

  /**
   No orphan among calls that are apart, whatever turns they take: at most one Deprovision
   of each id, and no Update of an id that a Provision uses.
   */
  lemma NoOrphanWhenApart(cfg: Config, s: State, turns: seq<Turn>, i: nat, p: nat, k: Key, uid: nat)
    requires Initial(s) && s.world.cluster.Valid() && KeyedById(s.world.table)
    requires Runs.SpecialKeepsServices(cfg)
    requires Separation.Apart(s)
    requires Makes(cfg, s, turns, i, p, k, uid)
    requires var end := Run(cfg, s, turns);
             && end.calls[p].Answered? && end.calls[p].reply.Provisioned?
             && Exists(end.world.cluster, k, uid)
    ensures var end := Run(cfg, s, turns); HasRow(cfg, end.world, end.calls[p].req.instanceID, k)
  {
    assert p < |s.calls|;
    hide Makes, Run, HasRow, Runs.SpecialKeepsServices, Overlaps.TracedRun, Separation.Apart;
    Separation.RunKeepsKinds(cfg, s, turns, p);
    MadeIsNoted(cfg, s, turns, i, p, k, uid);
    Separation.NoOrphanWhenApart(cfg, s, turns, p, Overlaps.Incarnation(k, uid));
    var end := Run(cfg, s, turns);
    NamedIsInDocs(cfg, end.world, end.calls[p].req.instanceID, k);
  }

  // ---------- atomic handlers ----------

  lemma {:induction false} CommittedStays(cfg: Config, s: Runs.Tracked, events: seq<Runs.Event>, i: nat)
    requires i <= |events|
    ensures Runs.Run(cfg, s, events[..i]).committed <= Runs.Run(cfg, s, events).committed
    decreases |events|
  {
    if i == |events| {
      assert events[..i] == events;
    } else {
      hide ProvisionSpec, DeprovisionSpec, UpdateSpec, Evolves;
      var n := |events| - 1;
      CommittedStays(cfg, s, events[..n], i);
      assert events[..n][..i] == events[..i];
    }
  }

  /**
   The same when every handler runs in one go, for any calls on any ids: what a successful
   Provision made and what still exists has its row.
   */
  lemma ProvisionedHasRow(cfg: Config, w: World, events: seq<Runs.Event>, i: nat, k: Key, uid: nat)
    requires w.cluster.Valid() && KeyedById(w.table) && Runs.SpecialKeepsServices(cfg)
    requires i < |events| && events[i].ProvisionCall?
    requires var before := Runs.Run(cfg, Runs.Tracked(w, {}), events[..i]).world;
             var (after, reply) := ProvisionSpec(cfg, before, events[i].req, events[i].penv);
             reply.Provisioned? && !Exists(before.cluster, k, uid) && Exists(after.cluster, k, uid)
    requires Exists(Runs.Run(cfg, Runs.Tracked(w, {}), events).world.cluster, k, uid)
    ensures HasRow(cfg, Runs.Run(cfg, Runs.Tracked(w, {}), events).world, events[i].req.instanceID, k)
  {
    hide ProvisionSpec, HasRow, Runs.SpecialKeepsServices;
    var s, id := Runs.Tracked(w, {}), events[i].req.instanceID;
    assert events[..i + 1][..i] == events[..i];
    assert Runs.Owned(id, k, uid) in Runs.Run(cfg, s, events[..i + 1]).committed;
    CommittedStays(cfg, s, events, i + 1);
    Runs.NoOrphanAfterCommit(cfg, w, events);
    hide Runs.Run;
    NamedIsInDocs(cfg, Runs.Run(cfg, s, events).world, id, k);
  }
}
