/**
 No orphans in interleaved runs. Calls of any kind overlap step by step; as long as no
 call writes the table on the strength of a select that an insert of the same id has
 overtaken, every object of a successful Provision that still exists has its row.
 `Overtaking` shows what happens otherwise.
 */
module Overlaps {
  import opened ApiServer
  import opened Manifest
  import opened KubeCli
  import opened Dao
  import opened Broker
  import opened ProvisionRaces
  import Lifecycle
  import Runs
  import UpdateRaces

  datatype Incarnation = Incarnation(key: Key, uid: nat)

  /**
   What is noted of a call: the objects it created, and the lengths of the table log and
   of the cluster's history when its select was answered.
   */
  datatype Note = Note(made: set<Incarnation>, at: nat, revision: nat)

  datatype Traced = Traced(s: State, notes: seq<Note>)

  function NewIn(c: Cluster, c': Cluster): set<Incarnation> {
    set k | k in c'.objects && (k !in c.objects || c.objects[k].uid != c'.objects[k].uid) ::
        Incarnation(k, c'.objects[k].uid)
  }

  function Noted(note: Note, before: Phase, at: nat, c: Cluster, c': Cluster): Note {
    if before.CreatingServices? || before.CreatingWorkloads? then note.(made := note.made + NewIn(c, c'))
    else if before.Withdrawn? || before.Renewing? then note.(at := at, revision := c.revision)
    else note
  }

  ghost function TracedStep(cfg: Config, t: Traced, turn: Turn): Traced {
    if turn.OtherClients? then Traced(Step(cfg, t.s, turn), t.notes)
    else if turn.p >= |t.s.calls| || |t.notes| != |t.s.calls| then t
    else
      var s' := Step(cfg, t.s, turn);
      var note := Noted(t.notes[turn.p], t.s.calls[turn.p], |t.s.log|, t.s.world.cluster, s'.world.cluster);
      Traced(s', t.notes[turn.p := note])
  }

  ghost function TracedRun(cfg: Config, s: State, turns: seq<Turn>): (t: Traced)
    ensures t.s == Run(cfg, s, turns) && |t.notes| == |t.s.calls|
    decreases |turns|
  {
    if turns == [] then Traced(s, seq(|s.calls|, _ => Note({}, 0, 0)))
    else TracedStep(cfg, TracedRun(cfg, s, turns[..|turns| - 1]), turns[|turns| - 1])
  }

  /** Event m removed or rewrote a row that was inserted after the select of its call. */
  ghost predicate Overtaken(t: Traced, m: nat)
    requires m < |t.s.log|
  {
    var log := t.s.log;
    && !log[m].Inserted? && log[m].caller < |t.notes|
    && exists j :: t.notes[log[m].caller].at <= j < m && log[j].Inserted? && log[j].row.instanceID == EventId(log[m])
  }

  ghost predicate NoneOvertaken(t: Traced) {
    forall m :: 0 <= m < |t.s.log| ==> !Overtaken(t, m)
  }

  predicate Alive(c: Cluster, o: Incarnation) {
    o.key in c.objects && c.objects[o.key].uid == o.uid
  }

  // ---------- the invariant ----------

  ghost predicate MadeWithin(note: Note, keys: set<Key>) {
    forall o :: o in note.made ==> o.key in keys
  }

  /** The row's manifest can be deleted and names everything that was made. */
  ghost predicate NamesAll(cfg: Config, yaml: string, note: Note) {
    AllObjects(cfg.decode(yaml)) && MadeWithin(note, Keys(AnyKind, cfg.decode(yaml)))
  }

  /** What was under these keys when the row was selected is gone. */
  ghost predicate Swept(c: Cluster, note: Note, keys: set<Key>) {
    forall k :: k in keys && k in c.objects ==> note.revision < c.objects[k].uid
  }

  /** A Deprovision works on the row that its select found. */
  ghost predicate OnSelected(start: Table, log: seq<RowEvent>, note: Note, id: string, row: Instance) {
    && note.at <= |log|
    && id in Rows(start, log[..note.at]) && row == Rows(start, log[..note.at])[id]
  }

  /** An Update works on an id that had no row at its select. */
  ghost predicate OnMissing(start: Table, log: seq<RowEvent>, note: Note, id: string) {
    note.at <= |log| && id !in Rows(start, log[..note.at])
  }

  ghost predicate PhaseOk(cfg: Config, start: Table, c: Cluster, log: seq<RowEvent>, phase: Phase, note: Note) {
    match phase
    case Requested(_) => note.made == {}
    case CreatingServices(_, p, i, _) =>
      var docs := cfg.decode(p.yaml);
      i <= |docs| && MadeWithin(note, Keys(IsService, docs[..i]))
    case CreatingWorkloads(_, p, yaml, _, i) =>
      var docs := cfg.decode(yaml);
      && i <= |docs| && AllObjects(docs[..i])
      && MadeWithin(note, Keys(AnyKind, docs) + Keys(IsWorkload, docs[..i]))
    case Inserting(_, row, _) => NamesAll(cfg, row.yaml, note)
    case Deleting(id, row, i) =>
      var docs := cfg.decode(row.yaml);
      && OnSelected(start, log, note, id, row)
      && i <= |docs| && Swept(c, note, Keys(AnyKind, docs[..i]))
    case RemovingRow(id, row) =>
      OnSelected(start, log, note, id, row) && Swept(c, note, Keys(AnyKind, cfg.decode(row.yaml)))
    case Upserting(up, _, _, _, _) => OnMissing(start, log, note, up.instanceID)
    case Rewriting(up, row) => OnMissing(start, log, note, row.instanceID) && row.instanceID == up.instanceID
    case _ => true
  }

  ghost predicate NoteOk(cfg: Config, start: Table, t: Traced, p: nat)
    requires p < |t.s.calls| == |t.notes|
  {
    var note := t.notes[p];
    && note.at <= |t.s.log|
    && note.revision <= t.s.world.cluster.revision
    && (forall o :: o in note.made ==> o.uid <= t.s.world.cluster.revision)
    && PhaseOk(cfg, start, t.s.world.cluster, t.s.log, t.s.calls[p], note)
  }

  ghost predicate NotRemovedSince(log: seq<RowEvent>, a: nat, id: string) {
    forall m :: a < m < |log| ==> !(log[m].Removed? && log[m].id == id)
  }

  /**
   Whoever changed the table is done; a winner's row names what it made, and stays while
   any of that exists. No row was rewritten.
   */
  ghost predicate EventFits(cfg: Config, t: Traced, a: nat)
    requires a < |t.s.log| && |t.s.calls| == |t.notes|
  {
    var e := t.s.log[a];
    && e.caller < |t.notes|
    && (e.Removed? ==> t.s.calls[e.caller].Dismissed? && t.s.calls[e.caller].id == e.id)
    && !e.Rewritten?
    && (e.Inserted? ==>
          && t.s.calls[e.caller].Answered? && t.s.calls[e.caller].req.instanceID == e.row.instanceID
          && NamesAll(cfg, e.row.yaml, t.notes[e.caller])
          && forall o :: o in t.notes[e.caller].made && Alive(t.s.world.cluster, o) ==>
               NotRemovedSince(t.s.log, a, e.row.instanceID))
  }

  /** What winners made before a select is older than the select. */
  ghost predicate MadeBefore(t: Traced, d: nat, a: nat)
    requires d < |t.notes| && a < |t.s.log|
  {
    a < t.notes[d].at && t.s.log[a].Inserted? && t.s.log[a].caller < |t.notes| ==>
      forall o :: o in t.notes[t.s.log[a].caller].made ==> o.uid <= t.notes[d].revision
  }

  ghost predicate TracedInv(cfg: Config, start: Table, t: Traced) {
    && |t.notes| == |t.s.calls|
    && t.s.world.cluster.Valid()
    && KeyedById(t.s.world.table)
    && ProvisionRaces.Inv(start, t.s)
    && (forall p :: 0 <= p < |t.s.calls| ==> NoteOk(cfg, start, t, p))
    && (forall a :: 0 <= a < |t.s.log| ==> EventFits(cfg, t, a))
    && (forall d, a :: 0 <= d < |t.notes| && 0 <= a < |t.s.log| ==> MadeBefore(t, d, a))
  }

  // ---------- steps ----------

  lemma CallsEvolve(c: Cluster, keep: Filter, d: Document, fault: Fault)
    requires c.Valid()
    ensures Evolves(c, CreateOne(keep, d, c, fault).0) && Evolves(c, DeleteOne(d, c, fault).0)
  {
  }

  /** No step of any call brings back an object, or one with an old uid. */
  lemma NextEvolves(cfg: Config, w: World, phase: Phase, m: Meets)
    requires w.cluster.Valid()
    ensures Evolves(w.cluster, Next(cfg, w, phase, m).0.cluster)
  {
    hide AfterRequest, AfterServices, AfterWorkloads, AfterWithdrawal, AfterRenewal, AfterUpserts, Evolves;
    hide CreateOne, DeleteOne, UpdateRaces.LoopTurn, InsertRow, UpdateRow, DeleteRow;
    EvolvesNot(w.cluster);
    match phase
    case CreatingServices(_, p, i, _) =>
      if i < |cfg.decode(p.yaml)| { CallsEvolve(w.cluster, IsService, cfg.decode(p.yaml)[i], m.fault); }
    case CreatingWorkloads(_, _, yaml, _, i) =>
      if i < |cfg.decode(yaml)| { CallsEvolve(w.cluster, IsWorkload, cfg.decode(yaml)[i], m.fault); }
    case Deleting(_, row, i) =>
      if i < |cfg.decode(row.yaml)| { CallsEvolve(w.cluster, AnyKind, cfg.decode(row.yaml)[i], m.fault); }
    case Upserting(_, _, _, _, loop) => UpdateRaces.LoopTurnEvolves(w.cluster, loop, m.fault);
    case _ =>
  }

  /** The notes of a call survive the step of another. */
  lemma PhaseStaysOk(cfg: Config, start: Table, c: Cluster, c': Cluster, log: seq<RowEvent>, log': seq<RowEvent>,
                     phase: Phase, note: Note)
    requires PhaseOk(cfg, start, c, log, phase, note) && Evolves(c, c') && log <= log'
    requires note.at <= |log| && note.revision <= c.revision
    ensures PhaseOk(cfg, start, c', log', phase, note)
  {
    hide Keys, Rows;
    assert log'[..note.at] == log[..note.at];
  }

  lemma NothingNew(c: Cluster, note: Note)
    ensures note.made + NewIn(c, c) == note.made
  {
  }

  lemma NothingYet(c: Cluster, note: Note, docs: seq<Document>)
    ensures Swept(c, note, Keys(AnyKind, docs[..0]))
  {
    assert Selected(AnyKind, docs[..0]) == [];
  }

  lemma CreateOneMakes(keep: Filter, docs: seq<Document>, i: nat, c: Cluster, fault: Fault)
    requires i < |docs| && CreateOne(keep, docs[i], c, fault).1.Some?
    ensures docs[i].Object?
    ensures forall o :: o in NewIn(c, CreateOne(keep, docs[i], c, fault).0) ==>
              keep(docs[i].obj.kind) && o.key == docs[i].obj.key
    ensures Keys(keep, docs[..i + 1])
              == Keys(keep, docs[..i]) + if keep(docs[i].obj.kind) then {docs[i].obj.key} else {}
    ensures AllObjects(docs[..i]) ==> AllObjects(docs[..i + 1])
  {
    hide Keys;
    KeysStep(keep, docs, i);
    assert docs[..i + 1] == docs[..i] + [docs[i]];
  }

  lemma DeleteOneSweeps(docs: seq<Document>, i: nat, c: Cluster, fault: Fault, note: Note)
    requires i < |docs| && DeleteOne(docs[i], c, fault).1 && Swept(c, note, Keys(AnyKind, docs[..i]))
    ensures Swept(DeleteOne(docs[i], c, fault).0, note, Keys(AnyKind, docs[..i + 1]))
  {
    hide Keys;
    KeysStep(AnyKind, docs, i);
  }

  lemma ServicesDone(cfg: Config, req: ProvisionRequest, p: Prepared, made: Names, m: Meets, note: Note)
    requires Runs.SpecialKeepsServices(cfg) && MadeWithin(note, Keys(IsService, cfg.decode(p.yaml)))
    ensures var phase := AfterServices(cfg, req, p, made, m);
            phase.CreatingWorkloads? ==> MadeWithin(note, Keys(AnyKind, cfg.decode(phase.yaml)))
  {
    hide Keys, ApplySpecial;
  }

  predicate UpdatePhase(phase: Phase) {
    phase.Renewing? || phase.Upserting? || phase.Rewriting? || phase.Renewed?
  }

  /** Only an Update of an id without a row gets past its select. */
  lemma RenewalFindsNone(cfg: Config, w: World, up: UpdateRequest, m: Meets)
    requires KeyedById(w.table)
    ensures var phase := AfterRenewal(cfg, w, up, m);
            phase.Renewed? || (phase.Upserting? && phase.up == up && up.instanceID !in w.table)
  {
    hide Prepare;
  }

  lemma UpsertingLeadsTo(cfg: Config, w: World, phase: Phase, m: Meets)
    requires phase.Upserting?
    ensures var phase' := Next(cfg, w, phase, m).1;
            || phase'.Renewed?
            || (phase'.Upserting? && phase'.up == phase.up)
            || (phase'.Rewriting? && phase'.up == phase.up && phase'.row.instanceID == phase.up.instanceID)
  {
    hide ApplySpecial, UpdateRaces.LoopTurn;
  }

  lemma UpdateStepOk(cfg: Config, start: Table, w: World, log: seq<RowEvent>, log': seq<RowEvent>, phase: Phase,
                     note: Note, m: Meets)
    requires UpdatePhase(phase) && PhaseOk(cfg, start, w.cluster, log, phase, note) && log <= log'
    requires w.table == Rows(start, log) && KeyedById(w.table)
    ensures var (w', phase') := Next(cfg, w, phase, m);
            PhaseOk(cfg, start, w'.cluster, log', phase', Noted(note, phase, |log|, w.cluster, w'.cluster))
  {
    hide Rows, Keys, AfterRenewal, AfterUpserts, UpdateRaces.LoopTurn, UpdateRow;
    assert log'[..|log|] == log;
    if phase.Renewing? {
      RenewalFindsNone(cfg, w, phase.up, m);
    } else if phase.Upserting? {
      UpsertingLeadsTo(cfg, w, phase, m);
      hide Next;
      assert log'[..note.at] == log[..note.at];
    }
  }

  lemma ServicesStepOk(cfg: Config, w: World, phase: Phase, note: Note, m: Meets)
    requires phase.CreatingServices? && Runs.SpecialKeepsServices(cfg)
    requires PhaseOk(cfg, map[], w.cluster, [], phase, note)
    ensures var (w', phase') := Next(cfg, w, phase, m);
            PhaseOk(cfg, map[], w'.cluster, [], phase', Noted(note, phase, 0, w.cluster, w'.cluster))
  {
    hide Keys, CreateOne, NewIn, ApplySpecial, Runs.SpecialKeepsServices;
    NothingNew(w.cluster, note);
    var docs := cfg.decode(phase.p.yaml);
    if phase.i < |docs| {
      if CreateOne(IsService, docs[phase.i], w.cluster, m.fault).1.Some? {
        CreateOneMakes(IsService, docs, phase.i, w.cluster, m.fault);
      }
    } else {
      assert docs[..phase.i] == docs;
      ServicesDone(cfg, phase.req, phase.p, phase.made, m, note);
    }
  }

  lemma WorkloadsStepOk(cfg: Config, w: World, phase: Phase, note: Note, m: Meets)
    requires phase.CreatingWorkloads? && PhaseOk(cfg, map[], w.cluster, [], phase, note)
    ensures var (w', phase') := Next(cfg, w, phase, m);
            PhaseOk(cfg, map[], w'.cluster, [], phase', Noted(note, phase, 0, w.cluster, w'.cluster))
  {
    hide Keys, CreateOne, NewIn, DashboardURL;
    NothingNew(w.cluster, note);
    var docs := cfg.decode(phase.yaml);
    if phase.i < |docs| {
      if CreateOne(IsWorkload, docs[phase.i], w.cluster, m.fault).1.Some? {
        CreateOneMakes(IsWorkload, docs, phase.i, w.cluster, m.fault);
      }
    } else {
      assert docs[..phase.i] == docs;
      Lifecycle.KeysOfAnyKind(IsWorkload, docs);
    }
  }

  lemma DeletesStepOk(cfg: Config, start: Table, w: World, log: seq<RowEvent>, log': seq<RowEvent>, phase: Phase,
                      note: Note, m: Meets)
    requires phase.Deleting? && PhaseOk(cfg, start, w.cluster, log, phase, note) && log <= log'
    ensures var (w', phase') := Next(cfg, w, phase, m);
            PhaseOk(cfg, start, w'.cluster, log', phase', note)
  {
    hide Keys, Rows, DeleteOne, AfterKubeDelete;
    assert log'[..note.at] == log[..note.at];
    var docs := cfg.decode(phase.row.yaml);
    if phase.i < |docs| {
      if DeleteOne(docs[phase.i], w.cluster, m.fault).1 {
        DeleteOneSweeps(docs, phase.i, w.cluster, m.fault, note);
      }
    } else {
      assert docs[..phase.i] == docs;
    }
  }

  lemma SelectStepOk(cfg: Config, start: Table, w: World, log: seq<RowEvent>, log': seq<RowEvent>, phase: Phase,
                     note: Note, m: Meets)
    requires phase.Withdrawn? && w.table == Rows(start, log) && log <= log'
    ensures var (w', phase') := Next(cfg, w, phase, m);
            PhaseOk(cfg, start, w'.cluster, log', phase', Noted(note, phase, |log|, w.cluster, w'.cluster))
  {
    hide Keys, Rows, BeforeKubeDelete;
    assert log'[..|log|] == log;
    if phase.id in w.table {
      NothingYet(w.cluster, note.(revision := w.cluster.revision), cfg.decode(w.table[phase.id].yaml));
    }
  }

  /** A call's own step keeps what is noted of it. */
  lemma NextPhaseOk(cfg: Config, start: Table, w: World, log: seq<RowEvent>, log': seq<RowEvent>, phase: Phase,
                    note: Note, m: Meets)
    requires PhaseOk(cfg, start, w.cluster, log, phase, note) && Runs.SpecialKeepsServices(cfg)
    requires w.table == Rows(start, log) && KeyedById(w.table) && log <= log'
    ensures var (w', phase') := Next(cfg, w, phase, m);
            PhaseOk(cfg, start, w'.cluster, log', phase', Noted(note, phase, |log|, w.cluster, w'.cluster))
  {
    hide Next, Keys, Rows, NewIn, Runs.SpecialKeepsServices, OnSelected, Swept;
    match phase
    case CreatingServices(_, _, _, _) =>
      ServicesStepOk(cfg, w, phase, note, m);
      CreatingStaysProvision(cfg, w, phase, m);
    case CreatingWorkloads(_, _, _, _, _) =>
      WorkloadsStepOk(cfg, w, phase, note, m);
      CreatingStaysProvision(cfg, w, phase, m);
    case Deleting(_, _, _) => DeletesStepOk(cfg, start, w, log, log', phase, note, m);
    case Withdrawn(_) => SelectStepOk(cfg, start, w, log, log', phase, note, m);
    case _ =>
      if UpdatePhase(phase) {
        UpdateStepOk(cfg, start, w, log, log', phase, note, m);
      } else {
        OtherStepOk(cfg, start, w, log, log', phase, note, m);
      }
  }

  predicate ProvisionPhase(phase: Phase) {
    phase.CreatingServices? || phase.CreatingWorkloads? || phase.Inserting? || phase.Answered?
  }

  lemma CreatingStaysProvision(cfg: Config, w: World, phase: Phase, m: Meets)
    requires ProvisionPhase(phase)
    ensures ProvisionPhase(Next(cfg, w, phase, m).1)
  {
    hide CreateOne, ApplySpecial, DashboardURL, InsertRow;
  }

  lemma OtherStepOk(cfg: Config, start: Table, w: World, log: seq<RowEvent>, log': seq<RowEvent>, phase: Phase,
                    note: Note, m: Meets)
    requires !phase.CreatingServices? && !phase.CreatingWorkloads? && !phase.Deleting? && !phase.Withdrawn?
    requires !UpdatePhase(phase)
    requires PhaseOk(cfg, start, w.cluster, log, phase, note) && log <= log'
    ensures var (w', phase') := Next(cfg, w, phase, m);
            PhaseOk(cfg, start, w'.cluster, log', phase', note)
  {
    hide Prepare, Keys, Rows, InsertRow, DeleteRow, UpdateRow;
    hide AfterRenewal, UpdateRaces.LoopTurn, AfterUpserts, CreateOne, DeleteOne;
  }

  /** The step of a call that was answered does nothing. */
  lemma AnsweredRests(cfg: Config, t: Traced, turn: Turn)
    requires turn.Turn? && turn.p < |t.s.calls| == |t.notes|
    requires t.s.calls[turn.p].Answered? || t.s.calls[turn.p].Dismissed? || t.s.calls[turn.p].Renewed?
    ensures TracedStep(cfg, t, turn).notes == t.notes
    ensures TracedStep(cfg, t, turn).s == t.s
  {
  }

  /** The log only grows, by what the call in turn did. */
  lemma StepShape(cfg: Config, t: Traced, turn: Turn)
    requires turn.Turn? && turn.p < |t.s.calls| == |t.notes|
    ensures var t' := TracedStep(cfg, t, turn);
            var before := t.s.calls[turn.p];
            && t.s.log <= t'.s.log && |t'.s.log| <= |t.s.log| + 1
            && |t'.notes| == |t'.s.calls| == |t.s.calls|
            && t'.s.world == Next(cfg, t.s.world, before, turn.meets).0
            && t'.s.calls == t.s.calls[turn.p := Next(cfg, t.s.world, before, turn.meets).1]
            && t'.notes == t.notes[turn.p :=
                Noted(t.notes[turn.p], before, |t.s.log|, t.s.world.cluster, t'.s.world.cluster)]
            && (|t.s.log| < |t'.s.log| ==>
                  var e := t'.s.log[|t.s.log|];
                  && e.caller == turn.p
                  && (e.Inserted? ==> before.Inserting? && e.row == before.row)
                  && (e.Removed? ==> before.RemovingRow? && e.id == before.id)
                  && (e.Rewritten? ==> before.Rewriting? && e.row == before.row && t'.s.world.table != t.s.world.table))
  {
    hide Next;
  }

  /** Whoever removed or rewrote a row has answered. */
  ghost predicate WritersDone(t: Traced) {
    && |t.notes| == |t.s.calls|
    && forall m :: 0 <= m < |t.s.log| && !t.s.log[m].Inserted? ==>
         && t.s.log[m].caller < |t.notes|
         && (t.s.calls[t.s.log[m].caller].Dismissed? || t.s.calls[t.s.log[m].caller].Renewed?)
  }

  lemma StepKeepsWritersDone(cfg: Config, t: Traced, turn: Turn)
    requires WritersDone(t)
    ensures WritersDone(TracedStep(cfg, t, turn))
  {
    if turn.Turn? && turn.p < |t.s.calls| {
      StepShape(cfg, t, turn);
      NextTable(cfg, t.s.world, t.s.calls[turn.p], turn.meets);
      var t' := TracedStep(cfg, t, turn);
      forall m | 0 <= m < |t'.s.log| && !t'.s.log[m].Inserted?
        ensures t'.s.log[m].caller < |t'.notes|
        ensures t'.s.calls[t'.s.log[m].caller].Dismissed? || t'.s.calls[t'.s.log[m].caller].Renewed?
      {
        if m < |t.s.log| {
          assert t'.s.log[m] == t.s.log[m];
          if t.s.log[m].caller == turn.p { AnsweredRests(cfg, t, turn); }
        }
      }
    }
  }

  /** If nothing is overtaken after a step, nothing was before. */
  lemma NoneOvertakenBefore(cfg: Config, t: Traced, turn: Turn)
    requires WritersDone(t) && turn.Turn? && turn.p < |t.s.calls| && NoneOvertaken(TracedStep(cfg, t, turn))
    ensures NoneOvertaken(t)
  {
    StepShape(cfg, t, turn);
    var t' := TracedStep(cfg, t, turn);
    hide TracedStep, Next;
    assert forall j :: 0 <= j < |t.s.log| ==> t'.s.log[j] == t.s.log[j];
    forall m | 0 <= m < |t.s.log| ensures !Overtaken(t, m) {
      assert !Overtaken(t', m);
    }
  }

  /** A removal that nothing has overtaken comes when nothing of the winner is left. */
  lemma RemovedIsSwept(cfg: Config, start: Table, t: Traced, d: nat, a: nat, o: Incarnation)
    requires TracedInv(cfg, start, t) && NoneOvertaken(t)
    requires d < |t.s.calls| && t.s.calls[d].RemovingRow?
    requires a < |t.s.log| && t.s.log[a].Inserted? && t.s.log[a].row.instanceID == t.s.calls[d].id
    requires a < t.notes[d].at && t.s.log[a].caller < |t.notes| && o in t.notes[t.s.log[a].caller].made
    ensures !Alive(t.s.world.cluster, o)
  {
    var log, id, at := t.s.log, t.s.calls[d].id, t.notes[d].at;
    assert NoteOk(cfg, start, t, d) && EventFits(cfg, t, a) && MadeBefore(t, d, a);
    if Alive(t.s.world.cluster, o) {
      hide Rows, Keys;
      var seen := log[..at];
      assert forall m :: 0 <= m < at ==> seen[m] == log[m];
      assert NotRemovedSince(log, a, id);
      EventsOfPrefix(start, log, at);
      forall m | 0 <= m < at ensures !seen[m].Rewritten? {
        assert EventFits(cfg, t, m);
      }
      RowStays(start, seen, a, id);
    }
  }

  lemma NewInBounded(c: Cluster, c': Cluster)
    requires c'.Valid()
    ensures forall o :: o in NewIn(c, c') ==> o.uid <= c'.revision
  {
  }

  lemma NoteStaysOk(cfg: Config, start: Table, t: Traced, turn: Turn, q: nat)
    requires TracedInv(cfg, start, t) && Runs.SpecialKeepsServices(cfg)
    requires turn.Turn? && turn.p < |t.s.calls| && q < |t.s.calls|
    ensures |TracedStep(cfg, t, turn).notes| == |TracedStep(cfg, t, turn).s.calls| == |t.s.calls|
    ensures NoteOk(cfg, start, TracedStep(cfg, t, turn), q)
  {
    hide PhaseOk, EventFits, MadeBefore, NewIn, Runs.SpecialKeepsServices;
    var p, w, t' := turn.p, t.s.world, TracedStep(cfg, t, turn);
    StepShape(cfg, t, turn);
    NextEvolves(cfg, w, t.s.calls[p], turn.meets);
    EvolvesValid(w.cluster, t'.s.world.cluster);
    assert NoteOk(cfg, start, t, q);
    if q == p {
      NextPhaseOk(cfg, start, w, t.s.log, t'.s.log, t.s.calls[p], t.notes[p], turn.meets);
      NewInBounded(w.cluster, t'.s.world.cluster);
    } else {
      PhaseStaysOk(cfg, start, w.cluster, t'.s.world.cluster, t.s.log, t'.s.log, t.s.calls[q], t.notes[q]);
    }
    hide Next, TracedStep, ProvisionRaces.Inv;
  }

  lemma NothingReturns(c: Cluster, c': Cluster, o: Incarnation)
    requires Evolves(c, c') && Alive(c', o) && o.uid <= c.revision
    ensures Alive(c, o)
  {
  }

  /** An event still fits after one more step, if nothing is overtaken. */
  lemma EventStaysFit(cfg: Config, start: Table, t: Traced, turn: Turn, a: nat)
    requires TracedInv(cfg, start, t) && turn.Turn? && turn.p < |t.s.calls| && a < |t.s.log|
    requires NoneOvertaken(TracedStep(cfg, t, turn))
    ensures a < |TracedStep(cfg, t, turn).s.log|
              && |TracedStep(cfg, t, turn).notes| == |TracedStep(cfg, t, turn).s.calls|
    ensures EventFits(cfg, TracedStep(cfg, t, turn), a)
  {
    hide NamesAll, MadeBefore, PhaseOk, ProvisionRaces.Inv, NoneOvertaken, Overtaken;
    var t', e := TracedStep(cfg, t, turn), t.s.log[a];
    assert EventFits(cfg, t, a);
    if e.caller == turn.p && (e.Inserted? || e.Removed?) {
      AnsweredRests(cfg, t, turn);
      assert t' == t;
    } else {
      StepShape(cfg, t, turn);
      hide TracedStep, Next;
      assert t'.s.log[a] == e;
      if e.Inserted? {
        forall o | o in t.notes[e.caller].made && Alive(t'.s.world.cluster, o)
          ensures NotRemovedSince(t'.s.log, a, e.row.instanceID)
        {
          WinnerStays(cfg, start, t, turn, a, o);
        }
      }
    }
  }

  lemma InvWritersDone(cfg: Config, start: Table, t: Traced)
    requires TracedInv(cfg, start, t)
    ensures WritersDone(t)
  {
    forall m | 0 <= m < |t.s.log| && !t.s.log[m].Inserted?
      ensures t.s.log[m].caller < |t.notes| && t.s.calls[t.s.log[m].caller].Dismissed?
    {
      assert EventFits(cfg, t, m);
    }
  }

  /** What is alive after a step was alive before, so its winner's row was not removed. */
  lemma AliveBefore(cfg: Config, start: Table, t: Traced, turn: Turn, a: nat, o: Incarnation)
    requires TracedInv(cfg, start, t) && turn.Turn? && turn.p < |t.s.calls| && a < |t.s.log| && t.s.log[a].Inserted?
    requires t.s.log[a].caller < |t.notes| && o in t.notes[t.s.log[a].caller].made
    requires Alive(TracedStep(cfg, t, turn).s.world.cluster, o)
    ensures Alive(t.s.world.cluster, o) && NotRemovedSince(t.s.log, a, t.s.log[a].row.instanceID)
  {
    hide PhaseOk, MadeBefore, ProvisionRaces.Inv, NamesAll, NotRemovedSince;
    StepShape(cfg, t, turn);
    NextEvolves(cfg, t.s.world, t.s.calls[turn.p], turn.meets);
    hide Next;
    assert EventFits(cfg, t, a) && NoteOk(cfg, start, t, t.s.log[a].caller);
    NothingReturns(t.s.world.cluster, TracedStep(cfg, t, turn).s.world.cluster, o);
  }

  /** While something of a winner is left, its row is not removed. */
  lemma WinnerStays(cfg: Config, start: Table, t: Traced, turn: Turn, a: nat, o: Incarnation)
    requires TracedInv(cfg, start, t) && turn.Turn? && turn.p < |t.s.calls| && a < |t.s.log| && t.s.log[a].Inserted?
    requires NoneOvertaken(TracedStep(cfg, t, turn))
    requires t.s.log[a].caller < |t.notes| && o in t.notes[t.s.log[a].caller].made
    requires Alive(TracedStep(cfg, t, turn).s.world.cluster, o)
    ensures NotRemovedSince(TracedStep(cfg, t, turn).s.log, a, t.s.log[a].row.instanceID)
  {
    AliveBefore(cfg, start, t, turn, a, o);
    var t', log, id, p := TracedStep(cfg, t, turn), t.s.log, t.s.log[a].row.instanceID, turn.p;
    StepShape(cfg, t, turn);
    InvWritersDone(cfg, start, t);
    NoneOvertakenBefore(cfg, t, turn);
    assert |t.notes| == |t.s.calls|;
    hide TracedStep, Next, TracedInv, Alive;
    assert forall m :: 0 <= m < |log| ==> t'.s.log[m] == log[m];
    if |log| < |t'.s.log| && t'.s.log[|log|].Removed? && t'.s.log[|log|].id == id {
      assert !Overtaken(t', |log|);
      assert a < t.notes[p].at;
      hide NoneOvertaken;
      RemovedIsSwept(cfg, start, t, p, a, o);
    }
  }

  /** A row that was missing at some point and is there now was inserted in between. */
  lemma {:induction false} InsertedSince(start: Table, log: seq<RowEvent>, at: nat, id: string) returns (j: nat)
    requires at <= |log| && id !in Rows(start, log[..at]) && id in Rows(start, log)
    ensures at <= j < |log| && log[j].Inserted? && log[j].row.instanceID == id
  {
    assert log[..|log|] == log;
    var n := |log| - 1;
    if log[n].Inserted? && log[n].row.instanceID == id {
      j := n;
    } else {
      assert log[..n][..at] == log[..at];
      j := InsertedSince(start, log[..n], at, id);
    }
  }

  /** So a row is only ever rewritten by an overtaken Update. */
  lemma RewrittenIsOvertaken(cfg: Config, start: Table, t: Traced, turn: Turn)
    requires TracedInv(cfg, start, t) && turn.Turn? && turn.p < |t.s.calls|
    requires |t.s.log| < |TracedStep(cfg, t, turn).s.log|
    requires TracedStep(cfg, t, turn).s.log[|t.s.log|].Rewritten?
    ensures Overtaken(TracedStep(cfg, t, turn), |t.s.log|)
  {
    var t', p := TracedStep(cfg, t, turn), turn.p;
    assert NoteOk(cfg, start, t, p);
    StepShape(cfg, t, turn);
    var row := t.s.calls[p].row;
    assert row.instanceID in t.s.world.table;
    hide Rows, TracedStep, Next;
    var j := InsertedSince(start, t.s.log, t.notes[p].at, row.instanceID);
    assert t'.s.log[j] == t.s.log[j];
  }

  /** The event of this step fits. */
  lemma NewEventFits(cfg: Config, start: Table, t: Traced, turn: Turn)
    requires TracedInv(cfg, start, t) && turn.Turn? && turn.p < |t.s.calls|
    requires |t.s.log| < |TracedStep(cfg, t, turn).s.log|
    requires NoneOvertaken(TracedStep(cfg, t, turn))
    ensures |TracedStep(cfg, t, turn).notes| == |TracedStep(cfg, t, turn).s.calls|
    ensures EventFits(cfg, TracedStep(cfg, t, turn), |t.s.log|)
  {
    assert NoteOk(cfg, start, t, turn.p) && ProvisionRaces.CallOk(t.s, turn.p);
    hide MadeBefore, ProvisionRaces.Inv, NamesAll, Rows, Swept, NewIn, Overtaken;
    StepShape(cfg, t, turn);
    if TracedStep(cfg, t, turn).s.log[|t.s.log|].Rewritten? {
      RewrittenIsOvertaken(cfg, start, t, turn);
    }
    NextTable(cfg, t.s.world, t.s.calls[turn.p], turn.meets);
  }

  lemma MadeStaysBefore(cfg: Config, start: Table, t: Traced, turn: Turn, d: nat, a: nat)
    requires TracedInv(cfg, start, t) && turn.Turn? && turn.p < |t.s.calls|
    requires d < |TracedStep(cfg, t, turn).notes| && a < |TracedStep(cfg, t, turn).s.log|
    ensures MadeBefore(TracedStep(cfg, t, turn), d, a)
  {
    hide NamesAll, PhaseOk, ProvisionRaces.Inv, NotRemovedSince, NewIn;
    var t' := TracedStep(cfg, t, turn);
    StepShape(cfg, t, turn);
    assert NoteOk(cfg, start, t, d);
    if a < |t.s.log| && t.s.log[a].Inserted? {
      var winner := t.s.log[a].caller;
      assert EventFits(cfg, t, a) && MadeBefore(t, d, a) && NoteOk(cfg, start, t, winner);
      if winner == turn.p { AnsweredRests(cfg, t, turn); }
      hide TracedStep, Next;
      assert t'.s.log[a] == t.s.log[a];
    }
  }

  /** What other clients do concerns nothing but the cluster. */
  lemma ForeignKeepsTracedInv(cfg: Config, start: Table, t: Traced, turn: Turn)
    requires TracedInv(cfg, start, t) && turn.OtherClients?
    ensures TracedInv(cfg, start, TracedStep(cfg, t, turn))
  {
    var t' := TracedStep(cfg, t, turn);
    var c, c' := t.s.world.cluster, t'.s.world.cluster;
    EvolvesNot(c);
    EvolvesValid(c, c');
    ProvisionRaces.StepKeepsInv(cfg, start, t.s, turn);
    hide ProvisionRaces.Inv, PhaseOk, NamesAll, NotRemovedSince, Alive;
    forall q | 0 <= q < |t'.s.calls| ensures NoteOk(cfg, start, t', q) {
      assert NoteOk(cfg, start, t, q);
      PhaseStaysOk(cfg, start, c, c', t.s.log, t'.s.log, t.s.calls[q], t.notes[q]);
    }
    forall a | 0 <= a < |t'.s.log| ensures EventFits(cfg, t', a) {
      assert EventFits(cfg, t, a);
      if t.s.log[a].Inserted? {
        assert NoteOk(cfg, start, t, t.s.log[a].caller);
        forall o | o in t.notes[t.s.log[a].caller].made && Alive(c', o)
          ensures NotRemovedSince(t.s.log, a, t.s.log[a].row.instanceID)
        {
          NothingReturns(c, c', o);
        }
      }
    }
    forall d, a | 0 <= d < |t'.notes| && 0 <= a < |t'.s.log| ensures MadeBefore(t', d, a) {
      assert MadeBefore(t, d, a);
    }
  }

  lemma StepKeepsTracedInv(cfg: Config, start: Table, t: Traced, turn: Turn)
    requires TracedInv(cfg, start, t) && Runs.SpecialKeepsServices(cfg) && NoneOvertaken(TracedStep(cfg, t, turn))
    ensures TracedInv(cfg, start, TracedStep(cfg, t, turn))
  {
    if turn.OtherClients? {
      ForeignKeepsTracedInv(cfg, start, t, turn);
    } else if turn.p < |t.s.calls| {
      var t' := TracedStep(cfg, t, turn);
      StepShape(cfg, t, turn);
      NextEvolves(cfg, t.s.world, t.s.calls[turn.p], turn.meets);
      EvolvesValid(t.s.world.cluster, t'.s.world.cluster);
      NextKeyed(cfg, t.s.world, t.s.calls[turn.p], turn.meets);
      ProvisionRaces.StepKeepsInv(cfg, start, t.s, turn);
      assert t'.s == Step(cfg, t.s, turn);
      hide TracedStep, Step, Next, NoneOvertaken, Runs.SpecialKeepsServices, ProvisionRaces.Inv;
      forall q | 0 <= q < |t'.s.calls| ensures NoteOk(cfg, start, t', q) {
        NoteStaysOk(cfg, start, t, turn, q);
      }
      forall a | 0 <= a < |t'.s.log| ensures EventFits(cfg, t', a) {
        if a < |t.s.log| {
          EventStaysFit(cfg, start, t, turn, a);
        } else {
          NewEventFits(cfg, start, t, turn);
        }
      }
      forall d, a | 0 <= d < |t'.notes| && 0 <= a < |t'.s.log| ensures MadeBefore(t', d, a) {
        MadeStaysBefore(cfg, start, t, turn, d, a);
      }
    }
  }

  lemma NextKeyed(cfg: Config, w: World, phase: Phase, m: Meets)
    requires KeyedById(w.table)
    ensures KeyedById(Next(cfg, w, phase, m).0.table)
  {
    hide Prepare, AfterRequest, AfterServices, AfterWorkloads, AfterWithdrawal, AfterRenewal, AfterUpserts;
    hide CreateOne, DeleteOne, UpdateRaces.LoopTurn;
  }

  lemma StartInv(cfg: Config, s: State)
    requires Initial(s) && s.world.cluster.Valid() && KeyedById(s.world.table)
    ensures TracedInv(cfg, s.world.table, TracedRun(cfg, s, []))
  {
    RunKeepsInv(cfg, s, []);
  }

  lemma {:induction false} RunKeepsWritersDone(cfg: Config, s: State, turns: seq<Turn>)
    requires Initial(s)
    ensures WritersDone(TracedRun(cfg, s, turns))
    decreases |turns|
  {
    if turns != [] {
      hide WritersDone, TracedStep;
      RunKeepsWritersDone(cfg, s, turns[..|turns| - 1]);
      StepKeepsWritersDone(cfg, TracedRun(cfg, s, turns[..|turns| - 1]), turns[|turns| - 1]);
    }
  }

  lemma SameLog(cfg: Config, t: Traced, turn: Turn)
    requires turn.Turn? ==> turn.p >= |t.s.calls|
    ensures NoneOvertaken(TracedStep(cfg, t, turn)) <==> NoneOvertaken(t)
  {
    var t' := TracedStep(cfg, t, turn);
    assert t'.s.log == t.s.log && t'.notes == t.notes;
    forall m | 0 <= m < |t.s.log| ensures Overtaken(t', m) <==> Overtaken(t, m) {
    }
  }

  lemma {:induction false} TracedRunKeepsInv(cfg: Config, s: State, turns: seq<Turn>)
    requires Initial(s) && s.world.cluster.Valid() && KeyedById(s.world.table)
    requires Runs.SpecialKeepsServices(cfg)
    requires NoneOvertaken(TracedRun(cfg, s, turns))
    ensures TracedInv(cfg, s.world.table, TracedRun(cfg, s, turns))
    decreases |turns|
  {
    if turns == [] {
      StartInv(cfg, s);
    } else {
      hide TracedInv, NoneOvertaken, WritersDone, Runs.SpecialKeepsServices;
      var front, turn := turns[..|turns| - 1], turns[|turns| - 1];
      var t := TracedRun(cfg, s, front);
      RunKeepsWritersDone(cfg, s, front);
      if turn.Turn? && turn.p < |t.s.calls| {
        NoneOvertakenBefore(cfg, t, turn);
        hide TracedStep;
        TracedRunKeepsInv(cfg, s, front);
        StepKeepsTracedInv(cfg, s.world.table, t, turn);
      } else {
        SameLog(cfg, t, turn);
        hide TracedStep;
        TracedRunKeepsInv(cfg, s, front);
        StepKeepsTracedInv(cfg, s.world.table, t, turn);
      }
    }
  }

  /**
   No orphan without overtaking. In every interleaving of Provisions, Deprovisions and
   Updates, with any failures, in which no row was removed or rewritten by a call whose
   select preceded its insert: every object that a successful Provision created and that
   still exists has the row of that instance, and the row's manifest can be deleted and
   names the object. Instances may share keys.
   */
  lemma NoOrphanUnlessOvertaken(cfg: Config, s: State, turns: seq<Turn>, p: nat, o: Incarnation)
    requires Initial(s) && s.world.cluster.Valid() && KeyedById(s.world.table)
    requires Runs.SpecialKeepsServices(cfg)
    requires NoneOvertaken(TracedRun(cfg, s, turns))
    requires var t := TracedRun(cfg, s, turns);
             && p < |t.s.calls| && t.s.calls[p].Answered? && t.s.calls[p].reply.Provisioned?
             && o in t.notes[p].made && Alive(t.s.world.cluster, o)
    ensures var t := TracedRun(cfg, s, turns);
            var id := t.s.calls[p].req.instanceID;
            && t.s == Run(cfg, s, turns)
            && id in t.s.world.table
            && AllObjects(cfg.decode(t.s.world.table[id].yaml))
            && o.key in Keys(AnyKind, cfg.decode(t.s.world.table[id].yaml))
  {
    hide Keys, Rows, TracedRun, Runs.SpecialKeepsServices, PhaseOk, MadeBefore;
    TracedRunKeepsInv(cfg, s, turns);
    var t, start := TracedRun(cfg, s, turns), s.world.table;
    var log, id := t.s.log, t.s.calls[p].req.instanceID;
    assert ProvisionRaces.CallOk(t.s, p);
    var a :| 0 <= a < |log| && log[a].Inserted? && log[a].caller == p && log[a].row.instanceID == id;
    assert EventFits(cfg, t, a);
    assert NotRemovedSince(log, a, id);
    forall m | 0 <= m < |log| ensures !log[m].Rewritten? {
      assert EventFits(cfg, t, m);
    }
    hide NoteOk, EventFits, Overtaken;
    RowStays(start, log, a, id);
  }
}
