/** Who wins when several Provisions of one id run at the same time, read off the states of the run. */
module Winners {
  import opened ApiServer
  import opened Dao
  import opened Broker
  import opened ProvisionRaces
  import Turns

  lemma RunStep(cfg: Config, s: State, turns: seq<Turn>, j: nat)
    requires j < |turns|
    ensures Run(cfg, s, turns[..j + 1]) == Step(cfg, Run(cfg, s, turns[..j]), turns[j])
  {
    assert turns[..j + 1][..j] == turns[..j];
  }

  /** In turn a, call p stores its row under an id that has none at that moment, and answers success. */
  ghost predicate Inserts(cfg: Config, s: State, turns: seq<Turn>, a: nat, p: nat, id: string) {
    && a < |turns| && turns[a].Turn? && turns[a].p == p && p < |s.calls|
    && var before, after := Run(cfg, s, turns[..a]), Run(cfg, s, turns[..a + 1]);
    && before.calls[p].Inserting? && before.calls[p].row.instanceID == id
    && id !in before.world.table
    && after.world.table == before.world.table[id := before.calls[p].row]
    && after.calls[p].Answered? && after.calls[p].reply.Provisioned?
  }

  /** In turn m, a Deprovision removes the row of the id, and answers success. */
  ghost predicate Removes(cfg: Config, s: State, turns: seq<Turn>, m: nat, id: string) {
    && m < |turns| && turns[m].Turn? && turns[m].p < |s.calls|
    && var before, after := Run(cfg, s, turns[..m]), Run(cfg, s, turns[..m + 1]);
    && id in before.world.table && id !in after.world.table
    && before.calls[turns[m].p].RemovingRow?
    && after.calls[turns[m].p] == Dismissed(id, Deprovisioned)
  }

  /** In turn b, an Update gives the row of the id its plan, parameters and yaml. */
  ghost predicate Rewrites(cfg: Config, s: State, turns: seq<Turn>, b: nat, id: string, row: Instance) {
    && b < |turns| && turns[b].Turn? && turns[b].p < |s.calls|
    && var before, after := Run(cfg, s, turns[..b]), Run(cfg, s, turns[..b + 1]);
    && before.calls[turns[b].p].Rewriting? && before.calls[turns[b].p].row == row && row.instanceID == id
    && id in before.world.table && id in after.world.table
    && after.world.table[id]
       == before.world.table[id].(planID := row.planID, parameters := row.parameters, yaml := row.yaml)
  }

  /** A success was reached by inserting. */
  lemma {:induction false} WinnerInserted(cfg: Config, s: State, turns: seq<Turn>, p: nat) returns (a: nat)
    requires Initial(s) && p < |s.calls|
    requires Run(cfg, s, turns).calls[p].Answered? && Run(cfg, s, turns).calls[p].reply.Provisioned?
    ensures Inserts(cfg, s, turns, a, p, Run(cfg, s, turns).calls[p].req.instanceID)
    decreases |turns|
  {
    hide Evolves, Next, Happened, InsertRow;
    var n := |turns| - 1;
    var before, t := Run(cfg, s, turns[..n]), turns[n];
    if t.Turn? && t.p == p && !before.calls[p].Answered? {
      a := n;
      assert turns[..n + 1] == turns;
      RunKeepsInv(cfg, s, turns[..n]);
      assert CallOk(before, p);
      NextTable(cfg, before.world, before.calls[p], t.meets);
    } else {
      if t.Turn? && t.p == p {
        NextTable(cfg, before.world, before.calls[p], t.meets);
      }
      a := WinnerInserted(cfg, s, turns[..n], p);
      assert turns[..n][..a] == turns[..a] && turns[..n][..a + 1] == turns[..a + 1];
    }
  }

  /** What a step can do to the row of an id. */
  lemma StepRow(cfg: Config, s: State, t: Turn, id: string)
    ensures var s' := Step(cfg, s, t);
            && (id in s.world.table && id !in s'.world.table ==>
                  && t.Turn? && t.p < |s.calls| && s.calls[t.p].RemovingRow?
                  && s'.calls[t.p] == Dismissed(id, Deprovisioned))
            && (id !in s.world.table && id in s'.world.table ==>
                  && t.Turn? && t.p < |s.calls| && s.calls[t.p].Inserting? && s.calls[t.p].row.instanceID == id
                  && s'.world.table == s.world.table[id := s.calls[t.p].row]
                  && s'.calls[t.p].Answered? && s'.calls[t.p].reply.Provisioned?)
            && (id in s.world.table && id in s'.world.table && s'.world.table[id] != s.world.table[id] ==>
                  && t.Turn? && t.p < |s.calls| && s.calls[t.p].Rewriting? && s.calls[t.p].row.instanceID == id
                  && var row := s.calls[t.p].row;
                     s'.world.table[id]
                     == s.world.table[id].(planID := row.planID, parameters := row.parameters, yaml := row.yaml))
  {
    hide Evolves, Next, Happened;
    if t.Turn? && t.p < |s.calls| {
      var phase := s.calls[t.p];
      NextTable(cfg, s.world, phase, t.meets);
      if phase.Inserting? { Turns.InsertTurn(cfg, s.world, phase, t.meets); }
      if phase.RemovingRow? { Turns.DismissalTurns(cfg, s.world, phase, t.meets); }
      if phase.Rewriting? { Turns.RewriteTurn(cfg, s.world, phase, t.meets); }
    }
  }

  /** A row that was there and is gone was removed in between, by a Deprovision. */
  lemma {:induction false} GoneMeansRemoved(cfg: Config, s: State, turns: seq<Turn>, i: nat, j: nat, id: string)
    returns (m: nat)
    requires i <= j <= |turns|
    requires id in Run(cfg, s, turns[..i]).world.table && id !in Run(cfg, s, turns[..j]).world.table
    ensures i <= m < j && Removes(cfg, s, turns, m, id)
    decreases j
  {
    hide Step;
    RunStep(cfg, s, turns, j - 1);
    if id in Run(cfg, s, turns[..j - 1]).world.table {
      m := j - 1;
      StepRow(cfg, Run(cfg, s, turns[..j - 1]), turns[j - 1], id);
    } else {
      m := GoneMeansRemoved(cfg, s, turns, i, j - 1, id);
    }
  }

  /**
   At most one winner. In every interleaving of any number of concurrent Provisions,
   Deprovisions and Updates with other clients, and with any failures: if two Provisions of
   one instance id both answered success, one of them stored its row first, in between a
   Deprovision removed the row of the id, and only then the other stored its own. That is
   the primary key's doing alone.
   */
  lemma AtMostOneWinner(cfg: Config, s: State, turns: seq<Turn>, p: nat, q: nat)
    returns (first: nat, second: nat, a: nat, m: nat, b: nat)
    requires Initial(s) && p < |s.calls| && q < |s.calls| && p != q
    requires var calls := Run(cfg, s, turns).calls;
             && calls[p].Answered? && calls[p].reply.Provisioned?
             && calls[q].Answered? && calls[q].reply.Provisioned?
             && calls[p].req.instanceID == calls[q].req.instanceID
    ensures {first, second} == {p, q} && a < m < b
    ensures var id := Run(cfg, s, turns).calls[p].req.instanceID;
            && Inserts(cfg, s, turns, a, first, id)
            && Removes(cfg, s, turns, m, id)
            && Inserts(cfg, s, turns, b, second, id)
  {
    hide Step, Run;
    var id := Run(cfg, s, turns).calls[p].req.instanceID;
    first, second := p, q;
    a := WinnerInserted(cfg, s, turns, p);
    b := WinnerInserted(cfg, s, turns, q);
    if a > b { first, second, a, b := q, p, b, a; }
    m := GoneMeansRemoved(cfg, s, turns, a + 1, b, id);
  }

  lemma AnsweredRests(cfg: Config, s: State, t: Turn, p: nat)
    requires p < |s.calls| && s.calls[p].Answered?
    ensures |Step(cfg, s, t).calls| == |s.calls| && Step(cfg, s, t).calls[p] == s.calls[p]
  {
    hide Evolves, Next, Happened;
    if t.Turn? && t.p == p { NextTable(cfg, s.world, s.calls[p], t.meets); }
  }

  lemma {:induction false} AnsweredStays(cfg: Config, s: State, turns: seq<Turn>, a: nat, p: nat)
    requires a <= |turns| && p < |s.calls| && Run(cfg, s, turns[..a]).calls[p].Answered?
    ensures Run(cfg, s, turns).calls[p] == Run(cfg, s, turns[..a]).calls[p]
    decreases |turns|
  {
    if a == |turns| {
      assert turns[..a] == turns;
    } else {
      hide Step;
      var n := |turns| - 1;
      assert turns[..n][..a] == turns[..a];
      AnsweredStays(cfg, s, turns[..n], a, p);
      AnsweredRests(cfg, Run(cfg, s, turns[..n]), turns[n], p);
    }
  }

  /** What happened in a prefix of the turns happened. */
  lemma PrefixWrites(cfg: Config, s: State, turns: seq<Turn>, n: nat, j: nat, p: nat, id: string, row: Instance)
    requires n <= |turns|
    ensures Inserts(cfg, s, turns[..n], j, p, id) ==> Inserts(cfg, s, turns, j, p, id)
    ensures Rewrites(cfg, s, turns[..n], j, id, row) ==> Rewrites(cfg, s, turns, j, id, row)
    ensures j < n ==> Run(cfg, s, turns[..n][..j]) == Run(cfg, s, turns[..j])
  {
    hide Run;
    if j < n {
      assert turns[..n][..j] == turns[..j] && turns[..n][..j + 1] == turns[..j + 1];
    }
  }

  /** The row that a turn inserted. */
  ghost function InsertedRow(cfg: Config, s: State, turns: seq<Turn>, a: nat, p: nat): (row: Instance)
    requires a <= |turns| && p < |s.calls| && Run(cfg, s, turns[..a]).calls[p].Inserting?
  {
    Run(cfg, s, turns[..a]).calls[p].row
  }

  /** Where the row of an id comes from: the start if a is -1, or the insert of turn a by this call. */
  ghost predicate ComesFrom(cfg: Config, s: State, turns: seq<Turn>, id: string, a: int, winner: nat, row: Instance)
    requires a < |turns|
  {
    if a < 0 then id in s.world.table && row == s.world.table[id]
    else Inserts(cfg, s, turns, a, winner, id) && row == InsertedRow(cfg, s, turns, a, winner)
  }

  /** Turns a and b are the last that put something into the row of the id, and since a it has been there. */
  ghost predicate LastWrites(cfg: Config, s: State, turns: seq<Turn>, id: string, a: int, b: int, winner: nat,
                             inserted: Instance, latest: Instance)
  {
    && -1 <= a <= b < |turns| && ComesFrom(cfg, s, turns, id, a, winner, inserted)
    && (if b == a then latest == inserted else Rewrites(cfg, s, turns, b, id, latest))
    && (forall j :: a < j <= |turns| ==> id in Run(cfg, s, turns[..j]).world.table)
    && var table := Run(cfg, s, turns).world.table;
       && id in table
       && table[id] == inserted.(planID := latest.planID, parameters := latest.parameters, yaml := latest.yaml)
  }

  lemma {:induction false} FindLastWrites(cfg: Config, s: State, turns: seq<Turn>, id: string)
    returns (a: int, b: int, winner: nat, inserted: Instance, latest: Instance)
    requires id in Run(cfg, s, turns).world.table
    ensures LastWrites(cfg, s, turns, id, a, b, winner, inserted, latest)
    decreases |turns|
  {
    if turns == [] {
      a, b, winner := -1, -1, 0;
      inserted, latest := s.world.table[id], s.world.table[id];
    } else {
      hide LastWrites, Run;
      var n := |turns| - 1;
      var before := Run(cfg, s, turns[..n]);
      assert turns[..n + 1] == turns;
      if id !in before.world.table {
        inserted := WritesNow(cfg, s, turns, id);
        a, b, winner, latest := n, n, turns[n].p, inserted;
      } else {
        a, b, winner, inserted, latest := FindLastWrites(cfg, s, turns[..n], id);
        if Run(cfg, s, turns).world.table[id] == before.world.table[id] {
          WritesStay(cfg, s, turns, id, a, b, winner, inserted, latest);
        } else {
          latest := RewritesNow(cfg, s, turns, id, a, b, winner, inserted, latest);
          b := n;
        }
      }
    }
  }

  lemma WritesNow(cfg: Config, s: State, turns: seq<Turn>, id: string) returns (row: Instance)
    requires turns != [] && id in Run(cfg, s, turns).world.table
    requires id !in Run(cfg, s, turns[..|turns| - 1]).world.table
    ensures turns[|turns| - 1].Turn?
    ensures LastWrites(cfg, s, turns, id, |turns| - 1, |turns| - 1, turns[|turns| - 1].p, row, row)
  {
    hide Run, ComesFrom;
    var n := |turns| - 1;
    assert turns[..n + 1] == turns;
    NowInserts(cfg, s, turns, n, id);
    row := Run(cfg, s, turns[..n]).calls[turns[n].p].row;
  }

  lemma WritesStay(cfg: Config, s: State, turns: seq<Turn>, id: string, a: int, b: int, winner: nat,
                   inserted: Instance, latest: Instance)
    requires turns != [] && LastWrites(cfg, s, turns[..|turns| - 1], id, a, b, winner, inserted, latest)
    requires var before, after := Run(cfg, s, turns[..|turns| - 1]).world.table, Run(cfg, s, turns).world.table;
             id in before && id in after && before[id] == after[id]
    ensures LastWrites(cfg, s, turns, id, a, b, winner, inserted, latest)
  {
    hide Run, ComesFrom, Rewrites;
    RowStaysThere(cfg, s, turns, turns[..|turns| - 1], id, a);
    var n := |turns| - 1;
    ExtendsTo(cfg, s, turns, n, id, a, winner, inserted);
    if b > a { PrefixWrites(cfg, s, turns, n, b, 0, id, latest); }
  }

  lemma RewritesNow(cfg: Config, s: State, turns: seq<Turn>, id: string, a: int, b: int, winner: nat,
                    inserted: Instance, earlier: Instance) returns (latest: Instance)
    requires turns != [] && LastWrites(cfg, s, turns[..|turns| - 1], id, a, b, winner, inserted, earlier)
    requires var before, after := Run(cfg, s, turns[..|turns| - 1]).world.table, Run(cfg, s, turns).world.table;
             id in before && id in after && before[id] != after[id]
    ensures LastWrites(cfg, s, turns, id, a, |turns| - 1, winner, inserted, latest)
  {
    hide Run, ComesFrom, Rewrites;
    RowStaysThere(cfg, s, turns, turns[..|turns| - 1], id, a);
    var n := |turns| - 1;
    assert turns[..n + 1] == turns;
    ExtendsTo(cfg, s, turns, n, id, a, winner, inserted);
    NowRewrites(cfg, s, turns, n, id);
    latest := Run(cfg, s, turns[..n]).calls[turns[n].p].row;
  }

  lemma RowStaysThere(cfg: Config, s: State, turns: seq<Turn>, front: seq<Turn>, id: string, a: int)
    requires turns != [] && front == turns[..|turns| - 1] && -1 <= a < |front| && id in Run(cfg, s, turns).world.table
    requires forall j :: a < j <= |front| ==> id in Run(cfg, s, front[..j]).world.table
    ensures forall j :: a < j <= |turns| ==> id in Run(cfg, s, turns[..j]).world.table
  {
    hide Run;
    forall j | a < j <= |turns| ensures id in Run(cfg, s, turns[..j]).world.table {
      if j < |turns| {
        assert front[..j] == turns[..j];
      } else {
        assert turns[..j] == turns;
      }
    }
  }

  lemma ExtendsTo(cfg: Config, s: State, turns: seq<Turn>, n: nat, id: string, a: int, winner: nat, row: Instance)
    requires a < n <= |turns| && ComesFrom(cfg, s, turns[..n], id, a, winner, row)
    ensures ComesFrom(cfg, s, turns, id, a, winner, row)
  {
    hide Run;
    if a >= 0 { PrefixWrites(cfg, s, turns, n, a, winner, id, row); }
  }

  /** A turn after which there is a row that was not there before inserted it. */
  lemma NowInserts(cfg: Config, s: State, turns: seq<Turn>, n: nat, id: string)
    requires n < |turns|
    requires id !in Run(cfg, s, turns[..n]).world.table && id in Run(cfg, s, turns[..n + 1]).world.table
    ensures turns[n].Turn? && turns[n].p < |s.calls| && Run(cfg, s, turns[..n]).calls[turns[n].p].Inserting?
    ensures var p, row := turns[n].p, Run(cfg, s, turns[..n]).calls[turns[n].p].row;
            ComesFrom(cfg, s, turns, id, n, p, row) && Run(cfg, s, turns[..n + 1]).world.table[id] == row
  {
    hide Step;
    RunStep(cfg, s, turns, n);
    StepRow(cfg, Run(cfg, s, turns[..n]), turns[n], id);
  }

  /** A turn that changes the row and removes nothing is an Update's. */
  lemma NowRewrites(cfg: Config, s: State, turns: seq<Turn>, n: nat, id: string)
    requires n < |turns|
    requires id in Run(cfg, s, turns[..n]).world.table && id in Run(cfg, s, turns[..n + 1]).world.table
    requires Run(cfg, s, turns[..n + 1]).world.table[id] != Run(cfg, s, turns[..n]).world.table[id]
    ensures turns[n].Turn? && turns[n].p < |s.calls| && Run(cfg, s, turns[..n]).calls[turns[n].p].Rewriting?
    ensures Rewrites(cfg, s, turns, n, id, Run(cfg, s, turns[..n]).calls[turns[n].p].row)
    ensures var now, was := Run(cfg, s, turns[..n + 1]).world.table[id], Run(cfg, s, turns[..n]).world.table[id];
            var row := Run(cfg, s, turns[..n]).calls[turns[n].p].row;
            now == was.(planID := row.planID, parameters := row.parameters, yaml := row.yaml)
  {
    hide Step;
    RunStep(cfg, s, turns, n);
    StepRow(cfg, Run(cfg, s, turns[..n]), turns[n], id);
  }

  /**
   The stored row of an id is the one its last winner inserted, or the one that was there
   from the start (a is -1), and it has been there ever since. Updates have changed at most
   plan, parameters and yaml, to those of the last Update that changed it. The winner
   answered success.
   */
  lemma StoredRowIsTheWinners(cfg: Config, s: State, turns: seq<Turn>, id: string)
    returns (a: int, b: int, winner: nat, inserted: Instance, latest: Instance)
    requires id in Run(cfg, s, turns).world.table
    ensures -1 <= a <= b < |turns| && ComesFrom(cfg, s, turns, id, a, winner, inserted)
    ensures a >= 0 ==> Run(cfg, s, turns).calls[winner].Answered? && Run(cfg, s, turns).calls[winner].reply.Provisioned?
    ensures if b == a then latest == inserted else Rewrites(cfg, s, turns, b, id, latest)
    ensures Run(cfg, s, turns).world.table[id]
         == inserted.(planID := latest.planID, parameters := latest.parameters, yaml := latest.yaml)
    ensures forall j :: a < j <= |turns| ==> id in Run(cfg, s, turns[..j]).world.table
  {
    hide Run;
    a, b, winner, inserted, latest := FindLastWrites(cfg, s, turns, id);
    if a >= 0 { AnsweredStays(cfg, s, turns, a + 1, winner); }
  }
}
