/** The loops of an Update, when other calls of the broker and other clients act in between. */
module UpdateCalls {
  import opened Results
  import opened ApiServer
  import opened KubeCli
  import opened Broker
  import opened ProvisionRaces
  import Overlaps
  import UpdateRaces

  /** Turn m of call p and its next turn n. */
  ghost predicate NextTurns(turns: seq<Turn>, p: nat, m: nat, n: nat) {
    && m < n < |turns|
    && turns[m].Turn? && turns[m].p == p && turns[n].Turn? && turns[n].p == p
    && forall j :: m < j < n ==> !(turns[j].Turn? && turns[j].p == p)
  }

  lemma RunStep(cfg: Config, s: State, turns: seq<Turn>, j: nat)
    requires j < |turns|
    ensures Run(cfg, s, turns[..j + 1]) == Step(cfg, Run(cfg, s, turns[..j]), turns[j])
  {
    assert turns[..j + 1][..j] == turns[..j];
  }

  lemma StepEvolves(cfg: Config, s: State, t: Turn)
    requires s.world.cluster.Valid()
    ensures Evolves(s.world.cluster, Step(cfg, s, t).world.cluster)
  {
    hide Evolves, Next, Happened;
    EvolvesNot(s.world.cluster);
    if t.Turn? && t.p < |s.calls| {
      Overlaps.NextEvolves(cfg, s.world, s.calls[t.p], t.meets);
    }
  }

  lemma {:induction false} RunValid(cfg: Config, s: State, turns: seq<Turn>, j: nat)
    requires s.world.cluster.Valid() && j <= |turns|
    ensures Run(cfg, s, turns[..j]).world.cluster.Valid()
  {
    if j > 0 {
      hide Evolves, Step;
      RunValid(cfg, s, turns, j - 1);
      RunStep(cfg, s, turns, j - 1);
      StepEvolves(cfg, Run(cfg, s, turns[..j - 1]), turns[j - 1]);
      EvolvesValid(Run(cfg, s, turns[..j - 1]).world.cluster, Run(cfg, s, turns[..j]).world.cluster);
    }
  }

  /** Another's step leaves a call where it was. */
  lemma OthersLeaveIt(cfg: Config, s: State, t: Turn, p: nat)
    requires p < |s.calls| && !(t.Turn? && t.p == p)
    ensures Step(cfg, s, t).calls[p] == s.calls[p]
  {
    hide Next, Happened, Evolves;
  }

  /** Between its turns a call stands still, and what its loop saw holds or is outdated for good. */
  lemma {:induction false} Meanwhile(cfg: Config, s: State, turns: seq<Turn>, p: nat, m: nat, n: nat, j: nat, k: Key,
                                     seen: Stored)
    requires s.world.cluster.Valid() && p < |s.calls| && NextTurns(turns, p, m, n) && m < j <= n
    ensures Run(cfg, s, turns[..j]).calls[p] == Run(cfg, s, turns[..m + 1]).calls[p]
    ensures UpdateRaces.Holds(Run(cfg, s, turns[..m + 1]).world.cluster, k, seen) ==>
              var now := Run(cfg, s, turns[..j]).world.cluster;
              && (UpdateRaces.Holds(now, k, seen) || UpdateRaces.Outdated(now, k, seen))
              && forall h :: m < h <= j && !UpdateRaces.Holds(Run(cfg, s, turns[..h]).world.cluster, k, seen) ==>
                   UpdateRaces.Outdated(now, k, seen)
  {
    hide Evolves, Step, UpdateRaces.Holds, UpdateRaces.Outdated;
    if j > m + 1 {
      Meanwhile(cfg, s, turns, p, m, n, j - 1, k, seen);
      RunValid(cfg, s, turns, j - 1);
      RunStep(cfg, s, turns, j - 1);
      var before, now := Run(cfg, s, turns[..j - 1]), Run(cfg, s, turns[..j]);
      OthersLeaveIt(cfg, before, turns[j - 1], p);
      StepEvolves(cfg, before, turns[j - 1]);
      UpdateRaces.NeverBack(before.world.cluster, now.world.cluster, k, seen);
    }
  }

  /** A turn of a call whose loop is under way is a turn of the loop. */
  lemma TurnIsLoopTurn(cfg: Config, s: State, p: nat, m: Meets)
    requires p < |s.calls| && s.calls[p].Upserting? && !s.calls[p].loop.phase.Stopped?
    ensures var s' := Step(cfg, s, Turn(p, m));
            var (c, loop) := UpdateRaces.LoopTurn(s.world.cluster, s.calls[p].loop, m.fault);
            s'.world == World(c, s.world.table) && s'.calls[p] == s.calls[p].(loop := loop)
  {
    hide UpdateRaces.LoopTurn;
  }

  /** Call p stands in an upsert loop at this phase's document. */
  ghost predicate AtWrite(before: Phase, after: Phase, found: bool) {
    && before.Upserting? && before.loop.phase.AtDocument?
    && after.Upserting? && (if found then after.loop.phase.Found? else after.loop.phase.Missing?)
  }

  /**
   No lost update by an interleaved Update. After a Get that found an object, the next
   turn of the call goes on to the next document if and only if the write does not fail
   and the key held exactly that object in every state in between, whatever the other
   calls and the other clients did; it then replaces exactly this object. Otherwise the
   loop stops, with a conflict or NotFound if the object was touched, and changes nothing.
   */
  lemma UpdateLosesNothing(cfg: Config, s: State, turns: seq<Turn>, p: nat, m: nat, n: nat)
    requires s.world.cluster.Valid() && p < |s.calls| && NextTurns(turns, p, m, n)
    requires AtWrite(Run(cfg, s, turns[..m]).calls[p], Run(cfg, s, turns[..m + 1]).calls[p], true)
    ensures Run(cfg, s, turns[..n + 1]).calls[p].Upserting?
    ensures var l, l' := Run(cfg, s, turns[..m]).calls[p].loop, Run(cfg, s, turns[..n + 1]).calls[p].loop;
            var seen := Run(cfg, s, turns[..m + 1]).calls[p].loop.phase.seen;
            var c, c' := Run(cfg, s, turns[..n]).world.cluster, Run(cfg, s, turns[..n + 1]).world.cluster;
            && l.phase.i < |l.docs| && l.docs[l.phase.i].Object?
            && (var o := l.docs[l.phase.i].obj;
                && UpdateRaces.Holds(Run(cfg, s, turns[..m]).world.cluster, o.key, seen)
                && (l'.phase == UpdateRaces.AtDocument(l.phase.i + 1) <==>
                      && turns[n].meets.fault != WriteFault
                      && forall j :: m <= j <= n ==>
                           UpdateRaces.Holds(Run(cfg, s, turns[..j]).world.cluster, o.key, seen))
                && (l'.phase == UpdateRaces.AtDocument(l.phase.i + 1) ==>
                      c'.objects == c.objects[o.key := Stored(seen.uid, c.revision + 1, o.body)])
                && (l'.phase != UpdateRaces.AtDocument(l.phase.i + 1) ==>
                      && c' == c
                      && l'.phase == UpdateRaces.Stopped(Err(CallFailed(
                           if turns[n].meets.fault == WriteFault then Unavailable
                           else if o.key !in c.objects then NotFound
                           else Conflict)))))
  {
    hide UpdateRaces.LoopTurn, Evolves, Step;
    var before, after, now := Run(cfg, s, turns[..m]), Run(cfg, s, turns[..m + 1]), Run(cfg, s, turns[..n]);
    RunStep(cfg, s, turns, m);
    RunStep(cfg, s, turns, n);
    TurnIsLoopTurn(cfg, before, p, turns[m].meets);
    UpdateRaces.GetAnswers(before.world.cluster, before.calls[p].loop, turns[m].meets.fault);
    var l, seen := before.calls[p].loop, after.calls[p].loop.phase.seen;
    var k := l.docs[l.phase.i].obj.key;
    Meanwhile(cfg, s, turns, p, m, n, n, k, seen);
    TurnIsLoopTurn(cfg, now, p, turns[n].meets);
    UpdateRaces.WriteAfterFound(now.world.cluster, now.calls[p].loop, turns[n].meets.fault);
    hide UpdateRaces.Holds, UpdateRaces.Outdated, Run;
    forall j | m <= j <= n && UpdateRaces.Holds(now.world.cluster, k, seen)
      ensures UpdateRaces.Holds(Run(cfg, s, turns[..j]).world.cluster, k, seen)
    {
      if j > m && !UpdateRaces.Holds(Run(cfg, s, turns[..j]).world.cluster, k, seen) {
        UpdateRaces.HoldsOrOutdated(now.world.cluster, k, seen);
      }
    }
  }

  /** Nor does it overwrite an object made after its Get found none. */
  lemma UpdateOverwritesNothing(cfg: Config, s: State, turns: seq<Turn>, p: nat, m: nat, n: nat)
    requires s.world.cluster.Valid() && p < |s.calls| && NextTurns(turns, p, m, n)
    requires AtWrite(Run(cfg, s, turns[..m]).calls[p], Run(cfg, s, turns[..m + 1]).calls[p], false)
    ensures Run(cfg, s, turns[..n + 1]).calls[p].Upserting?
    ensures var l, l' := Run(cfg, s, turns[..m]).calls[p].loop, Run(cfg, s, turns[..n + 1]).calls[p].loop;
            var c, c' := Run(cfg, s, turns[..n]).world.cluster, Run(cfg, s, turns[..n + 1]).world.cluster;
            && l.phase.i < |l.docs| && l.docs[l.phase.i].Object?
            && (var o := l.docs[l.phase.i].obj;
                && o.key !in Run(cfg, s, turns[..m]).world.cluster.objects
                && (l'.phase == UpdateRaces.AtDocument(l.phase.i + 1) <==>
                      turns[n].meets.fault != WriteFault && o.key !in c.objects)
                && (l'.phase != UpdateRaces.AtDocument(l.phase.i + 1) ==>
                      && c' == c
                      && l'.phase == UpdateRaces.Stopped(Err(CallFailed(
                           if turns[n].meets.fault == WriteFault then Unavailable else AlreadyExists)))))
  {
    hide UpdateRaces.LoopTurn, Evolves, Step;
    var before, now := Run(cfg, s, turns[..m]), Run(cfg, s, turns[..n]);
    RunStep(cfg, s, turns, m);
    RunStep(cfg, s, turns, n);
    TurnIsLoopTurn(cfg, before, p, turns[m].meets);
    UpdateRaces.GetAnswers(before.world.cluster, before.calls[p].loop, turns[m].meets.fault);
    var o := before.calls[p].loop.docs[before.calls[p].loop.phase.i].obj;
    Meanwhile(cfg, s, turns, p, m, n, n, o.key, Stored(0, 0, ""));
    TurnIsLoopTurn(cfg, now, p, turns[n].meets);
    UpdateRaces.WriteAfterMissing(now.world.cluster, now.calls[p].loop, turns[n].meets.fault);
  }
}
