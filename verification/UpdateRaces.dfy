/**
 Several create-or-update loops at once, one API call at a time, together with any
 other clients of the server. Each loop reads an object in one step and writes it in
 a later one; anything may happen in between.
 */
module UpdateRaces {
  import opened Results
  import opened ApiServer
  import opened Manifest
  import opened KubeCli

  /** Where a loop stands: before the Get of a document, or with its answer before the write. */
  datatype Phase =
    | AtDocument(i: nat)
    | Found(i: nat, seen: Stored)
    | Missing(i: nat)
    | Stopped(result: Result<Names, PassError>)

  datatype Loop = Loop(keep: Filter, docs: seq<Document>, phase: Phase, made: Names)

  datatype State = State(cluster: Cluster, loops: seq<Loop>)

  datatype ForeignCall =
    | ForeignCreate(key: Key, body: string)
    | ForeignUpdate(key: Key, body: string, version: nat)
    | ForeignDelete(key: Key)

  /** The scheduler lets one loop make its next call, or another client make one. */
  datatype Action = Turn(p: nat, fault: Fault) | Foreign(call: ForeignCall)

  /** How a loop continues once its write was answered. */
  function Answered(l: Loop, i: nat, reply: Reply, made: Names): Loop {
    if reply.error.Some? then l.(phase := Stopped(Err(CallFailed(reply.error.value))))
    else l.(phase := AtDocument(i + 1), made := made)
  }

  /** One call of a loop. */
  function LoopTurn(c: Cluster, l: Loop, fault: Fault): (Cluster, Loop) {
    match l.phase
    case Stopped(_) => (c, l)
    case AtDocument(i) =>
      (c, l.(phase :=
        if i >= |l.docs| then Stopped(Ok(l.made))
        else
          match Resolve(l.docs[i], fault)
          case Err(e) => Stopped(Err(e))
          case Ok(o) =>
            if !l.keep(o.kind) then AtDocument(i + 1)
            else if fault.GetFault? then Stopped(Err(CallFailed(Unavailable)))
            else if o.key in c.objects then Found(i, c.objects[o.key])
            else Missing(i)))
    case Found(i, seen) =>
      if i >= |l.docs| || !l.docs[i].Object? then (c, l)
      else
        var o := l.docs[i].obj;
        var reply := UpdateCall(c, o, seen.version, fault);
        (reply.cluster, Answered(l, i, reply, l.made[o.key.namespace := o.key.name]))
    case Missing(i) =>
      if i >= |l.docs| || !l.docs[i].Object? then (c, l)
      else
        var o := l.docs[i].obj;
        var reply := CreateCall(c, o, fault);
        (reply.cluster, Answered(l, i, reply, l.made))
  }

  function Step(s: State, a: Action): State {
    match a
    case Turn(p, fault) =>
      if p >= |s.loops| then s
      else
        var (c, l) := LoopTurn(s.cluster, s.loops[p], fault);
        State(c, s.loops[p := l])
    case Foreign(ForeignCreate(k, body)) => s.(cluster := Create(s.cluster, k, body).cluster)
    case Foreign(ForeignUpdate(k, body, version)) => s.(cluster := Update(s.cluster, k, body, version).cluster)
    case Foreign(ForeignDelete(k)) => s.(cluster := Delete(s.cluster, k).cluster)
  }

  function Run(s: State, actions: seq<Action>): State {
    if actions == [] then s
    else Step(Run(s, actions[..|actions| - 1]), actions[|actions| - 1])
  }

  // ---------- what a read is worth later ----------

  lemma CallsEvolve(c: Cluster, o: Unstructured, version: nat, fault: Fault)
    requires c.Valid()
    ensures Evolves(c, CreateCall(c, o, fault).cluster)
    ensures Evolves(c, UpdateCall(c, o, version, fault).cluster)
    ensures Evolves(c, DeleteCall(c, o.key, fault).cluster)
  {
  }

  lemma LoopTurnEvolves(c: Cluster, l: Loop, fault: Fault)
    requires c.Valid()
    ensures Evolves(c, LoopTurn(c, l, fault).0)
  {
    hide Evolves, CreateCall, UpdateCall, Resolve;
    EvolvesNot(c);
    if (l.phase.Found? || l.phase.Missing?) && l.phase.i < |l.docs| && l.docs[l.phase.i].Object? {
      CallsEvolve(c, l.docs[l.phase.i].obj, if l.phase.Found? then l.phase.seen.version else 0, fault);
    }
  }

  lemma StepEvolves(s: State, a: Action)
    requires s.cluster.Valid()
    ensures Evolves(s.cluster, Step(s, a).cluster)
  {
    hide Evolves, LoopTurn;
    EvolvesNot(s.cluster);
    match a
    case Turn(p, fault) => if p < |s.loops| { LoopTurnEvolves(s.cluster, s.loops[p], fault); }
    case Foreign(ForeignCreate(k, body)) => CallsEvolve(s.cluster, Unstructured("", k, body), 0, NoFault);
    case Foreign(ForeignUpdate(k, body, version)) =>
      CallsEvolve(s.cluster, Unstructured("", k, body), version, NoFault);
    case Foreign(ForeignDelete(k)) => CallsEvolve(s.cluster, Unstructured("", k, ""), 0, NoFault);
  }

  predicate Holds(c: Cluster, k: Key, seen: Stored) {
    k in c.objects && c.objects[k] == seen
  }

  /** What was seen under the key is gone or rewritten, for good. */
  predicate Outdated(c: Cluster, k: Key, seen: Stored) {
    seen.version <= c.revision && (k in c.objects ==> seen.version < c.objects[k].version)
  }

  /** A stored object stays as it is or is outdated, and never comes back. */
  lemma NeverBack(c: Cluster, c': Cluster, k: Key, seen: Stored)
    requires c.Valid() && Evolves(c, c')
    ensures Holds(c, k, seen) ==> Holds(c', k, seen) || Outdated(c', k, seen)
    ensures Outdated(c, k, seen) ==> Outdated(c', k, seen)
  {
  }

  /**
   The turn after a successful Get, met by a cluster that still holds what the Get
   returned or has outdated it: the write gets through exactly if it still holds it and
   does not fail, it replaces exactly that, and otherwise the loop stops with a conflict,
   or with NotFound if the object is gone.
   */
  lemma WriteAfterFound(c: Cluster, l: Loop, fault: Fault)
    requires l.phase.Found? && l.phase.i < |l.docs| && l.docs[l.phase.i].Object?
    requires var k := l.docs[l.phase.i].obj.key;
             Holds(c, k, l.phase.seen) || Outdated(c, k, l.phase.seen)
    ensures var (c', l') := LoopTurn(c, l, fault);
            var o, seen := l.docs[l.phase.i].obj, l.phase.seen;
            if fault != WriteFault && Holds(c, o.key, seen) then
              && l'.phase == AtDocument(l.phase.i + 1)
              && c'.objects == c.objects[o.key := Stored(seen.uid, c.revision + 1, o.body)]
            else
              && c' == c
              && l'.phase == Stopped(Err(CallFailed(if fault == WriteFault then Unavailable
                                                    else if o.key !in c.objects then NotFound
                                                    else Conflict)))
  {
  }

  /** The turn after a Get that found nothing: the write gets through exactly if there is still nothing. */
  lemma WriteAfterMissing(c: Cluster, l: Loop, fault: Fault)
    requires l.phase.Missing? && l.phase.i < |l.docs| && l.docs[l.phase.i].Object?
    ensures var (c', l') := LoopTurn(c, l, fault);
            var o := l.docs[l.phase.i].obj;
            if fault != WriteFault && o.key !in c.objects then
              && l'.phase == AtDocument(l.phase.i + 1)
              && c'.objects == c.objects[o.key := Stored(c.revision + 1, c.revision + 1, o.body)]
            else
              && c' == c
              && l'.phase == Stopped(Err(CallFailed(if fault == WriteFault then Unavailable else AlreadyExists)))
  {
  }

  /** The Get that a loop makes at a document answers for the cluster as it is. */
  lemma GetAnswers(c: Cluster, l: Loop, fault: Fault)
    requires l.phase.AtDocument?
    ensures var (c', l') := LoopTurn(c, l, fault);
            var i := l.phase.i;
            && c' == c && l' == l.(phase := l'.phase)
            && (l'.phase.Found? || l'.phase.Missing? ==> i < |l.docs| && l.docs[i].Object?)
            && (l'.phase.Found? ==> l'.phase.i == i && Holds(c, l.docs[i].obj.key, l'.phase.seen))
            && (l'.phase.Missing? ==> l'.phase.i == i && l.docs[i].obj.key !in c.objects)
  {
  }

  // ---------- runs ----------

  /** Turn m of loop p and its next turn n. */
  ghost predicate NextTurns(actions: seq<Action>, p: nat, m: nat, n: nat) {
    && m < n < |actions|
    && actions[m].Turn? && actions[m].p == p && actions[n].Turn? && actions[n].p == p
    && forall j :: m < j < n ==> !(actions[j].Turn? && actions[j].p == p)
  }

  lemma RunStep(s: State, actions: seq<Action>, j: nat)
    requires j < |actions|
    ensures Run(s, actions[..j + 1]) == Step(Run(s, actions[..j]), actions[j])
  {
    assert actions[..j + 1][..j] == actions[..j];
  }

  lemma {:induction false} RunValid(s: State, actions: seq<Action>, j: nat)
    requires s.cluster.Valid() && j <= |actions|
    ensures Run(s, actions[..j]).cluster.Valid() && |Run(s, actions[..j]).loops| == |s.loops|
  {
    if j > 0 {
      hide Evolves, LoopTurn;
      RunValid(s, actions, j - 1);
      RunStep(s, actions, j - 1);
      StepEvolves(Run(s, actions[..j - 1]), actions[j - 1]);
      EvolvesValid(Run(s, actions[..j - 1]).cluster, Run(s, actions[..j]).cluster);
    }
  }

  /** Another's turn leaves a loop where it was. */
  lemma OthersLeaveIt(s: State, a: Action, p: nat)
    requires p < |s.loops| && !(a.Turn? && a.p == p)
    ensures |Step(s, a).loops| == |s.loops| && Step(s, a).loops[p] == s.loops[p]
  {
    hide LoopTurn, Create, Update, Delete;
  }

  /** Between its turns a loop stands still, and what it saw holds or is outdated for good. */
  lemma {:induction false} Meanwhile(s: State, actions: seq<Action>, p: nat, m: nat, n: nat, j: nat, k: Key,
                                     seen: Stored)
    requires s.cluster.Valid() && p < |s.loops| && NextTurns(actions, p, m, n) && m < j <= n
    requires Holds(Run(s, actions[..m + 1]).cluster, k, seen)
    ensures |Run(s, actions[..m + 1]).loops| == |Run(s, actions[..j]).loops| == |s.loops|
    ensures Run(s, actions[..j]).loops[p] == Run(s, actions[..m + 1]).loops[p]
    ensures var now := Run(s, actions[..j]).cluster; Holds(now, k, seen) || Outdated(now, k, seen)
    ensures forall h :: m < h <= j && !Holds(Run(s, actions[..h]).cluster, k, seen) ==>
              Outdated(Run(s, actions[..j]).cluster, k, seen)
  {
    hide Evolves, Step, Holds, Outdated;
    RunValid(s, actions, j);
    if j > m + 1 {
      Meanwhile(s, actions, p, m, n, j - 1, k, seen);
      RunValid(s, actions, j - 1);
      RunStep(s, actions, j - 1);
      var before, now := Run(s, actions[..j - 1]), Run(s, actions[..j]);
      OthersLeaveIt(before, actions[j - 1], p);
      StepEvolves(before, actions[j - 1]);
      NeverBack(before.cluster, now.cluster, k, seen);
    }
  }

  lemma HoldsOrOutdated(c: Cluster, k: Key, seen: Stored)
    requires Outdated(c, k, seen)
    ensures !Holds(c, k, seen)
  {
  }

  /**
   No lost update. In every interleaving of any number of create-or-update loops with any
   other clients and any failures: let turn m of a loop be a Get that found an object and
   turn n its next turn. Then the Get returned the object that was there, and turn n goes
   on to the next document if and only if the call does not fail and the key held exactly
   that object in every state in between. In that case the write replaces exactly this
   object; in any other the loop stops, with a conflict or NotFound if the object was
   written or removed in between, and the cluster is left as it was.
   */
  lemma NoLostUpdate(s: State, actions: seq<Action>, p: nat, m: nat, n: nat)
    requires s.cluster.Valid() && p < |s.loops| && NextTurns(actions, p, m, n)
    requires var before, after := Run(s, actions[..m]), Run(s, actions[..m + 1]);
             && |before.loops| == |after.loops| == |s.loops|
             && before.loops[p].phase.AtDocument? && after.loops[p].phase.Found?
    ensures |Run(s, actions[..n + 1]).loops| == |s.loops|
    ensures var l, l', seen := Run(s, actions[..m]).loops[p], Run(s, actions[..n + 1]).loops[p],
                               Run(s, actions[..m + 1]).loops[p].phase.seen;
            var c, c' := Run(s, actions[..n]).cluster, Run(s, actions[..n + 1]).cluster;
            && l.phase.i < |l.docs| && l.docs[l.phase.i].Object?
            && (var o := l.docs[l.phase.i].obj;
                && Holds(Run(s, actions[..m]).cluster, o.key, seen)
                && (l'.phase == AtDocument(l.phase.i + 1) <==>
                      && actions[n].fault != WriteFault
                      && forall j :: m <= j <= n ==> Holds(Run(s, actions[..j]).cluster, o.key, seen))
                && (l'.phase == AtDocument(l.phase.i + 1) ==>
                      c'.objects == c.objects[o.key := Stored(seen.uid, c.revision + 1, o.body)])
                && (l'.phase != AtDocument(l.phase.i + 1) ==>
                      && c' == c
                      && l'.phase == Stopped(Err(CallFailed(if actions[n].fault == WriteFault then Unavailable
                                                            else if o.key !in c.objects then NotFound
                                                            else Conflict)))))
  {
    hide LoopTurn, Evolves;
    var before, after, now := Run(s, actions[..m]), Run(s, actions[..m + 1]), Run(s, actions[..n]);
    RunValid(s, actions, m);
    RunValid(s, actions, n + 1);
    RunStep(s, actions, m);
    RunStep(s, actions, n);
    GetAnswers(before.cluster, before.loops[p], actions[m].fault);
    var l, seen := before.loops[p], after.loops[p].phase.seen;
    var k := l.docs[l.phase.i].obj.key;
    Meanwhile(s, actions, p, m, n, n, k, seen);
    WriteAfterFound(now.cluster, now.loops[p], actions[n].fault);
    hide Holds, Outdated, Run;
    forall j | m <= j <= n && Holds(now.cluster, k, seen) ensures Holds(Run(s, actions[..j]).cluster, k, seen) {
      if j > m && !Holds(Run(s, actions[..j]).cluster, k, seen) {
        HoldsOrOutdated(now.cluster, k, seen);
      }
    }
  }

  /** A loop whose Get found nothing stands still until its next turn. */
  lemma {:induction false} StandsStill(s: State, actions: seq<Action>, p: nat, m: nat, n: nat, j: nat)
    requires s.cluster.Valid() && p < |s.loops| && NextTurns(actions, p, m, n) && m < j <= n
    ensures |Run(s, actions[..m + 1]).loops| == |Run(s, actions[..j]).loops| == |s.loops|
    ensures Run(s, actions[..j]).loops[p] == Run(s, actions[..m + 1]).loops[p]
  {
    hide Evolves, Step;
    RunValid(s, actions, j);
    if j > m + 1 {
      StandsStill(s, actions, p, m, n, j - 1);
      RunStep(s, actions, j - 1);
      OthersLeaveIt(Run(s, actions[..j - 1]), actions[j - 1], p);
    }
  }

  /**
   A create overwrites nothing: if the Get found nothing, the next turn goes on if and
   only if the call does not fail and there is nothing under the key at that moment; it
   then makes a new object. Otherwise the loop stops and the cluster is left as it was.
   */
  lemma NoOverwrite(s: State, actions: seq<Action>, p: nat, m: nat, n: nat)
    requires s.cluster.Valid() && p < |s.loops| && NextTurns(actions, p, m, n)
    requires var before, after := Run(s, actions[..m]), Run(s, actions[..m + 1]);
             && |before.loops| == |after.loops| == |s.loops|
             && before.loops[p].phase.AtDocument? && after.loops[p].phase.Missing?
    ensures |Run(s, actions[..n + 1]).loops| == |s.loops|
    ensures var l, l' := Run(s, actions[..m]).loops[p], Run(s, actions[..n + 1]).loops[p];
            var c, c' := Run(s, actions[..n]).cluster, Run(s, actions[..n + 1]).cluster;
            && l.phase.i < |l.docs| && l.docs[l.phase.i].Object?
            && (var o := l.docs[l.phase.i].obj;
                && o.key !in Run(s, actions[..m]).cluster.objects
                && (l'.phase == AtDocument(l.phase.i + 1) <==>
                      actions[n].fault != WriteFault && o.key !in c.objects)
                && (l'.phase == AtDocument(l.phase.i + 1) ==>
                      c'.objects == c.objects[o.key := Stored(c.revision + 1, c.revision + 1, o.body)])
                && (l'.phase != AtDocument(l.phase.i + 1) ==>
                      && c' == c
                      && l'.phase == Stopped(Err(CallFailed(if actions[n].fault == WriteFault then Unavailable
                                                            else AlreadyExists)))))
  {
    hide LoopTurn, Evolves;
    RunValid(s, actions, m);
    RunValid(s, actions, n + 1);
    RunStep(s, actions, m);
    RunStep(s, actions, n);
    var before, now := Run(s, actions[..m]), Run(s, actions[..n]);
    GetAnswers(before.cluster, before.loops[p], actions[m].fault);
    StandsStill(s, actions, p, m, n, n);
    WriteAfterMissing(now.cluster, now.loops[p], actions[n].fault);
  }

  // ---------- one loop alone ----------

  function Left(l: Loop): nat {
    match l.phase
    case Stopped(_) => 0
    case AtDocument(i) => if i <= |l.docs| then 2 * (|l.docs| - i) + 1 else 1
    case Found(i, _) => if i < |l.docs| then 2 * (|l.docs| - i) else 0
    case Missing(i) => if i < |l.docs| then 2 * (|l.docs| - i) else 0
  }

  /** A single loop runs to its end, with one failure choice per document. */
  function Alone(s: State, faults: Faults): (end: State)
    requires |s.loops| == 1
    requires s.loops[0].phase.Found? || s.loops[0].phase.Missing?
         ==> s.loops[0].phase.i < |s.loops[0].docs| && s.loops[0].docs[s.loops[0].phase.i].Object?
    ensures |end.loops| == 1 && end.loops[0].phase.Stopped?
    decreases Left(s.loops[0])
  {
    if s.loops[0].phase.Stopped? then s
    else Alone(Step(s, Turn(0, faults(s.loops[0].phase.i))), faults)
  }

  /**
   A loop that is not disturbed does what the create-or-update pass specifies, so the
   interleaved machine and the pass describe the same code.
   */
  lemma {:induction false} AloneIsUpsert(s: State, faults: Faults)
    requires |s.loops| == 1 && s.loops[0].phase.AtDocument? && s.loops[0].phase.i <= |s.loops[0].docs|
    ensures var l, end := s.loops[0], Alone(s, faults);
            Outcome(end.cluster, end.loops[0].phase.result)
              == UpsertFrom(l.keep, l.docs, l.phase.i, faults, s.cluster, l.made)
    decreases |s.loops[0].docs| - s.loops[0].phase.i
  {
    var l := s.loops[0];
    var i := l.phase.i;
    var s1 := Step(s, Turn(0, faults(i)));
    assert Alone(s, faults) == Alone(s1, faults);
    if s1.loops[0].phase.AtDocument? {
      AloneIsUpsert(s1, faults);
    } else if !s1.loops[0].phase.Stopped? {
      var s2 := Step(s1, Turn(0, faults(i)));
      assert Alone(s1, faults) == Alone(s2, faults);
      if s2.loops[0].phase.AtDocument? {
        AloneIsUpsert(s2, faults);
      }
    }
  }
}
