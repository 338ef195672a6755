/** The readiness check over an instance's pods (pkg/kubernetes/instance.go). */
module Pods {
  import opened Results

  /** `waiting` is the reason of State.Waiting, which only a waiting container has. */
  datatype ContainerStatus = ContainerStatus(ready: bool, waiting: Option<string>)

  datatype Pod = Pod(containers: seq<ContainerStatus>)

  /** The three results in the order the code returns them, or how the check broke off. */
  datatype Check = ListFailed | NilDereference | Verdict(first: bool, second: bool, third: bool)

  predicate Unexplained(c: ContainerStatus) { !c.ready && c.waiting.None? }

  predicate Stuck(c: ContainerStatus) {
    !c.ready && c.waiting.Some? && c.waiting.value != "ContainerCreating"
  }

  function Containers(pods: seq<Pod>): seq<ContainerStatus> {
    if pods == [] then [] else Containers(pods[..|pods| - 1]) + pods[|pods| - 1].containers
  }

  /**
   What the check means: it breaks off if some container is neither ready nor waiting;
   otherwise the third result tells that some container waits for another reason than
   being created, the second that some is still being created, the first that all are ready.
   */
  function Meaning(cs: seq<ContainerStatus>): Check {
    if exists c :: c in cs && Unexplained(c) then NilDereference
    else if exists c :: c in cs && Stuck(c) then Verdict(false, false, true)
    else if exists c :: c in cs && !c.ready then Verdict(false, true, false)
    else Verdict(true, false, false)
  }

  /** The counting loops compute the meaning. */
  method CheckInstance(list: Option<seq<Pod>>) returns (r: Check)
    ensures list.None? ==> r == ListFailed
    ensures list.Some? ==> r == Meaning(Containers(list.value))
  {
    if list.None? { return ListFailed; }
    var pods := list.value;
    var ready, failed, sum := 0, 0, 0;
    ghost var seen: seq<ContainerStatus> := [];
    for i := 0 to |pods|
      invariant seen == Containers(pods[..i])
      invariant ready <= sum && 0 <= failed
      invariant forall c :: c in seen ==> !Unexplained(c)
      invariant failed != 0 <==> exists c :: c in seen && Stuck(c)
      invariant ready != sum <==> exists c :: c in seen && !c.ready
    {
      var containers := pods[i].containers;
      assert pods[..i + 1][..i] == pods[..i];
      ghost var before := seen;
      for j := 0 to |containers|
        invariant seen == before + containers[..j]
        invariant ready <= sum && 0 <= failed
        invariant forall c :: c in seen ==> !Unexplained(c)
        invariant failed != 0 <==> exists c :: c in seen && Stuck(c)
        invariant ready != sum <==> exists c :: c in seen && !c.ready
      {
        var c := containers[j];
        OneMore(seen, c);
        assert seen + [c] == before + containers[..j + 1];
        sum := sum + 1;
        if c.ready {
          ready := ready + 1;
        } else {
          if c.waiting.None? {
            Occurs(pods, i, c);
            return NilDereference;
          }
          if c.waiting.value != "ContainerCreating" { failed := failed + 1; }
        }
        seen := seen + [c];
      }
    }
    assert pods[..|pods|] == pods;
    if failed != 0 { return Verdict(false, false, true); }
    if ready != sum { return Verdict(false, true, false); }
    return Verdict(true, false, false);
  }

  lemma OneMore(seen: seq<ContainerStatus>, c: ContainerStatus)
    ensures (exists d :: d in seen + [c] && Stuck(d)) <==> (exists d :: d in seen && Stuck(d)) || Stuck(c)
    ensures (exists d :: d in seen + [c] && !d.ready) <==> (exists d :: d in seen && !d.ready) || !c.ready
    ensures (forall d :: d in seen + [c] ==> !Unexplained(d)) <==>
              (forall d :: d in seen ==> !Unexplained(d)) && !Unexplained(c)
  {
    assert forall d :: d in seen + [c] <==> d in seen || d == c;
  }

  lemma {:induction false} Occurs(pods: seq<Pod>, i: nat, c: ContainerStatus)
    requires i < |pods| && c in pods[i].containers
    ensures c in Containers(pods)
    decreases |pods|
  {
    if i < |pods| - 1 {
      Occurs(pods[..|pods| - 1], i, c);
    }
  }

  /**
   The check breaks off exactly if some container is neither ready nor waiting. Otherwise
   exactly one result is true: the first iff all containers are ready, the third iff some
   container that is not ready waits for another reason than being created.
   */
  lemma ExactlyOneResult(cs: seq<ContainerStatus>)
    ensures var v := Meaning(cs);
            && (v == NilDereference <==> exists c :: c in cs && !c.ready && c.waiting.None?)
            && (v != NilDereference ==>
                  && v.Verdict?
                  && (v.first ==> !v.second && !v.third) && (v.second ==> !v.third) && (v.first || v.second || v.third)
                  && (v.first <==> forall c :: c in cs ==> c.ready)
                  && (v.third <==> exists c :: c in cs && !c.ready && c.waiting != Some("ContainerCreating")))
  {
    if c :| c in cs && !c.ready && c.waiting.None? {
      assert Unexplained(c);
    }
    if c :| c in cs && Stuck(c) {
      assert !c.ready && c.waiting != Some("ContainerCreating");
    }
    if c :| c in cs && !c.ready && c.waiting != Some("ContainerCreating") {
      assert Stuck(c) || Unexplained(c);
    }
  }

  /** Reordering pods, or containers among them, changes nothing. */
  lemma OrderIrrelevant(pods: seq<Pod>, pods': seq<Pod>)
    requires multiset(Containers(pods)) == multiset(Containers(pods'))
    ensures Meaning(Containers(pods)) == Meaning(Containers(pods'))
  {
    hide Containers, Meaning;
    SameMembers(Containers(pods), Containers(pods'));
  }

  lemma SameMembers(cs: seq<ContainerStatus>, cs': seq<ContainerStatus>)
    requires multiset(cs) == multiset(cs')
    ensures Meaning(cs) == Meaning(cs')
  {
    assert forall c :: c in cs <==> c in cs' by {
      forall c ensures c in cs <==> c in cs' {
        assert c in cs <==> c in multiset(cs);
        assert c in cs' <==> c in multiset(cs');
      }
    }
  }
}
