/**
 The manifest-apply engine: three loops over a YAML stream (pkg/kubernetes/kubernetes.go)
 and the wrappers that choose their filters (pkg/kubernetes/instance.go).

 Every API call may fail without effect. The failures of one pass are an arbitrary
 function of the position in the stream, so a statement about all passes is a
 statement about all failure patterns.
 */
module KubeCli {
  import opened Results
  import opened ApiServer
  import opened Manifest

  datatype Fault = NoFault | DiscoveryFault | GetFault | WriteFault

  type Faults = nat -> Fault

  /** The namespace-to-name map that a pass returns. */
  type Names = map<string, string>

  datatype PassError = DecodeFailed | DiscoveryFailed | CallFailed(error: ApiError)

  datatype Outcome = Outcome(cluster: Cluster, result: Result<Names, PassError>)

  ghost predicate Faultless(faults: Faults) {
    forall i :: faults(i) == NoFault
  }

  /** Decoding and discovery, which come before the filter. */
  function Resolve(d: Document, fault: Fault): Result<Unstructured, PassError> {
    match d
    case Undecodable => Err(DecodeFailed)
    case Undiscoverable(_) => Err(DiscoveryFailed)
    case Object(o) => if fault.DiscoveryFault? then Err(DiscoveryFailed) else Ok(o)
  }

  /** Why a pass stops at a document: at decoding, at discovery, or because of an API call. */
  function Cause(d: Document, fault: Fault, call: ApiError): PassError {
    if d.Undecodable? then DecodeFailed
    else if d.Undiscoverable? || fault == DiscoveryFault then DiscoveryFailed
    else CallFailed(call)
  }

  function CreateCall(c: Cluster, o: Unstructured, fault: Fault): Reply {
    if fault.WriteFault? then Reply(c, Some(Unavailable)) else Create(c, o.key, o.body)
  }

  function UpdateCall(c: Cluster, o: Unstructured, version: nat, fault: Fault): Reply {
    if fault.WriteFault? then Reply(c, Some(Unavailable)) else Update(c, o.key, o.body, version)
  }

  function DeleteCall(c: Cluster, k: Key, fault: Fault): Reply {
    if fault.WriteFault? then Reply(c, Some(Unavailable)) else Delete(c, k)
  }

  /** The create-only pass from document i on. */
  function CreateFrom(keep: Filter, docs: seq<Document>, i: nat, faults: Faults, c: Cluster, made: Names): Outcome
    requires i <= |docs|
    decreases |docs| - i
  {
    if i == |docs| then Outcome(c, Ok(made))
    else
      match Resolve(docs[i], faults(i))
      case Err(e) => Outcome(c, Err(e))
      case Ok(o) =>
        if !keep(o.kind) then CreateFrom(keep, docs, i + 1, faults, c, made)
        else
          var reply := CreateCall(c, o, faults(i));
          if reply.error.Some? then Outcome(reply.cluster, Err(CallFailed(reply.error.value)))
          else CreateFrom(keep, docs, i + 1, faults, reply.cluster, made[o.key.namespace := o.key.name])
  }

  function CreatePass(keep: Filter, docs: seq<Document>, faults: Faults, c: Cluster): Outcome {
    CreateFrom(keep, docs, 0, faults, c, map[])
  }

  /**
   The create-or-update pass from document i on, when no other client writes in
   between. A created object is not recorded in the returned map.
   */
  function UpsertFrom(keep: Filter, docs: seq<Document>, i: nat, faults: Faults, c: Cluster, made: Names): Outcome
    requires i <= |docs|
    decreases |docs| - i
  {
    if i == |docs| then Outcome(c, Ok(made))
    else
      match Resolve(docs[i], faults(i))
      case Err(e) => Outcome(c, Err(e))
      case Ok(o) =>
        if !keep(o.kind) then UpsertFrom(keep, docs, i + 1, faults, c, made)
        else if faults(i).GetFault? then Outcome(c, Err(CallFailed(Unavailable)))
        else if o.key !in c.objects then
          var reply := CreateCall(c, o, faults(i));
          if reply.error.Some? then Outcome(reply.cluster, Err(CallFailed(reply.error.value)))
          else UpsertFrom(keep, docs, i + 1, faults, reply.cluster, made)
        else
          var reply := UpdateCall(c, o, c.objects[o.key].version, faults(i));
          if reply.error.Some? then Outcome(reply.cluster, Err(CallFailed(reply.error.value)))
          else UpsertFrom(keep, docs, i + 1, faults, reply.cluster, made[o.key.namespace := o.key.name])
  }

  function UpsertPass(keep: Filter, docs: seq<Document>, faults: Faults, c: Cluster): Outcome {
    UpsertFrom(keep, docs, 0, faults, c, map[])
  }

  /** The delete pass from document i on; an object that is already gone is no error. */
  function DeleteFrom(docs: seq<Document>, i: nat, faults: Faults, c: Cluster): Outcome
    requires i <= |docs|
    decreases |docs| - i
  {
    if i == |docs| then Outcome(c, Ok(map[]))
    else
      match Resolve(docs[i], faults(i))
      case Err(e) => Outcome(c, Err(e))
      case Ok(o) =>
        var reply := DeleteCall(c, o.key, faults(i));
        if reply.error.Some? && reply.error.value != NotFound then
          Outcome(reply.cluster, Err(CallFailed(reply.error.value)))
        else DeleteFrom(docs, i + 1, faults, reply.cluster)
  }

  function DeletePass(docs: seq<Document>, faults: Faults, c: Cluster): Outcome {
    DeleteFrom(docs, 0, faults, c)
  }

  /** The broker's client; `cluster` is the state of the server behind it. */
  class KubeCli {
    var cluster: Cluster

    constructor (cluster: Cluster)
      ensures this.cluster == cluster
    {
      this.cluster := cluster;
    }

    method Get(k: Key, fault: Fault) returns (r: Result<Stored, ApiError>)
      ensures r == if fault.GetFault? then Err(Unavailable)
                   else if k in cluster.objects then Ok(cluster.objects[k])
                   else Err(NotFound)
    {
      if fault.GetFault? { return Err(Unavailable); }
      if k !in cluster.objects { return Err(NotFound); }
      return Ok(cluster.objects[k]);
    }

    method Create(o: Unstructured, fault: Fault) returns (error: Option<ApiError>)
      modifies this
      ensures Reply(cluster, error) == CreateCall(old(cluster), o, fault)
    {
      if fault.WriteFault? { return Some(Unavailable); }
      var reply := ApiServer.Create(cluster, o.key, o.body);
      cluster := reply.cluster;
      return reply.error;
    }

    method Update(o: Unstructured, version: nat, fault: Fault) returns (error: Option<ApiError>)
      modifies this
      ensures Reply(cluster, error) == UpdateCall(old(cluster), o, version, fault)
    {
      if fault.WriteFault? { return Some(Unavailable); }
      var reply := ApiServer.Update(cluster, o.key, o.body, version);
      cluster := reply.cluster;
      return reply.error;
    }

    method Delete(k: Key, fault: Fault) returns (error: Option<ApiError>)
      modifies this
      ensures Reply(cluster, error) == DeleteCall(old(cluster), k, fault)
    {
      if fault.WriteFault? { return Some(Unavailable); }
      var reply := ApiServer.Delete(cluster, k);
      cluster := reply.cluster;
      return reply.error;
    }

    method CreateFromReader(keep: Filter, docs: seq<Document>, faults: Faults)
      returns (r: Result<Names, PassError>)
      modifies this
      ensures Outcome(cluster, r) == CreatePass(keep, docs, faults, old(cluster))
    {
      var made: Names := map[];
      var i := 0;
      while i < |docs|
        invariant 0 <= i <= |docs|
        invariant CreateFrom(keep, docs, i, faults, cluster, made)
               == CreatePass(keep, docs, faults, old(cluster))
      {
        var resolved := Resolve(docs[i], faults(i));
        if resolved.Err? { return Err(resolved.error); }
        var o := resolved.value;
        if keep(o.kind) {
          var error := Create(o, faults(i));
          if error.Some? { return Err(CallFailed(error.value)); }
          made := made[o.key.namespace := o.key.name];
        }
        i := i + 1;
      }
      return Ok(made);
    }

    method CreateOrUpdateFromReader(keep: Filter, docs: seq<Document>, faults: Faults)
      returns (r: Result<Names, PassError>)
      modifies this
      ensures Outcome(cluster, r) == UpsertPass(keep, docs, faults, old(cluster))
    {
      var made: Names := map[];
      var i := 0;
      while i < |docs|
        invariant 0 <= i <= |docs|
        invariant UpsertFrom(keep, docs, i, faults, cluster, made)
               == UpsertPass(keep, docs, faults, old(cluster))
      {
        var resolved := Resolve(docs[i], faults(i));
        if resolved.Err? { return Err(resolved.error); }
        var o := resolved.value;
        if keep(o.kind) {
          var oldObj := Get(o.key, faults(i));
          if oldObj.Err? {
            if oldObj.error != NotFound { return Err(CallFailed(oldObj.error)); }
            var error := Create(o, faults(i));
            if error.Some? { return Err(CallFailed(error.value)); }
          } else {
            var error := Update(o, oldObj.value.version, faults(i));
            if error.Some? { return Err(CallFailed(error.value)); }
            made := made[o.key.namespace := o.key.name];
          }
        }
        i := i + 1;
      }
      return Ok(made);
    }

    method DeleteFromReader(docs: seq<Document>, faults: Faults) returns (r: Result<Names, PassError>)
      modifies this
      ensures Outcome(cluster, r) == DeletePass(docs, faults, old(cluster))
    {
      var i := 0;
      while i < |docs|
        invariant 0 <= i <= |docs|
        invariant DeleteFrom(docs, i, faults, cluster) == DeletePass(docs, faults, old(cluster))
      {
        var resolved := Resolve(docs[i], faults(i));
        if resolved.Err? { return Err(resolved.error); }
        var error := Delete(resolved.value.key, faults(i));
        if error.Some? && error.value != NotFound { return Err(CallFailed(error.value)); }
        i := i + 1;
      }
      return Ok(map[]);
    }

    method CreateService(docs: seq<Document>, faults: Faults) returns (r: Result<Names, PassError>)
      modifies this
      ensures Outcome(cluster, r) == CreatePass(IsService, docs, faults, old(cluster))
    {
      r := CreateFromReader(IsService, docs, faults);
    }

    method CreateInstance(docs: seq<Document>, faults: Faults) returns (r: Result<Names, PassError>)
      modifies this
      ensures Outcome(cluster, r) == CreatePass(IsWorkload, docs, faults, old(cluster))
    {
      r := CreateFromReader(IsWorkload, docs, faults);
    }

    method UpdateService(docs: seq<Document>, faults: Faults) returns (r: Result<Names, PassError>)
      modifies this
      ensures Outcome(cluster, r) == UpsertPass(IsService, docs, faults, old(cluster))
    {
      r := CreateOrUpdateFromReader(IsService, docs, faults);
    }

    method UpdateInstance(docs: seq<Document>, faults: Faults) returns (r: Result<Names, PassError>)
      modifies this
      ensures Outcome(cluster, r) == UpsertPass(IsUpdatableWorkload, docs, faults, old(cluster))
    {
      r := CreateOrUpdateFromReader(IsUpdatableWorkload, docs, faults);
    }

    method DeleteInstance(docs: seq<Document>, faults: Faults) returns (r: Result<Names, PassError>)
      modifies this
      ensures Outcome(cluster, r) == DeletePass(docs, faults, old(cluster))
    {
      r := DeleteFromReader(docs, faults);
    }
  }
}
