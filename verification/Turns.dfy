/**
 What one turn of an interleaved call does, whatever the other calls did since its last
 one: in terms of the document, the stores and the hooks' fields.
 */
module Turns {
  import opened Results
  import opened ApiServer
  import opened Manifest
  import opened KubeCli
  import opened Dao
  import opened Broker
  import opened ProvisionRaces
  import Answers
  import UpdateRaces

  /** The cluster with one new object. */
  predicate MadeNew(c: Cluster, c': Cluster, o: Unstructured) {
    && o.key !in c.objects && c'.revision == c.revision + 1
    && c'.objects == c.objects[o.key := Stored(c.revision + 1, c.revision + 1, o.body)]
  }

  /** The cluster without the key, if it was there. */
  predicate Removed(c: Cluster, c': Cluster, k: Key) {
    && c'.objects == c.objects - {k}
    && c'.revision == if k in c.objects then c.revision + 1 else c.revision
  }

  /**
   A turn at a document of the Service pass. Discovery comes before the kind, a document
   of another kind is passed over, and a Service is created if its key is free and the
   call goes through; anything else ends the Provision with 500 and changes nothing.
   */
  lemma ServiceTurn(cfg: Config, w: World, phase: Phase, m: Meets)
    requires phase.CreatingServices? && phase.i < |cfg.decode(phase.p.yaml)|
    ensures var (w', phase') := Next(cfg, w, phase, m);
            var d := cfg.decode(phase.p.yaml)[phase.i];
            && w'.table == w.table
            && if !d.Object? || m.fault == DiscoveryFault
                  || (d.obj.kind == "Service" && (m.fault == WriteFault || d.obj.key in w.cluster.objects)) then
                 w' == w && phase' == Answered(phase.req, ProvisionFailed(InternalServerError))
               else if d.obj.kind != "Service" then
                 w' == w && phase' == CreatingServices(phase.req, phase.p, phase.i + 1, phase.made)
               else
                 && MadeNew(w.cluster, w'.cluster, d.obj)
                 && phase' == CreatingServices(phase.req, phase.p, phase.i + 1,
                                               phase.made[d.obj.key.namespace := d.obj.key.name])
  {
  }

  /** The turn after the last document: the special hook is told the Services of this call. */
  lemma SpecialTurn(cfg: Config, w: World, phase: Phase, m: Meets)
    requires phase.CreatingServices? && phase.i >= |cfg.decode(phase.p.yaml)|
    ensures var hooked := if phase.p.serviceName in cfg.services
                          then cfg.services[phase.p.serviceName].applySpecial(m.now, phase.p.yaml, phase.made)
                          else None;
            Next(cfg, w, phase, m)
            == (w, if hooked.None? then Answered(phase.req, ProvisionFailed(InternalServerError))
                   else CreatingWorkloads(phase.req, phase.p, hooked.value, phase.made, 0))
  {
  }

  /** A turn at a document of the workload pass, which passes Service and Ingress over. */
  lemma WorkloadTurn(cfg: Config, w: World, phase: Phase, m: Meets)
    requires phase.CreatingWorkloads? && phase.i < |cfg.decode(phase.yaml)|
    ensures var (w', phase') := Next(cfg, w, phase, m);
            var d := cfg.decode(phase.yaml)[phase.i];
            && w'.table == w.table
            && if !d.Object? || m.fault == DiscoveryFault
                  || (d.obj.kind !in {"Service", "Ingress"}
                      && (m.fault == WriteFault || d.obj.key in w.cluster.objects)) then
                 w' == w && phase' == Answered(phase.req, ProvisionFailed(InternalServerError))
               else
                 && phase' == CreatingWorkloads(phase.req, phase.p, phase.yaml, phase.names, phase.i + 1)
                 && if d.obj.kind in {"Service", "Ingress"} then w' == w else MadeNew(w.cluster, w'.cluster, d.obj)
  {
  }

  /** The dashboard hook is asked about the Services of this call; what is to be stored is the finished manifest. */
  lemma DashboardTurn(cfg: Config, w: World, phase: Phase, m: Meets)
    requires phase.CreatingWorkloads? && phase.i >= |cfg.decode(phase.yaml)|
    ensures var req, p := phase.req, phase.p;
            var url := if p.serviceName in cfg.services
                       then cfg.services[p.serviceName].getDashboardURL(m.now, req.parameters, phase.names) else None;
            Next(cfg, w, phase, m)
            == (w, if url.None? then Answered(req, ProvisionFailed(InternalServerError))
                   else
                     var row := Instance(req.instanceID, req.serviceID, p.instanceName, p.serviceName, req.planID,
                                         p.namespace, req.organizationGUID, req.spaceGUID, p.params, phase.yaml);
                     Inserting(req, row, url.value))
  {
  }

  /** The insert takes effect exactly if the table answers and the id has no row at that moment. */
  lemma InsertTurn(cfg: Config, w: World, phase: Phase, m: Meets)
    requires phase.Inserting?
    ensures Next(cfg, w, phase, m)
         == if m.down || phase.row.instanceID in w.table
            then (w, Answered(phase.req, ProvisionFailed(ServiceUnavailable)))
            else
              (World(w.cluster, w.table[phase.row.instanceID := phase.row]),
               Answered(phase.req, Provisioned(phase.url)))
  {
  }

  /** The first turn of a Provision: the select decides, then the request must render. */
  lemma RequestTurn(cfg: Config, w: World, req: ProvisionRequest, m: Meets)
    requires KeyedById(w.table)
    ensures var (w', phase') := Next(cfg, w, Requested(req), m);
            && w' == w
            && if m.down then phase' == Answered(req, ProvisionFailed(ServiceUnavailable))
               else if req.instanceID in w.table || req.instanceID == "" then
                 phase' == Answered(req, ProvisionFailed(Conflicts))
               else
                 || (phase' == Answered(req, ProvisionFailed(BadRequest))
                     && forall p ::
                          !Answers.RendersTo(cfg, req.instanceID, req.serviceID, req.planID, req.parameters, m.now, p))
                 || (phase'.CreatingServices? && phase' == CreatingServices(req, phase'.p, 0, map[])
                     && Answers.RendersTo(cfg, req.instanceID, req.serviceID, req.planID, req.parameters, m.now,
                                          phase'.p))
  {
    hide Prepare, Answers.RendersTo;
    var prepared := Prepare(cfg, req, m.now);
    if prepared.Some? { Answers.PrepareIff(cfg, req, m.now, prepared.value); }
    forall p | prepared.None?
      ensures !Answers.RendersTo(cfg, req.instanceID, req.serviceID, req.planID, req.parameters, m.now, p)
    {
      Answers.PrepareIff(cfg, req, m.now, p);
    }
  }

  /** The first turn of a Deprovision: it remembers the row, if its before-hook agrees. */
  lemma WithdrawalTurn(cfg: Config, w: World, id: string, m: Meets)
    ensures Next(cfg, w, Withdrawn(id), m)
         == (w, if m.down then Dismissed(id, DeprovisionFailed(ServiceUnavailable))
                else if id !in w.table || w.table[id].instanceID == "" then Dismissed(id, DeprovisionFailed(Gone))
                else if w.table[id].serviceName !in cfg.services
                        || !cfg.services[w.table[id].serviceName].beforeKubeDelete(m.now, w.table[id]) then
                  Dismissed(id, DeprovisionFailed(InternalServerError))
                else Deleting(id, w.table[id], 0))
  {
  }

  /** A turn at a document of the remembered row's manifest: its key is gone, or the Deprovision ends with 500. */
  lemma DeleteTurn(cfg: Config, w: World, phase: Phase, m: Meets)
    requires phase.Deleting? && phase.i < |cfg.decode(phase.row.yaml)|
    ensures var (w', phase') := Next(cfg, w, phase, m);
            var d := cfg.decode(phase.row.yaml)[phase.i];
            && w'.table == w.table
            && if !d.Object? || m.fault == DiscoveryFault || m.fault == WriteFault then
                 w' == w && phase' == Dismissed(phase.id, DeprovisionFailed(InternalServerError))
               else Removed(w.cluster, w'.cluster, d.obj.key) && phase' == Deleting(phase.id, phase.row, phase.i + 1)
  {
    var d := cfg.decode(phase.row.yaml)[phase.i];
    if d.Object? && d.obj.key !in w.cluster.objects {
      assert w.cluster.objects - {d.obj.key} == w.cluster.objects;
    }
  }

  /** The after-hook decides about the remembered row; the row of the id is deleted, whichever it is by then. */
  lemma DismissalTurns(cfg: Config, w: World, phase: Phase, m: Meets)
    ensures phase.Deleting? && phase.i >= |cfg.decode(phase.row.yaml)| ==>
              Next(cfg, w, phase, m)
              == (w, if phase.row.serviceName in cfg.services
                        && cfg.services[phase.row.serviceName].afterKubeDelete(m.now, phase.row)
                     then RemovingRow(phase.id, phase.row)
                     else Dismissed(phase.id, DeprovisionFailed(InternalServerError)))
    ensures phase.RemovingRow? ==>
              Next(cfg, w, phase, m)
              == if m.down then (w, Dismissed(phase.id, DeprovisionFailed(ServiceUnavailable)))
                 else (World(w.cluster, w.table - {phase.id}), Dismissed(phase.id, Deprovisioned))
  {
  }

  /** The row update rewrites plan, parameters and yaml of whatever row the id has by then. */
  lemma RewriteTurn(cfg: Config, w: World, phase: Phase, m: Meets)
    requires phase.Rewriting?
    ensures var id, row := phase.row.instanceID, phase.row;
            Next(cfg, w, phase, m)
            == if m.down then (w, Renewed(phase.up, UpdateFailed(ServiceUnavailable)))
               else if id !in w.table then (w, Renewed(phase.up, Updated))
               else (World(w.cluster, w.table[id := w.table[id].(planID := row.planID, parameters := row.parameters,
                                                                 yaml := row.yaml)]),
                     Renewed(phase.up, Updated))
  {
  }

  /** The turn after a loop of an Update has stopped. */
  lemma LoopEndTurn(cfg: Config, w: World, phase: Phase, m: Meets)
    requires phase.Upserting? && phase.loop.phase.Stopped?
    ensures var (w', phase') := Next(cfg, w, phase, m);
            var up, p, result := phase.up, phase.p, phase.loop.phase.result;
            && w' == w
            && if result.Err? then phase' == Renewed(up, UpdateFailed(InternalServerError))
               else if phase.finished.Some? then
                 phase' == Rewriting(up, Instance(up.instanceID, up.serviceID, "", p.serviceName, phase.planID,
                                                  p.namespace, "", "", p.params, phase.finished.value))
               else
                 var hooked := if p.serviceName in cfg.services
                               then cfg.services[p.serviceName].applySpecial(m.now, p.yaml, result.value) else None;
                 if hooked.None? then phase' == Renewed(up, UpdateFailed(InternalServerError))
                 else
                   phase' == Upserting(up, phase.planID, p, hooked,
                                       UpdateRaces.Loop(IsUpdatableWorkload, cfg.decode(hooked.value),
                                                        UpdateRaces.AtDocument(0), map[]))
  {
  }

  lemma DeprovisionTurn(cfg: Config, w: World, phase: Phase, m: Meets)
    requires phase.Deleting? || phase.RemovingRow? || phase.Dismissed?
    ensures var phase' := Next(cfg, w, phase, m).1;
            && (phase'.Deleting? || phase'.RemovingRow? || phase'.Dismissed?)
            && phase'.id == phase.id
            && (!phase'.Dismissed? ==> !phase.Dismissed? && phase'.row == phase.row)
  {
    hide DeleteOne, DeleteRow;
  }

  /** From its select on, a Deprovision works on the row that it found then. */
  lemma {:induction false} DeprovisionRemembers(cfg: Config, s: State, turns: seq<Turn>, d: nat, id: string,
                                               row: Instance)
    requires d < |s.calls|
    requires var phase := s.calls[d];
             || (phase.Deleting? && phase.id == id && phase.row == row)
             || (phase.RemovingRow? && phase.id == id && phase.row == row)
             || (phase.Dismissed? && phase.id == id)
    ensures var phase := Run(cfg, s, turns).calls[d];
            || (phase.Deleting? && phase.id == id && phase.row == row)
            || (phase.RemovingRow? && phase.id == id && phase.row == row)
            || (phase.Dismissed? && phase.id == id)
    decreases |turns|
  {
    if turns != [] {
      hide Evolves, Happened, Next;
      var before, t := Run(cfg, s, turns[..|turns| - 1]), turns[|turns| - 1];
      DeprovisionRemembers(cfg, s, turns[..|turns| - 1], d, id, row);
      if t.Turn? && t.p == d {
        DeprovisionTurn(cfg, before.world, before.calls[d], t.meets);
      }
    }
  }
}
