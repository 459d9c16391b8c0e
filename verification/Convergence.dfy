/** A complete pass settles every owned object, from any store; what is left depends on the specification
    alone, and another pass changes nothing. */
module Convergence {
  import opened Options
  import opened Cluster
  import opened Plan
  import opened Machine
  import opened Passes

  /** The step has nothing to change. */
  predicate Settled(objs: map<Id, Obj>, spec: Spec, op: Op)
  {
    if op.Remove? then op.id !in objs
    else op.id in objs && (op.id.kind == Secret || Merged(spec, op.id, objs[op.id].body) == objs[op.id].body)
  }

  ghost predicate Converged(objs: map<Id, Obj>, spec: Spec)
  {
    forall op :: Fits(spec, op) ==> Settled(objs, spec, op)
  }

  // ---------------------------------------------------------------- plans settle

  lemma ExecOpSettles(st: Store, spec: Spec, op: Op)
    ensures Settled(ExecOp(st, spec, op).objs, spec, op)
  {
    hide Preserving, BodyFor;
    if op.Apply? && op.id.kind != Secret {
      MergedSettles(BodyFor(spec, op.id), KeepFor(spec, op.id), if op.id in st.objs then st.objs[op.id].body else Data(0));
    }
  }

  /** Steps that fit a specification do not undo each other: the same name means the same step. */
  lemma ExecOpKeeps(st: Store, spec: Spec, op: Op, other: Op)
    requires Fits(spec, op) && Fits(spec, other) && Settled(st.objs, spec, other)
    ensures Settled(ExecOp(st, spec, op).objs, spec, other)
  {
    hide Merged, BodyFor;
    if op.id == other.id {
      assert op == other by { hide Wanted, Managed; }
      ExecOpSettles(st, spec, op);
    }
  }

  lemma {:induction false} ExecSettles(st: Store, spec: Spec, ops: seq<Op>, op: Op)
    requires forall o :: o in ops ==> Fits(spec, o)
    requires Fits(spec, op) && (op in ops || Settled(st.objs, spec, op))
    ensures Settled(Exec(st, spec, ops).objs, spec, op)
    decreases |ops|
  {
    hide Settled, ExecOp, Fits;
    if ops != [] {
      assert ops[0] in ops;
      if op == ops[0] {
        ExecOpSettles(st, spec, op);
      } else if op !in ops[1..] {
        ExecOpKeeps(st, spec, ops[0], op);
      }
      ExecSettles(ExecOp(st, spec, ops[0]), spec, ops[1..], op);
    }
  }

  /** Nothing to change means nothing is changed, not even a version. */
  lemma {:induction false} ExecIdle(st: Store, spec: Spec, ops: seq<Op>)
    requires forall o :: o in ops ==> Settled(st.objs, spec, o)
    ensures Exec(st, spec, ops) == st
    decreases |ops|
  {
    hide Merged, BodyFor;
    if ops != [] {
      assert ops[0] in ops;
      if ops[0].Remove? {
        assert st.objs - {ops[0].id} == st.objs;
      }
      ExecIdle(st, spec, ops[1..]);
    }
  }

  /** Objects that are not at their old version are at a new one. */
  predicate Rewritten(before: map<Id, Obj>, after: map<Id, Obj>, from: nat)
  {
    forall id :: id in before && id in after ==> after[id] == before[id] || from <= after[id].rv
  }

  lemma {:induction false} ExecVersions(st: Store, spec: Spec, ops: seq<Op>, from: nat)
    requires from <= st.nextRv
    ensures var t := Exec(st, spec, ops);
            && st.nextRv <= t.nextRv
            && forall id :: id in t.objs && (id in st.objs ==> t.objs[id] != st.objs[id]) ==> from <= t.objs[id].rv
    decreases |ops|
  {
    hide Merged, BodyFor;
    if ops != [] {
      ExecVersions(ExecOp(st, spec, ops[0]), spec, ops[1..], from);
    }
  }

  lemma {:induction false} ExecFrame(st: Store, spec: Spec, ops: seq<Op>)
    ensures var t := Exec(st, spec, ops); t == st.(objs := t.objs, nextRv := t.nextRv)
    decreases |ops|
  {
    hide Merged, BodyFor;
    if ops != [] {
      ExecFrame(ExecOp(st, spec, ops[0]), spec, ops[1..]);
    }
  }

  /** Both plans one after the other, from any store. */
  lemma PlansConverge(st: Store, mid: Store, spec: Spec)
    requires mid.objs == Exec(st, spec, Upstream(spec)).objs
    ensures Converged(Exec(mid, spec, Downstream(spec)).objs, spec)
  {
    hide Upstream, Downstream, Settled, Fits, Exec;
    forall op | op in Upstream(spec) ensures Fits(spec, op) { UpstreamFits(spec, op); }
    forall op | op in Downstream(spec) ensures Fits(spec, op) { DownstreamFits(spec, op); }
    forall op | Fits(spec, op) ensures Settled(Exec(mid, spec, Downstream(spec)).objs, spec, op) {
      PlanIsByName(spec, op);
      if op !in Downstream(spec) {
        ExecSettles(st, spec, Upstream(spec), op);
      }
      ExecSettles(mid, spec, Downstream(spec), op);
    }
  }

  lemma PlansIdle(st: Store, spec: Spec)
    requires Converged(st.objs, spec)
    ensures Exec(st, spec, Upstream(spec)) == st && Exec(st, spec, Downstream(spec)) == st
  {
    hide Upstream, Downstream, Settled, Fits, Exec;
    forall op | op in Upstream(spec) ensures Settled(st.objs, spec, op) { UpstreamFits(spec, op); }
    forall op | op in Downstream(spec) ensures Settled(st.objs, spec, op) { DownstreamFits(spec, op); }
    ExecIdle(st, spec, Upstream(spec));
    ExecIdle(st, spec, Downstream(spec));
  }

  // ---------------------------------------------------------------- whole passes

  /** How an undisturbed pass over `cr` ends: without an error, with the Job and the recorded image of the table, and
      asking to be called again exactly while the migration is in progress. If the gate was open everything owned is
      settled; and over a settled store no owned object changes, versions included. */
  ghost predicate PassEnds(s: Sys, cr: Cr, t: Sys, after: Cr)
  {
    var (m, open) := (MigrationTable(s.store, cr), MigrationTable(s.store, cr).gate == MigrateComplete || Skip(cr));
    && InHand(t, after) && SameResource(cr, after) && !Force(after) && after.status.migrated == m.image
    && t.pc == Idle(if m.gate == MigrateInProgress then Requeue else Done)
    && t.store.job == m.job && t.store.pods == s.store.pods
    && (open ==> Converged(t.store.objs, cr.spec) && after.status.reason == FinalReason(cr, m.gate))
    && (!open && m.gate == MigrateFailed ==> after.status.reason == MigrationFailed)
    && (Converged(s.store.objs, cr.spec) ==> t.store.objs == s.store.objs)
    && Rewritten(s.store.objs, t.store.objs, s.store.nextRv)
  }

  /** Every undisturbed pass over an actionable resource without conflicting TLS sources ends like that, from any
      store whatever. */
  lemma PassConverges(s: Sys, cr: Cr) returns (n: nat, after: Cr)
    requires s.pc.Idle? && InHand(s, cr) && Actionable(cr) && !Conflicting(cr.spec)
    ensures PassEnds(s, cr, Go(Act(s, Ok), n), after)
  {
    hide Act, Go, Exec, Upstream, Downstream, Converged, MigrateImage, Enabled, Conflicting;
    var up := Act(s, Ok);
    var k := UpstreamUndisturbed(s, cr);
    var at := Go(up, k);
    ExecFrame(s.store, cr.spec, Upstream(cr.spec));
    var m, snap := MigrateUndisturbed(at, cr);
    GoAdds(up, k, m);
    var g := Go(up, k + m);
    var l;
    l, after := GateUndisturbed(g, snap, MigrationTable(s.store, cr).gate);
    GoAdds(up, k + m, l);
    n := k + m + l;
    SameDecisions(cr, snap);
    if Converged(s.store.objs, cr.spec) {
      PlansIdle(s.store, cr.spec);
      PlansIdle(g.store, cr.spec);
    }
    PlansConverge(s.store, g.store, cr.spec);
    ExecVersions(s.store, cr.spec, Upstream(cr.spec), s.store.nextRv);
    ExecVersions(g.store, snap.spec, Downstream(snap.spec), s.store.nextRv);
  }

  /** An undisturbed pass over an actionable resource ends, and it ends without an error exactly if no TLS block
      names both an issuer and a secret. */
  lemma PassSucceedsIffNoConflict(s: Sys, cr: Cr)
    requires s.pc.Idle? && InHand(s, cr) && Actionable(cr)
    ensures exists n :: Go(Act(s, Ok), n).pc.Idle?
    ensures (cr.spec.tsdbServerCert && cr.spec.tsdbServerSecret) || (cr.spec.tsdbClientCert && cr.spec.tsdbClientSecret)
            <==> !exists n :: Go(Act(s, Ok), n).pc.Idle? && Go(Act(s, Ok), n).pc.result != Error
  {
    ConflictFields(cr.spec);
    hide Act, Go, Converged, MigrateImage, Enabled, Conflicting, MigrationTable;
    if Conflicting(cr.spec) {
      var n := UpstreamUndisturbed(s, cr);
      forall m | Go(Act(s, Ok), m).pc.Idle? ensures Go(Act(s, Ok), m).pc.result == Error {
        GoStops(Act(s, Ok), m, n);
      }
    } else {
      var n, after := PassConverges(s, cr);
      assert Go(Act(s, Ok), n).pc.Idle?;
    }
  }

  lemma ConflictFields(spec: Spec)
    ensures Conflicting(spec)
            <==> (spec.tsdbServerCert && spec.tsdbServerSecret) || (spec.tsdbClientCert && spec.tsdbClientSecret)
  {}

  /** A specification that passes validation and names both for the TSDB server. */
  const BOTH_SOURCES := Spec(
    true, "1.96.0", "", "", "", "", "", "", false, false, 3, false, 2, false, 2, false, None,
    false, true, true, false, false, false, false, None, None, 0)

  /** Such a resource is actionable, and its first pass past the finalizer fails; validation has nothing to say. */
  lemma ConflictPassesValidation(s: Sys, cr: Cr)
    requires s.pc.Idle? && InHand(s, cr) && cr.spec == BOTH_SOURCES && cr.finalizer && !cr.deleting && cr.notes == map[]
    ensures Actionable(cr) && Act(s, Ok).pc == Idle(Error)
  {
    hide Upstream, Next;
    FetchUndisturbed(s, cr);
    FirstStep(cr);
  }

  lemma FirstStep(cr: Cr)
    requires ServerConflict(cr.spec)
    ensures Next(cr, Up, Upstream(cr.spec)) == Idle(Error)
  {
    hide SecretPlan, TransformAgentPlan, TsdbPlan;
  }

  /** From the gate to the end of the pass. */
  lemma GateUndisturbed(s: Sys, snap: Cr, gate: Gate) returns (n: nat, after: Cr)
    requires s.pc == Gated(snap, gate) && InHand(s, snap)
    ensures var (t, open) := (Go(s, n), gate == MigrateComplete || Skip(snap));
            && t.pc == Idle(if gate == MigrateInProgress then Requeue else Done)
            && InHand(t, after) && after.spec == snap.spec && after.notes == snap.notes
            && after.finalizer == snap.finalizer && after.deleting == snap.deleting
            && after.status.migrated == snap.status.migrated
            && (open ==> after.status.reason == FinalReason(snap, gate))
            && (!open && gate == MigrateFailed ==> after.status.reason == MigrationFailed)
            && t.store.job == s.store.job && t.store.pods == s.store.pods
            && t.store.objs == if open then Exec(s.store, snap.spec, Downstream(snap.spec)).objs else s.store.objs
  {
    hide Act, Go, Exec, Upstream, Downstream, MigrateImage, Enabled;
    if s.pc.Idle? {
      n, after := 0, snap;
      GoNone(s);
    } else if s.pc.Report? {
      n := 1;
      GoSteps(s);
      after := StatusUndisturbed(s, snap);
    } else {
      BlockedIffConflicting(snap.spec);
      assert Downstream(snap.spec)[0] in Downstream(snap.spec);
      var k := PlanUndisturbed(s);
      ExecFrame(s.store, snap.spec, Downstream(snap.spec));
      var f := Go(s, k);
      GoSteps(f);
      after := StatusUndisturbed(f, snap);
      GoAdds(s, k, 1);
      n := k + 1;
    }
  }

  lemma StatusUndisturbed(s: Sys, snap: Cr) returns (after: Cr)
    requires (s.pc.Finish? || s.pc.Report?) && s.pc.snap == snap && InHand(s, snap)
    ensures var t := Act(s, Ok);
            && t.pc == Idle(if s.pc.Finish? && s.pc.gate == MigrateInProgress then Requeue else Done)
            && InHand(t, after) && t.store == s.store.(cr := t.store.cr, nextRv := t.store.nextRv)
            && after.spec == snap.spec && after.notes == snap.notes && after.finalizer == snap.finalizer
            && after.deleting == snap.deleting && after.status.migrated == snap.status.migrated
            && after.status.reason == if s.pc.Report? then s.pc.reason else FinalReason(snap, s.pc.gate)
  {
    var next := WithReason(snap, if s.pc.Report? then s.pc.reason else FinalReason(snap, s.pc.gate));
    after := next.(rv := s.store.nextRv);
  }

  // ---------------------------------------------------------------- what a converged store looks like

  /** The names are those the specification wants, stated name by name, so any two histories agree on them.
      The two create-once secrets are the exception: they are never removed. */
  lemma NamesDependOnSpecAlone(objs: map<Id, Obj>, spec: Spec, id: Id)
    requires Converged(objs, spec) && Managed(id)
    ensures CreateOnce(id) ==> (Wanted(spec, id) ==> id in objs)
    ensures !CreateOnce(id) ==> (id in objs <==> Wanted(spec, id))
  {
    hide Wanted, Managed, Merged;
    var op := OpFor(spec, id);
    if CreateOnce(id) ==> Wanted(spec, id) {
      assert Fits(spec, op);
    }
  }

  /** A settled workload runs its component's image with its component's secrets, and with the wanted replica
      count unless an autoscaler owns the count. */
  lemma ConvergedWorkload(objs: map<Id, Obj>, spec: Spec, id: Id)
    requires Converged(objs, spec) && Managed(id) && Wanted(spec, id) && IsWorkload(id.kind)
    ensures id in objs && objs[id].body.Workload? && objs[id].body.rest == spec.rest
    ensures objs[id].body.image == PartImage(spec, id.part) && objs[id].body.secrets == PartSecrets(spec, id.part)
    ensures PartReplicas(spec, id.part).Some? ==> objs[id].body.replicas == PartReplicas(spec, id.part)
    ensures id.part == Node && !spec.nodeAutoscaling ==> objs[id].body.replicas == Some(spec.nodeReplicas)
    ensures id.part == Nats ==> objs[id].body.replicas == Some(spec.natsReplicas)
    ensures NoOverrides(spec) && id.part in {Jobs, Nats, Node, Opamp} ==> objs[id].body.image == MigrateImage(spec)
  {
    hide Wanted, Managed, PartSecrets;
    var op := OpFor(spec, id);
    assert Fits(spec, op);
    assert Settled(objs, spec, op);
  }

  /** The fields that decide which objects exist. */
  predicate SameWants(a: Spec, b: Spec)
  {
    && a.argoRollout == b.argoRollout && a.nodeDisablePdb == b.nodeDisablePdb && a.nodeAutoscaling == b.nodeAutoscaling
    && a.natsDisablePdb == b.natsDisablePdb && a.agentDisablePdb == b.agentDisablePdb && a.remoteTsdb == b.remoteTsdb
    && a.tsdbServerCert == b.tsdbServerCert && a.tsdbClientCert == b.tsdbClientCert && a.natsCert == b.natsCert
    && a.agentCert == b.agentCert && a.auth == b.auth && a.status == b.status && (a.opamp.Some? <==> b.opamp.Some?)
    && (a.opamp.Some? ==>
          && a.opamp.value.enabled == b.opamp.value.enabled && a.opamp.value.autoscaling == b.opamp.value.autoscaling
          && a.opamp.value.disablePdb == b.opamp.value.disablePdb)
  }

  lemma OneImage(spec: Spec, image: Image)
    ensures WithOverride(spec, Node, image) == spec.(nodeImage := image)
    ensures WithOverride(spec, Nats, image) == spec.(natsImage := image)
    ensures WithOverride(spec, Jobs, image) == spec.(jobsImage := image)
    ensures WithOverride(spec, Migrate, image) == spec.(migrateImage := image)
    ensures WithOverride(spec, TransformAgent, image) == spec.(agentImage := image)
    ensures WithOverride(spec, Tsdb, image) == spec.(tsdbImage := image)
    ensures spec.opamp.Some? ==> WithOverride(spec, Opamp, image) == spec.(opamp := Some(spec.opamp.value.(image := image)))
  {}

  lemma NoImage(spec: Spec, part: Part, image: Image)
    requires part !in IMAGE_PARTS + {Migrate} || (part == Opamp && spec.opamp.None?)
    ensures WithOverride(spec, part, image) == spec
  {}

  lemma ImagesKeepWants(spec: Spec, node: Image, nats: Image, jobs: Image, migrate: Image, agent: Image, tsdb: Image)
    ensures SameWants(spec, spec.(nodeImage := node, natsImage := nats, jobsImage := jobs,
                                  migrateImage := migrate, agentImage := agent, tsdbImage := tsdb))
  {}

  lemma OpampImageKeeps(spec: Spec, image: Image)
    requires spec.opamp.Some?
    ensures SameWants(spec, spec.(opamp := Some(spec.opamp.value.(image := image))))
  {}

  /** An override reaches images only. */
  lemma OverrideKeepsWants(spec: Spec, part: Part, image: Image)
    ensures SameWants(spec, WithOverride(spec, part, image))
  {
    hide WithOverride;
    if part !in IMAGE_PARTS + {Migrate} || (part == Opamp && spec.opamp.None?) {
      NoImage(spec, part, image);
    } else {
      OverrideKeeps(spec, part, image);
    }
  }

  lemma OverrideKeeps(spec: Spec, part: Part, image: Image)
    requires part in IMAGE_PARTS + {Migrate} && (part == Opamp ==> spec.opamp.Some?)
    ensures SameWants(spec, WithOverride(spec, part, image))
  {
    hide SameWants, WithOverride;
    OneImage(spec, image);
    var (node, nats, jobs) := (spec.nodeImage, spec.natsImage, spec.jobsImage);
    var (migrate, agent, tsdb) := (spec.migrateImage, spec.agentImage, spec.tsdbImage);
    ImagesKeepWants(spec, image, nats, jobs, migrate, agent, tsdb);
    ImagesKeepWants(spec, node, image, jobs, migrate, agent, tsdb);
    ImagesKeepWants(spec, node, nats, image, migrate, agent, tsdb);
    ImagesKeepWants(spec, node, nats, jobs, image, agent, tsdb);
    ImagesKeepWants(spec, node, nats, jobs, migrate, image, tsdb);
    ImagesKeepWants(spec, node, nats, jobs, migrate, agent, image);
    if spec.opamp.Some? {
      OpampImageKeeps(spec, image);
    }
  }

  lemma SameWantsAgree(a: Spec, b: Spec, id: Id)
    requires SameWants(a, b)
    ensures Wanted(a, id) <==> Wanted(b, id)
  {
    match id.part
    case Opamp =>
    case Node =>
    case SessionSecret =>
    case StatusSecret =>
    case _ =>
  }

  lemma WorkloadPart(spec: Spec, id: Id)
    requires Managed(id) && Wanted(spec, id) && IsWorkload(id.kind)
    ensures id.part in IMAGE_PARTS && (id.part == Opamp ==> spec.opamp.Some?)
  {
    hide CreatesSession, CreatesStatus;
  }

  /** An override rolls out one component: between complete passes before and after it is set, that component's
      workload gets the image, and every other workload keeps the image it has. */
  lemma OverrideRollsOutOnePart(before: map<Id, Obj>, after: map<Id, Obj>, spec: Spec, part: Part, image: Image, id: Id)
    requires image != "" && Converged(before, spec) && Converged(after, WithOverride(spec, part, image))
    requires Managed(id) && Wanted(spec, id) && IsWorkload(id.kind)
    ensures id in before && before[id].body.Workload? && id in after && after[id].body.Workload?
    ensures after[id].body.image == if id.part == part then image else before[id].body.image
  {
    hide Converged, NoOverrides, MigrateImage, PartImage, PartReplicas, PartSecrets, Wanted, Managed, WithOverride, IsWorkload,
         SameWants;
    OverrideKeepsWants(spec, part, image);
    SameWantsAgree(spec, WithOverride(spec, part, image), id);
    WorkloadPart(spec, id);
    ConvergedWorkload(before, spec, id);
    ConvergedWorkload(after, WithOverride(spec, part, image), id);
    OverrideReachesItsPart(spec, image, part, id.part);
  }

  /** Every operator secret that a wanted workload refers to is there. */
  lemma ConvergedSecrets(objs: map<Id, Obj>, spec: Spec, id: Id)
    requires Converged(objs, spec) && Managed(id) && Wanted(spec, id) && IsWorkload(id.kind)
    ensures PartSecrets(spec, id.part) <= objs.Keys
  {
    ReferencesMatchCreation(spec);
    forall secret | secret in PartSecrets(spec, id.part) ensures secret in objs {
      assert secret in {SESSION, STATUS_KEYS, BASIC_AUTH} && Wanted(spec, secret);
      NamesDependOnSpecAlone(objs, spec, secret);
    }
  }

  /** With autoscaling on, the node autoscaler targets the one kind of node workload that exists. */
  lemma AutoscalerTargetExists(objs: map<Id, Obj>, spec: Spec)
    requires Converged(objs, spec) && spec.nodeAutoscaling
    ensures Id(Hpa, Node) in objs && objs[Id(Hpa, Node)].body.Scaling?
    ensures var kind := objs[Id(Hpa, Node)].body.target;
            && kind in {Deployment, Rollout} && Id(kind, Node) in objs
            && (forall k :: k in {Deployment, Rollout} && Id(k, Node) in objs ==> k == kind)
  {
    var hpa := Id(Hpa, Node);
    NamesDependOnSpecAlone(objs, spec, hpa);
    NamesDependOnSpecAlone(objs, spec, Id(Deployment, Node));
    NamesDependOnSpecAlone(objs, spec, Id(Rollout, Node));
    assert Fits(spec, Apply(hpa));
    assert Settled(objs, spec, Apply(hpa));
  }
}
