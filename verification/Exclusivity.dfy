/** Between any two API calls of any run there is a node Deployment or a node Rollout, never both. */
module Exclusivity {
  import opened Cluster
  import opened Plan
  import opened Machine
  import opened Lifecycle

  const NODE_DEPLOYMENT := Id(Deployment, Node)
  const NODE_ROLLOUT := Id(Rollout, Node)

  predicate Clash(names: set<Id>) { NODE_DEPLOYMENT in names && NODE_ROLLOUT in names }

  /** Working through the steps from these names never has both, at the start or after any step. */
  predicate Exclusive(names: set<Id>, ops: seq<Op>)
    decreases |ops|
  {
    !Clash(names) && (ops == [] || Exclusive(AfterOp(names, ops[0]), ops[1..]))
  }

  /** Objects that vanish do no harm. */
  lemma {:induction false} ExclusiveFewer(names: set<Id>, fewer: set<Id>, ops: seq<Op>)
    requires Exclusive(names, ops) && fewer <= names
    ensures Exclusive(fewer, ops)
    decreases |ops|
  {
    if ops != [] {
      ExclusiveFewer(AfterOp(names, ops[0]), AfterOp(fewer, ops[0]), ops[1..]);
    }
  }

  lemma {:induction false} ExclusiveElsewhere(names: set<Id>, ops: seq<Op>)
    requires !Clash(names) && forall op :: op in ops ==> op.id.part != Node
    ensures Exclusive(names, ops) && !Clash(After(names, ops))
    decreases |ops|
  {
    if ops != [] {
      assert ops[0] in ops;
      ExclusiveElsewhere(AfterOp(names, ops[0]), ops[1..]);
    }
  }

  lemma {:induction false} ExclusiveConcat(names: set<Id>, a: seq<Op>, b: seq<Op>)
    requires Exclusive(names, a) && Exclusive(After(names, a), b)
    ensures Exclusive(names, a + b)
    decreases |a|
  {
    if a == [] {
      assert a + b == b;
    } else {
      assert (a + b)[1..] == a[1..] + b;
      ExclusiveConcat(AfterOp(names, a[0]), a[1..], b);
    }
  }

  /** The node reconciler deletes the other kind before it creates its own. */
  lemma SwitchIsExclusive(names: set<Id>, spec: Spec)
    requires !Clash(names)
    ensures Exclusive(names, NodePlan(spec)) && !Clash(After(names, NodePlan(spec)))
  {
    var account := [Apply(Id(ServiceAccount, Node))];
    var (loser, winner) := if spec.argoRollout then (NODE_DEPLOYMENT, NODE_ROLLOUT) else (NODE_ROLLOUT, NODE_DEPLOYMENT);
    var rest := [Apply(Id(Service, Node)), Toggle(Id(Pdb, Node), !spec.nodeDisablePdb),
                 Toggle(Id(Hpa, Node), spec.nodeAutoscaling)];
    assert NodePlan(spec) == account + ([Remove(loser), Apply(winner)] + rest);
    var (n1, n2) := (AfterOp(names, account[0]), AfterOp(AfterOp(names, account[0]), Remove(loser)));
    var n3 := AfterOp(n2, Apply(winner));
    assert !Clash(n1) && !Clash(n2) && !Clash(n3);
    OneStep(names, account[0]);
    TwoSteps(n1, Remove(loser), Apply(winner));
    SideSteps(n3, rest);
    ExclusiveConcat(n1, [Remove(loser), Apply(winner)], rest);
    AfterConcat(n1, [Remove(loser), Apply(winner)], rest);
    ExclusiveConcat(names, account, [Remove(loser), Apply(winner)] + rest);
    AfterConcat(names, account, [Remove(loser), Apply(winner)] + rest);
  }

  lemma OneStep(names: set<Id>, op: Op)
    ensures After(names, [op]) == AfterOp(names, op)
    ensures Exclusive(names, [op]) <==> !Clash(names) && !Clash(AfterOp(names, op))
  {
    assert [op][1..] == [];
    assert Exclusive(AfterOp(names, op), []) <==> !Clash(AfterOp(names, op));
  }

  lemma TwoSteps(names: set<Id>, a: Op, b: Op)
    ensures After(names, [a, b]) == AfterOp(AfterOp(names, a), b)
    ensures Exclusive(names, [a, b]) <==> !Clash(names) && !Clash(AfterOp(names, a)) && !Clash(AfterOp(AfterOp(names, a), b))
  {
    assert [a, b][1..] == [b];
    OneStep(AfterOp(names, a), b);
  }

  /** Steps for neither of the two workloads. */
  lemma {:induction false} SideSteps(names: set<Id>, ops: seq<Op>)
    requires !Clash(names) && forall op :: op in ops ==> op.id != NODE_DEPLOYMENT && op.id != NODE_ROLLOUT
    ensures Exclusive(names, ops) && !Clash(After(names, ops))
    decreases |ops|
  {
    if ops != [] {
      assert ops[0] in ops;
      SideSteps(AfterOp(names, ops[0]), ops[1..]);
    }
  }

  lemma DownstreamExclusive(names: set<Id>, spec: Spec)
    requires !Clash(names)
    ensures Exclusive(names, Downstream(spec))
  {
    hide JobsPlan, NatsPlan, NodePlan, OpampPlan, Fits;
    forall op | op in JobsPlan(spec) ensures op.id.part != Node { JobsFit(spec, op); }
    forall op | op in NatsPlan(spec) ensures op.id.part != Node { NatsFits(spec, op); }
    forall op | op in OpampPlan(spec) ensures op.id.part != Node { OpampFits(spec, op); }
    var n1 := After(names, JobsPlan(spec));
    var n2 := After(n1, NatsPlan(spec));
    var n3 := After(n2, NodePlan(spec));
    ExclusiveElsewhere(names, JobsPlan(spec));
    ExclusiveElsewhere(n1, NatsPlan(spec));
    SwitchIsExclusive(n2, spec);
    ExclusiveElsewhere(n3, OpampPlan(spec));
    ExclusiveConcat(names, JobsPlan(spec), NatsPlan(spec));
    AfterConcat(names, JobsPlan(spec), NatsPlan(spec));
    ExclusiveConcat(names, JobsPlan(spec) + NatsPlan(spec), NodePlan(spec));
    AfterConcat(names, JobsPlan(spec) + NatsPlan(spec), NodePlan(spec));
    ExclusiveConcat(names, JobsPlan(spec) + NatsPlan(spec) + NodePlan(spec), OpampPlan(spec));
  }

  lemma UpstreamExclusive(names: set<Id>, spec: Spec)
    requires !Clash(names)
    ensures Exclusive(names, Upstream(spec))
  {
    hide Upstream, Fits;
    forall op | op in Upstream(spec) ensures op.id.part != Node { UpstreamFits(spec, op); }
    ExclusiveElsewhere(names, Upstream(spec));
  }

  // ---------------------------------------------------------------- the invariant

  ghost predicate ExclusiveInv(s: Sys) { !Clash(s.store.objs.Keys) && OnTrack(s.store.objs.Keys, s.pc) }

  ghost predicate OnTrack(names: set<Id>, pc: Pc) { pc.Todo? ==> Exclusive(names, pc.rest) }

  lemma GatedOnTrack(names: set<Id>, snap: Cr, gate: Gate)
    requires !Clash(names)
    ensures OnTrack(names, Gated(snap, gate))
  {
    hide Downstream, Exclusive;
    DownstreamExclusive(names, snap.spec);
  }

  lemma NextOnTrack(names: set<Id>, snap: Cr, phase: Phase, rest: seq<Op>)
    requires Exclusive(names, rest)
    ensures OnTrack(names, Next(snap, phase, rest))
  {
    hide Gated;
    if rest == [] && phase.Up? {
      GatedOnTrack(names, snap, MigrateComplete);
    }
  }

  lemma TodoExclusive(s: Sys, outcome: Outcome)
    requires Shape(s.pc, s.fetched) && ExclusiveInv(s) && s.pc.Todo?
    ensures ExclusiveInv(StepTodo(s, outcome))
  {
    hide StepTodo, Look, Next, AfterOp, Clash, Shape;
    assert s.pc.rest != [] && (s.pc.seen.Absent? ==> s.pc.rest[0].Apply?)
           && (s.pc.seen.Found? && s.pc.rest[0].Apply? ==> s.pc.rest[0].id.kind != Secret) by { ShapeHead(s); }
    TodoNames(s, outcome);
    var names := AfterOp(s.store.objs.Keys, s.pc.rest[0]);
    assert Exclusive(names, s.pc.rest[1..]) && !Clash(names);
    NextOnTrack(names, s.pc.snap, s.pc.phase, s.pc.rest[1..]);
  }

  lemma MigrateExclusive(s: Sys, outcome: Outcome)
    requires ExclusiveInv(s) && InMigrate(s.pc)
    ensures ExclusiveInv(StepMigrate(s, outcome))
  {
    hide Gated, MigrateImage, Clash, UpdateStatus, CreateJob, DeleteJob;
    var (snap, names) := (s.pc.snap, s.store.objs.Keys);
    GatedOnTrack(names, snap, MigrateInProgress);
    GatedOnTrack(names, snap, MigrateFailed);
    GatedOnTrack(names, Refreshed(s, WithMigrated(snap, MigrateImage(snap.spec))), MigrateComplete);
  }

  lemma ForceExclusive(s: Sys, outcome: Outcome)
    requires ExclusiveInv(s) && InForce(s.pc)
    ensures ExclusiveInv(StepForce(s, outcome))
  {
    hide Gated, Clash, UpdateStatus, PatchNotes, DeleteJob;
    if s.pc.ForceReset? {
      GatedOnTrack(s.store.objs.Keys, Refreshed(s, WithMigrated(s.pc.snap, "")), MigrateInProgress);
    }
  }

  lemma ActExclusive(s: Sys, outcome: Outcome)
    requires Shape(s.pc, s.fetched) && ExclusiveInv(s)
    ensures ExclusiveInv(Act(s, outcome))
  {
    hide StepTodo, StepMigrate, StepForce, StepResource, Enabled, Upstream, Clash, Shape, Exclusive;
    if s.pc.Todo? {
      ShapeHead(s);
      TodoExclusive(s, outcome);
    } else if OnResource(s.pc) {
      StepResourceFrame(s, outcome);
    } else if InForce(s.pc) {
      ForceExclusive(s, outcome);
    } else if InMigrate(s.pc) {
      MigrateExclusive(s, outcome);
    } else if s.store.cr.Some? {
      UpstreamExclusive(s.store.objs.Keys, s.store.cr.value.spec);
    }
  }

  lemma DisturbExclusive(s: Sys, e: Env)
    requires ExclusiveInv(s)
    ensures ExclusiveInv(Disturb(s, e))
  {
    var (names, fewer) := (s.store.objs.Keys, Disturb(s, e).store.objs.Keys);
    assert fewer <= names;
    if s.pc.Todo? {
      ExclusiveFewer(names, fewer, s.pc.rest);
    }
  }

  lemma {:induction false} RunExclusive(s: Sys, actions: seq<Action>)
    requires Shape(s.pc, s.fetched) && ExclusiveInv(s)
    ensures ExclusiveInv(Run(s, actions))
    decreases |actions|
  {
    hide Act, Disturb, Shape, ExclusiveInv;
    if actions != [] {
      var a := actions[0];
      StepShape(s, a);
      if a.Operator? {
        ActExclusive(s, a.outcome);
      } else {
        DisturbExclusive(s, a.env);
      }
      RunExclusive(Step(s, a), actions[1..]);
    }
  }

  /** In no reachable state do a node Deployment and a node Rollout exist together, however often the mode was
      toggled and wherever passes broke off. */
  lemma NodeWorkloadsExclude(s: Sys)
    requires Reachable(s)
    ensures !(Id(Deployment, Node) in s.store.objs && Id(Rollout, Node) in s.store.objs)
  {
    hide Step;
    var s0: Sys, actions: seq<Action> :| Init(s0) && s == Run(s0, actions);
    RunExclusive(s0, actions);
  }
}
