/** What every state of a run says about the pass in progress: which copy it works from, which steps are
    left, and what the gate decided. */
module Lifecycle {
  import opened Cluster
  import opened Plan
  import opened Machine

  function PlanOf(snap: Cr, phase: Phase): seq<Op>
  {
    if phase.Up? then Upstream(snap.spec) else Downstream(snap.spec)
  }

  /** The gate lets a pass through when the image is recorded, or when told to skip the check. */
  predicate Passed(snap: Cr, gate: Gate)
  {
    if gate == MigrateComplete then snap.status.migrated == MigrateImage(snap.spec)
    else Skip(snap) && snap.status.migrated != MigrateImage(snap.spec)
  }

  /** Past the checks at the start of Reconcile. */
  predicate Acting(pc: Pc)
  {
    match pc
    case Idle(_) => false
    case AddFinalizer(_) => false
    case MarkDeleting(_) => false
    case DropFinalizer(_) => false
    case Report(_, reason) => reason == MigrationFailed
    case _ => true
  }

  /** Before the gate, or at it. */
  predicate BeforeGate(pc: Pc)
  {
    match pc
    case Todo(_, phase, _, _) => phase.Up?
    case ForceLook(_) => true
    case ForceDelete(_) => true
    case ForcePatch(_) => true
    case LookUp(_) => true
    case MakeJob(_) => true
    case DropStale(_) => true
    case Record(_, _) => true
    case _ => false
  }

  /** The migration is asked for and not forced: the branch of reconcileMigrateJob that looks at the Job. */
  predicate Migrating(pc: Pc) { pc.LookUp? || pc.MakeJob? || pc.DropStale? || pc.Record? }

  predicate Forcing(pc: Pc) { pc.ForceLook? || pc.ForceDelete? || pc.ForcePatch? }

  ghost predicate Shape(pc: Pc, fetched: Cr)
  {
    && (Acting(pc) ==> Actionable(fetched))
    && (BeforeGate(pc) ==> pc.snap == fetched)
    && (Migrating(pc) ==> !Force(pc.snap) && pc.snap.status.migrated != MigrateImage(pc.snap.spec))
    && (Forcing(pc) ==> Force(pc.snap))
    && (pc.Todo? ==>
          && pc.rest != []
          && (forall op :: op in pc.rest ==> op in PlanOf(pc.snap, pc.phase))
          && (pc.seen.Absent? ==> pc.rest[0].Apply?)
          && (pc.seen.Found? && pc.rest[0].Apply? ==> pc.rest[0].id.kind != Secret)
          && (pc.phase.Down? ==> Passed(pc.snap, pc.phase.gate)))
    && (pc.Finish? ==> Passed(pc.snap, pc.gate))
    && (pc.Report? ==> Reportable(pc.snap, pc.reason))
  }

  predicate Reportable(snap: Cr, reason: Reason)
  {
    match reason
    case Paused => snap.finalizer && !snap.deleting && Enabled(snap.notes, PAUSE)
    case Invalid => snap.finalizer && !snap.deleting && !Enabled(snap.notes, PAUSE) && !snap.spec.valid
    case MigrationFailed => !Skip(snap) && snap.status.migrated != MigrateImage(snap.spec)
    case _ => false
  }

  lemma GatedShape(fetched: Cr, snap: Cr, gate: Gate)
    requires Actionable(fetched)
    requires gate == MigrateComplete <==> snap.status.migrated == MigrateImage(snap.spec)
    ensures Shape(Gated(snap, gate), fetched)
  {}

  lemma NextShape(fetched: Cr, snap: Cr, phase: Phase, rest: seq<Op>)
    requires Actionable(fetched) && (phase.Up? ==> snap == fetched) && (phase.Down? ==> Passed(snap, phase.gate))
    requires forall op :: op in rest ==> op in PlanOf(snap, phase)
    ensures Shape(Next(snap, phase, rest), fetched)
  {
    if rest == [] && phase.Up? && !Force(snap) && snap.status.migrated == MigrateImage(snap.spec) {
      GatedShape(fetched, snap, MigrateComplete);
    }
  }

  lemma ShapeHead(s: Sys)
    requires Shape(s.pc, s.fetched) && s.pc.Todo?
    ensures s.pc.rest != [] && (s.pc.seen.Absent? ==> s.pc.rest[0].Apply?)
    ensures s.pc.seen.Found? && s.pc.rest[0].Apply? ==> s.pc.rest[0].id.kind != Secret
  {}

  /** A call of the plan leaves the names as they are or does its step. */
  lemma TodoNames(s: Sys, outcome: Outcome)
    requires s.pc.Todo? && s.pc.rest != [] && (s.pc.seen.Absent? ==> s.pc.rest[0].Apply?)
    requires s.pc.seen.Found? && s.pc.rest[0].Apply? ==> s.pc.rest[0].id.kind != Secret
    ensures var t := StepTodo(s, outcome);
            var (names, done) := (s.store.objs.Keys, AfterOp(s.store.objs.Keys, s.pc.rest[0]));
            || (t.pc == Idle(Error) && (t.store.objs.Keys == names || t.store.objs.Keys == done))
            || (t.pc.Todo? && t.pc == s.pc.(seen := t.pc.seen) && t.store.objs.Keys == names)
            || (t.pc == Next(s.pc.snap, s.pc.phase, s.pc.rest[1..]) && t.store.objs.Keys == done)
  {
    hide Next, Merged, BodyFor;
  }

  lemma StepTodoShape(s: Sys, outcome: Outcome)
    requires Shape(s.pc, s.fetched) && s.pc.Todo?
    ensures Shape(StepTodo(s, outcome).pc, s.fetched)
  {
    hide Next, Merged, Fresh, Upstream, Downstream, Actionable, Passed, CreateObj, UpdateObj, DeleteObj;
    NextShape(s.fetched, s.pc.snap, s.pc.phase, s.pc.rest[1..]);
  }

  lemma StepMigrateShape(s: Sys, outcome: Outcome)
    requires Shape(s.pc, s.fetched) && InMigrate(s.pc)
    ensures Shape(StepMigrate(s, outcome).pc, s.fetched)
  {
    hide Gated, Actionable, MigrateImage, UpdateStatus, CreateJob, DeleteJob;
    var snap := s.pc.snap;
    GatedShape(s.fetched, snap, MigrateInProgress);
    GatedShape(s.fetched, snap, MigrateFailed);
    GatedShape(s.fetched, Refreshed(s, WithMigrated(snap, MigrateImage(snap.spec))), MigrateComplete);
  }

  lemma StepForceShape(s: Sys, outcome: Outcome)
    requires Shape(s.pc, s.fetched) && InForce(s.pc)
    ensures Shape(StepForce(s, outcome).pc, s.fetched)
  {
    hide Gated, Actionable, MigrateImage, UpdateStatus, PatchNotes, DeleteJob;
    if s.pc.ForceReset? {
      GatedShape(s.fetched, Refreshed(s, WithMigrated(s.pc.snap, "")), MigrateInProgress);
    }
  }

  lemma StepResourceShape(s: Sys, outcome: Outcome)
    requires OnResource(s.pc)
    ensures Shape(StepResource(s, outcome).pc, s.fetched)
  {
    hide Actionable, Enabled, UpdateCr, UpdateStatus, MigrateImage, FinalReason;
  }

  lemma ActShape(s: Sys, outcome: Outcome)
    requires Shape(s.pc, s.fetched) && !s.pc.Idle?
    ensures Shape(Act(s, outcome).pc, s.fetched)
  {
    hide StepTodo, StepMigrate, StepForce, StepResource, MigrateImage, Enabled, Actionable, Upstream, Downstream;
    if s.pc.Todo? {
      StepTodoShape(s, outcome);
    } else if OnResource(s.pc) {
      StepResourceShape(s, outcome);
    } else if InForce(s.pc) {
      StepForceShape(s, outcome);
    } else {
      StepMigrateShape(s, outcome);
    }
  }

  /** Every step of every run keeps the shape. */
  lemma StepShape(s: Sys, a: Action)
    requires Shape(s.pc, s.fetched)
    ensures Shape(Step(s, a).pc, Step(s, a).fetched)
  {
    hide Disturb, Upstream, Downstream, Enabled;
    if a.Operator? && !s.pc.Idle? {
      hide Act, Shape;
      ActFrame(s, a.outcome);
      ActShape(s, a.outcome);
    }
  }

  lemma {:induction false} RunShape(s: Sys, actions: seq<Action>)
    requires Shape(s.pc, s.fetched)
    ensures Shape(Run(s, actions).pc, Run(s, actions).fetched)
    decreases |actions|
  {
    hide Step, Shape;
    if actions != [] {
      StepShape(s, actions[0]);
      RunShape(Step(s, actions[0]), actions[1..]);
    }
  }

  lemma ReachableShape(s: Sys)
    requires Reachable(s)
    ensures Shape(s.pc, s.fetched)
  {
    hide Step;
    var s0: Sys, actions: seq<Action> :| Init(s0) && s == Run(s0, actions);
    RunShape(s0, actions);
  }

  lemma GatedNotDone(snap: Cr, gate: Gate)
    ensures Gated(snap, gate) != Idle(Done)
  {}

  lemma NextNotDone(snap: Cr, phase: Phase, rest: seq<Op>)
    ensures Next(snap, phase, rest) != Idle(Done)
  {
    hide Gated;
    GatedNotDone(snap, MigrateComplete);
  }

  /** A pass is done for good only at a finalizer, with a halting condition, or after its last status write with the
      migration no longer in progress: while it is in progress every pass asks to be called again or failed. */
  lemma DoneIsFinal(s: Sys, outcome: Outcome)
    requires Shape(s.pc, s.fetched) && !s.pc.Idle? && Act(s, outcome).pc == Idle(Done)
    ensures s.pc.AddFinalizer? || s.pc.DropFinalizer? || s.pc.Report? || (s.pc.Finish? && s.pc.gate != MigrateInProgress)
  {
    hide StepTodo, StepResource, Gated, Next, MigrateImage, Enabled, Actionable, Upstream, Downstream;
    GatedNotDone(s.pc.snap, MigrateInProgress);
    GatedNotDone(s.pc.snap, MigrateFailed);
    if s.pc.Todo? {
      TodoNames(s, outcome);
      NextNotDone(s.pc.snap, s.pc.phase, s.pc.rest[1..]);
    } else if s.pc.ForceReset? {
      GatedNotDone(Refreshed(s, WithMigrated(s.pc.snap, "")), MigrateInProgress);
    } else if s.pc.Record? {
      GatedNotDone(Refreshed(s, WithMigrated(s.pc.snap, MigrateImage(s.pc.snap.spec))), MigrateComplete);
    } else if OnResource(s.pc) {
      ResourceNotDone(s, outcome);
    }
  }

  lemma ResourceNotDone(s: Sys, outcome: Outcome)
    requires OnResource(s.pc) && StepResource(s, outcome).pc == Idle(Done)
    ensures s.pc.AddFinalizer? || s.pc.DropFinalizer? || s.pc.Report? || (s.pc.Finish? && s.pc.gate != MigrateInProgress)
  {
    hide UpdateCr, UpdateStatus, FinalReason;
  }
}
