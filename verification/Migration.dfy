/** The migrate Job over whole runs: migrations never overlap, they make progress, and when a force is lost. */
module Migration {
  import opened Options
  import opened Cluster
  import opened Plan
  import opened Machine
  import opened Lifecycle
  import opened Passes
  import opened Convergence
  import opened GateSafety

  // ---------------------------------------------------------------- no two migrations overlap

  /** Every live migration pod belongs to the Job in the store. */
  ghost predicate PodsInv(st: Store)
  {
    forall uid :: uid in st.pods && st.pods[uid] > 0 ==> st.job.Some? && st.job.value.uid == uid
  }

  lemma ForcePods(s: Sys, outcome: Outcome)
    requires PodsInv(s.store) && InForce(s.pc)
    ensures PodsInv(StepForce(s, outcome).store)
  {
    hide UpdateStatus, PatchNotes, Gated;
  }

  lemma MigratePods(s: Sys, outcome: Outcome)
    requires PodsInv(s.store) && InMigrate(s.pc)
    ensures PodsInv(StepMigrate(s, outcome).store)
  {
    hide UpdateStatus, Gated, MigrateImage;
  }

  lemma DisturbPods(s: Sys, e: Env)
    requires PodsInv(s.store)
    ensures PodsInv(Disturb(s, e).store)
  {}

  lemma StepPods(s: Sys, a: Action)
    requires PodsInv(s.store)
    ensures PodsInv(Step(s, a).store)
  {
    hide StepTodo, StepForce, StepMigrate, StepResource, Start, Disturb;
    if a.Other? {
      DisturbPods(s, a.env);
    } else {
      if s.pc.Todo? && s.pc.rest != [] {
        StepTodoFrame(s, a.outcome);
      } else if OnResource(s.pc) {
        StepResourceFrame(s, a.outcome);
      } else if InForce(s.pc) {
        ForcePods(s, a.outcome);
      } else if InMigrate(s.pc) {
        MigratePods(s, a.outcome);
      }
    }
  }

  lemma {:induction false} RunPods(s: Sys, actions: seq<Action>)
    requires PodsInv(s.store)
    ensures PodsInv(Run(s, actions).store)
    decreases |actions|
  {
    hide Step;
    if actions != [] {
      StepPods(s, actions[0]);
      RunPods(Step(s, actions[0]), actions[1..]);
    }
  }

  /** In every reachable state all live migration pods belong to one Job, the one in the store: across stale-image
      replacement, force, retry and collection. */
  lemma NoOverlap(s: Sys, uid: nat)
    requires Reachable(s) && PodsOf(s.store, uid) > 0
    ensures s.store.job.Some? && s.store.job.value.uid == uid
    ensures forall other :: PodsOf(s.store, other) > 0 ==> other == uid
  {
    hide Step;
    var s0: Sys, actions: seq<Action> :| Init(s0) && s == Run(s0, actions);
    RunPods(s0, actions);
  }

  /** Foreground deletion is what this rests on: deleting a Job with a live pod in the background lets its
      successor run beside it. */
  lemma BackgroundWouldOverlap(st: Store, image: Image)
    requires st.job.Some? && PodsOf(st, st.job.value.uid) > 0 && st.job.value.uid < st.nextUid
    ensures var gone := DeleteJob(st, Background).value;
            var again := EnvStep(CreateJob(gone, image).value, PodStarts);
            PodsOf(again, st.job.value.uid) > 0 && PodsOf(again, st.nextUid) > 0
  {}

  // ---------------------------------------------------------------- progress

  /** Nobody changes the resource's specification or annotations, no Job fails and none is removed early. */
  predicate Steady(a: Action)
  {
    a.Operator? || !(a.env.UserEdits? || a.env.UserDeletes? || a.env.JobFails? || a.env.JobMarked?)
  }

  /** The copy in use agrees with the server on everything but the version. */
  predicate InSync(s: Sys)
  {
    && (!s.pc.Idle? ==>
          s.store.cr.Some? && s.store.cr.value.(rv := s.pc.snap.rv) == s.pc.snap)
    && (s.pc.DropStale? && s.store.job.Some? ==> s.store.job.value.image != MigrateImage(s.pc.snap.spec))
    && (s.pc.MakeJob? ==> s.store.job.None?)
    && (s.pc.ForceReset? ==> !Force(s.pc.snap))
  }

  /** How much the Job in the store still has to go through before it is gone. */
  function Work(job: Option<Job>): nat
  {
    if job.None? then 0
    else (if job.value.terminating then 1 else 3) + (if job.value.phase.Running? then 1 else 0)
  }

  /** A Job that counts for the desired image. */
  predicate Current(job: Option<Job>, image: Image) { job.Some? && !job.value.terminating && job.value.image == image }

  /** Distance to a recorded migration: recorded, then current Job complete, current Job running, no Job,
      terminating Job, stale Job, and above all of these a force that is under way or asked for. */
  function Rank(s: Sys): nat
  {
    if s.store.cr.None? then Work(s.store.job)
    else
      var (cr, job) := (s.store.cr.value, s.store.job);
      if Force(cr) then 20 + Work(job)
      else if InForce(s.pc) then 15 + Work(job)
      else if cr.status.migrated == MigrateImage(cr.spec) then Work(job)
      else if Current(job, MigrateImage(cr.spec)) then 5 + Work(job)
      else 10 + Work(job)
  }

  /** A step acts when it changes the Job, what is recorded, or the force annotation. */
  predicate Acts(s: Sys, t: Sys)
  {
    s.store.job != t.store.job
    || (s.store.cr.Some? && t.store.cr.Some?
        && (s.store.cr.value.status.migrated != t.store.cr.value.status.migrated
            || Force(s.store.cr.value) != Force(t.store.cr.value)))
  }

  /** A read changes nothing that the rank looks at. */
  lemma ReadRank(s: Sys, t: Sys)
    requires t.store == s.store && (InForce(t.pc) <==> InForce(s.pc))
    ensures Rank(t) == Rank(s) && !Acts(s, t)
  {
    hide Enabled, MigrateImage;
  }

  lemma ForceLookRank(s: Sys, outcome: Outcome)
    requires InSync(s) && s.pc.ForceLook?
    ensures var t := StepForce(s, outcome);
            InSync(t) && Rank(t) <= Rank(s) && !Acts(s, t)
  {
    hide Enabled, MigrateImage, Work, Current;
  }

  lemma ForceDeleteRank(s: Sys, outcome: Outcome)
    requires InSync(s) && s.pc.ForceDelete?
    ensures var t := StepForce(s, outcome);
            InSync(t) && Rank(t) <= Rank(s) && (Acts(s, t) ==> Rank(t) < Rank(s))
  {
    hide Enabled, MigrateImage;
  }

  lemma ForcePatchRank(s: Sys, outcome: Outcome)
    requires InSync(s) && s.pc.ForcePatch? && Force(s.pc.snap)
    ensures var t := StepForce(s, outcome);
            InSync(t) && Rank(t) <= Rank(s) && (Acts(s, t) ==> Rank(t) < Rank(s))
  {
    hide Enabled, MigrateImage, Current;
    var notes := s.store.cr.value.notes;
    Unset(if FORCE_MIGRATE in notes then notes - {FORCE_MIGRATE} else notes, FORCE_MIGRATE);
  }

  lemma ForceResetRank(s: Sys, outcome: Outcome)
    requires JobInv(s) && InSync(s) && s.pc.ForceReset?
    ensures var t := StepForce(s, outcome);
            InSync(t) && Rank(t) <= Rank(s) && (Acts(s, t) ==> Rank(t) < Rank(s))
  {
    hide Enabled, Downstream, MigrateImage;
  }

  lemma ForceRank(s: Sys, outcome: Outcome)
    requires Shape(s.pc, s.fetched) && JobInv(s) && InSync(s) && InForce(s.pc)
    ensures var t := StepForce(s, outcome);
            InSync(t) && Rank(t) <= Rank(s) && (Acts(s, t) ==> Rank(t) < Rank(s))
  {
    hide StepForce, InSync, Rank, Acts, JobInv;
    match s.pc
    case ForceLook(_) => ForceLookRank(s, outcome);
    case ForceDelete(_) => ForceDeleteRank(s, outcome);
    case ForcePatch(_) => ForcePatchRank(s, outcome);
    case ForceReset(_) => ForceResetRank(s, outcome);
  }

  lemma Unset(notes: Annotations, key: string)
    requires key !in notes
    ensures !Enabled(notes, key)
  {}

  lemma LookUpRank(s: Sys, outcome: Outcome)
    requires InSync(s) && s.pc.LookUp?
    ensures var t := StepMigrate(s, outcome);
            InSync(t) && Rank(t) <= Rank(s) && !Acts(s, t)
  {
    hide Enabled, Downstream, MigrateImage, Rank, Acts;
    StepMigrateFrame(s, outcome);
    ReadRank(s, StepMigrate(s, outcome));
  }

  lemma JobCallRank(s: Sys, outcome: Outcome)
    requires Shape(s.pc, s.fetched) && InSync(s) && (s.pc.MakeJob? || s.pc.DropStale?)
    ensures var t := StepMigrate(s, outcome);
            InSync(t) && Rank(t) <= Rank(s) && (Acts(s, t) ==> Rank(t) < Rank(s))
  {
    hide Enabled, Downstream, MigrateImage, UpdateStatus, Actionable;
  }

  lemma RecordRank(s: Sys, outcome: Outcome)
    requires Shape(s.pc, s.fetched) && InSync(s) && s.pc.Record?
    ensures var t := StepMigrate(s, outcome);
            InSync(t) && Rank(t) <= Rank(s) && (Acts(s, t) ==> Rank(t) < Rank(s))
  {
    hide Enabled, Downstream, MigrateImage, Actionable;
  }

  lemma MigrateRank(s: Sys, outcome: Outcome)
    requires Shape(s.pc, s.fetched) && InSync(s) && InMigrate(s.pc)
    ensures var t := StepMigrate(s, outcome);
            InSync(t) && Rank(t) <= Rank(s) && (Acts(s, t) ==> Rank(t) < Rank(s))
  {
    hide StepMigrate, InSync, Rank, Acts, Shape;
    match s.pc
    case LookUp(_) => LookUpRank(s, outcome);
    case MakeJob(_) => JobCallRank(s, outcome);
    case DropStale(_) => JobCallRank(s, outcome);
    case Record(_, _) => RecordRank(s, outcome);
  }

  lemma ResourceRank(s: Sys, outcome: Outcome)
    requires InSync(s) && OnResource(s.pc)
    ensures var t := StepResource(s, outcome);
            InSync(t) && Rank(t) <= Rank(s) && (Acts(s, t) ==> Rank(t) < Rank(s))
  {
    hide Enabled, FinalReason, MigrateImage, Work, Current;
  }

  lemma ActRank(s: Sys, outcome: Outcome)
    requires Shape(s.pc, s.fetched) && JobInv(s) && InSync(s)
    ensures var t := Act(s, outcome);
            InSync(t) && Rank(t) <= Rank(s) && (Acts(s, t) ==> Rank(t) < Rank(s))
  {
    hide StepTodo, StepMigrate, StepForce, StepResource, Shape, JobInv, Enabled, MigrateImage, Upstream;
    if s.pc.Todo? {
      TodoRank(s, outcome);
    } else if OnResource(s.pc) {
      ResourceRank(s, outcome);
    } else if InForce(s.pc) {
      ForceRank(s, outcome);
    } else if InMigrate(s.pc) {
      MigrateRank(s, outcome);
    }
  }

  /** A plan leads to the migration with the force still asked for, or past it. */
  lemma TodoRank(s: Sys, outcome: Outcome)
    requires Shape(s.pc, s.fetched) && InSync(s) && s.pc.Todo?
    ensures s.pc.rest != []
    ensures var t := StepTodo(s, outcome);
            InSync(t) && Rank(t) <= Rank(s) && !Acts(s, t)
  {
    hide StepTodo, Enabled, MigrateImage, Merged, Upstream, Downstream, Actionable;
    StepTodoFrame(s, outcome);
  }

  lemma DisturbRank(s: Sys, e: Env)
    requires InSync(s) && Steady(Other(e))
    ensures var t := Disturb(s, e);
            InSync(t) && Rank(t) <= Rank(s) && (Acts(s, t) ==> Rank(t) < Rank(s))
  {
    hide Enabled, MigrateImage;
  }

  /** With specification and annotations fixed, Jobs that succeed and collection that runs, the rank never rises,
      and every step of the operator or of the cluster that acts lowers it, whatever errors occur. */
  lemma RankFalls(s: Sys, a: Action)
    requires Shape(s.pc, s.fetched) && JobInv(s) && InSync(s) && Steady(a)
    ensures InSync(Step(s, a)) && Rank(Step(s, a)) <= Rank(s)
    ensures Acts(s, Step(s, a)) ==> Rank(Step(s, a)) < Rank(s)
  {
    hide Act, Disturb, InSync, Rank, Acts, Shape, JobInv;
    if a.Operator? {
      ActRank(s, a.outcome);
    } else {
      DisturbRank(s, a.env);
    }
  }

  /** The number of steps of a run that act. */
  ghost function ActsIn(s: Sys, actions: seq<Action>): nat
    decreases |actions|
  {
    if actions == [] then 0
    else (if Acts(s, Step(s, actions[0])) then 1 else 0) + ActsIn(Step(s, actions[0]), actions[1..])
  }

  /** So a steady run, however long and however disturbed, acts at most as often as its first rank. */
  lemma {:induction false} SteadyRunSettles(s: Sys, actions: seq<Action>)
    requires Shape(s.pc, s.fetched) && JobInv(s) && InSync(s) && forall a :: a in actions ==> Steady(a)
    ensures InSync(Run(s, actions)) && ActsIn(s, actions) + Rank(Run(s, actions)) <= Rank(s) <= 24
    decreases |actions|
  {
    hide Step, InSync, Shape, JobInv, Acts, Rank, Steady;
    RankBound(s);
    if actions != [] {
      RankFalls(s, actions[0]);
      StepShape(s, actions[0]);
      StepJob(s, actions[0]);
      SteadyRunSettles(Step(s, actions[0]), actions[1..]);
    }
  }

  lemma RankBound(s: Sys)
    ensures Rank(s) <= 24
  {
    hide Enabled, MigrateImage;
  }

  // ---------------------------------------------------------------- it gets there

  /** Successful operator calls and a cluster that serves the Job: it succeeds, its pods end, it is collected. */
  predicate Calm(a: Action)
  {
    a == Operator(Ok) || (a.Other? && (a.env.JobSucceeds? || a.env.PodEnds? || a.env.JobGone?))
  }

  function Served(job: Option<Job>): Option<Job>
  {
    if job.None? || job.value.terminating then None
    else if job.value.phase.Running? then Some(job.value.(phase := Succeeded))
    else job
  }

  lemma {:induction false} DrainPods(s: Sys) returns (actions: seq<Action>)
    requires s.store.job.Some?
    ensures forall a :: a in actions ==> Calm(a)
    ensures var t := Run(s, actions);
            && t == s.(store := t.store) && t.store == s.store.(pods := t.store.pods)
            && PodsOf(t.store, s.store.job.value.uid) == 0
    decreases PodsOf(s.store, s.store.job.value.uid)
  {
    if PodsOf(s.store, s.store.job.value.uid) == 0 {
      actions := [];
    } else {
      var r := Step(s, Other(PodEnds));
      assert r == s.(store := r.store) && r.store == s.store.(pods := r.store.pods);
      var rest := DrainPods(r);
      actions := [Other(PodEnds)] + rest;
      assert actions[1..] == rest;
    }
  }

  lemma Serve(s: Sys) returns (actions: seq<Action>)
    ensures forall a :: a in actions ==> Calm(a)
    ensures var t := Run(s, actions);
            && t.pc == s.pc && t.store.job == Served(s.store.job)
            && t.store == s.store.(job := t.store.job, pods := t.store.pods)
  {
    if s.store.job.None? {
      actions := [];
    } else {
      var r := Step(s, Other(JobSucceeds));
      var drain := DrainPods(r);
      var d := Run(r, drain);
      var (first, last) := ([Other(JobSucceeds)], [Other(JobGone)]);
      actions := first + (drain + last);
      OneAction(s, first[0]);
      OneAction(d, last[0]);
      RunConcat(s, first, drain + last);
      RunConcat(r, drain, last);
    }
  }

  lemma OneAction(s: Sys, a: Action)
    ensures Run(s, [a]) == Step(s, a)
  {
    hide Step;
    assert [a][1..] == [];
    assert Run(s, [a]) == Run(Step(s, a), []);
  }

  /** The resource's own migration has not failed for good, or a force is asked for. */
  predicate Hopeful(cr: Cr, job: Option<Job>) { Force(cr) || Recorded(cr) || !View(job, MigrateImage(cr.spec)).Broken? }

  /** The table lowers the rank until the image is recorded. */
  lemma TableProgress(s: Sys, cr: Cr, u: Sys, t: Sys, after: Cr)
    requires s.pc.Idle? && u.pc.Idle? && t.pc.Idle? && InHand(s, cr) && InHand(t, after)
    requires Hopeful(cr, s.store.job) && u.store.job == Served(s.store.job) && u.store.nextUid == s.store.nextUid
    requires t.store.job == MigrationTable(u.store, cr).job && after.status.migrated == MigrationTable(u.store, cr).image
    requires after.spec == cr.spec && !Force(after)
    ensures Hopeful(after, t.store.job) && (Recorded(after) <==> MigrationTable(u.store, cr).gate == MigrateComplete)
    ensures Recorded(after) || Rank(t) < Rank(s)
  {
    hide MigrateImage, Enabled;
  }

  /** One round: the cluster serves the Job, then the operator makes a pass. */
  lemma Round(s: Sys, cr: Cr) returns (actions: seq<Action>, after: Cr)
    requires s.pc.Idle? && InHand(s, cr) && Actionable(cr) && !Conflicting(cr.spec) && Hopeful(cr, s.store.job)
    ensures forall a :: a in actions ==> Calm(a)
    ensures var t := Run(s, actions);
            && t.pc.Idle? && InHand(t, after) && SameResource(cr, after) && !Force(after) && Hopeful(after, t.store.job)
            && (Recorded(after) ==> Converged(t.store.objs, cr.spec) && after.status.reason == Reconciled)
            && (Recorded(after) || Rank(t) < Rank(s))
  {
    hide Run, Go, Act, Actionable, Converged, Enabled, MigrateImage, Rank, Hopeful, Served, Conflicting;
    var serve := Serve(s);
    var u := Run(s, serve);
    var n;
    n, after := PassConverges(u, cr);
    var m := PassIsRun(u, n);
    RunConcat(s, serve, Calls(m));
    actions := serve + Calls(m);
    TableProgress(s, cr, u, Go(Act(u, Ok), n), after);
  }

  /** From every idle state over an actionable resource without conflicting TLS sources whose current Job has not
      failed, or for which a force is asked for, calm rounds lead to a recorded migration, a settled store and a truthful
      Reconciled. */
  lemma {:induction false} EventuallyMigrated(s: Sys, cr: Cr) returns (actions: seq<Action>, after: Cr)
    requires s.pc.Idle? && InHand(s, cr) && Actionable(cr) && !Conflicting(cr.spec) && Hopeful(cr, s.store.job)
    ensures forall a :: a in actions ==> Calm(a)
    ensures var t := Run(s, actions);
            && t.pc.Idle? && InHand(t, after) && SameResource(cr, after) && !Force(after)
            && Recorded(after) && after.status.reason == Reconciled && Converged(t.store.objs, cr.spec)
    decreases Rank(s)
  {
    hide Run, Actionable, Converged, Enabled, MigrateImage, Rank, Hopeful, Conflicting;
    actions, after := Round(s, cr);
    if !Recorded(after) {
      var t := Run(s, actions);
      SameDecisions(cr, after);
      var more;
      more, after := EventuallyMigrated(t, after);
      RunConcat(s, actions, more);
      actions := actions + more;
    }
  }

  // ---------------------------------------------------------------- when it does not

  /** Neither forced nor migrating: the copy says that nothing is to be done, or that the Job failed. */
  predicate Resting(s: Sys, recorded: bool)
  {
    && !InForce(s.pc) && !s.pc.MakeJob? && !s.pc.DropStale? && !s.pc.Record? && (recorded ==> !s.pc.LookUp?)
    && (s.store.cr.Some? ==>
          && !Force(s.store.cr.value)
          && (recorded <==> Recorded(s.store.cr.value))
          && (!recorded ==> View(s.store.job, MigrateImage(s.store.cr.value.spec)).Broken?))
  }

  lemma RestingTodo(s: Sys, outcome: Outcome, recorded: bool)
    requires Shape(s.pc, s.fetched) && InSync(s) && Resting(s, recorded) && s.pc.Todo?
    ensures s.pc.rest != []
    ensures Resting(StepTodo(s, outcome), recorded) && StepTodo(s, outcome).store.nextUid == s.store.nextUid
  {
    hide StepTodo, Enabled, MigrateImage, Merged, Upstream, Downstream, Actionable;
    StepTodoFrame(s, outcome);
  }

  lemma RestingResource(s: Sys, outcome: Outcome, recorded: bool)
    requires InSync(s) && Resting(s, recorded) && OnResource(s.pc)
    ensures Resting(StepResource(s, outcome), recorded) && StepResource(s, outcome).store.nextUid == s.store.nextUid
  {
    hide Enabled, MigrateImage, FinalReason, View;
  }

  lemma RestingFetch(s: Sys, outcome: Outcome, recorded: bool)
    requires Resting(s, recorded) && s.pc.Idle?
    ensures Resting(StepFetch(s, outcome), recorded) && StepFetch(s, outcome).store == s.store
  {
    hide Enabled, MigrateImage, Upstream, View;
  }

  lemma RestingDisturb(s: Sys, e: Env, recorded: bool)
    requires JobInv(s) && Resting(s, recorded) && Steady(Other(e))
    ensures Resting(Disturb(s, e), recorded) && Disturb(s, e).store.nextUid == s.store.nextUid
  {
    hide Enabled, MigrateImage;
  }

  lemma RestingStep(s: Sys, a: Action, recorded: bool)
    requires Shape(s.pc, s.fetched) && JobInv(s) && InSync(s) && Resting(s, recorded) && Steady(a)
    ensures Resting(Step(s, a), recorded) && Step(s, a).store.nextUid == s.store.nextUid
  {
    hide StepTodo, StepFetch, StepForce, StepMigrate, StepResource, Disturb, Shape, JobInv, InSync, View, MigrateImage;
    if a.Other? {
      RestingDisturb(s, a.env, recorded);
    } else if s.pc.Idle? {
      RestingFetch(s, a.outcome, recorded);
    } else if s.pc.Todo? {
      RestingTodo(s, a.outcome, recorded);
    } else if OnResource(s.pc) {
      RestingResource(s, a.outcome, recorded);
    } else {
      RestingLookUp(s, a.outcome);
    }
  }

  lemma RestingLookUp(s: Sys, outcome: Outcome)
    requires InSync(s) && Resting(s, false) && s.pc.LookUp?
    ensures Resting(Act(s, outcome), false) && Act(s, outcome).store == s.store
  {
    hide Enabled, MigrateImage, Downstream;
  }

  /** Without edits, early collection or failures no Job is ever created from there. */
  lemma {:induction false} RestingRun(s: Sys, actions: seq<Action>, recorded: bool)
    requires Shape(s.pc, s.fetched) && JobInv(s) && InSync(s) && Resting(s, recorded)
    requires forall a :: a in actions ==> Steady(a)
    ensures Resting(Run(s, actions), recorded) && Run(s, actions).store.nextUid == s.store.nextUid
    decreases |actions|
  {
    hide Step, InSync, Shape, JobInv, Resting, Steady;
    if actions != [] {
      RankFalls(s, actions[0]);
      StepShape(s, actions[0]);
      StepJob(s, actions[0]);
      RestingStep(s, actions[0], recorded);
      RestingRun(Step(s, actions[0]), actions[1..], recorded);
    }
  }

  /** No pass gets past the certificates: the TLS sources conflict, and a pass in progress is still before the
      failing check. */
  ghost predicate Doomed(s: Sys)
  {
    && !InForce(s.pc) && !InMigrate(s.pc) && !s.pc.Finish?
    && (s.pc.Todo? ==> s.pc.phase.Up? && s.pc.rest != [] && !Rejected(s.pc.snap.spec, s.pc.rest[0])
                       && Blocked(s.pc.snap.spec, s.pc.rest))
    && (s.store.cr.Some? ==> Conflicting(s.store.cr.value.spec))
  }

  /** No Job was created, and the resource asks for and records what it did. */
  predicate Stuck(s: Sys, t: Sys)
  {
    && t.store.nextUid == s.store.nextUid
    && (t.store.cr.Some? ==>
          && s.store.cr.Some? && t.store.cr.value.spec == s.store.cr.value.spec
          && t.store.cr.value.notes == s.store.cr.value.notes
          && t.store.cr.value.status.migrated == s.store.cr.value.status.migrated)
  }

  lemma DoomedTodo(s: Sys, outcome: Outcome)
    requires Doomed(s) && s.pc.Todo?
    ensures Doomed(StepTodo(s, outcome)) && Stuck(s, StepTodo(s, outcome))
  {
    hide StepTodo, EnterMigration, Merged, Upstream, Downstream, Rejected, Conflicting;
    StepTodoFrame(s, outcome);
    var (spec, rest) := (s.pc.snap.spec, s.pc.rest);
    var op :| op in rest && Rejected(spec, op);
    assert op in rest[1..];
  }

  lemma DoomedFetch(s: Sys, outcome: Outcome)
    requires Doomed(s) && s.pc.Idle?
    ensures Doomed(StepFetch(s, outcome)) && Stuck(s, StepFetch(s, outcome))
  {
    hide Enabled, Upstream, EnterMigration, Rejected, Conflicting;
    if s.store.cr.Some? {
      BlockedIffConflicting(s.store.cr.value.spec);
    }
  }

  lemma DoomedResource(s: Sys, outcome: Outcome)
    requires InSync(s) && Doomed(s) && OnResource(s.pc)
    ensures Doomed(StepResource(s, outcome)) && Stuck(s, StepResource(s, outcome))
  {
    hide Enabled, FinalReason, Conflicting, Blocked;
  }

  lemma DoomedDisturb(s: Sys, e: Env)
    requires Doomed(s) && Steady(Other(e))
    ensures Doomed(Disturb(s, e)) && Stuck(s, Disturb(s, e))
  {
    hide Enabled, Conflicting, Blocked;
  }

  lemma DoomedStep(s: Sys, a: Action)
    requires InSync(s) && Doomed(s) && Steady(a)
    ensures Doomed(Step(s, a)) && Stuck(s, Step(s, a))
  {
    hide StepTodo, StepFetch, StepForce, StepMigrate, StepResource, Disturb, InSync, Blocked, Conflicting;
    if a.Other? {
      DoomedDisturb(s, a.env);
    } else if s.pc.Idle? {
      DoomedFetch(s, a.outcome);
    } else if s.pc.Todo? {
      DoomedTodo(s, a.outcome);
    } else {
      DoomedResource(s, a.outcome);
    }
  }

  /** As long as nobody edits the resource, conflicting TLS sources stop every migration. */
  lemma {:induction false} DoomedRun(s: Sys, actions: seq<Action>)
    requires Shape(s.pc, s.fetched) && JobInv(s) && InSync(s) && Doomed(s) && forall a :: a in actions ==> Steady(a)
    ensures Doomed(Run(s, actions)) && Stuck(s, Run(s, actions))
    decreases |actions|
  {
    hide Step, InSync, Shape, JobInv, Doomed, Steady;
    if actions != [] {
      RankFalls(s, actions[0]);
      StepShape(s, actions[0]);
      StepJob(s, actions[0]);
      DoomedStep(s, actions[0]);
      DoomedRun(Step(s, actions[0]), actions[1..]);
    }
  }

  /** A resource that has what it asks for, or can get it without anybody's help. */
  predicate Attainable(cr: Cr, job: Option<Job>)
  {
    (Recorded(cr) && !Force(cr)) || (Hopeful(cr, job) && !Conflicting(cr.spec))
  }

  /** A migration can be recorded without anybody's help exactly if it is recorded and not forced, or if the TLS
      sources do not conflict and its Job has not failed or a force is asked for. (An edit is help, and so is the
      removal of a failed Job by hand or by its time-to-live.) */
  lemma MigratesIffHopeful(s: Sys, cr: Cr)
    requires Reachable(s) && s.pc.Idle? && InHand(s, cr) && Actionable(cr)
    ensures Attainable(cr, s.store.job)
            <==> exists actions: seq<Action>, after: Cr :: (forall a :: a in actions ==> Calm(a))
                   && InHand(Run(s, actions), after) && Recorded(after) && !Force(after)
  {
    hide Run, Step, Actionable, MigrateImage, Enabled, Shape, JobInv, AllJustified, TrustInv, Conflicting;
    if Recorded(cr) && !Force(cr) {
      RunNothing(s);
      var actions: seq<Action> := [];
      assert (forall a :: a in actions ==> Calm(a)) && InHand(Run(s, actions), cr);
    } else if Hopeful(cr, s.store.job) && !Conflicting(cr.spec) {
      var actions, after := EventuallyMigrated(s, cr);
    } else {
      ReachableGate(s);
      forall actions: seq<Action>, after: Cr | (forall a :: a in actions ==> Calm(a)) && InHand(Run(s, actions), after)
        ensures !Recorded(after) || Force(after)
      {
        if Conflicting(cr.spec) {
          DoomedRun(s, actions);
        } else {
          RestingRun(s, actions, false);
        }
      }
    }
  }

  lemma RunNothing(s: Sys)
    ensures Run(s, []) == s
  {}

  /** The status write of a force step fails after its patch went through: is the forced rerun lost? Exactly if the
      image was recorded, or the patch brought in conflicting TLS sources. Then no calm run ever creates another Job;
      otherwise the next round does. */
  lemma ForceLostIff(s: Sys, snap: Cr)
    requires Reachable(s) && s.pc == ForceReset(snap) && InHand(s, snap) && Actionable(snap) && !Force(snap)
    ensures var t := Act(s, Refused);
            Recorded(snap) || Conflicting(snap.spec)
            <==> forall actions: seq<Action> :: (forall a :: a in actions ==> Calm(a)) ==>
                   Run(t, actions).store.nextUid == t.store.nextUid
  {
    hide Run, Step, Actionable, MigrateImage, Enabled, Shape, AllJustified, TrustInv, Conflicting, JobInv, Go;
    ReachableGate(s);
    var t := Act(s, Refused);
    assert t == s.(pc := Idle(Error)) by { Failed(s); }
    StepShape(s, Operator(Refused));
    StepJob(s, Operator(Refused));
    assert t == Step(s, Operator(Refused)) by { OneStep(s, Refused); }
    if Recorded(snap) || Conflicting(snap.spec) {
      forall actions: seq<Action> | forall a :: a in actions ==> Calm(a)
        ensures Run(t, actions).store.nextUid == t.store.nextUid
      {
        if Recorded(snap) {
          RestingRun(t, actions, true);
        } else {
          DoomedRun(t, actions);
        }
      }
    } else {
      if s.store.job.Some? {
        ResetJob(s);
      }
      var all := NewJob(t, snap);
      RunJob(t, all);
      assert Run(t, all).store.nextUid > t.store.nextUid by { JobBelow(Run(t, all)); }
    }
  }

  lemma OneStep(s: Sys, outcome: Outcome)
    ensures Step(s, Operator(outcome)) == Act(s, outcome)
  {
    hide Act;
  }

  lemma ResetJob(s: Sys)
    requires JobInv(s) && s.pc.ForceReset? && s.store.job.Some?
    ensures s.store.job.value.terminating
  {}

  lemma JobBelow(s: Sys)
    requires JobInv(s) && s.store.job.Some?
    ensures s.store.job.value.uid < s.store.nextUid
  {}

  /** Served and passed once, a resource without a Job that counts gets a new one. */
  lemma NewJob(s: Sys, snap: Cr) returns (actions: seq<Action>)
    requires s.pc.Idle? && InHand(s, snap) && Actionable(snap) && !Conflicting(snap.spec)
    requires !Recorded(snap) && !Force(snap) && (s.store.job.Some? ==> s.store.job.value.terminating)
    ensures forall a :: a in actions ==> Calm(a)
    ensures Run(s, actions).store.job == Some(Job(s.store.nextUid, MigrateImage(snap.spec), Running, false))
  {
    hide Run, Go, Act, Actionable, Converged, Enabled, MigrateImage, Conflicting;
    var serve := Serve(s);
    var u := Run(s, serve);
    var n, after := PassConverges(u, snap);
    var m := PassIsRun(u, n);
    RunConcat(s, serve, Calls(m));
    actions := serve + Calls(m);
  }

  lemma Failed(s: Sys)
    requires s.pc.ForceReset?
    ensures Act(s, Refused) == s.(pc := Idle(Error))
  {
    hide UpdateStatus, Gated;
  }

  lemma {:induction false} RunJob(s: Sys, actions: seq<Action>)
    requires JobInv(s)
    ensures JobInv(Run(s, actions))
    decreases |actions|
  {
    hide Step, JobInv;
    if actions != [] {
      StepJob(s, actions[0]);
      RunJob(Step(s, actions[0]), actions[1..]);
    }
  }
}
