/** The migration gate over whole runs: nothing behind it is written before the matching migration has
    completed, conditions tell the truth, and a completed force asks for a fresh Job. */
module GateSafety {
  import opened Cluster
  import opened Plan
  import opened Machine
  import opened Lifecycle

  // ---------------------------------------------------------------- what the log must say

  /** Some Job with this image and a uid of at least `from` reached Complete. */
  ghost predicate Completed(log: seq<Event>, from: nat, image: Image)
  {
    exists uid: nat :: from <= uid && JobCompleted(uid, image) in log
  }

  /** Such a Job completed, and one created after each force that was completed before. */
  ghost predicate CompletedSinceForced(log: seq<Event>, image: Image)
  {
    Completed(log, 0, image) && forall f :: f in log && f.Forced? ==> Completed(log, f.next, image)
  }

  /** What an event needs from the events before it. */
  ghost predicate Justified(log: seq<Event>, e: Event)
  {
    match e
    case JobCompleted(_, _) => true
    case Forced(next) => forall e :: e in log && e.JobCompleted? ==> e.uid < next
    case Wrote(_, id, body, snap, fetched, phase) =>
      && Actionable(fetched)
      && (phase.Up? <==> IsUpstream(id))
      && (phase.Down? ==> Skip(snap) || CompletedSinceForced(log, MigrateImage(snap.spec)))
      && (body.Workload? ==> body.image == PartImage(snap.spec, id.part))
    case Reported(_, reason, snap, _) =>
      match reason
      case NoReason => false
      case Paused => snap.finalizer && !snap.deleting && Enabled(snap.notes, PAUSE)
      case Invalid => snap.finalizer && !snap.deleting && !Enabled(snap.notes, PAUSE) && !snap.spec.valid
      case MigrationFailed => !Skip(snap) && snap.status.migrated != MigrateImage(snap.spec)
      case Reconciled => CompletedSinceForced(log, MigrateImage(snap.spec)) && snap.status.migrated == MigrateImage(snap.spec)
      case MigrationCheckSkipped => Skip(snap) && snap.status.migrated != MigrateImage(snap.spec)
  }

  ghost predicate AllJustified(log: seq<Event>)
  {
    log == [] || (AllJustified(log[..|log| - 1]) && Justified(log[..|log| - 1], log[|log| - 1]))
  }

  lemma AllJustifiedSnoc(log: seq<Event>, e: Event)
    requires AllJustified(log) && Justified(log, e)
    ensures AllJustified(log + [e])
  {
    hide Justified;
    assert (log + [e])[..|log|] == log;
  }

  lemma {:induction false} JustifiedAt(log: seq<Event>, i: nat)
    requires AllJustified(log) && i < |log|
    ensures Justified(log[..i], log[i])
  {
    hide Justified;
    var last := |log| - 1;
    if i < last {
      JustifiedAt(log[..last], i);
      assert log[..last][..i] == log[..i] && log[..last][i] == log[i];
    }
  }

  // ---------------------------------------------------------------- the invariant

  /** A recorded image has a completed Job that postdates the last completed force. */
  ghost predicate Trusted(log: seq<Event>, mark: nat, cr: Cr)
  {
    cr.status.migrated != "" ==> Completed(log, mark, cr.status.migrated)
  }

  /** The Job in the store: a non-terminating one postdates the last completed force. */
  ghost predicate JobInv(s: Sys)
  {
    && s.mark <= s.store.nextUid
    && (forall e :: e in s.log && e.JobCompleted? ==> e.uid < s.store.nextUid)
    && (forall e :: e in s.log && e.Forced? ==> e.next <= s.mark)
    && (s.store.job.Some? ==>
          var job := s.store.job.value;
          && job.uid < s.store.nextUid
          && (!job.terminating ==> s.mark <= job.uid)
          && (job.phase.Succeeded? ==> JobCompleted(job.uid, job.image) in s.log))
    && (s.pc.ForcePatch? || s.pc.ForceReset? ==> s.store.job.None? || s.store.job.value.terminating)
  }

  ghost predicate TrustInv(s: Sys)
  {
    && (s.store.cr.Some? ==> Trusted(s.log, s.mark, s.store.cr.value))
    && (!s.pc.Idle? ==> Trusted(s.log, s.mark, s.pc.snap))
    && (s.pc.Record? ==> s.mark <= s.pc.uid && JobCompleted(s.pc.uid, MigrateImage(s.pc.snap.spec)) in s.log)
  }

  ghost predicate GateInv(s: Sys)
  {
    Shape(s.pc, s.fetched) && JobInv(s) && TrustInv(s) && AllJustified(s.log)
  }

  // ---------------------------------------------------------------- every step keeps it

  lemma ForceJob(s: Sys, outcome: Outcome)
    requires JobInv(s) && InForce(s.pc)
    ensures JobInv(StepForce(s, outcome))
  {
    hide UpdateStatus, PatchNotes, Gated;
    StepForceFrame(s, outcome);
  }

  lemma MigrateJob(s: Sys, outcome: Outcome)
    requires JobInv(s) && InMigrate(s.pc)
    ensures JobInv(StepMigrate(s, outcome))
  {
    hide UpdateStatus, Gated, MigrateImage;
    StepMigrateFrame(s, outcome);
  }

  /** The Job stays as it is and no completion is logged. */
  lemma JobKept(s: Sys, t: Sys)
    requires JobInv(s) && t.mark == s.mark && t.store.job == s.store.job && t.store.nextUid == s.store.nextUid
    requires OneMore(s.log, t.log) && (t.log != s.log ==> !t.log[|s.log|].JobCompleted? && !t.log[|s.log|].Forced?)
    requires !t.pc.ForcePatch? && !t.pc.ForceReset?
    ensures JobInv(t)
  {}

  lemma ActJob(s: Sys, outcome: Outcome)
    requires JobInv(s)
    ensures JobInv(Act(s, outcome))
  {
    hide StepTodo, StepMigrate, StepForce, StepResource, JobInv, Enabled, Upstream, Downstream, Merged, MigrateImage;
    if s.pc.Todo? && s.pc.rest != [] {
      StepTodoFrame(s, outcome);
      JobKept(s, StepTodo(s, outcome));
    } else if OnResource(s.pc) {
      StepResourceFrame(s, outcome);
      JobKept(s, StepResource(s, outcome));
    } else if InForce(s.pc) {
      ForceJob(s, outcome);
    } else if InMigrate(s.pc) {
      MigrateJob(s, outcome);
    } else {
      JobKept(s, Act(s, outcome));
    }
  }

  lemma DisturbJob(s: Sys, e: Env)
    requires JobInv(s)
    ensures JobInv(Disturb(s, e))
  {}

  lemma StepJob(s: Sys, a: Action)
    requires JobInv(s)
    ensures JobInv(Step(s, a))
  {
    hide Act, Disturb, JobInv;
    if a.Operator? {
      ActJob(s, a.outcome);
    } else {
      DisturbJob(s, a.env);
    }
  }

  lemma CompletedGrows(log: seq<Event>, longer: seq<Event>, from: nat, least: nat, image: Image)
    requires Completed(log, from, image) && log <= longer && least <= from
    ensures Completed(longer, least, image)
  {
    var uid: nat :| from <= uid && JobCompleted(uid, image) in log;
    assert JobCompleted(uid, image) in longer;
  }

  /** What is trusted postdates the last completed force, so every completed force. */
  lemma TrustedSinceForced(s: Sys, cr: Cr)
    requires JobInv(s) && Trusted(s.log, s.mark, cr) && cr.status.migrated != ""
    ensures CompletedSinceForced(s.log, cr.status.migrated)
  {
    CompletedGrows(s.log, s.log, s.mark, 0, cr.status.migrated);
    forall f | f in s.log && f.Forced? ensures Completed(s.log, f.next, cr.status.migrated) {
      CompletedGrows(s.log, s.log, s.mark, f.next, cr.status.migrated);
    }
  }

  lemma TrustedGrows(log: seq<Event>, longer: seq<Event>, mark: nat, cr: Cr)
    requires Trusted(log, mark, cr) && log <= longer
    ensures Trusted(longer, mark, cr)
  {
    if cr.status.migrated != "" {
      CompletedGrows(log, longer, mark, mark, cr.status.migrated);
    }
  }

  lemma TodoTrust(s: Sys, outcome: Outcome)
    requires TrustInv(s) && s.pc.Todo? && s.pc.rest != []
    ensures TrustInv(StepTodo(s, outcome))
  {
    hide StepTodo, Enabled, Upstream, Downstream, Merged, MigrateImage, Completed;
    StepTodoFrame(s, outcome);
    var t := StepTodo(s, outcome);
    TrustedGrows(s.log, t.log, s.mark, s.pc.snap);
    if s.store.cr.Some? {
      TrustedGrows(s.log, t.log, s.mark, s.store.cr.value);
    }
  }

  lemma ResourceTrust(s: Sys, outcome: Outcome)
    requires TrustInv(s) && OnResource(s.pc)
    ensures TrustInv(StepResource(s, outcome))
  {
    hide Enabled, MigrateImage, Completed;
    StepResourceFrame(s, outcome);
    var t := StepResource(s, outcome);
    TrustedGrows(s.log, t.log, s.mark, s.pc.snap);
    if s.store.cr.Some? {
      TrustedGrows(s.log, t.log, s.mark, s.store.cr.value);
    }
  }

  lemma ForceTrust(s: Sys, outcome: Outcome)
    requires TrustInv(s) && InForce(s.pc)
    ensures TrustInv(StepForce(s, outcome))
  {
    hide Enabled, MigrateImage, Completed, Downstream;
    StepForceFrame(s, outcome);
  }

  lemma MigrateTrust(s: Sys, outcome: Outcome)
    requires JobInv(s) && TrustInv(s) && InMigrate(s.pc)
    ensures TrustInv(StepMigrate(s, outcome))
  {
    hide Enabled, MigrateImage, Downstream;
  }

  lemma ActTrust(s: Sys, outcome: Outcome)
    requires JobInv(s) && TrustInv(s)
    ensures TrustInv(Act(s, outcome))
  {
    hide StepTodo, StepMigrate, StepForce, StepResource, JobInv, Enabled, Upstream, Downstream, Merged, MigrateImage;
    if s.pc.Todo? && s.pc.rest != [] {
      TodoTrust(s, outcome);
    } else if OnResource(s.pc) {
      ResourceTrust(s, outcome);
    } else if InForce(s.pc) {
      ForceTrust(s, outcome);
    } else if InMigrate(s.pc) {
      MigrateTrust(s, outcome);
    }
  }

  lemma DisturbTrust(s: Sys, e: Env)
    requires TrustInv(s)
    ensures TrustInv(Disturb(s, e))
  {
    hide Completed, MigrateImage;
    var t := Disturb(s, e);
    if s.store.cr.Some? {
      TrustedGrows(s.log, t.log, s.mark, s.store.cr.value);
    }
    if !s.pc.Idle? {
      TrustedGrows(s.log, t.log, s.mark, s.pc.snap);
    }
  }

  /** What a create or update is about to log. */
  lemma TodoJustified(s: Sys, outcome: Outcome)
    requires GateInv(s) && s.pc.Todo?
    ensures AllJustified(StepTodo(s, outcome).log)
  {
    hide StepTodo, AllJustified, Merged, Actionable, MigrateImage, Upstream, Downstream, Skip, JobInv;
    StepTodoFrame(s, outcome);
    var t := StepTodo(s, outcome);
    if t.log != s.log {
      var (snap, phase, op) := (s.pc.snap, s.pc.phase, s.pc.rest[0]);
      assert op in s.pc.rest;
      if phase.Up? {
        UpstreamFits(snap.spec, op);
      } else {
        DownstreamFits(snap.spec, op);
        if phase.gate == MigrateComplete {
          TrustedSinceForced(s, snap);
        }
      }
      WrittenImage(s);
      AllJustifiedSnoc(s.log, Wrote(s.pass, op.id, Written(s), snap, s.fetched, phase));
    }
  }

  /** Whatever is preserved from the live object, a written workload has its component's image. */
  lemma WrittenImage(s: Sys)
    requires s.pc.Todo? && s.pc.rest != []
    ensures Written(s).Workload? ==> Written(s).image == PartImage(s.pc.snap.spec, s.pc.rest[0].id.part)
  {
    hide PartImage, PartSecrets, PartReplicas, Component;
  }

  lemma ResourceJustified(s: Sys, outcome: Outcome)
    requires GateInv(s) && OnResource(s.pc)
    ensures AllJustified(StepResource(s, outcome).log)
  {
    hide AllJustified, Actionable, MigrateImage, Enabled, JobInv, UpdateStatus, UpdateCr, Completed;
    var t := StepResource(s, outcome);
    StepResourceFrame(s, outcome);
    if t.log != s.log {
      if s.pc.Finish? && s.pc.gate == MigrateComplete {
        TrustedSinceForced(s, s.pc.snap);
      }
      AllJustifiedSnoc(s.log, t.log[|s.log|]);
      assert t.log == s.log + [t.log[|s.log|]];
    }
  }

  lemma ActJustified(s: Sys, outcome: Outcome)
    requires GateInv(s)
    ensures AllJustified(Act(s, outcome).log)
  {
    hide StepTodo, StepMigrate, StepForce, StepResource, TrustInv, Enabled, Upstream, Downstream, AllJustified;
    if s.pc.Todo? && s.pc.rest != [] {
      TodoJustified(s, outcome);
    } else if OnResource(s.pc) {
      ResourceJustified(s, outcome);
    } else if InForce(s.pc) {
      StepForceFrame(s, outcome);
      AllJustifiedSnoc(s.log, Forced(s.store.nextUid));
      var t := StepForce(s, outcome);
      assert t.log == s.log || t.log == s.log + [Forced(s.store.nextUid)];
    } else if InMigrate(s.pc) {
      StepMigrateFrame(s, outcome);
    }
  }

  lemma StepGate(s: Sys, a: Action)
    requires GateInv(s)
    ensures GateInv(Step(s, a))
  {
    hide Act, JobInv, TrustInv, Shape, AllJustified, EnvStep;
    StepShape(s, a);
    StepJob(s, a);
    if a.Operator? {
      ActTrust(s, a.outcome);
      ActJustified(s, a.outcome);
    } else {
      DisturbTrust(s, a.env);
      if Disturb(s, a.env).log != s.log {
        AllJustifiedSnoc(s.log, JobCompleted(s.store.job.value.uid, s.store.job.value.image));
      }
    }
  }

  lemma {:induction false} RunGate(s: Sys, actions: seq<Action>)
    requires GateInv(s)
    ensures GateInv(Run(s, actions)) && s.log <= Run(s, actions).log && s.mark <= Run(s, actions).mark
    decreases |actions|
  {
    hide Step, Shape, TrustInv, AllJustified;
    if actions != [] {
      StepGate(s, actions[0]);
      StepGrows(s, actions[0]);
      RunGate(Step(s, actions[0]), actions[1..]);
    }
  }

  /** Log and mark only grow. */
  lemma StepGrows(s: Sys, a: Action)
    requires JobInv(s)
    ensures s.log <= Step(s, a).log && s.mark <= Step(s, a).mark
  {
    hide StepTodo, StepResource, StepMigrate, StepForce, EnvStep, Start;
    if a.Operator? {
      ActFrame(s, a.outcome);
      if s.pc.ForceReset? {
        StepForceFrame(s, a.outcome);
      }
    }
  }

  lemma ReachableGate(s: Sys)
    requires Reachable(s)
    ensures GateInv(s)
  {
    hide Step;
    var s0: Sys, actions: seq<Action> :| Init(s0) && s == Run(s0, actions);
    RunGate(s0, actions);
  }

  // ---------------------------------------------------------------- theorems

  const GATED := {Jobs, Nats, Node, Opamp}

  /** In every run, whatever users, Job outcomes, collectors and errors do in between: a workload of a gated
      component that was written from a copy without a truthy skip annotation was written after a Job with
      that copy's migrate image completed, and without image overrides that image is the one written. */
  lemma GateSafety(s: Sys, i: nat)
    requires Reachable(s) && i < |s.log|
    requires s.log[i].Wrote? && s.log[i].body.Workload? && s.log[i].id.part in GATED && !Skip(s.log[i].snap)
    ensures exists j, uid: nat :: 0 <= j < i && s.log[j] == JobCompleted(uid, MigrateImage(s.log[i].snap.spec))
    ensures NoOverrides(s.log[i].snap.spec) ==> s.log[i].body.image == MigrateImage(s.log[i].snap.spec)
  {
    ReachableGate(s);
    JustifiedAt(s.log, i);
    var image := MigrateImage(s.log[i].snap.spec);
    var uid: nat :| JobCompleted(uid, image) in s.log[..i];
    var j :| 0 <= j < i && s.log[..i][j] == JobCompleted(uid, image);
    assert s.log[j] == JobCompleted(uid, image);
  }

  /** And that Job was created after every force completed so far: its completion comes after each of them. */
  lemma GateSafetySinceForced(s: Sys, f: nat, i: nat)
    requires Reachable(s) && f < i < |s.log| && s.log[f].Forced?
    requires s.log[i].Wrote? && s.log[i].body.Workload? && s.log[i].id.part in GATED && !Skip(s.log[i].snap)
    ensures exists j, uid: nat :: f < j < i && s.log[f].next <= uid
              && s.log[j] == JobCompleted(uid, MigrateImage(s.log[i].snap.spec))
  {
    hide MigrateImage, Enabled, PartImage, Actionable;
    ReachableGate(s);
    JustifiedAt(s.log, i);
    JustifiedAt(s.log, f);
    assert s.log[..i][f] == s.log[f] && s.log[f] in s.log[..i];
    var image := MigrateImage(s.log[i].snap.spec);
    var uid: nat :| s.log[f].next <= uid && JobCompleted(uid, image) in s.log[..i];
    var j :| 0 <= j < i && s.log[..i][j] == JobCompleted(uid, image);
    assert s.log[j] == JobCompleted(uid, image);
  }

  /** Nothing at all is written in a pass that first read a resource without the finalizer, being deleted,
      paused or invalid; and the persisted condition is true of the copy it was written from. */
  lemma TruthfulConditions(s: Sys, i: nat)
    requires Reachable(s) && i < |s.log|
    ensures s.log[i].Wrote? ==> Actionable(s.log[i].fetched)
    ensures s.log[i].Reported? && s.log[i].reason == Reconciled ==>
              exists j, uid: nat :: 0 <= j < i && s.log[j] == JobCompleted(uid, MigrateImage(s.log[i].snap.spec))
    ensures s.log[i].Reported? && s.log[i].reason in {MigrationCheckSkipped, MigrationFailed} ==>
              s.log[i].snap.status.migrated != MigrateImage(s.log[i].snap.spec)
              && (Skip(s.log[i].snap) <==> s.log[i].reason == MigrationCheckSkipped)
    ensures s.log[i].Reported? && s.log[i].reason in {Paused, Invalid} ==>
              s.log[i].snap.finalizer && !s.log[i].snap.deleting
              && (Enabled(s.log[i].snap.notes, PAUSE) <==> s.log[i].reason == Paused)
              && (s.log[i].reason == Invalid ==> !s.log[i].snap.spec.valid)
  {
    ReachableGate(s);
    JustifiedAt(s.log, i);
    if s.log[i].Reported? && s.log[i].reason == Reconciled {
      var image := MigrateImage(s.log[i].snap.spec);
      var uid: nat :| JobCompleted(uid, image) in s.log[..i];
      var j :| 0 <= j < i && s.log[..i][j] == JobCompleted(uid, image);
      assert s.log[j] == JobCompleted(uid, image);
    }
  }

  /** After a force step whose status write takes effect (its delete and patch did before it), no later state
      records an image unless a Job created after that step completed with it. */
  lemma ForcedIsFresh(s: Sys, outcome: Outcome, actions: seq<Action>)
    requires Reachable(s) && s.pc.ForceReset?
    requires !outcome.Refused? && UpdateStatus(s.store, WithMigrated(s.pc.snap, "")).Some?
    ensures var t := Run(Act(s, outcome), actions);
            t.store.cr.Some? && t.store.cr.value.status.migrated != "" ==>
              exists j, uid: nat :: |s.log| < j < |t.log| && s.store.nextUid <= uid
                && t.log[j] == JobCompleted(uid, t.store.cr.value.status.migrated)
  {
    hide Gated, Shape, AllJustified, UpdateStatus, Run;
    ReachableGate(s);
    StepGate(s, Operator(outcome));
    var r := Act(s, outcome);
    assert r == StepForceReset(s, outcome) && r.mark == s.store.nextUid && r.log == s.log + [Forced(s.store.nextUid)];
    RunGate(r, actions);
    var t := Run(r, actions);
    if t.store.cr.Some? && t.store.cr.value.status.migrated != "" {
      var image := t.store.cr.value.status.migrated;
      var uid: nat :| t.mark <= uid && JobCompleted(uid, image) in t.log;
      var j :| 0 <= j < |t.log| && t.log[j] == JobCompleted(uid, image);
    }
  }

  // ---------------------------------------------------------------- a failed migration writes nothing downstream

  /** Writes of the current pass lie behind the gate only once the pass is there, and no pass has both. */
  ghost predicate PassInv(s: Sys)
  {
    && (forall e :: e in s.log && (e.Wrote? || e.Reported?) ==> e.pass <= s.pass)
    && (forall e :: e in s.log && Behind(e) && e.pass == s.pass ==>
          s.pc.Idle? || s.pc.Finish? || (s.pc.Todo? && s.pc.phase.Down?))
    && (forall e :: e in s.log && GaveUp(e) && e.pass == s.pass ==> s.pc.Idle?)
    && (forall e, f :: e in s.log && f in s.log && Behind(e) && GaveUp(f) ==> e.pass != f.pass)
  }

  predicate Behind(e: Event) { e.Wrote? && e.phase.Down? }

  predicate GaveUp(e: Event) { e.Reported? && e.reason == MigrationFailed }

  lemma PassGrows(s: Sys, t: Sys)
    requires PassInv(s) && OneMore(s.log, t.log) && t.pass == s.pass && !s.pc.Idle?
    requires t.pc.Idle? || (s.pc.Todo? && s.pc.phase.Down? && (t.pc.Finish? || (t.pc.Todo? && t.pc.phase.Down?)))
             || !(s.pc.Finish? || (s.pc.Todo? && s.pc.phase.Down?))
    requires t.log != s.log ==>
               var e := t.log[|s.log|];
               && (e.Wrote? || e.Reported? ==> e.pass == s.pass)
               && (Behind(e) ==> s.pc.Todo? && s.pc.phase.Down?)
               && (GaveUp(e) ==> s.pc.Report? && t.pc.Idle?)
    ensures PassInv(t)
  {
    forall e | e in t.log ensures e in s.log || (t.log != s.log && e == t.log[|s.log|]) {
      var k :| 0 <= k < |t.log| && t.log[k] == e;
      assert k < |s.log| ==> s.log[k] == e;
    }
  }

  lemma TodoPass(s: Sys, outcome: Outcome)
    requires PassInv(s) && s.pc.Todo? && s.pc.rest != []
    ensures PassInv(StepTodo(s, outcome))
  {
    hide StepTodo, Merged, MigrateImage, Upstream, Downstream, Skip, Force, PassInv, Fresh;
    StepTodoFrame(s, outcome);
    PassGrows(s, StepTodo(s, outcome));
  }

  lemma ResourcePass(s: Sys, outcome: Outcome)
    requires PassInv(s) && OnResource(s.pc)
    ensures PassInv(StepResource(s, outcome))
  {
    hide PassInv, UpdateStatus, UpdateCr;
    StepResourceFrame(s, outcome);
    PassGrows(s, StepResource(s, outcome));
  }

  lemma ActPass(s: Sys, outcome: Outcome)
    requires PassInv(s)
    ensures PassInv(Act(s, outcome))
  {
    hide StepTodo, StepMigrate, StepForce, StepResource, Enabled, Upstream, Downstream;
    if s.pc.Todo? && s.pc.rest != [] {
      TodoPass(s, outcome);
    } else if OnResource(s.pc) {
      ResourcePass(s, outcome);
    } else if InForce(s.pc) {
      hide PassInv;
      StepForceFrame(s, outcome);
      PassGrows(s, StepForce(s, outcome));
    } else if InMigrate(s.pc) {
      hide PassInv;
      StepMigrateFrame(s, outcome);
      PassGrows(s, StepMigrate(s, outcome));
    }
  }

  lemma {:induction false} RunPass(s: Sys, actions: seq<Action>)
    requires PassInv(s)
    ensures PassInv(Run(s, actions))
    decreases |actions|
  {
    hide Act, EnvStep;
    if actions != [] {
      var a := actions[0];
      if a.Operator? {
        ActPass(s, a.outcome);
      }
      RunPass(Step(s, a), actions[1..]);
    }
  }

  /** A pass that reports MigrationFailed writes nothing behind the gate, before or after the report. */
  lemma FailedMigrationHalts(s: Sys, i: nat, j: nat)
    requires Reachable(s) && i < |s.log| && j < |s.log|
    requires s.log[i].Reported? && s.log[i].reason == MigrationFailed
    requires s.log[j].Wrote? && s.log[j].phase.Down?
    ensures s.log[i].pass != s.log[j].pass
  {
    hide Step;
    var s0: Sys, actions: seq<Action> :| Init(s0) && s == Run(s0, actions);
    RunPass(s0, actions);
    assert s.log[i] in s.log && s.log[j] in s.log;
  }

  // ---------------------------------------------------------------- runs in which nobody skips the check

  predicate NeverSkips(a: Action) { a.Other? && a.env.UserEdits? ==> !Enabled(a.env.notes, SKIP_MIGRATE_CHECK) }

  ghost predicate NoSkipInv(s: Sys)
  {
    && (s.store.cr.Some? ==> !Skip(s.store.cr.value))
    && (!s.pc.Idle? ==> !Skip(s.pc.snap))
    && (forall e :: e in s.log && e.Wrote? ==> !Skip(e.snap))
  }

  lemma TodoNoSkip(s: Sys, outcome: Outcome)
    requires NoSkipInv(s) && s.pc.Todo? && s.pc.rest != []
    ensures NoSkipInv(StepTodo(s, outcome))
  {
    hide StepTodo, Enabled, MigrateImage, Merged, Upstream, Downstream;
    StepTodoFrame(s, outcome);
  }

  lemma ResourceNoSkip(s: Sys, outcome: Outcome)
    requires NoSkipInv(s) && OnResource(s.pc)
    ensures NoSkipInv(StepResource(s, outcome))
  {
    hide Enabled, FinalReason;
    StepResourceFrame(s, outcome);
  }

  lemma ForceNoSkip(s: Sys, outcome: Outcome)
    requires NoSkipInv(s) && InForce(s.pc)
    ensures NoSkipInv(StepForce(s, outcome))
  {
    hide Downstream, DeleteJob;
    StepForceFrame(s, outcome);
  }

  lemma MigrateNoSkip(s: Sys, outcome: Outcome)
    requires NoSkipInv(s) && InMigrate(s.pc)
    ensures NoSkipInv(StepMigrate(s, outcome))
  {
    hide Enabled, MigrateImage, Downstream;
  }

  lemma StepNoSkip(s: Sys, a: Action)
    requires NoSkipInv(s) && NeverSkips(a)
    ensures NoSkipInv(Step(s, a))
  {
    hide StepTodo, StepMigrate, StepForce, StepResource, Enabled, Upstream;
    if a.Operator? {
      if s.pc.Todo? && s.pc.rest != [] {
        TodoNoSkip(s, a.outcome);
      } else if OnResource(s.pc) {
        ResourceNoSkip(s, a.outcome);
      } else if InForce(s.pc) {
        ForceNoSkip(s, a.outcome);
      } else if InMigrate(s.pc) {
        MigrateNoSkip(s, a.outcome);
      }
    }
  }

  lemma {:induction false} RunNoSkip(s: Sys, actions: seq<Action>)
    requires NoSkipInv(s) && forall a :: a in actions ==> NeverSkips(a)
    ensures NoSkipInv(Run(s, actions))
    decreases |actions|
  {
    hide Step, NoSkipInv, NeverSkips;
    if actions != [] {
      StepNoSkip(s, actions[0]);
      RunNoSkip(Step(s, actions[0]), actions[1..]);
    }
  }

  /** If the skip annotation is never truthy, every write to a gated workload comes after the completion of a Job
      with the migrate image of the copy it was written from. */
  lemma GateSafetyWithoutSkip(s0: Sys, actions: seq<Action>, i: nat)
    requires Init(s0) && (s0.store.cr.Some? ==> !Skip(s0.store.cr.value))
    requires forall a :: a in actions ==> NeverSkips(a)
    requires var log := Run(s0, actions).log; i < |log| && log[i].Wrote? && log[i].body.Workload? && log[i].id.part in GATED
    ensures var log := Run(s0, actions).log;
            exists j, uid: nat :: 0 <= j < i && log[j] == JobCompleted(uid, MigrateImage(log[i].snap.spec))
  {
    hide Step, Run, MigrateImage, Enabled;
    var s := Run(s0, actions);
    RunNoSkip(s0, actions);
    assert s.log[i] in s.log;
    GateSafety(s, i);
  }
}
