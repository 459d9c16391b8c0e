/** The copy a pass works from and the resource on the server: an update that goes through was made from the
    current version, so conditions are about what is there, and the user's part is overwritten by one call only. */
module Copies {
  import opened Options
  import opened Cluster
  import opened Plan
  import opened Machine
  import opened Passes

  /** A resource at the version of the copy is the copy. */
  ghost predicate Current(s: Sys)
  {
    && (s.store.cr.Some? ==> s.store.cr.value.rv < s.store.nextRv)
    && (!s.pc.Idle? ==>
          && s.pc.snap.rv < s.store.nextRv
          && (s.store.cr.Some? && s.store.cr.value.rv == s.pc.snap.rv ==> s.store.cr.value == s.pc.snap))
  }

  lemma TodoCurrent(s: Sys, outcome: Outcome)
    requires Current(s) && s.pc.Todo? && s.pc.rest != []
    ensures Current(StepTodo(s, outcome))
  {
    hide StepTodo, Enabled, MigrateImage, Merged, Upstream, Downstream;
    StepTodoFrame(s, outcome);
    TodoVersions(s, outcome);
  }

  lemma TodoVersions(s: Sys, outcome: Outcome)
    requires s.pc.Todo? && s.pc.rest != []
    ensures StepTodo(s, outcome).store.nextRv >= s.store.nextRv
  {
    hide Next, Merged, Look, BodyFor;
  }

  lemma ResourceCurrent(s: Sys, outcome: Outcome)
    requires Current(s) && OnResource(s.pc)
    ensures Current(StepResource(s, outcome))
  {
    hide FinalReason;
  }

  lemma ForceCurrent(s: Sys, outcome: Outcome)
    requires Current(s) && InForce(s.pc)
    ensures Current(StepForce(s, outcome))
  {
    hide Downstream, Skip;
  }

  lemma MigrateCurrent(s: Sys, outcome: Outcome)
    requires Current(s) && InMigrate(s.pc)
    ensures Current(StepMigrate(s, outcome))
  {
    hide Downstream, Skip, MigrateImage;
  }

  lemma DisturbCurrent(s: Sys, e: Env)
    requires Current(s)
    ensures Current(Disturb(s, e))
  {}

  lemma StepCurrent(s: Sys, a: Action)
    requires Current(s)
    ensures Current(Step(s, a))
  {
    hide StepTodo, StepMigrate, StepForce, StepResource, Disturb, Enabled, Upstream;
    if a.Other? {
      DisturbCurrent(s, a.env);
    } else if s.pc.Todo? && s.pc.rest != [] {
      TodoCurrent(s, a.outcome);
    } else if OnResource(s.pc) {
      ResourceCurrent(s, a.outcome);
    } else if InForce(s.pc) {
      ForceCurrent(s, a.outcome);
    } else if InMigrate(s.pc) {
      MigrateCurrent(s, a.outcome);
    }
  }

  lemma {:induction false} RunCurrent(s: Sys, actions: seq<Action>)
    requires Current(s)
    ensures Current(Run(s, actions))
    decreases |actions|
  {
    hide Step, Current;
    if actions != [] {
      StepCurrent(s, actions[0]);
      RunCurrent(Step(s, actions[0]), actions[1..]);
    }
  }

  lemma ReachableCurrent(s: Sys)
    requires Reachable(s)
    ensures Current(s)
  {
    hide Step;
    var s0: Sys, actions: seq<Action> :| Init(s0) && s == Run(s0, actions);
    RunCurrent(s0, actions);
  }

  // ---------------------------------------------------------------- theorems

  /** The user's annotations are those of `before`, the force annotation aside. */
  predicate KeepsNotes(before: Cr, after: Cr)
  {
    after.notes == before.notes || after.notes == before.notes - {FORCE_MIGRATE}
  }

  /** The operator's part of the resource aside, `after` is `before`: no edit of the user is undone. */
  predicate UsersPart(before: Cr, after: Cr)
  {
    after.spec == before.spec && after.deleting == before.deleting && KeepsNotes(before, after)
  }

  /** The copy carries the force annotation alone, while the server carries another one by now. */
  predicate Wipes(snap: Cr, live: Cr)
  {
    snap.notes.Keys == {FORCE_MIGRATE} && !(live.notes.Keys <= {FORCE_MIGRATE})
  }

  /** The patch keeps the user's annotations exactly if the copy carries another annotation or the server carries no other. */
  lemma PatchKeepsIff(snap: Cr, live: Cr)
    ensures PatchedNotes(snap.notes, live.notes) == live.notes - {FORCE_MIGRATE} <==> !Wipes(snap, live)
    ensures Wipes(snap, live) ==> PatchedNotes(snap.notes, live.notes) == map[]
  {
    if Wipes(snap, live) {
      var k :| k in live.notes && k != FORCE_MIGRATE;
      assert k in live.notes - {FORCE_MIGRATE};
    } else if snap.notes.Keys == {FORCE_MIGRATE} {
      assert live.notes - {FORCE_MIGRATE} == map[];
    }
  }

  /** A finalizer write that goes through was made from the current version. */
  lemma FinalizerWrite(s: Sys, finalizer: bool)
    requires Current(s) && !s.pc.Idle? && s.store.cr.Some?
    ensures var r := UpdateCr(s.store, s.pc.snap.(finalizer := finalizer));
            r.Some? && r.value.cr.Some? ==> UsersPart(s.store.cr.value, r.value.cr.value)
  {}

  /** A status write leaves everything but the status alone. */
  lemma StatusWrite(st: Store, snap: Cr)
    requires st.cr.Some?
    ensures var r := UpdateStatus(st, snap);
            r.Some? ==> r.value.cr.Some? && UsersPart(st.cr.value, r.value.cr.value)
  {}

  lemma ResourceUsersPart(s: Sys, outcome: Outcome)
    requires Current(s) && OnResource(s.pc) && s.store.cr.Some? && StepResource(s, outcome).store.cr.Some?
    ensures UsersPart(s.store.cr.value, StepResource(s, outcome).store.cr.value)
  {
    hide FinalReason, UpdateCr, UpdateStatus, Current, UsersPart;
    Same(s.store.cr.value);
    FinalizerWrite(s, true);
    FinalizerWrite(s, false);
    match s.pc
    case MarkDeleting(snap) => StatusWrite(s.store, snap);
    case Report(snap, reason) => StatusWrite(s.store, WithReason(snap, reason));
    case Finish(snap, gate) => StatusWrite(s.store, WithReason(snap, FinalReason(snap, gate)));
    case _ =>
  }

  lemma Same(cr: Cr)
    ensures UsersPart(cr, cr)
  {}

  /** The patch goes through on a server whose annotations it does not know. */
  predicate WipesNow(s: Sys, outcome: Outcome)
  {
    s.pc.ForcePatch? && !outcome.Refused? && s.store.cr.Some? && Wipes(s.pc.snap, s.store.cr.value)
  }

  lemma PatchUsersPart(s: Sys, outcome: Outcome)
    requires s.pc.ForcePatch? && s.store.cr.Some?
    ensures var t := StepForcePatch(s, outcome);
            && t.store.cr.Some? && t.store.cr.value.spec == s.store.cr.value.spec
            && t.store.cr.value.deleting == s.store.cr.value.deleting
            && (KeepsNotes(s.store.cr.value, t.store.cr.value) <==> !WipesNow(s, outcome))
  {
    PatchKeepsIff(s.pc.snap, s.store.cr.value);
    var live := s.store.cr.value;
    if Wipes(s.pc.snap, live) {
      var k :| k in live.notes && k != FORCE_MIGRATE;
      assert k in live.notes - {FORCE_MIGRATE};
    }
  }

  lemma ForceUsersPart(s: Sys, outcome: Outcome)
    requires InForce(s.pc) && s.store.cr.Some?
    ensures var t := StepForce(s, outcome);
            && t.store.cr.Some? && t.store.cr.value.spec == s.store.cr.value.spec
            && t.store.cr.value.deleting == s.store.cr.value.deleting
            && (KeepsNotes(s.store.cr.value, t.store.cr.value) <==> !WipesNow(s, outcome))
  {
    hide Gated, UpdateStatus, PatchNotes, DeleteJob, Wipes;
    if s.pc.ForcePatch? {
      PatchUsersPart(s, outcome);
    } else if s.pc.ForceReset? {
      StatusWrite(s.store, WithMigrated(s.pc.snap, ""));
    }
  }

  lemma MigrateUsersPart(s: Sys, outcome: Outcome)
    requires InMigrate(s.pc) && s.store.cr.Some?
    ensures StepMigrate(s, outcome).store.cr.Some? && UsersPart(s.store.cr.value, StepMigrate(s, outcome).store.cr.value)
  {
    hide Gated, MigrateImage;
  }

  /** However passes and edits interleave, no operator call changes the specification or the deletion mark; and a call
      keeps every annotation but the force annotation exactly unless it is the patch going through on a server that
      carries annotations while the copy carries the force annotation alone. */
  lemma UserOwnsTheSpec(s: Sys, outcome: Outcome)
    requires Reachable(s) && s.store.cr.Some? && Act(s, outcome).store.cr.Some?
    ensures var (before, after) := (s.store.cr.value, Act(s, outcome).store.cr.value);
            && after.spec == before.spec && after.deleting == before.deleting
            && (KeepsNotes(before, after) <==> !WipesNow(s, outcome))
  {
    hide StepTodo, StepMigrate, StepForce, StepResource, Current, Start, Wipes;
    ReachableCurrent(s);
    if s.pc.Todo? && s.pc.rest != [] {
      StepTodoFrame(s, outcome);
    } else if OnResource(s.pc) {
      ResourceUsersPart(s, outcome);
    } else if InForce(s.pc) {
      ForceUsersPart(s, outcome);
    } else if InMigrate(s.pc) {
      MigrateUsersPart(s, outcome);
    }
  }

  /** It happens: while a pass works through the plan before the gate for a resource that carries the force annotation
      alone, the user sets annotations, say to pause; the patch then drops all of them. */
  lemma PauseIsDropped(s: Sys, cr: Cr, notes: Annotations) returns (first: seq<Action>)
    requires s.pc.Idle? && InHand(s, cr) && Actionable(cr) && !Conflicting(cr.spec)
    requires Force(cr) && cr.notes.Keys == {FORCE_MIGRATE} && Enabled(notes, PAUSE)
    ensures var edited := Run(s, first + [Other(UserEdits(cr.spec, notes))]);
            && edited.store.cr.Some? && Enabled(edited.store.cr.value.notes, PAUSE)
            && Step(edited, Operator(Ok)).store.cr.Some? && Step(edited, Operator(Ok)).store.cr.value.notes == map[]
  {
    hide Act, Run, Go, Exec, Upstream, Enabled, Conflicting, MigrateImage;
    var k := UpstreamUndisturbed(s, cr);
    var at := Go(Act(s, Ok), k);
    ExecKeepsCr(s.store, cr.spec, Upstream(cr.spec));
    var m := PatchReached(at, cr);
    GoAdds(Act(s, Ok), k, m);
    var n := PassIsRun(s, k + m);
    var patch := Run(s, Calls(n));
    first := Calls(n);
    var edit := Other(UserEdits(cr.spec, notes));
    RunConcat(s, first, [edit]);
    RunOne(patch, edit);
    PatchDrops(patch, cr, notes);
  }

  lemma {:induction false} ExecKeepsCr(st: Store, spec: Spec, ops: seq<Op>)
    ensures Exec(st, spec, ops).cr == st.cr
    decreases |ops|
  {
    hide Merged, BodyFor;
    if ops != [] {
      ExecKeepsCr(ExecOp(st, spec, ops[0]), spec, ops[1..]);
    }
  }

  lemma RunOne(s: Sys, a: Action)
    ensures Run(s, [a]) == Step(s, a)
  {
    hide Step;
    assert [a][1..] == [];
    assert Run(s, [a]) == Run(Step(s, a), []);
  }

  lemma PatchDrops(s: Sys, cr: Cr, notes: Annotations)
    requires s.pc == ForcePatch(cr) && s.store.cr == Some(cr) && cr.notes.Keys == {FORCE_MIGRATE}
    ensures var t := Step(s, Other(UserEdits(cr.spec, notes)));
            && t.store.cr.Some? && t.store.cr.value.notes == notes
            && Step(t, Operator(Ok)).store.cr.Some? && Step(t, Operator(Ok)).store.cr.value.notes == map[]
  {}

  /** A condition is only ever written about the resource as it is on the server at that moment. */
  lemma ConditionsAreCurrent(s: Sys, outcome: Outcome)
    requires Reachable(s) && (s.pc.Report? || s.pc.Finish?) && Act(s, outcome).log != s.log
    ensures s.store.cr == Some(s.pc.snap)
    ensures Act(s, outcome).store.cr.Some? && Act(s, outcome).store.cr.value.spec == s.pc.snap.spec
    ensures Act(s, outcome).store.cr.value.status.reason ==
            if s.pc.Report? then s.pc.reason else FinalReason(s.pc.snap, s.pc.gate)
  {
    hide FinalReason;
    ReachableCurrent(s);
  }

  /** The image recorded after a migration is the one the specification on the server asks for at that moment. */
  lemma RecordsAreCurrent(s: Sys, outcome: Outcome)
    requires Reachable(s) && s.pc.Record? && Act(s, outcome).store != s.store
    ensures Act(s, outcome).store.cr.Some?
    ensures var after := Act(s, outcome).store.cr.value;
            after.status.migrated == MigrateImage(after.spec) && after.spec == s.store.cr.value.spec
  {
    hide Gated, MigrateImage;
    ReachableCurrent(s);
  }
}
