/** Single passes: they end whatever the server answers, and when nobody interferes a plan does to the store
    what its steps say one after the other. */
module Passes {
  import opened Options
  import opened Cluster
  import opened Plan
  import opened Machine

  // ---------------------------------------------------------------- passes end

  /** How far along a pass is; smaller is later. */
  function Stage(pc: Pc): nat
  {
    match pc
    case Idle(_) => 0
    case AddFinalizer(_) => 1
    case DropFinalizer(_) => 1
    case MarkDeleting(_) => 2
    case Report(_, _) => 1
    case Finish(_, _) => 1
    case Todo(_, Down(_), _, _) => 2
    case ForceReset(_) => 3
    case ForcePatch(_) => 4
    case ForceDelete(_) => 5
    case ForceLook(_) => 6
    case Record(_, _) => 3
    case MakeJob(_) => 3
    case DropStale(_) => 3
    case LookUp(_) => 4
    case Todo(_, Up, _, _) => 7
  }

  function Left(pc: Pc): nat { if pc.Todo? then |pc.rest| else 0 }

  function ToRead(pc: Pc): nat { if pc.Todo? && pc.seen.Unread? then 1 else 0 }

  /** Later in the pass: fewer stages, fewer steps of the plan, or past the get of the object in hand. */
  predicate Later(pc: Pc, than: Pc)
  {
    Stage(pc) < Stage(than)
    || (Stage(pc) == Stage(than)
        && (Left(pc) < Left(than) || (Left(pc) == Left(than) && ToRead(pc) < ToRead(than))))
  }

  lemma GatedLater(snap: Cr, gate: Gate)
    ensures Stage(Gated(snap, gate)) <= 2
  {}

  lemma NextLater(snap: Cr, phase: Phase, rest: seq<Op>, than: Pc)
    requires than.Todo? && than.phase == phase && |rest| < |than.rest|
    ensures Later(Next(snap, phase, rest), than)
  {
    if rest == [] && phase.Up? {
      GatedLater(snap, MigrateComplete);
    }
  }

  lemma TodoLater(s: Sys, outcome: Outcome)
    requires s.pc.Todo? && s.pc.rest != []
    ensures Later(StepTodo(s, outcome).pc, s.pc)
  {
    hide StepTodo, Next, Merged, Later;
    StepTodoFrame(s, outcome);
    NextLater(s.pc.snap, s.pc.phase, s.pc.rest[1..], s.pc);
    assert Later(Idle(Error), s.pc) by { assert Stage(Idle(Error)) < Stage(s.pc); LaterByStage(Idle(Error), s.pc); }
    if s.pc.seen.Unread? && Look(s) != Next(s.pc.snap, s.pc.phase, s.pc.rest[1..]) {
      LaterByRead(Look(s), s.pc);
    }
  }

  lemma LaterByStage(pc: Pc, than: Pc)
    requires Stage(pc) < Stage(than)
    ensures Later(pc, than)
  {}

  lemma LaterByRead(pc: Pc, than: Pc)
    requires Stage(pc) == Stage(than) && Left(pc) == Left(than) && ToRead(pc) < ToRead(than)
    ensures Later(pc, than)
  {}

  lemma MigrateLater(s: Sys, outcome: Outcome)
    requires InMigrate(s.pc)
    ensures Stage(StepMigrate(s, outcome).pc) < Stage(s.pc)
  {
    hide Gated, MigrateImage, UpdateStatus, CreateJob, DeleteJob;
    GatedLater(s.pc.snap, MigrateInProgress);
    GatedLater(s.pc.snap, MigrateFailed);
    GatedLater(Refreshed(s, WithMigrated(s.pc.snap, MigrateImage(s.pc.snap.spec))), MigrateComplete);
  }

  lemma ForceLater(s: Sys, outcome: Outcome)
    requires InForce(s.pc)
    ensures Stage(StepForce(s, outcome).pc) < Stage(s.pc)
  {
    hide Gated, UpdateStatus, PatchNotes, DeleteJob;
    if s.pc.ForceReset? {
      GatedLater(Refreshed(s, WithMigrated(s.pc.snap, "")), MigrateInProgress);
    }
  }

  /** Every API call of a pass brings it closer to its end, whether the call succeeds or not. */
  lemma PassesEnd(s: Sys, outcome: Outcome)
    requires !s.pc.Idle?
    ensures Later(Act(s, outcome).pc, s.pc)
  {
    hide StepTodo, StepMigrate, StepForce, StepResource;
    if s.pc.Todo? && s.pc.rest != [] {
      TodoLater(s, outcome);
    } else if OnResource(s.pc) {
      ResourceLater(s, outcome);
    } else if InForce(s.pc) {
      ForceLater(s, outcome);
    } else if InMigrate(s.pc) {
      MigrateLater(s, outcome);
    }
  }

  lemma ResourceLater(s: Sys, outcome: Outcome)
    requires OnResource(s.pc)
    ensures Stage(StepResource(s, outcome).pc) < Stage(s.pc)
  {
    hide UpdateStatus, UpdateCr, FinalReason;
  }

  // ---------------------------------------------------------------- undisturbed steps

  /** Up to `n` successful operator calls with nothing in between, no further than to the end of the pass. */
  function Go(s: Sys, n: nat): Sys
    decreases n
  {
    if n == 0 || s.pc.Idle? then s else Go(Act(s, Ok), n - 1)
  }

  lemma {:induction false} GoAdds(s: Sys, m: nat, n: nat)
    ensures Go(s, m + n) == Go(Go(s, m), n)
    decreases m
  {
    hide Act;
    if m > 0 && !s.pc.Idle? {
      GoAdds(Act(s, Ok), m - 1, n);
    }
  }

  /** A pass has one end. */
  lemma GoStops(s: Sys, m: nat, n: nat)
    requires Go(s, m).pc.Idle? && Go(s, n).pc.Idle?
    ensures Go(s, m) == Go(s, n)
  {
    hide Act;
    if m <= n {
      GoAdds(s, m, n - m);
    } else {
      GoAdds(s, n, m - n);
    }
  }

  function Calls(n: nat): seq<Action> { seq(n, _ => Operator(Ok)) }

  lemma {:induction false} GoIsRun(s: Sys, n: nat) returns (m: nat)
    ensures m <= n && Go(s, n) == Run(s, Calls(m))
    decreases n
  {
    hide Act;
    m := 0;
    if n > 0 && !s.pc.Idle? {
      m := GoIsRun(Act(s, Ok), n - 1);
      m := m + 1;
      assert Calls(m)[1..] == Calls(m - 1);
    }
  }

  /** The get that starts a pass, and what follows it. */
  lemma PassIsRun(s: Sys, n: nat) returns (m: nat)
    ensures Go(Act(s, Ok), n) == Run(s, Calls(m))
  {
    hide Act;
    m := GoIsRun(Act(s, Ok), n);
    m := m + 1;
    assert Calls(m)[1..] == Calls(m - 1);
  }

  /** What one step of a plan does to a store nobody else touches. */
  function ExecOp(st: Store, spec: Spec, op: Op): Store
  {
    var id := op.id;
    if op.Remove? then
      st.(objs := st.objs - {id})
    else if id !in st.objs then
      var body := if id.kind == Secret then Data(st.nextRv) else Defaulted(BodyFor(spec, id));
      st.(objs := st.objs[id := Obj(st.nextRv, body)], nextRv := st.nextRv + 1)
    else if id.kind == Secret || Merged(spec, id, st.objs[id].body) == st.objs[id].body then
      st
    else
      st.(objs := st.objs[id := Obj(st.nextRv, Merged(spec, id, st.objs[id].body))], nextRv := st.nextRv + 1)
  }

  function Exec(st: Store, spec: Spec, ops: seq<Op>): Store
    decreases |ops|
  {
    if ops == [] then st else Exec(ExecOp(st, spec, ops[0]), spec, ops[1..])
  }

  /** One or two successful calls finish the step in hand. */
  lemma OpUndisturbed(s: Sys) returns (n: nat)
    requires s.pc.Todo? && s.pc.seen.Unread? && s.pc.rest != []
    ensures var t := Go(s, n);
            && t.store == ExecOp(s.store, s.pc.snap.spec, s.pc.rest[0])
            && t.pc == Next(s.pc.snap, s.pc.phase, s.pc.rest[1..])
            && t.pass == s.pass && t.mark == s.mark && t.fetched == s.fetched
  {
    hide Next, Merged, BodyFor, Go;
    var r := Act(s, Ok);
    assert r == s.(pc := Look(s));
    GoSteps(s);
    if Look(s) == Next(s.pc.snap, s.pc.phase, s.pc.rest[1..]) {
      n := 1;
      PopUndisturbed(s);
    } else {
      n := 2;
      CallUndisturbed(s);
    }
  }

  lemma GoSteps(s: Sys)
    requires !s.pc.Idle?
    ensures Go(s, 1) == Act(s, Ok)
    ensures !Act(s, Ok).pc.Idle? ==> Go(s, 2) == Act(Act(s, Ok), Ok)
  {
    hide Act;
    assert Go(s, 1) == Go(Act(s, Ok), 0);
    if !Act(s, Ok).pc.Idle? {
      assert Go(s, 2) == Go(Act(s, Ok), 1) == Go(Act(Act(s, Ok), Ok), 0);
    }
  }

  lemma PopUndisturbed(s: Sys)
    requires s.pc.Todo? && s.pc.seen.Unread? && s.pc.rest != []
    requires Look(s) == Next(s.pc.snap, s.pc.phase, s.pc.rest[1..])
    ensures ExecOp(s.store, s.pc.snap.spec, s.pc.rest[0]) == s.store
  {
    hide Merged, BodyFor, Upstream, Downstream, MigrateImage, Enabled;
    var id := s.pc.rest[0].id;
    if s.pc.rest[0].Remove? && id !in s.store.objs {
      assert s.store.objs - {id} == s.store.objs;
    }
  }

  lemma CallUndisturbed(s: Sys)
    requires s.pc.Todo? && s.pc.seen.Unread? && s.pc.rest != []
    requires Look(s) != Next(s.pc.snap, s.pc.phase, s.pc.rest[1..])
    ensures var t := Act(s.(pc := Look(s)), Ok);
            && t.store == ExecOp(s.store, s.pc.snap.spec, s.pc.rest[0])
            && t.pc == Next(s.pc.snap, s.pc.phase, s.pc.rest[1..])
            && t.pass == s.pass && t.mark == s.mark && t.fetched == s.fetched
  {
    hide Next, Merged, BodyFor;
    var r := s.(pc := Look(s));
    assert Act(r, Ok) == StepTodo(r, Ok);
  }

  /** Every plan can be worked through, whatever is in the store, unless it runs into a failing check. */
  lemma {:induction false} PlanUndisturbed(s: Sys) returns (n: nat)
    requires s.pc.Todo? && s.pc.seen.Unread? && s.pc.rest != [] && !Rejected(s.pc.snap.spec, s.pc.rest[0])
    ensures var t := Go(s, n);
            if Blocked(s.pc.snap.spec, s.pc.rest) then t.pc == Idle(Error)
            else
              && t.store == Exec(s.store, s.pc.snap.spec, s.pc.rest)
              && t.pc == Next(s.pc.snap, s.pc.phase, [])
              && t.pass == s.pass && t.mark == s.mark && t.fetched == s.fetched
    decreases |s.pc.rest|
  {
    hide Act, ExecOp, Go, Rejected, EnterMigration;
    n := OpUndisturbed(s);
    var t := Go(s, n);
    var spec, rest := s.pc.snap.spec, s.pc.rest[1..];
    assert Blocked(spec, s.pc.rest) <==> Blocked(spec, rest) by {
      assert forall op :: op in s.pc.rest <==> op == s.pc.rest[0] || op in rest;
    }
    if rest == [] {
      assert Exec(t.store, spec, rest) == t.store;
    } else if Rejected(spec, rest[0]) {
      assert rest[0] in rest;
    } else {
      assert t.pc == Todo(s.pc.snap, s.pc.phase, rest, Unread);
      var m := PlanUndisturbed(t);
      GoAdds(s, n, m);
      n := n + m;
    }
  }

  /** The next call over an object that is as wanted: autoscalers and the web configuration are updated all the same,
      which changes nothing; every other object is left alone. */
  lemma IdleUpdates(s: Sys)
    requires s.pc.Todo? && s.pc.seen.Unread? && s.pc.rest != [] && s.pc.rest[0].Apply?
    requires var id := s.pc.rest[0].id;
             id in s.store.objs && id.kind != Secret && Merged(s.pc.snap.spec, id, s.store.objs[id].body) == s.store.objs[id].body
    ensures var (id, t) := (s.pc.rest[0].id, Act(s, Ok));
            if id.kind in {Hpa, ConfigMap} then
              !t.pc.Idle? && Act(t, Ok).store == s.store && |Act(t, Ok).log| == |s.log| + 1 && Act(t, Ok).log[|s.log|].Wrote?
            else t.store == s.store && t.log == s.log && t.pc == Next(s.pc.snap, s.pc.phase, s.pc.rest[1..])
  {
    hide Next, Merged, BodyFor;
  }

  /** An object that goes away between the get and the delete ends the pass with an error, except where OpAMP is being
      switched off and its Deployment, Service or ServiceAccount is concerned: there the pass moves on. */
  lemma LostRace(s: Sys)
    requires s.pc.Todo? && s.pc.seen.Found? && s.pc.rest != [] && s.pc.rest[0].Remove? && s.pc.rest[0].id !in s.store.objs
    ensures Act(s, Ok).store == s.store && Act(s, Ok).log == s.log
    ensures Act(s, Ok).pc == if s.pc.rest[0].id in {Id(Deployment, Opamp), Id(Service, Opamp), Id(ServiceAccount, Opamp)}
                             then Next(s.pc.snap, s.pc.phase, s.pc.rest[1..]) else Idle(Error)
  {
    hide Next;
  }

  /** The get that starts a pass over an actionable resource. */
  lemma FetchUndisturbed(s: Sys, cr: Cr)
    requires s.pc.Idle? && InHand(s, cr) && Actionable(cr)
    ensures var t := Act(s, Ok);
            t.pc == Next(cr, Up, Upstream(cr.spec)) && t.store == s.store && t.pass == s.pass + 1 && t.fetched == cr
  {
    hide Upstream, Next;
  }

  /** The plan before the gate, from the get on. */
  lemma UpstreamUndisturbed(s: Sys, cr: Cr) returns (n: nat)
    requires s.pc.Idle? && InHand(s, cr) && Actionable(cr)
    ensures var t := Go(Act(s, Ok), n);
            if Conflicting(cr.spec) then t.pc == Idle(Error)
            else t.store == Exec(s.store, cr.spec, Upstream(cr.spec)) && t.pc == EnterMigration(cr)
                 && t.pass == s.pass + 1 && t.fetched == cr
  {
    hide Act, Upstream, Actionable, Conflicting, Exec, EnterMigration;
    FetchUndisturbed(s, cr);
    BlockedIffConflicting(cr.spec);
    if Rejected(cr.spec, Upstream(cr.spec)[0]) {
      n := 0;
      assert Upstream(cr.spec)[0] in Upstream(cr.spec);
    } else {
      n := PlanUndisturbed(Act(s, Ok));
    }
  }

  // ---------------------------------------------------------------- the migration, undisturbed

  /** The copy is what the server has. */
  predicate InHand(s: Sys, snap: Cr) { s.store.cr == Some(snap) }

  /** What the Job is to a copy of the resource, once the image is not recorded and nothing is forced. */
  datatype JobView = NoJob | Leaving | Outdated | Ongoing | Finished | Broken

  function View(job: Option<Job>, image: Image): JobView
  {
    if job.None? then NoJob
    else if job.value.terminating then Leaving
    else if job.value.image != image then Outdated
    else match job.value.phase
      case Running => Ongoing
      case Succeeded => Finished
      case Failed => Broken
  }

  predicate Recorded(cr: Cr) { cr.status.migrated == MigrateImage(cr.spec) }

  /** What one undisturbed migration branch makes of the Job, the recorded image and the gate, as one table. */
  datatype Migrated = Migrated(job: Option<Job>, image: Image, gate: Gate)

  function MigrationTable(st: Store, cr: Cr): Migrated
  {
    var (job, image, was) := (st.job, MigrateImage(cr.spec), cr.status.migrated);
    if Force(cr) then Migrated(Ending(job), "", MigrateInProgress)
    else if Recorded(cr) then Migrated(job, was, MigrateComplete)
    else match View(job, image)
      case NoJob => Migrated(Some(Job(st.nextUid, image, Running, false)), was, MigrateInProgress)
      case Leaving => Migrated(job, was, MigrateInProgress)
      case Outdated => Migrated(Ending(job), was, MigrateInProgress)
      case Ongoing => Migrated(job, was, MigrateInProgress)
      case Finished => Migrated(job, image, MigrateComplete)
      case Broken => Migrated(job, was, MigrateFailed)
  }

  function Ending(job: Option<Job>): Option<Job>
  {
    if job.None? then None else Some(job.value.(terminating := true))
  }

  /** `after` is `before` later in the same pass: at most the version, the status and the force annotation differ. */
  predicate SameResource(before: Cr, after: Cr)
  {
    after.spec == before.spec && after.finalizer == before.finalizer && after.deleting == before.deleting
    && (after.notes == before.notes || after.notes == before.notes - {FORCE_MIGRATE})
  }

  /** The branch was worked through: the store's Job and the copy's image are those of the table, the copy is
      up to date, the force annotation is gone, and no owned object was touched. */
  predicate Worked(s: Sys, snap: Cr, t: Sys, at: Cr)
  {
    && InHand(t, at) && SameResource(snap, at) && !Force(at)
    && t.store.job == MigrationTable(s.store, snap).job && at.status.migrated == MigrationTable(s.store, snap).image
    && t.store.objs == s.store.objs && t.store.pods == s.store.pods && t.store.nextRv >= s.store.nextRv
    && t.pass == s.pass && t.fetched == s.fetched
  }

  lemma MigrateUndisturbed(s: Sys, snap: Cr) returns (n: nat, at: Cr)
    requires s.pc == EnterMigration(snap) && InHand(s, snap)
    ensures Worked(s, snap, Go(s, n), at) && Go(s, n).pc == Gated(at, MigrationTable(s.store, snap).gate)
  {
    hide Gated, Go, MigrateImage, Act, Enabled;
    if Force(snap) {
      n, at := ForceUndisturbed(s, snap);
    } else if Recorded(snap) {
      n, at := 0, snap;
      assert Go(s, 0) == s by { GoNone(s); }
    } else {
      n, at := LookUpUndisturbed(s, snap);
    }
  }

  lemma GoNone(s: Sys)
    ensures Go(s, 0) == s
  {}

  lemma LookUpUndisturbed(s: Sys, snap: Cr) returns (n: nat, at: Cr)
    requires s.pc == LookUp(snap) && InHand(s, snap) && !Recorded(snap) && !Force(snap)
    ensures Worked(s, snap, Go(s, n), at) && Go(s, n).pc == Gated(at, MigrationTable(s.store, snap).gate)
  {
    hide Gated, Go, MigrateImage, Enabled;
    GoSteps(s);
    var view := View(s.store.job, MigrateImage(snap.spec));
    n := if view == NoJob || view == Outdated || view == Finished then 2 else 1;
    at := if view == Finished then Refreshed(s, WithMigrated(snap, MigrateImage(snap.spec))) else snap;
  }

  lemma ForceUndisturbed(s: Sys, snap: Cr) returns (n: nat, at: Cr)
    requires s.pc == ForceLook(snap) && InHand(s, snap) && Force(snap)
    ensures Worked(s, snap, Go(s, n), at) && Go(s, n).pc == Gated(at, MigrateInProgress)
  {
    hide Gated, Go, Enabled, MigrateImage;
    var k := PatchReached(s, snap);
    var r := Go(s, k);
    GoSteps(r);
    GoAdds(s, k, 2);
    at := PatchThenReset(r, snap);
    n := k + 2;
  }

  /** Past the look-up and the deletion of the old Job. */
  lemma PatchReached(s: Sys, snap: Cr) returns (n: nat)
    requires s.pc == ForceLook(snap)
    ensures var t := Go(s, n);
            && t.pc == ForcePatch(snap) && t.store == s.store.(job := Ending(s.store.job))
            && t.pass == s.pass && t.fetched == s.fetched
  {
    hide Go;
    GoSteps(s);
    n := if s.store.job.Some? then 2 else 1;
  }

  lemma PatchThenReset(s: Sys, snap: Cr) returns (at: Cr)
    requires s.pc == ForcePatch(snap) && InHand(s, snap)
    ensures var t := Act(Act(s, Ok), Ok);
            && t.pc == Gated(at, MigrateInProgress) && InHand(t, at) && SameResource(snap, at)
            && !Force(at) && at.status.migrated == ""
            && t.store.job == s.store.job && t.store.objs == s.store.objs && t.store.pods == s.store.pods
            && t.store.nextRv >= s.store.nextRv && t.pass == s.pass && t.fetched == s.fetched
  {
    hide Gated;
    var r := Act(s, Ok);
    assert r.pc.ForceReset? && InHand(r, r.pc.snap) && r.pc.snap.notes == snap.notes - {FORCE_MIGRATE};
    at := Refreshed(r, WithMigrated(r.pc.snap, ""));
  }

  /** The removed annotation decides neither skipping nor pausing. */
  lemma SameDecisions(before: Cr, after: Cr)
    requires SameResource(before, after)
    ensures Skip(after) <==> Skip(before)
    ensures Actionable(after) <==> Actionable(before)
  {
    assert FORCE_MIGRATE[19] != SKIP_MIGRATE_CHECK[19] && FORCE_MIGRATE[19] != PAUSE[19];
  }
}
