/** The operator and everybody else as one step machine: each step is a single API call of the operator,
    with the outcome the server gives it, or a single action of another writer. */
module Machine {
  import opened Options
  import opened Cluster
  import opened Plan
  import ServiceSelector

  // ---------------------------------------------------------------- states

  /** What reconcileMigrateJob reports. */
  datatype Gate = MigrateInProgress | MigrateComplete | MigrateFailed

  /** Before the migration gate, or behind it. */
  datatype Phase = Up | Down(gate: Gate)

  /** What the last get of the object in hand returned. */
  datatype Seen = Unread | Absent | Found(obj: Obj)

  datatype Result = Done | Requeue | Error

  /** Where a pass stands: the next API call, with the copy of the resource it works from. */
  datatype Pc =
    | Idle(result: Result)
    | AddFinalizer(snap: Cr)
    | MarkDeleting(snap: Cr)
    | DropFinalizer(snap: Cr)
    | Report(snap: Cr, reason: Reason)
    | Todo(snap: Cr, phase: Phase, rest: seq<Op>, seen: Seen)
    | ForceLook(snap: Cr)
    | ForceDelete(snap: Cr)
    | ForcePatch(snap: Cr)
    | ForceReset(snap: Cr)
    | LookUp(snap: Cr)
    | MakeJob(snap: Cr)
    | DropStale(snap: Cr)
    | Record(snap: Cr, uid: nat)
    | Finish(snap: Cr, gate: Gate)

  /** What happened, for properties of whole runs; no step depends on it. */
  datatype Event =
    | JobCompleted(uid: nat, image: Image)
    | Wrote(pass: nat, id: Id, body: Body, snap: Cr, fetched: Cr, phase: Phase)
    | Reported(pass: nat, reason: Reason, snap: Cr, fetched: Cr)
    | Forced(next: nat)

  /** `fetched` is what the current pass read first, `mark` the first uid free at the last completed force. */
  datatype Sys = Sys(store: Store, pc: Pc, log: seq<Event>, pass: nat, mark: nat, fetched: Cr)

  // ---------------------------------------------------------------- actions

  /** Refused has no effect; Lost takes effect but the operator sees an error. */
  datatype Outcome = Ok | Refused | Lost

  datatype Env =
    | UserEdits(spec: Spec, notes: Annotations)
    | UserDeletes
    | JobSucceeds
    | JobFails
    | JobMarked
    | JobGone
    | PodStarts
    | PodEnds
    | Scales(id: Id, replicas: nat)
    | ArgoSelects(hash: string)
    | Touches
    | Collects(id: Id)

  datatype Action = Operator(outcome: Outcome) | Other(env: Env)

  // ---------------------------------------------------------------- the operator's control flow

  /** reconcileMigrateJob past the service account. */
  function EnterMigration(snap: Cr): Pc
  {
    if Force(snap) then ForceLook(snap)
    else if snap.status.migrated == MigrateImage(snap.spec) then Gated(snap, MigrateComplete)
    else LookUp(snap)
  }

  /** applyMigrateGate. */
  function Gated(snap: Cr, gate: Gate): Pc
  {
    if gate == MigrateFailed && !Skip(snap) then Report(snap, MigrationFailed)
    else if gate == MigrateInProgress && !Skip(snap) then Idle(Requeue)
    else Todo(snap, Down(gate), Downstream(snap.spec), Unread)
  }

  /** The next step of a plan, if the check in front of it does not end the pass, or what follows the plan. */
  function Next(snap: Cr, phase: Phase, rest: seq<Op>): Pc
  {
    if rest != [] then (if Rejected(snap.spec, rest[0]) then Idle(Error) else Todo(snap, phase, rest, Unread))
    else if phase.Up? then EnterMigration(snap)
    else Finish(snap, phase.gate)
  }

  /** No check stands behind the gate. */
  lemma GateOpens(snap: Cr, gate: Gate)
    ensures Next(snap, Down(gate), Downstream(snap.spec)) == Todo(snap, Down(gate), Downstream(snap.spec), Unread)
  {
    hide NatsPlan, NodePlan, OpampPlan;
  }

  /** Reconcile after a successful get. */
  function Start(cr: Cr): Pc
  {
    if cr.deleting then (if cr.finalizer then MarkDeleting(cr) else Idle(Done))
    else if !cr.finalizer then AddFinalizer(cr)
    else if Enabled(cr.notes, PAUSE) then Report(cr, Paused)
    else if !cr.spec.valid then Report(cr, Invalid)
    else Next(cr, Up, Upstream(cr.spec))
  }

  /** reconciledCondition. */
  function FinalReason(snap: Cr, gate: Gate): Reason
  {
    if !Skip(snap) || gate == MigrateComplete then Reconciled else MigrationCheckSkipped
  }

  // ---------------------------------------------------------------- one API call

  /** A call whose error ends the pass. */
  function Call(s: Sys, outcome: Outcome, result: Option<Store>, next: Pc, events: seq<Event>): (t: Sys)
    ensures t.log == s.log || t.log == s.log + events
    ensures t.fetched == s.fetched && t.pass == s.pass && t.mark == s.mark
  {
    if outcome.Refused? || result.None? then s.(pc := Idle(Error))
    else s.(store := result.value, log := s.log + events, pc := if outcome.Ok? then next else Idle(Error))
  }

  /** A read: nothing changes, and any error ends the pass. */
  function Read(s: Sys, outcome: Outcome, next: Pc): Sys
  {
    s.(pc := if outcome.Ok? then next else Idle(Error))
  }

  /** The copy after a successful status write. */
  function Refreshed(s: Sys, snap: Cr): Cr { snap.(rv := s.store.nextRv) }

  function WithReason(snap: Cr, reason: Reason): Cr { snap.(status := snap.status.(reason := reason)) }

  function WithMigrated(snap: Cr, image: Image): Cr { snap.(status := snap.status.(migrated := image)) }

  function StepFetch(s: Sys, outcome: Outcome): Sys
  {
    if !outcome.Ok? then s.(pc := Idle(Error))
    else if s.store.cr.None? then s.(pc := Idle(Done))
    else s.(pc := Start(s.store.cr.value), pass := s.pass + 1, fetched := s.store.cr.value)
  }

  /** The status write of a deletion may fail without consequence. */
  function StepMarkDeleting(s: Sys, outcome: Outcome): Sys
    requires s.pc.MarkDeleting?
  {
    var snap := s.pc.snap;
    var result := UpdateStatus(s.store, snap);
    if outcome.Refused? || result.None? then s.(pc := DropFinalizer(snap))
    else s.(store := result.value, pc := DropFinalizer(if outcome.Ok? then Refreshed(s, snap) else snap))
  }

  /** The object in hand, at a get. */
  function Look(s: Sys): Pc
    requires s.pc.Todo? && s.pc.rest != []
  {
    var (snap, rest) := (s.pc.snap, s.pc.rest);
    var id := rest[0].id;
    var pop := Next(snap, s.pc.phase, rest[1..]);
    var live := id in s.store.objs;
    if rest[0].Remove? then (if live then s.pc.(seen := Found(s.store.objs[id])) else pop)
    else if !live then s.pc.(seen := Absent)
    else if id.kind == Secret then pop
    else if !Blind(id) && Merged(snap.spec, id, s.store.objs[id].body) == s.store.objs[id].body then pop
    else s.pc.(seen := Found(s.store.objs[id]))
  }

  /** What a creation sends; the random data of a secret is a number never used before. */
  function Fresh(s: Sys, spec: Spec, id: Id): Body
  {
    if id.kind == Secret then Data(s.store.nextRv) else BodyFor(spec, id)
  }

  /** The body that the create or update at hand sends. */
  function Written(s: Sys): Body
    requires s.pc.Todo? && s.pc.rest != []
  {
    if s.pc.seen.Found? then Merged(s.pc.snap.spec, s.pc.rest[0].id, s.pc.seen.obj.body)
    else Fresh(s, s.pc.snap.spec, s.pc.rest[0].id)
  }

  function StepTodo(s: Sys, outcome: Outcome): Sys
    requires s.pc.Todo? && s.pc.rest != []
  {
    var (snap, phase, op) := (s.pc.snap, s.pc.phase, s.pc.rest[0]);
    var pop := Next(snap, phase, s.pc.rest[1..]);
    match s.pc.seen
    case Unread => Read(s, outcome, Look(s))
    case Absent =>
      Call(s, outcome, CreateObj(s.store, op.id, Written(s)), pop,
        [Wrote(s.pass, op.id, Written(s), snap, s.fetched, phase)])
    case Found(obj) =>
      if op.Remove? then
        if Tolerant(op.id) && op.id !in s.store.objs then Read(s, outcome, pop)
        else Call(s, outcome, DeleteObj(s.store, op.id), pop, [])
      else
        Call(s, outcome, UpdateObj(s.store, op.id, obj.rv, Written(s)), pop,
          [Wrote(s.pass, op.id, Written(s), snap, s.fetched, phase)])
  }

  /** deleteJobWithPods: a Job that is already gone is fine. */
  function StepDeleteJob(s: Sys, outcome: Outcome, next: Pc): Sys
  {
    if s.store.job.None? then Read(s, outcome, next)
    else Call(s, outcome, DeleteJob(s.store, Foreground), next, [])
  }

  /** The patch's answer replaces the copy by what the server now has. */
  function StepForcePatch(s: Sys, outcome: Outcome): Sys
    requires s.pc.ForcePatch?
  {
    var result := PatchNotes(s.store, s.pc.snap);
    var next := if result.Some? && result.value.cr.Some? then ForceReset(result.value.cr.value) else Idle(Error);
    Call(s, outcome, result, next, [])
  }

  function StepForceReset(s: Sys, outcome: Outcome): Sys
    requires s.pc.ForceReset?
  {
    var snap := WithMigrated(s.pc.snap, "");
    var result := UpdateStatus(s.store, snap);
    var r := Call(s, outcome, result, Gated(Refreshed(s, snap), MigrateInProgress), [Forced(s.store.nextUid)]);
    if outcome.Refused? || result.None? then r else r.(mark := s.store.nextUid)
  }

  /** The branches on the Job that is there. */
  function StepLookUp(s: Sys, outcome: Outcome): Sys
    requires s.pc.LookUp?
  {
    var snap := s.pc.snap;
    Read(s, outcome,
      if s.store.job.None? then MakeJob(snap)
      else
        var job := s.store.job.value;
        if job.terminating then Gated(snap, MigrateInProgress)
        else if job.image != MigrateImage(snap.spec) then DropStale(snap)
        else match job.phase
          case Succeeded => Record(snap, job.uid)
          case Failed => Gated(snap, MigrateFailed)
          case Running => Gated(snap, MigrateInProgress))
  }

  /** Calls on the resource itself, outside the migration. */
  predicate OnResource(pc: Pc)
  {
    pc.AddFinalizer? || pc.MarkDeleting? || pc.DropFinalizer? || pc.Report? || pc.Finish?
  }

  function StepResource(s: Sys, outcome: Outcome): Sys
    requires OnResource(s.pc)
  {
    match s.pc
    case AddFinalizer(snap) => Call(s, outcome, UpdateCr(s.store, snap.(finalizer := true)), Idle(Done), [])
    case MarkDeleting(_) => StepMarkDeleting(s, outcome)
    case DropFinalizer(snap) => Call(s, outcome, UpdateCr(s.store, snap.(finalizer := false)), Idle(Done), [])
    case Report(snap, reason) =>
      var next := WithReason(snap, reason);
      Call(s, outcome, UpdateStatus(s.store, next), Idle(Done), [Reported(s.pass, reason, next, s.fetched)])
    case Finish(snap, gate) =>
      var next := WithReason(snap, FinalReason(snap, gate));
      Call(s, outcome, UpdateStatus(s.store, next), Idle(if gate == MigrateInProgress then Requeue else Done),
        [Reported(s.pass, FinalReason(snap, gate), next, s.fetched)])
  }

  /** The force branch of reconcileMigrateJob. */
  predicate InForce(pc: Pc) { pc.ForceLook? || pc.ForceDelete? || pc.ForcePatch? || pc.ForceReset? }

  function StepForce(s: Sys, outcome: Outcome): Sys
    requires InForce(s.pc)
  {
    match s.pc
    case ForceLook(snap) => Read(s, outcome, if s.store.job.Some? then ForceDelete(snap) else ForcePatch(snap))
    case ForceDelete(snap) => StepDeleteJob(s, outcome, ForcePatch(snap))
    case ForcePatch(_) => StepForcePatch(s, outcome)
    case ForceReset(_) => StepForceReset(s, outcome)
  }

  /** The rest of it: the image is not recorded yet. */
  predicate InMigrate(pc: Pc) { pc.LookUp? || pc.MakeJob? || pc.DropStale? || pc.Record? }

  function StepMigrate(s: Sys, outcome: Outcome): Sys
    requires InMigrate(s.pc)
  {
    match s.pc
    case LookUp(_) => StepLookUp(s, outcome)
    case MakeJob(snap) =>
      Call(s, outcome, CreateJob(s.store, MigrateImage(snap.spec)), Gated(snap, MigrateInProgress), [])
    case DropStale(snap) => StepDeleteJob(s, outcome, Gated(snap, MigrateInProgress))
    case Record(snap, _) =>
      var next := WithMigrated(snap, MigrateImage(snap.spec));
      Call(s, outcome, UpdateStatus(s.store, next), Gated(Refreshed(s, next), MigrateComplete), [])
  }

  /** The operator's next API call. */
  function Act(s: Sys, outcome: Outcome): Sys
  {
    if s.pc.Idle? then StepFetch(s, outcome)
    else if s.pc.Todo? then (if s.pc.rest == [] then s.(pc := Idle(Error)) else StepTodo(s, outcome))
    else if OnResource(s.pc) then StepResource(s, outcome)
    else if InForce(s.pc) then StepForce(s, outcome)
    else StepMigrate(s, outcome)
  }

  /** Working through a plan changes owned objects only. */
  lemma StepTodoFrame(s: Sys, outcome: Outcome)
    requires s.pc.Todo? && s.pc.rest != []
    ensures var t := StepTodo(s, outcome);
            && t == s.(store := t.store, pc := t.pc, log := t.log)
            && t.store == s.store.(objs := t.store.objs, nextRv := t.store.nextRv)
            && (t.log == s.log
                || t.log == s.log + [Wrote(s.pass, s.pc.rest[0].id, Written(s), s.pc.snap, s.fetched, s.pc.phase)])
            && (t.log != s.log ==> !s.pc.seen.Unread? && !(s.pc.seen.Found? && s.pc.rest[0].Remove?))
            && (t.pc == Idle(Error)
                || t.pc == if s.pc.seen.Unread? then Look(s) else Next(s.pc.snap, s.pc.phase, s.pc.rest[1..]))
  {
    hide Next, Look, Merged, Fresh, CreateObj, UpdateObj, DeleteObj;
  }

  predicate OneMore(log: seq<Event>, longer: seq<Event>) { log <= longer && |longer| <= |log| + 1 }

  lemma StepResourceFrame(s: Sys, outcome: Outcome)
    requires OnResource(s.pc)
    ensures var t := StepResource(s, outcome);
            && t == s.(store := t.store, pc := t.pc, log := t.log) && OneMore(s.log, t.log)
            && t.store == s.store.(cr := t.store.cr, nextRv := t.store.nextRv)
            && (t.log != s.log ==> t.log[|s.log|].Reported?)
            && (t.pc.Idle? || (s.pc.MarkDeleting? && t.pc.DropFinalizer?))
  {
    hide UpdateCr, UpdateStatus;
  }

  lemma StepForceFrame(s: Sys, outcome: Outcome)
    requires InForce(s.pc)
    ensures var t := StepForce(s, outcome);
            && t == s.(store := t.store, pc := t.pc, log := t.log, mark := t.mark) && OneMore(s.log, t.log)
            && t.store == s.store.(cr := t.store.cr, job := t.store.job, nextRv := t.store.nextRv)
            && (t.log != s.log ==> s.pc.ForceReset? && t.log[|s.log|] == Forced(s.store.nextUid))
            && t.mark == (if t.log != s.log then s.store.nextUid else s.mark)
  {
    hide UpdateStatus, PatchNotes, DeleteJob, Gated;
  }

  lemma StepMigrateFrame(s: Sys, outcome: Outcome)
    requires InMigrate(s.pc)
    ensures var t := StepMigrate(s, outcome);
            && t == s.(store := t.store, pc := t.pc)
            && t.store == s.store.(cr := t.store.cr, job := t.store.job, nextRv := t.store.nextRv, nextUid := t.store.nextUid)
            && !InForce(t.pc)
  {
    hide UpdateStatus, CreateJob, DeleteJob, MigrateImage, Downstream, Skip;
  }

  /** Only a fetch starts a pass, only a completed reset moves the mark, and a step logs at most one event. */
  lemma ActFrame(s: Sys, outcome: Outcome)
    ensures OneMore(s.log, Act(s, outcome).log)
    ensures !s.pc.Idle? ==> Act(s, outcome).fetched == s.fetched && Act(s, outcome).pass == s.pass
    ensures !s.pc.ForceReset? ==> Act(s, outcome).mark == s.mark
  {
    hide StepTodo, StepResource, StepForce, StepMigrate, Start;
    if s.pc.Todo? && s.pc.rest != [] {
      StepTodoFrame(s, outcome);
    } else if OnResource(s.pc) {
      StepResourceFrame(s, outcome);
    } else if InForce(s.pc) {
      StepForceFrame(s, outcome);
    } else if InMigrate(s.pc) {
      StepMigrateFrame(s, outcome);
    }
  }

  // ---------------------------------------------------------------- everybody else

  function PodsOf(st: Store, uid: nat): nat { if uid in st.pods then st.pods[uid] else 0 }

  /** An edit of the resource by the user; the API server keeps status and finalizer. */
  function EditCr(st: Store, cr: Cr): Store
  {
    st.(cr := Some(cr.(rv := st.nextRv)), nextRv := st.nextRv + 1)
  }

  function EditObj(st: Store, id: Id, body: Body): Store
  {
    st.(objs := st.objs[id := Obj(st.nextRv, body)], nextRv := st.nextRv + 1)
  }

  /** An action that is not possible in a state leaves it as it is. */
  function EnvStep(st: Store, e: Env): Store
  {
    match e
    case UserEdits(spec, notes) =>
      if st.cr.None? then st else EditCr(st, st.cr.value.(spec := spec, notes := notes))
    case UserDeletes =>
      if st.cr.None? then st
      else if st.cr.value.finalizer then EditCr(st, st.cr.value.(deleting := true))
      else st.(cr := None)
    case JobSucceeds =>
      if st.job.Some? && st.job.value.phase.Running? then st.(job := Some(st.job.value.(phase := Succeeded))) else st
    case JobFails =>
      if st.job.Some? && st.job.value.phase.Running? then st.(job := Some(st.job.value.(phase := Failed))) else st
    case JobMarked => if st.job.Some? then st.(job := Some(st.job.value.(terminating := true))) else st
    case JobGone =>
      if st.job.Some? && st.job.value.terminating && PodsOf(st, st.job.value.uid) == 0 then st.(job := None) else st
    case PodStarts =>
      if st.job.Some? && st.job.value.phase.Running? && !st.job.value.terminating then
        st.(pods := st.pods[st.job.value.uid := PodsOf(st, st.job.value.uid) + 1])
      else st
    case PodEnds =>
      if st.job.Some? && PodsOf(st, st.job.value.uid) > 0 then
        st.(pods := st.pods[st.job.value.uid := PodsOf(st, st.job.value.uid) - 1])
      else st
    case Scales(id, replicas) =>
      if id in st.objs && st.objs[id].body.Workload? then
        EditObj(st, id, st.objs[id].body.(replicas := Some(replicas)))
      else st
    case ArgoSelects(hash) =>
      var id := Id(Service, Node);
      if id in st.objs && st.objs[id].body.Routing? then
        EditObj(st, id, st.objs[id].body.(selector := st.objs[id].body.selector[ServiceSelector.ROLLOUT_HASH := hash]))
      else st
    case Touches => if st.cr.None? then st else EditCr(st, st.cr.value)
    case Collects(id) => if st.cr.None? then st.(objs := st.objs - {id}) else st
  }

  function Disturb(s: Sys, e: Env): (t: Sys)
    ensures s.log <= t.log
    ensures t.pc == s.pc && t.fetched == s.fetched && t.pass == s.pass && t.mark == s.mark
  {
    s.(store := EnvStep(s.store, e),
       log := if e.JobSucceeds? && s.store.job.Some? && s.store.job.value.phase.Running?
              then s.log + [JobCompleted(s.store.job.value.uid, s.store.job.value.image)] else s.log)
  }

  function Step(s: Sys, a: Action): Sys
  {
    match a
    case Operator(outcome) => Act(s, outcome)
    case Other(e) => Disturb(s, e)
  }

  function Run(s: Sys, actions: seq<Action>): Sys
    decreases |actions|
  {
    if actions == [] then s else Run(Step(s, actions[0]), actions[1..])
  }

  /** A resource nobody has reconciled yet. */
  predicate Init(s: Sys)
  {
    && (s.store.cr.Some? ==> !s.store.cr.value.finalizer && s.store.cr.value.rv < s.store.nextRv
                             && s.store.cr.value.status == Status("", NoReason))
    && s.store.job == None && s.store.pods == map[] && s.store.objs == map[]
    && s.pc == Idle(Done) && s.log == [] && s.pass == 0 && s.mark == 0
  }

  /** A state some run reaches: with any users, Job outcomes, collectors and errors in any order. */
  ghost predicate Reachable(s: Sys)
  {
    exists s0: Sys, actions: seq<Action> :: Init(s0) && s == Run(s0, actions)
  }

  lemma {:induction false} RunConcat(s: Sys, a: seq<Action>, b: seq<Action>)
    ensures Run(s, a + b) == Run(Run(s, a), b)
    decreases |a|
  {
    if a == [] {
      assert a + b == b;
    } else {
      assert (a + b)[1..] == a[1..] + b;
      RunConcat(Step(s, a[0]), a[1..], b);
    }
  }
}
