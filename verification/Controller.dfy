/** The controller in the form it is written in: methods that call the API server, change the copy of the
    resource in place and return early on errors. Every API call is one step of the machine, so what is proved
    of all runs of the machine holds of these methods. */
module Controller {
  import opened Options
  import opened Cluster
  import opened Plan
  import opened Machine
  import ServiceSelector

  /** The controller's copy of the resource. */
  class Bindplane {
    var cr: Cr

    constructor (cr: Cr)
      ensures this.cr == cr
    {
      this.cr := cr;
    }
  }

  /** What happens around one API call: other writers come first, then the server answers. */
  datatype Turn = Turn(others: seq<Env>, outcome: Outcome)

  /** The body a status update sends. */
  function Sent(pc: Pc): Cr
    requires OnResource(pc) || pc.ForceReset? || pc.Record?
  {
    match pc
    case AddFinalizer(snap) => snap.(finalizer := true)
    case MarkDeleting(snap) => snap
    case DropFinalizer(snap) => snap.(finalizer := false)
    case Report(snap, reason) => WithReason(snap, reason)
    case Finish(snap, gate) => WithReason(snap, FinalReason(snap, gate))
    case ForceReset(snap) => WithMigrated(snap, "")
    case Record(snap, _) => WithMigrated(snap, MigrateImage(snap.spec))
  }

  /** Where a pass goes on after a successful update, from the refreshed copy. */
  function Answered(pc: Pc, cr: Cr): Pc
    requires OnResource(pc) || pc.ForceReset? || pc.Record?
  {
    match pc
    case AddFinalizer(_) => Idle(Done)
    case MarkDeleting(_) => DropFinalizer(cr)
    case DropFinalizer(_) => Idle(Done)
    case Report(_, _) => Idle(Done)
    case Finish(_, gate) => Idle(if gate == MigrateInProgress then Requeue else Done)
    case ForceReset(_) => Gated(cr, MigrateInProgress)
    case Record(_, _) => Gated(cr, MigrateComplete)
  }

  class Reconciler {
    /** The API server's state. */
    var store: Store
    /** The turns to come; calls beyond its end succeed undisturbed. */
    var script: seq<Turn>

    ghost var start: Sys
    ghost var moves: seq<Action>
    ghost var sys: Sys

    /** The machine has run along and stands where the controller stands. */
    ghost predicate Valid()
      reads this
    {
      sys == Run(start, moves) && sys.store == store
    }

    /** The pass is about to work through these steps. */
    ghost predicate At(snap: Cr, phase: Phase, ops: seq<Op>)
      reads this
    {
      Valid() && sys.pc == Next(snap, phase, ops)
    }

    ghost predicate Ended(result: Result)
      reads this
    {
      Valid() && sys.pc == Idle(result)
    }

    constructor (from: Sys, script: seq<Turn>)
      ensures Valid() && sys == start == from
    {
      store, this.script := from.store, script;
      start, moves, sys := from, [], from;
    }

    /** The run the machine made along: it only gets longer. */
    twostate predicate Further()
      reads this
    {
      start == old(start) && old(moves) <= moves
    }

    // -------------------------------------------------------------- the API server

    /** The machine follows the call just made. */
    ghost method Move(outcome: Outcome)
      requires sys == Run(start, moves) && Act(sys, outcome).store == store
      modifies this`sys, this`moves
      ensures Valid() && sys == Act(old(sys), outcome) && moves == old(moves) + [Operator(outcome)]
    {
      RunSnoc(start, moves, Operator(outcome));
      sys := Act(sys, outcome);
      moves := moves + [Operator(outcome)];
    }

    /** Others act, then the server decides how the call will go. */
    method NextTurn() returns (outcome: Outcome)
      requires Valid()
      modifies this
      ensures Valid() && Further()
      ensures sys == old(sys).(store := store, log := sys.log)
    {
      if script == [] {
        return Ok;
      }
      var turn := script[0];
      script := script[1..];
      outcome := turn.outcome;
      for i := 0 to |turn.others|
        invariant Valid() && Further()
        invariant sys == old(sys).(store := store, log := sys.log)
      {
        store := EnvStep(store, turn.others[i]);
        RunSnoc(start, moves, Other(turn.others[i]));
        sys := Disturb(sys, turn.others[i]);
        moves := moves + [Other(turn.others[i])];
      }
    }

    /** Reads the resource; this starts a pass. */
    method Fetch() returns (cr: Option<Cr>, err: bool)
      requires Valid() && sys.pc.Idle?
      modifies this
      ensures Further() && (err ==> Ended(Error))
      ensures !err && cr.None? ==> Ended(Done)
      ensures !err && cr.Some? ==> Valid() && sys.pc == Start(cr.value)
    {
      var outcome := NextTurn();
      cr, err := store.cr, !outcome.Ok?;
      Move(outcome);
    }

    /** Update of the resource's metadata: the finalizer. */
    method WriteFinalizer(bindplane: Bindplane) returns (err: bool)
      requires Valid() && (sys.pc.AddFinalizer? || sys.pc.DropFinalizer?) && bindplane.cr == Sent(sys.pc)
      modifies this
      ensures Further() && Ended(if err then Error else Done)
    {
      var outcome := NextTurn();
      var result := UpdateCr(store, bindplane.cr);
      if outcome.Refused? || result.None? {
        err := true;
      } else {
        store := result.value;
        err := outcome.Lost?;
      }
      Move(outcome);
    }

    /** Update of the status; on success the copy takes over the new version. */
    method WriteStatus(bindplane: Bindplane) returns (err: bool)
      requires Valid() && (sys.pc.MarkDeleting? || sys.pc.Report? || sys.pc.Finish? || sys.pc.ForceReset? || sys.pc.Record?)
      requires bindplane.cr == Sent(sys.pc)
      modifies this, bindplane
      ensures Valid() && Further()
      ensures err ==> bindplane.cr == old(bindplane.cr)
                      && sys.pc == if old(sys.pc.MarkDeleting?) then DropFinalizer(bindplane.cr) else Idle(Error)
      ensures !err ==> bindplane.cr == old(bindplane.cr).(rv := bindplane.cr.rv)
                       && sys.pc == Answered(old(sys.pc), bindplane.cr)
    {
      hide Gated, MigrateImage;
      var outcome := NextTurn();
      var result := UpdateStatus(store, bindplane.cr);
      if outcome.Refused? || result.None? {
        err := true;
      } else {
        if outcome.Ok? {
          bindplane.cr := bindplane.cr.(rv := store.nextRv);
        }
        store := result.value;
        err := outcome.Lost?;
      }
      Move(outcome);
    }

    /** The merge patch between the copy and the copy without its force annotation; its answer replaces the copy. */
    method PatchAway(bindplane: Bindplane) returns (err: bool)
      requires Valid() && sys.pc == ForcePatch(bindplane.cr)
      modifies this, bindplane
      ensures Valid() && Further()
      ensures sys.pc == if err then Idle(Error) else ForceReset(bindplane.cr)
    {
      var outcome := NextTurn();
      var result := PatchNotes(store, bindplane.cr);
      if outcome.Refused? || result.None? {
        err := true;
      } else {
        store := result.value;
        err := outcome.Lost?;
        if !err {
          bindplane.cr := store.cr.value;
        }
      }
      Move(outcome);
    }

    /** Reads the migrate Job. */
    method GetJob() returns (job: Option<Job>, err: bool)
      requires Valid() && (sys.pc.ForceLook? || sys.pc.LookUp?)
      modifies this
      ensures Valid() && Further() && (err ==> sys.pc == Idle(Error))
      ensures !err && old(sys.pc.ForceLook?) ==>
                sys.pc == if job.Some? then ForceDelete(old(sys.pc.snap)) else ForcePatch(old(sys.pc.snap))
      ensures !err && old(sys.pc.LookUp?) ==>
                var snap := old(sys.pc.snap);
                sys.pc == if job.None? then MakeJob(snap)
                          else if job.value.terminating then Gated(snap, MigrateInProgress)
                          else if job.value.image != MigrateImage(snap.spec) then DropStale(snap)
                          else if job.value.phase.Succeeded? then Record(snap, job.value.uid)
                          else Gated(snap, if job.value.phase.Failed? then MigrateFailed else MigrateInProgress)
    {
      hide Gated, MigrateImage;
      var outcome := NextTurn();
      job, err := store.job, !outcome.Ok?;
      Move(outcome);
    }

    /** Creates the migrate Job. */
    method CreateMigrateJob(bindplane: Bindplane) returns (err: bool)
      requires Valid() && sys.pc == MakeJob(bindplane.cr)
      modifies this
      ensures Valid() && Further()
      ensures sys.pc == if err then Idle(Error) else Gated(bindplane.cr, MigrateInProgress)
    {
      hide Gated, MigrateImage;
      var outcome := NextTurn();
      var result := CreateJob(store, MigrateImage(bindplane.cr.spec));
      if outcome.Refused? || result.None? {
        err := true;
      } else {
        store := result.value;
        err := outcome.Lost?;
      }
      Move(outcome);
    }

    /** deleteJobWithPods: in the foreground, and a Job that is already gone is fine. */
    method DeleteJobWithPods() returns (err: bool)
      requires Valid() && (sys.pc.ForceDelete? || sys.pc.DropStale?)
      modifies this
      ensures Valid() && Further()
      ensures sys.pc == if err then Idle(Error)
                        else if old(sys.pc.ForceDelete?) then ForcePatch(old(sys.pc.snap))
                        else Gated(old(sys.pc.snap), MigrateInProgress)
    {
      hide Gated;
      var outcome := NextTurn();
      var result := DeleteJob(store, Foreground);
      if result.None? {
        err := !outcome.Ok?;
      } else if outcome.Refused? {
        err := true;
      } else {
        store := result.value;
        err := outcome.Lost?;
      }
      Move(outcome);
    }

    /** Reads an owned object. */
    method Get(id: Id) returns (found: Option<Obj>, err: bool)
      requires Valid() && sys.pc.Todo? && sys.pc.seen.Unread? && sys.pc.rest != [] && sys.pc.rest[0].id == id
      modifies this
      ensures Valid() && Further() && (err ==> sys.pc == Idle(Error))
      ensures !err ==> found == (if id in store.objs then Some(store.objs[id]) else None)
      ensures !err ==> sys.pc == Look(sys.(pc := old(sys.pc)))
    {
      hide Merged, Next;
      var outcome := NextTurn();
      found, err := if id in store.objs then Some(store.objs[id]) else None, !outcome.Ok?;
      Move(outcome);
    }

    /** Creates an owned object; the data of a secret is drawn now. */
    method Create(id: Id, body: Body) returns (err: bool)
      requires Valid() && sys.pc.Todo? && sys.pc.seen.Absent? && sys.pc.rest != [] && sys.pc.rest[0].id == id
      requires id.kind != Secret ==> body == BodyFor(sys.pc.snap.spec, id)
      modifies this
      ensures Valid() && Further()
      ensures sys.pc == if err then Idle(Error) else old(Next(sys.pc.snap, sys.pc.phase, sys.pc.rest[1..]))
    {
      hide BodyFor, Next;
      var outcome := NextTurn();
      var result := CreateObj(store, id, if id.kind == Secret then Data(store.nextRv) else body);
      if outcome.Refused? || result.None? {
        err := true;
      } else {
        store := result.value;
        err := outcome.Lost?;
      }
      Move(outcome);
    }

    /** Updates an owned object that was read before. */
    method Update(id: Id, found: Obj, body: Body) returns (err: bool)
      requires Valid() && sys.pc.Todo? && sys.pc.rest != [] && sys.pc.rest[0] == Apply(id) && sys.pc.seen == Found(found)
      requires body == Merged(sys.pc.snap.spec, id, found.body)
      modifies this
      ensures Valid() && Further()
      ensures sys.pc == if err then Idle(Error) else old(Next(sys.pc.snap, sys.pc.phase, sys.pc.rest[1..]))
    {
      hide Merged, Next;
      var outcome := NextTurn();
      var result := UpdateObj(store, id, found.rv, body);
      if outcome.Refused? || result.None? {
        err := true;
      } else {
        store := result.value;
        err := outcome.Lost?;
      }
      Move(outcome);
    }

    /** Deletes an owned object; where the caller says so, one that is already gone is fine. */
    method Delete(id: Id, tolerant: bool) returns (err: bool)
      requires Valid() && sys.pc.Todo? && sys.pc.seen.Found? && sys.pc.rest != [] && sys.pc.rest[0] == Remove(id)
      requires tolerant == Tolerant(id)
      modifies this
      ensures Valid() && Further()
      ensures sys.pc == if err then Idle(Error) else old(Next(sys.pc.snap, sys.pc.phase, sys.pc.rest[1..]))
    {
      hide Next;
      var outcome := NextTurn();
      var result := DeleteObj(store, id);
      if result.None? && tolerant {
        err := !outcome.Ok?;
      } else if outcome.Refused? || result.None? {
        err := true;
      } else {
        store := result.value;
        err := outcome.Lost?;
      }
      Move(outcome);
    }

    // -------------------------------------------------------------- one owned object

    /** reconcileDeployment, reconcileRollout and reconcileStatefulSet: where no replica count is wanted the live one
        is kept, and nothing is sent when nothing changed. */
    method ReconcileWorkload(bindplane: Bindplane, id: Id, ghost phase: Phase, ghost ops: seq<Op>) returns (err: bool)
      requires IsWorkload(id.kind) && ops != [] && ops[0] == Apply(id) && At(bindplane.cr, phase, ops)
      modifies this
      ensures Further() && (err ==> Ended(Error)) && (!err ==> At(bindplane.cr, phase, ops[1..]))
    {
      hide PartImage, PartReplicas, PartSecrets;
      var found;
      found, err := Get(id);
      if err {
        return;
      }
      var desired := BodyFor(bindplane.cr.spec, id);
      if found.None? {
        err := Create(id, desired);
        return;
      }
      if desired.replicas.None? && found.value.body.Workload? {
        desired := desired.(replicas := found.value.body.replicas);
      }
      if found.value.body == desired {
        return;
      }
      err := Update(id, found.value, desired);
    }

    /** The selector keys listed in the annotation are copied from the live object. */
    method DesiredService(bindplane: Bindplane, id: Id, live: Body) returns (desired: Body)
      requires id.kind == Service
      ensures desired == Merged(bindplane.cr.spec, id, live)
    {
      hide Component;
      desired := BodyFor(bindplane.cr.spec, id);
      var annotation := KeepFor(bindplane.cr.spec, id);
      if live.Routing? {
        if annotation.Some? {
          var selector := ServiceSelector.PreserveSelectorKeys(desired.selector, live.selector, annotation.value);
          desired := desired.(selector := selector);
        } else {
          assert ServiceSelector.Kept(desired.selector, live.selector, []) == desired.selector;
        }
      }
    }

    /** reconcileService. */
    method ReconcileService(bindplane: Bindplane, id: Id, ghost phase: Phase, ghost ops: seq<Op>) returns (err: bool)
      requires id.kind == Service && ops != [] && ops[0] == Apply(id) && At(bindplane.cr, phase, ops)
      modifies this
      ensures Further() && (err ==> Ended(Error)) && (!err ==> At(bindplane.cr, phase, ops[1..]))
    {
      hide Run, Act, Merged, BodyFor;
      var found;
      found, err := Get(id);
      if err {
        return;
      }
      if found.None? {
        err := Create(id, BodyFor(bindplane.cr.spec, id));
        return;
      }
      var desired := DesiredService(bindplane, id, found.value.body);
      if found.value.body == desired {
        return;
      }
      err := Update(id, found.value, desired);
    }

    /** reconcileServiceAccount, reconcilePodDisruptionBudget and reconcileCertificate send only changes;
        reconcileHorizontalPodAutoscaler and reconcileTSDBWebConfigConfigMap always send an update. */
    method ReconcilePlain(bindplane: Bindplane, id: Id, ghost phase: Phase, ghost ops: seq<Op>) returns (err: bool)
      requires !IsWorkload(id.kind) && id.kind != Service && id.kind != Secret
      requires !Rejected(bindplane.cr.spec, Apply(id)) && ops != [] && ops[0] == Apply(id) && At(bindplane.cr, phase, ops)
      modifies this
      ensures Further() && (err ==> Ended(Error)) && (!err ==> At(bindplane.cr, phase, ops[1..]))
    {
      var found;
      found, err := Get(id);
      if err {
        return;
      }
      var desired := BodyFor(bindplane.cr.spec, id);
      if found.None? {
        err := Create(id, desired);
        return;
      }
      if found.value.body == desired && id.kind != Hpa && id.kind != ConfigMap {
        return;
      }
      err := Update(id, found.value, desired);
    }

    /** The session, status and basic-auth secrets: an existing one is never touched. */
    method CreateOnceSecret(bindplane: Bindplane, id: Id, ghost phase: Phase, ghost ops: seq<Op>) returns (err: bool)
      requires id.kind == Secret && ops != [] && ops[0] == Apply(id) && At(bindplane.cr, phase, ops)
      modifies this
      ensures Further() && (err ==> Ended(Error)) && (!err ==> At(bindplane.cr, phase, ops[1..]))
    {
      var found;
      found, err := Get(id);
      if err || found.Some? {
        return;
      }
      err := Create(id, Data(0));
    }

    /** The delete-if-exists helpers. */
    method DeleteIfExists(bindplane: Bindplane, id: Id, tolerant: bool, ghost phase: Phase, ghost ops: seq<Op>)
      returns (err: bool)
      requires tolerant == Tolerant(id) && ops != [] && ops[0] == Remove(id) && At(bindplane.cr, phase, ops)
      modifies this
      ensures Further() && (err ==> Ended(Error)) && (!err ==> At(bindplane.cr, phase, ops[1..]))
    {
      var found;
      found, err := Get(id);
      if err || found.None? {
        return;
      }
      err := Delete(id, tolerant);
    }

    /** Create or update when switched on, delete when switched off. */
    method TogglePlain(bindplane: Bindplane, id: Id, on: bool, ghost phase: Phase, ghost ops: seq<Op>) returns (err: bool)
      requires !IsWorkload(id.kind) && id.kind != Service && id.kind != Secret && !Tolerant(id)
      requires !Rejected(bindplane.cr.spec, Apply(id))
      requires ops != [] && ops[0] == Toggle(id, on) && At(bindplane.cr, phase, ops)
      modifies this
      ensures Further() && (err ==> Ended(Error)) && (!err ==> At(bindplane.cr, phase, ops[1..]))
    {
      if on {
        err := ReconcilePlain(bindplane, id, phase, ops);
      } else {
        err := DeleteIfExists(bindplane, id, false, phase, ops);
      }
    }

    // -------------------------------------------------------------- components

    /** validateTSDBComponentTLSConfig: the pass cannot go on with both sources for the server. */
    method ValidateServerTls(bindplane: Bindplane, ghost phase: Phase, ghost ops: seq<Op>) returns (err: bool)
      requires ops != [] && ops[0] == Toggle(Id(Certificate, TsdbServerCert), bindplane.cr.spec.tsdbServerCert)
      requires bindplane.cr.spec.tsdbServerCert && At(bindplane.cr, phase, ops)
      ensures err == ServerConflict(bindplane.cr.spec) && (err ==> Ended(Error))
    {
      hide Run, Act;
      return bindplane.cr.spec.tsdbServerCert && bindplane.cr.spec.tsdbServerSecret;
    }

    /** validateTSDBTLSConfig: nor with both for the client. */
    method ValidateClientTls(bindplane: Bindplane, ghost phase: Phase, ghost ops: seq<Op>) returns (err: bool)
      requires ops != [] && ops[0] == Toggle(Id(Certificate, TsdbClientCert), bindplane.cr.spec.tsdbClientCert)
      requires bindplane.cr.spec.tsdbClientCert && At(bindplane.cr, phase, ops)
      ensures err == ClientConflict(bindplane.cr.spec) && (err ==> Ended(Error))
    {
      hide Run, Act;
      return bindplane.cr.spec.tsdbClientCert && bindplane.cr.spec.tsdbClientSecret;
    }

    /** reconcileInternalTLSCertificates, for the TSDB server and its probe: one switch, two certificates. */
    method ReconcileServerCertificates(bindplane: Bindplane, ghost phase: Phase, ghost ops: seq<Op>) returns (err: bool)
      requires |ops| >= 2 && At(bindplane.cr, phase, ops)
      requires ops[0] == Toggle(Id(Certificate, TsdbServerCert), bindplane.cr.spec.tsdbServerCert)
      requires ops[1] == Toggle(Id(Certificate, TsdbProbeCert), bindplane.cr.spec.tsdbServerCert)
      modifies this
      ensures Further() && (err ==> Ended(Error)) && (!err ==> At(bindplane.cr, phase, ops[2..]))
    {
      hide At, Ended, Next, Run, Act, Valid, Toggle;
      if bindplane.cr.spec.tsdbServerCert {
        err := ValidateServerTls(bindplane, phase, ops);
        if err {
          return;
        }
      }
      err := TogglePlain(bindplane, Id(Certificate, TsdbServerCert), bindplane.cr.spec.tsdbServerCert, phase, ops);
      if err {
        return;
      }
      err := TogglePlain(bindplane, Id(Certificate, TsdbProbeCert), bindplane.cr.spec.tsdbServerCert, phase, ops[1..]);
    }

    /** The same for the client, one certificate. */
    method ReconcileClientCertificate(bindplane: Bindplane, ghost phase: Phase, ghost ops: seq<Op>) returns (err: bool)
      requires ops != [] && At(bindplane.cr, phase, ops)
      requires ops[0] == Toggle(Id(Certificate, TsdbClientCert), bindplane.cr.spec.tsdbClientCert)
      modifies this
      ensures Further() && (err ==> Ended(Error)) && (!err ==> At(bindplane.cr, phase, ops[1..]))
    {
      hide At, Ended, Next, Run, Act, Valid, Toggle;
      if bindplane.cr.spec.tsdbClientCert {
        err := ValidateClientTls(bindplane, phase, ops);
        if err {
          return;
        }
      }
      err := TogglePlain(bindplane, Id(Certificate, TsdbClientCert), bindplane.cr.spec.tsdbClientCert, phase, ops);
    }

    /** reconcileInternalTLSCertificates, as a whole. */
    method ReconcileCertificates(bindplane: Bindplane, ghost phase: Phase, ghost rest: seq<Op>) returns (err: bool)
      requires At(bindplane.cr, phase, CertificatePlan(bindplane.cr.spec) + rest)
      modifies this
      ensures Further() && (err ==> Ended(Error)) && (!err ==> At(bindplane.cr, phase, rest))
    {
      hide At, Ended, Next, Run, Act, Valid, Toggle;
      ghost var ops := CertificatePlan(bindplane.cr.spec) + rest;
      assert ops[5..] == rest;
      err := ReconcileServerCertificates(bindplane, phase, ops);
      if err {
        return;
      }
      err := ReconcileClientCertificate(bindplane, phase, ops[2..]);
      if err {
        return;
      }
      err := TogglePlain(bindplane, Id(Certificate, NatsCert), bindplane.cr.spec.natsCert, phase, ops[3..]);
      if err {
        return;
      }
      err := TogglePlain(bindplane, Id(Certificate, TransformAgentCert), bindplane.cr.spec.agentCert, phase, ops[4..]);
    }

    /** reconcileSessionSecret, then reconcileStatusSecret. */
    method ReconcileSecrets(bindplane: Bindplane, ghost phase: Phase, ghost rest: seq<Op>) returns (err: bool)
      requires At(bindplane.cr, phase, SecretPlan(bindplane.cr.spec) + rest)
      modifies this
      ensures Further() && (err ==> Ended(Error)) && (!err ==> At(bindplane.cr, phase, rest))
    {
      err := false;
      ghost var ops := SecretPlan(bindplane.cr.spec) + rest;
      if CreatesSession(bindplane.cr.spec) {
        err := CreateOnceSecret(bindplane, SESSION, phase, ops);
        if err {
          return;
        }
        ops := ops[1..];
      }
      if CreatesStatus(bindplane.cr.spec) {
        err := CreateOnceSecret(bindplane, STATUS_KEYS, phase, ops);
        ops := ops[1..];
      }
      assert ops == rest;
    }

    /** reconcileTransformAgent. */
    method ReconcileTransformAgent(bindplane: Bindplane, ghost phase: Phase, ghost rest: seq<Op>) returns (err: bool)
      requires At(bindplane.cr, phase, TransformAgentPlan(bindplane.cr.spec) + rest)
      modifies this
      ensures Further() && (err ==> Ended(Error)) && (!err ==> At(bindplane.cr, phase, rest))
    {
      hide At, Ended, Next, Run, Act, Valid, Wanted, BodyFor;
      ghost var ops := TransformAgentPlan(bindplane.cr.spec) + rest;
      assert ops[4..] == rest;
      err := ReconcilePlain(bindplane, Id(ServiceAccount, TransformAgent), phase, ops);
      if err {
        return;
      }
      err := ReconcileWorkload(bindplane, Id(Deployment, TransformAgent), phase, ops[1..]);
      if err {
        return;
      }
      err := ReconcileService(bindplane, Id(Service, TransformAgent), phase, ops[2..]);
      if err {
        return;
      }
      err := TogglePlain(bindplane, Id(Pdb, TransformAgent), !bindplane.cr.spec.agentDisablePdb, phase, ops[3..]);
    }

    /** reconcileTSDB: local resources, or their removal once the TSDB is remote. */
    method ReconcileTsdb(bindplane: Bindplane, ghost phase: Phase, ghost rest: seq<Op>) returns (err: bool)
      requires At(bindplane.cr, phase, TsdbPlan(bindplane.cr.spec) + rest)
      modifies this
      ensures Further() && (err ==> Ended(Error)) && (!err ==> At(bindplane.cr, phase, rest))
    {
      hide At, Ended, Next, Run, Act, Valid, Wanted, BodyFor;
      ghost var ops := TsdbPlan(bindplane.cr.spec) + rest;
      assert ops[5..] == rest;
      if bindplane.cr.spec.remoteTsdb {
        err := DeleteIfExists(bindplane, Id(StatefulSet, Tsdb), false, phase, ops);
        if err {
          return;
        }
        err := DeleteIfExists(bindplane, Id(Service, Tsdb), false, phase, ops[1..]);
        if err {
          return;
        }
        err := DeleteIfExists(bindplane, Id(ServiceAccount, Tsdb), false, phase, ops[2..]);
        if err {
          return;
        }
        err := DeleteIfExists(bindplane, BASIC_AUTH, false, phase, ops[3..]);
        if err {
          return;
        }
        err := DeleteIfExists(bindplane, Id(ConfigMap, TsdbWebConfig), false, phase, ops[4..]);
      } else {
        err := CreateOnceSecret(bindplane, BASIC_AUTH, phase, ops);
        if err {
          return;
        }
        err := ReconcilePlain(bindplane, Id(ConfigMap, TsdbWebConfig), phase, ops[1..]);
        if err {
          return;
        }
        err := ReconcilePlain(bindplane, Id(ServiceAccount, Tsdb), phase, ops[2..]);
        if err {
          return;
        }
        err := ReconcileWorkload(bindplane, Id(StatefulSet, Tsdb), phase, ops[3..]);
        if err {
          return;
        }
        err := ReconcileService(bindplane, Id(Service, Tsdb), phase, ops[4..]);
      }
    }

    /** reconcileBindplaneJobsRegular. */
    method ReconcileJobs(bindplane: Bindplane, ghost phase: Phase, ghost rest: seq<Op>) returns (err: bool)
      requires At(bindplane.cr, phase, JobsPlan(bindplane.cr.spec) + rest)
      modifies this
      ensures Further() && (err ==> Ended(Error)) && (!err ==> At(bindplane.cr, phase, rest))
    {
      hide At, Ended, Next, Run, Act, Valid, Wanted, BodyFor;
      ghost var ops := JobsPlan(bindplane.cr.spec) + rest;
      assert ops[2..] == rest;
      err := ReconcilePlain(bindplane, Id(ServiceAccount, Jobs), phase, ops);
      if err {
        return;
      }
      err := ReconcileWorkload(bindplane, Id(Deployment, Jobs), phase, ops[1..]);
    }

    /** reconcileNats. */
    method ReconcileNats(bindplane: Bindplane, ghost phase: Phase, ghost rest: seq<Op>) returns (err: bool)
      requires At(bindplane.cr, phase, NatsPlan(bindplane.cr.spec) + rest)
      modifies this
      ensures Further() && (err ==> Ended(Error)) && (!err ==> At(bindplane.cr, phase, rest))
    {
      hide At, Ended, Next, Run, Act, Valid, Wanted, BodyFor;
      ghost var ops := NatsPlan(bindplane.cr.spec) + rest;
      assert ops[5..] == rest;
      err := ReconcilePlain(bindplane, Id(ServiceAccount, Nats), phase, ops);
      if err {
        return;
      }
      err := ReconcileWorkload(bindplane, Id(StatefulSet, Nats), phase, ops[1..]);
      if err {
        return;
      }
      err := ReconcileService(bindplane, Id(Service, NatsCluster), phase, ops[2..]);
      if err {
        return;
      }
      err := ReconcileService(bindplane, Id(Service, NatsClient), phase, ops[3..]);
      if err {
        return;
      }
      err := TogglePlain(bindplane, Id(Pdb, Nats), !bindplane.cr.spec.natsDisablePdb, phase, ops[4..]);
    }

    /** reconcileNode: the workload of the other mode goes before the one of this mode comes. */
    method ReconcileNode(bindplane: Bindplane, ghost phase: Phase, ghost rest: seq<Op>) returns (err: bool)
      requires At(bindplane.cr, phase, NodePlan(bindplane.cr.spec) + rest)
      modifies this
      ensures Further() && (err ==> Ended(Error)) && (!err ==> At(bindplane.cr, phase, rest))
    {
      hide At, Ended, Next, Run, Act, Valid, Wanted, BodyFor;
      ghost var ops := NodePlan(bindplane.cr.spec) + rest;
      assert ops[6..] == rest;
      err := ReconcilePlain(bindplane, Id(ServiceAccount, Node), phase, ops);
      if err {
        return;
      }
      if bindplane.cr.spec.argoRollout {
        err := DeleteIfExists(bindplane, Id(Deployment, Node), false, phase, ops[1..]);
        if err {
          return;
        }
        err := ReconcileWorkload(bindplane, Id(Rollout, Node), phase, ops[2..]);
      } else {
        err := DeleteIfExists(bindplane, Id(Rollout, Node), false, phase, ops[1..]);
        if err {
          return;
        }
        err := ReconcileWorkload(bindplane, Id(Deployment, Node), phase, ops[2..]);
      }
      if err {
        return;
      }
      err := ReconcileService(bindplane, Id(Service, Node), phase, ops[3..]);
      if err {
        return;
      }
      err := TogglePlain(bindplane, Id(Pdb, Node), !bindplane.cr.spec.nodeDisablePdb, phase, ops[4..]);
      if err {
        return;
      }
      err := TogglePlain(bindplane, Id(Hpa, Node), bindplane.cr.spec.nodeAutoscaling, phase, ops[5..]);
    }

    /** reconcileOpAMP, and deleteOpAMPResourcesIfExist once it is off. */
    method ReconcileOpamp(bindplane: Bindplane, ghost phase: Phase, ghost rest: seq<Op>) returns (err: bool)
      requires At(bindplane.cr, phase, OpampPlan(bindplane.cr.spec) + rest)
      modifies this
      ensures Further() && (err ==> Ended(Error)) && (!err ==> At(bindplane.cr, phase, rest))
    {
      hide At, Ended, Next, Run, Act, Valid, Wanted, BodyFor;
      ghost var ops := OpampPlan(bindplane.cr.spec) + rest;
      assert ops[5..] == rest;
      if OpampOn(bindplane.cr.spec) {
        err := ReconcilePlain(bindplane, Id(ServiceAccount, Opamp), phase, ops);
        if err {
          return;
        }
        err := ReconcileWorkload(bindplane, Id(Deployment, Opamp), phase, ops[1..]);
        if err {
          return;
        }
        err := ReconcileService(bindplane, Id(Service, Opamp), phase, ops[2..]);
        if err {
          return;
        }
        err := TogglePlain(bindplane, Id(Pdb, Opamp), !bindplane.cr.spec.opamp.value.disablePdb, phase, ops[3..]);
        if err {
          return;
        }
        err := TogglePlain(bindplane, Id(Hpa, Opamp), bindplane.cr.spec.opamp.value.autoscaling, phase, ops[4..]);
      } else {
        err := DeleteIfExists(bindplane, Id(Deployment, Opamp), true, phase, ops);
        if err {
          return;
        }
        err := DeleteIfExists(bindplane, Id(Service, Opamp), true, phase, ops[1..]);
        if err {
          return;
        }
        err := DeleteIfExists(bindplane, Id(ServiceAccount, Opamp), true, phase, ops[2..]);
        if err {
          return;
        }
        err := DeleteIfExists(bindplane, Id(Pdb, Opamp), false, phase, ops[3..]);
        if err {
          return;
        }
        err := DeleteIfExists(bindplane, Id(Hpa, Opamp), false, phase, ops[4..]);
      }
    }

    // -------------------------------------------------------------- the migration

    /** reconcileMigrateJob, the force branch: the old Job, then the annotation, then the recorded image. */
    method ForceMigration(bindplane: Bindplane) returns (err: bool)
      requires Valid() && sys.pc == ForceLook(bindplane.cr)
      modifies this, bindplane
      ensures Further() && (err ==> Ended(Error))
      ensures !err ==> Valid() && sys.pc == Gated(bindplane.cr, MigrateInProgress)
    {
      hide Gated, MigrateImage, Run, Act, Enabled;
      var job;
      job, err := GetJob();
      if err {
        return;
      }
      if job.Some? {
        err := DeleteJobWithPods();
        if err {
          return;
        }
      }
      err := PatchAway(bindplane);
      if err {
        return;
      }
      bindplane.cr := WithMigrated(bindplane.cr, "");
      err := WriteStatus(bindplane);
    }

    /** reconcileMigrateJob, from the look-up of the Job on. */
    method FollowJob(bindplane: Bindplane) returns (state: Gate, err: bool)
      requires Valid() && sys.pc == LookUp(bindplane.cr)
      modifies this, bindplane
      ensures Further() && (err ==> Ended(Error))
      ensures !err ==> Valid() && sys.pc == Gated(bindplane.cr, state)
    {
      hide Gated, MigrateImage, Run, Act, Enabled;
      state := MigrateInProgress;
      var desired := MigrateImage(bindplane.cr.spec);
      var job;
      job, err := GetJob();
      if err {
        return;
      }
      if job.None? {
        err := CreateMigrateJob(bindplane);
        return;
      }
      if job.value.terminating {
        return;
      }
      if job.value.image != desired {
        err := DeleteJobWithPods();
        return;
      }
      if job.value.phase.Succeeded? {
        bindplane.cr := WithMigrated(bindplane.cr, desired);
        err := WriteStatus(bindplane);
        if !err {
          state := MigrateComplete;
        }
        return;
      }
      if job.value.phase.Failed? {
        state := MigrateFailed;
      }
    }

    /** reconcileMigrateJob. */
    method ReconcileMigrateJob(bindplane: Bindplane) returns (state: Gate, err: bool)
      requires At(bindplane.cr, Up, [Apply(Id(ServiceAccount, Migrate))])
      modifies this, bindplane
      ensures Further() && (err ==> Ended(Error))
      ensures !err ==> Valid() && sys.pc == Gated(bindplane.cr, state)
    {
      hide Gated, MigrateImage, Run, Act, Enabled, BodyFor;
      state := MigrateInProgress;
      err := ReconcilePlain(bindplane, Id(ServiceAccount, Migrate), Up, [Apply(Id(ServiceAccount, Migrate))]);
      if err {
        return;
      }
      assert sys.pc == EnterMigration(bindplane.cr);
      if Force(bindplane.cr) {
        err := ForceMigration(bindplane);
      } else if bindplane.cr.status.migrated == MigrateImage(bindplane.cr.spec) {
        state := MigrateComplete;
      } else {
        state, err := FollowJob(bindplane);
      }
    }

    /** applyMigrateGate: halts the pass, or lets it go on and says whether to come back. */
    method ApplyMigrateGate(bindplane: Bindplane, state: Gate) returns (halt: Option<Result>, requeue: bool, err: bool)
      requires Valid() && sys.pc == Gated(bindplane.cr, state)
      modifies this, bindplane
      ensures Further() && (err ==> Ended(Error))
      ensures !err && halt.Some? ==> Ended(halt.value)
      ensures !err && halt.None? ==>
                bindplane.cr == old(bindplane.cr) && At(bindplane.cr, Down(state), Downstream(bindplane.cr.spec))
      ensures requeue ==> state == MigrateInProgress
      ensures !err && halt.None? ==> requeue == (state == MigrateInProgress)
    {
      hide Downstream, MigrateImage;
      GateOpens(bindplane.cr, state);
      var skip := Skip(bindplane.cr);
      halt, requeue, err := None, false, false;
      match state
      case MigrateFailed =>
        if !skip {
          bindplane.cr := WithReason(bindplane.cr, MigrationFailed);
          err := WriteStatus(bindplane);
          halt := Some(Done);
        }
      case MigrateInProgress =>
        if skip {
          requeue := true;
        } else {
          halt := Some(Requeue);
        }
      case MigrateComplete =>
    }

    // -------------------------------------------------------------- a whole pass

    /** handleDeletion: the status write may fail, dropping the finalizer may not. */
    method HandleDeletion(bindplane: Bindplane) returns (err: bool)
      requires Valid() && sys.pc == MarkDeleting(bindplane.cr)
      modifies this, bindplane
      ensures Further() && Ended(if err then Error else Done)
    {
      var ignored := WriteStatus(bindplane);
      bindplane.cr := bindplane.cr.(finalizer := false);
      err := WriteFinalizer(bindplane);
    }

    /** Everything before the migration. */
    method ReconcileUpstream(bindplane: Bindplane) returns (err: bool)
      requires At(bindplane.cr, Up, Upstream(bindplane.cr.spec))
      modifies this
      ensures Further() && (err ==> Ended(Error))
      ensures !err ==> At(bindplane.cr, Up, [Apply(Id(ServiceAccount, Migrate))])
    {
      hide CertificatePlan, SecretPlan, TransformAgentPlan, TsdbPlan;
      var spec := bindplane.cr.spec;
      ghost var r4 := [Apply(Id(ServiceAccount, Migrate))];
      ghost var r3 := TsdbPlan(spec) + r4;
      ghost var r2 := TransformAgentPlan(spec) + r3;
      ghost var r1 := SecretPlan(spec) + r2;
      assert Upstream(spec) == CertificatePlan(spec) + r1;
      err := ReconcileCertificates(bindplane, Up, r1);
      if err {
        return;
      }
      err := ReconcileSecrets(bindplane, Up, r2);
      if err {
        return;
      }
      err := ReconcileTransformAgent(bindplane, Up, r3);
      if err {
        return;
      }
      err := ReconcileTsdb(bindplane, Up, r4);
    }

    /** Everything behind the gate. */
    method ReconcileDownstream(bindplane: Bindplane, ghost state: Gate) returns (err: bool)
      requires At(bindplane.cr, Down(state), Downstream(bindplane.cr.spec))
      modifies this
      ensures Further() && (err ==> Ended(Error))
      ensures !err ==> Valid() && sys.pc == Finish(bindplane.cr, state)
    {
      hide JobsPlan, NatsPlan, NodePlan, OpampPlan;
      var spec := bindplane.cr.spec;
      ghost var r3 := OpampPlan(spec) + [];
      ghost var r2 := NodePlan(spec) + r3;
      ghost var r1 := NatsPlan(spec) + r2;
      assert Downstream(spec) == JobsPlan(spec) + r1;
      err := ReconcileJobs(bindplane, Down(state), r1);
      if err {
        return;
      }
      err := ReconcileNats(bindplane, Down(state), r2);
      if err {
        return;
      }
      err := ReconcileNode(bindplane, Down(state), r3);
      if err {
        return;
      }
      err := ReconcileOpamp(bindplane, Down(state), []);
    }

    /** Reconcile: one pass, from the first get to the last status write. */
    method Reconcile() returns (result: Result)
      requires Valid() && sys.pc.Idle?
      modifies this
      ensures Further() && Ended(result)
    {
      hide Upstream, Downstream, Gated;
      var cr, err := Fetch();
      if err {
        return Error;
      }
      if cr.None? {
        return Done;
      }
      var bindplane := new Bindplane(cr.value);
      if bindplane.cr.deleting {
        if bindplane.cr.finalizer {
          err := HandleDeletion(bindplane);
        }
        return if err then Error else Done;
      }
      if !bindplane.cr.finalizer {
        bindplane.cr := bindplane.cr.(finalizer := true);
        err := WriteFinalizer(bindplane);
        return if err then Error else Done;
      }
      if Enabled(bindplane.cr.notes, PAUSE) {
        bindplane.cr := WithReason(bindplane.cr, Paused);
        err := WriteStatus(bindplane);
        return if err then Error else Done;
      }
      if !bindplane.cr.spec.valid {
        bindplane.cr := WithReason(bindplane.cr, Invalid);
        err := WriteStatus(bindplane);
        return if err then Error else Done;
      }
      result := ReconcileLive(bindplane);
    }

    /** The rest of the pass, past the checks. */
    method ReconcileLive(bindplane: Bindplane) returns (result: Result)
      requires At(bindplane.cr, Up, Upstream(bindplane.cr.spec))
      modifies this, bindplane
      ensures Further() && Ended(result)
    {
      hide Upstream, Downstream, Gated, Run, Act, Skip, MigrateImage;
      var err := ReconcileUpstream(bindplane);
      if err {
        return Error;
      }
      var state;
      state, err := ReconcileMigrateJob(bindplane);
      if err {
        return Error;
      }
      var halt, requeue;
      halt, requeue, err := ApplyMigrateGate(bindplane, state);
      if err {
        return Error;
      }
      if halt.Some? {
        return halt.value;
      }
      err := ReconcileDownstream(bindplane, state);
      if err {
        return Error;
      }
      bindplane.cr := WithReason(bindplane.cr, FinalReason(bindplane.cr, state));
      err := WriteStatus(bindplane);
      return if err then Error else if requeue then Requeue else Done;
    }

    /** Any number of passes: what is true of every reachable state of the machine is true of this store. */
    method ReconcileRepeatedly(passes: nat)
      requires Valid() && Init(start)
      requires sys.pc.Idle?
      modifies this
      ensures Valid() && Further() && Init(start) && Reachable(sys) && sys.pc.Idle?
    {
      hide Run;
      for i := 0 to passes
        invariant Valid() && Further() && sys.pc.Idle?
      {
        var _ := Reconcile();
      }
    }
  }

  lemma RunSnoc(s: Sys, actions: seq<Action>, a: Action)
    ensures Run(s, actions + [a]) == Step(Run(s, actions), a)
  {
    hide Step;
    RunConcat(s, actions, [a]);
    assert [a][1..] == [];
    assert Run(Run(s, actions), [a]) == Run(Step(Run(s, actions), a), []);
  }
}
