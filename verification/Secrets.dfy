/** Generated secrets: created once, never rotated, and there when a workload that refers to them is written. */
module Secrets {
  import opened Options
  import opened Cluster
  import opened Plan
  import opened Machine
  import opened Lifecycle
  import opened Passes
  import opened Writers
  import opened Convergence

  // ---------------------------------------------------------------- never rotated

  /** No operator step changes or removes a session or status secret, nor the basic-auth secret while the pass
      works from a copy with a local TSDB. */
  lemma OperatorKeepsSecrets(s: Sys, outcome: Outcome, id: Id)
    requires Reachable(s) && id in s.store.objs
    requires CreateOnce(id) || (id == BASIC_AUTH && (s.pc.Todo? ==> !s.pc.snap.spec.remoteTsdb))
    ensures id in Act(s, outcome).store.objs && Act(s, outcome).store.objs[id] == s.store.objs[id]
  {
    hide StepTodo, StepMigrate, StepForce, StepResource, Enabled, Upstream, Downstream, WritersInv, Merged, Fresh, Start, Step;
    ReachableWriters(s);
    if s.pc.Todo? {
      NonEmpty(s);
      TodoObjs(s, outcome);
      if s.pc.rest[0].id == id {
        HeadApplies(s, id);
      }
    } else if OnResource(s.pc) {
      StepResourceFrame(s, outcome);
    } else if InForce(s.pc) {
      StepForceFrame(s, outcome);
    } else if InMigrate(s.pc) {
      StepMigrateFrame(s, outcome);
    }
  }

  lemma HeadApplies(s: Sys, id: Id)
    requires WritersInv(s) && s.pc.Todo? && s.pc.rest != [] && s.pc.rest[0].id == id
    requires CreateOnce(id) || (id == BASIC_AUTH && !s.pc.snap.spec.remoteTsdb)
    ensures s.pc.rest[0].Apply?
  {
    hide Upstream, Downstream, Managed;
    assert s.pc.rest[0] in s.pc.rest;
    if s.pc.phase.Up? {
      UpstreamFits(s.pc.snap.spec, s.pc.rest[0]);
    } else {
      DownstreamFits(s.pc.snap.spec, s.pc.rest[0]);
    }
  }

  /** The same resource never comes back: these machines follow one resource from creation to removal. */
  lemma GoneStaysGone(s: Sys, a: Action)
    requires s.store.cr.None?
    ensures Step(s, a).store.cr.None?
  {
    hide StepTodo, Gated, Next, Look, Merged, Fresh, CreateObj, UpdateObj, DeleteObj, DeleteJob, CreateJob;
    if a.Operator? && s.pc.Todo? && s.pc.rest != [] {
      StepTodoFrame(s, a.outcome);
    }
  }

  /** Other writers do not touch a secret while its owner lives. */
  lemma OthersKeepSecrets(s: Sys, e: Env, id: Id)
    requires WritersInv(s) && s.store.cr.Some? && id in s.store.objs && id.kind == Secret
    ensures id in Disturb(s, e).store.objs && Disturb(s, e).store.objs[id] == s.store.objs[id]
  {
    hide Shape, Versioned;
  }

  /** Over a whole run a session or status secret keeps its data until the resource itself is gone. */
  lemma {:induction false} GeneratedOnce(s: Sys, actions: seq<Action>, id: Id)
    requires Reachable(s) && CreateOnce(id) && id in s.store.objs
    ensures var t := Run(s, actions);
            t.store.cr.None? || (id in t.store.objs && t.store.objs[id] == s.store.objs[id])
    decreases |actions|
  {
    hide Act, Disturb, WritersInv, Reachable;
    if actions != [] {
      var a := actions[0];
      var r := Step(s, a);
      ReachableStep(s, a);
      if s.store.cr.None? || r.store.cr.None? {
        if s.store.cr.None? {
          GoneStaysGone(s, a);
        }
        GoneForGood(r, actions[1..]);
      } else {
        ReachableWriters(s);
        if a.Operator? {
          OperatorKeepsSecrets(s, a.outcome, id);
        } else {
          OthersKeepSecrets(s, a.env, id);
        }
        GeneratedOnce(r, actions[1..], id);
      }
    }
  }

  lemma ReachableStep(s: Sys, a: Action)
    requires Reachable(s)
    ensures Reachable(Step(s, a))
  {
    hide Step, Init;
    var s0: Sys, actions: seq<Action> :| Init(s0) && s == Run(s0, actions);
    RunConcat(s0, actions, [a]);
    assert [a][1..] == [];
    assert Run(s, [a]) == Run(Step(s, a), []) == Step(s, a);
  }

  lemma {:induction false} GoneForGood(s: Sys, actions: seq<Action>)
    requires s.store.cr.None?
    ensures Run(s, actions).store.cr.None?
    decreases |actions|
  {
    hide Step;
    if actions != [] {
      GoneStaysGone(s, actions[0]);
      GoneForGood(Step(s, actions[0]), actions[1..]);
    }
  }

  // ---------------------------------------------------------------- never shared, never reused

  /** The data of a generated secret is the version it was created at, which no other object has. */
  ghost predicate Seeded(objs: map<Id, Obj>)
  {
    && (forall id :: id in objs && id.kind == Secret ==> objs[id].body == Data(objs[id].rv))
    && (forall a, b :: a in objs && b in objs && a.kind == Secret && b.kind == Secret && a != b ==> objs[a].rv != objs[b].rv)
  }

  /** Secrets of `now` are those of `before` or younger than its counter. */
  ghost predicate Younger(before: map<Id, Obj>, bound: nat, now: map<Id, Obj>)
  {
    forall id :: id in now && id.kind == Secret ==> (id in before && now[id] == before[id]) || now[id].rv >= bound
  }

  /** What a step can do to the secrets: nothing, take some away, or add one with the next version as its data. */
  ghost predicate OneNew(before: map<Id, Obj>, bound: nat, now: map<Id, Obj>, made: Id)
  {
    forall id :: id in now && id.kind == Secret ==>
      if id == made && id !in before then now[id] == Obj(bound, Data(bound)) else id in before && now[id] == before[id]
  }

  lemma OneNewSeeds(before: map<Id, Obj>, bound: nat, now: map<Id, Obj>, made: Id)
    requires Seeded(before) && OneNew(before, bound, now, made)
    requires forall id :: id in before ==> before[id].rv < bound
    ensures Seeded(now) && Younger(before, bound, now)
  {}

  lemma TodoMakes(s: Sys, outcome: Outcome)
    requires WritersInv(s) && s.pc.Todo? && s.pc.rest != []
    ensures OneNew(s.store.objs, s.store.nextRv, StepTodo(s, outcome).store.objs, s.pc.rest[0].id)
    ensures StepTodo(s, outcome).store.nextRv >= s.store.nextRv
  {
    hide StepTodo, WritersInv, BodyFor, Merged;
    TodoObjs(s, outcome);
  }

  lemma OthersMake(s: Sys, e: Env, made: Id)
    requires WritersInv(s)
    ensures OneNew(s.store.objs, s.store.nextRv, Disturb(s, e).store.objs, made)
    ensures Disturb(s, e).store.nextRv >= s.store.nextRv
  {
    hide Shape, Versioned;
  }

  lemma OneNewOfSame(objs: map<Id, Obj>, bound: nat, made: Id)
    ensures OneNew(objs, bound, objs, made)
  {}

  lemma CallMakes(s: Sys, outcome: Outcome) returns (made: Id)
    requires WritersInv(s)
    ensures OneNew(s.store.objs, s.store.nextRv, Act(s, outcome).store.objs, made)
    ensures Act(s, outcome).store.nextRv >= s.store.nextRv
  {
    hide StepTodo, StepMigrate, StepForce, StepResource, WritersInv, OneNew, Start;
    made := SESSION;
    OneNewOfSame(s.store.objs, s.store.nextRv, made);
    if s.pc.Todo? {
      NonEmpty(s);
      made := s.pc.rest[0].id;
      TodoMakes(s, outcome);
    } else if OnResource(s.pc) {
      StepResourceFrame(s, outcome);
      ResourceUnread(s, outcome);
    } else if InForce(s.pc) {
      StepForceFrame(s, outcome);
      ForceUnread(s, outcome);
    } else if InMigrate(s.pc) {
      StepMigrateFrame(s, outcome);
      MigrateUnread(s, outcome);
    }
  }

  lemma StepSeeds(s: Sys, a: Action)
    requires WritersInv(s) && Seeded(s.store.objs)
    ensures var t := Step(s, a);
            Seeded(t.store.objs) && Younger(s.store.objs, s.store.nextRv, t.store.objs) && s.store.nextRv <= t.store.nextRv
  {
    hide Act, Disturb, WritersInv, Seeded, OneNew, Younger;
    VersionsBelow(s);
    var made := SESSION;
    if a.Operator? {
      made := CallMakes(s, a.outcome);
    } else {
      OthersMake(s, a.env, made);
    }
    OneNewSeeds(s.store.objs, s.store.nextRv, Step(s, a).store.objs, made);
  }

  lemma {:induction false} RunSeeds(s: Sys, actions: seq<Action>)
    requires WritersInv(s) && Seeded(s.store.objs)
    ensures var t := Run(s, actions);
            Seeded(t.store.objs) && Younger(s.store.objs, s.store.nextRv, t.store.objs)
    decreases |actions|
  {
    hide Step, WritersInv, Seeded;
    if actions != [] {
      RunWriters(s, actions[..1]);
      RunOne(s, actions[0]);
      assert actions[..1] == [actions[0]];
      StepSeeds(s, actions[0]);
      RunSeeds(Step(s, actions[0]), actions[1..]);
    }
  }

  lemma RunOne(s: Sys, a: Action)
    ensures Run(s, [a]) == Step(s, a)
  {
    hide Step;
    assert [a][1..] == [];
    assert Run(s, [a]) == Run(Step(s, a), []);
  }

  /** No two generated secrets share their data, neither in one state nor over time: whatever holds the data of an
      earlier secret is that secret, unchanged. A secret that is removed and made again has new data. */
  lemma DataIsNeverReused(s: Sys, actions: seq<Action>, id: Id, other: Id)
    requires Reachable(s) && id.kind == Secret && other.kind == Secret
    requires id in s.store.objs && other in Run(s, actions).store.objs
    ensures s.store.objs[id].body.Data?
    ensures Run(s, actions).store.objs[other].body == s.store.objs[id].body ==>
              other == id && Run(s, actions).store.objs[id] == s.store.objs[id]
  {
    hide Step, WritersInv;
    var s0: Sys, before: seq<Action> :| Init(s0) && s == Run(s0, before);
    RunWriters(s0, []) by { InitWriters(s0); }
    RunSeeds(s0, before);
    RunWriters(s0, before);
    RunSeeds(s, actions);
    VersionsBelow(s);
  }

  lemma InitWriters(s: Sys)
    requires Init(s)
    ensures WritersInv(s)
  {}

  lemma VersionsBelow(s: Sys)
    requires WritersInv(s)
    ensures forall id :: id in s.store.objs ==> s.store.objs[id].rv < s.store.nextRv
  {
    hide Shape;
  }

  // ---------------------------------------------------------------- there when referred to

  /** The generated secrets that applying this name refers to. */
  function Needs(spec: Spec, op: Op): set<Id>
  {
    if op.Apply? && IsWorkload(op.id.kind) then PartSecrets(spec, op.id.part) else {}
  }

  /** Working through the steps from these names, each finds the secrets it refers to. */
  predicate Backed(names: set<Id>, spec: Spec, ops: seq<Op>)
    decreases |ops|
  {
    ops == [] || (Needs(spec, ops[0]) <= names && Backed(AfterOp(names, ops[0]), spec, ops[1..]))
  }

  lemma {:induction false} BackedConcat(names: set<Id>, spec: Spec, a: seq<Op>, b: seq<Op>)
    requires Backed(names, spec, a) && Backed(After(names, a), spec, b)
    ensures Backed(names, spec, a + b)
    decreases |a|
  {
    hide Needs, AfterOp;
    if a == [] {
      assert a + b == b;
    } else {
      assert (a + b)[1..] == a[1..] + b;
      BackedConcat(AfterOp(names, a[0]), spec, a[1..], b);
    }
  }

  lemma {:induction false} BackedWithoutNeeds(names: set<Id>, spec: Spec, ops: seq<Op>)
    requires forall op :: op in ops ==> Needs(spec, op) == {}
    ensures Backed(names, spec, ops)
    decreases |ops|
  {
    hide Needs;
    if ops != [] {
      assert ops[0] in ops;
      BackedWithoutNeeds(AfterOp(names, ops[0]), spec, ops[1..]);
    }
  }

  /** Only the TSDB StatefulSet refers to a secret upstream, and it comes after the secret's creation. */
  lemma TsdbBacked(names: set<Id>, spec: Spec)
    ensures Backed(names, spec, TsdbPlan(spec))
  {
    if spec.remoteTsdb {
      BackedWithoutNeeds(names, spec, TsdbPlan(spec));
    } else {
      var first := [Apply(BASIC_AUTH), Apply(Id(ConfigMap, TsdbWebConfig)), Apply(Id(ServiceAccount, Tsdb))];
      var last := [Apply(Id(StatefulSet, Tsdb)), Apply(Id(Service, Tsdb))];
      BackedWithoutNeeds(names, spec, first);
      AfterDecides(names, first, Apply(BASIC_AUTH));
      assert last[1..] == [Apply(Id(Service, Tsdb))];
      BackedWithoutNeeds(AfterOp(After(names, first), last[0]), spec, last[1..]);
      BackedConcat(names, spec, first, last);
      assert TsdbPlan(spec) == first + last;
    }
  }

  lemma UpstreamBacked(names: set<Id>, spec: Spec)
    ensures Backed(names, spec, Upstream(spec))
  {
    hide CertificatePlan, SecretPlan, TransformAgentPlan, TsdbPlan, Fits, Backed, Managed;
    var (certs, secrets, agent, account) :=
      (CertificatePlan(spec), SecretPlan(spec), TransformAgentPlan(spec), [Apply(Id(ServiceAccount, Migrate))]);
    forall op | op in certs ensures Needs(spec, op) == {} { CertificatesFit(spec, op); }
    forall op | op in secrets ensures Needs(spec, op) == {} { SecretsFit(spec, op); }
    forall op | op in agent ensures Needs(spec, op) == {} { TransformAgentFits(spec, op); }
    BackedWithoutNeeds(names, spec, certs + secrets + agent);
    TsdbBacked(After(names, certs + secrets + agent), spec);
    BackedConcat(names, spec, certs + secrets + agent, TsdbPlan(spec));
    BackedWithoutNeeds(After(names, certs + secrets + agent + TsdbPlan(spec)), spec, account);
    BackedConcat(names, spec, certs + secrets + agent + TsdbPlan(spec), account);
  }

  /** By the end of the upstream plan every secret the shared environment refers to is there. */
  lemma UpstreamCreates(names: set<Id>, spec: Spec)
    ensures AppSecrets(spec) <= After(names, Upstream(spec))
  {
    hide Upstream, Managed;
    ReferencesMatchCreation(spec);
    forall id | id in AppSecrets(spec) ensures id in After(names, Upstream(spec)) {
      assert id in {SESSION, STATUS_KEYS, BASIC_AUTH} && Wanted(spec, id);
      assert Managed(id) && IsUpstream(id) by { SecretNames(); }
      UpstreamComplete(spec, id);
      forall o | o in Upstream(spec) && o.id == id ensures o == Apply(id) { UpstreamFits(spec, o); }
      AfterDecides(names, Upstream(spec), Apply(id));
    }
  }

  lemma SecretNames()
    ensures forall id :: id in {SESSION, STATUS_KEYS, BASIC_AUTH} ==> Managed(id) && IsUpstream(id)
  {}

  /** The pass is past its first read and not yet at its last write. */
  predicate Working(pc: Pc) { pc.Todo? || InForce(pc) || InMigrate(pc) }

  ghost predicate SecretsInv(s: Sys)
  {
    && (Working(s.pc) ==> s.store.cr.Some? && s.store.cr.value.finalizer)
    && Stocked(s.store.objs.Keys, s.pc, s.fetched)
  }

  ghost predicate Stocked(names: set<Id>, pc: Pc, fetched: Cr)
  {
    if pc.Todo? && pc.phase.Up? then
      Backed(names, fetched.spec, pc.rest) && AppSecrets(fetched.spec) <= After(names, pc.rest)
    else Working(pc) ==> AppSecrets(fetched.spec) <= names
  }

  lemma NextStocked(names: set<Id>, snap: Cr, phase: Phase, rest: seq<Op>, fetched: Cr)
    requires if phase.Up? then snap == fetched && Backed(names, fetched.spec, rest)
                               && AppSecrets(fetched.spec) <= After(names, rest)
             else AppSecrets(fetched.spec) <= names
    ensures Stocked(names, Next(snap, phase, rest), fetched)
  {
    hide AppSecrets, Upstream, Downstream, MigrateImage, Enabled, Needs;
  }

  lemma TodoStocked(s: Sys, outcome: Outcome)
    requires Shape(s.pc, s.fetched) && SecretsInv(s) && s.pc.Todo?
    ensures SecretsInv(StepTodo(s, outcome))
  {
    hide StepTodo, Next, Needs, AppSecrets, Shape, Look;
    ShapeHead(s);
    StepTodoFrame(s, outcome);
    TodoNames(s, outcome);
    TodoSpec(s);
    var (names, op) := (s.store.objs.Keys, s.pc.rest[0]);
    NextStocked(AfterOp(names, op), s.pc.snap, s.pc.phase, s.pc.rest[1..], s.fetched);
  }

  /** Upstream the copy is the first read; downstream no secret is touched. */
  lemma TodoSpec(s: Sys)
    requires Shape(s.pc, s.fetched) && s.pc.Todo? && SecretsInv(s)
    ensures s.pc.phase.Up? ==> s.pc.snap == s.fetched
    ensures s.pc.rest != []
    ensures s.pc.phase.Down? ==> AppSecrets(s.fetched.spec) <= AfterOp(s.store.objs.Keys, s.pc.rest[0])
  {
    hide AppSecrets, Upstream, Downstream, Fits;
    if s.pc.phase.Down? {
      assert s.pc.rest[0] in s.pc.rest;
      DownstreamFits(s.pc.snap.spec, s.pc.rest[0]);
      ReferencesMatchCreation(s.fetched.spec);
    }
  }

  lemma MigrateStocked(s: Sys, outcome: Outcome)
    requires SecretsInv(s) && InMigrate(s.pc)
    ensures SecretsInv(StepMigrate(s, outcome))
  {
    hide AppSecrets, Upstream, Downstream, MigrateImage, Enabled;
  }

  lemma ForceStocked(s: Sys, outcome: Outcome)
    requires SecretsInv(s) && InForce(s.pc)
    ensures SecretsInv(StepForce(s, outcome))
  {
    hide AppSecrets, Upstream, Downstream, Enabled;
  }

  lemma ActStocked(s: Sys, outcome: Outcome)
    requires Shape(s.pc, s.fetched) && SecretsInv(s)
    ensures SecretsInv(Act(s, outcome))
  {
    hide StepTodo, StepMigrate, StepForce, StepResource, Enabled, Upstream, Shape, Backed, AppSecrets, After;
    if s.pc.Todo? {
      ShapeHead(s);
      TodoStocked(s, outcome);
    } else if OnResource(s.pc) {
      StepResourceFrame(s, outcome);
    } else if InForce(s.pc) {
      ForceStocked(s, outcome);
    } else if InMigrate(s.pc) {
      MigrateStocked(s, outcome);
    } else if s.store.cr.Some? {
      UpstreamBacked(s.store.objs.Keys, s.store.cr.value.spec);
      UpstreamCreates(s.store.objs.Keys, s.store.cr.value.spec);
    }
  }

  lemma DisturbStocked(s: Sys, e: Env)
    requires SecretsInv(s)
    ensures SecretsInv(Disturb(s, e))
  {
    hide Backed, AppSecrets, After;
    var t := Disturb(s, e);
    if Working(s.pc) {
      assert t.store.objs.Keys == s.store.objs.Keys;
    }
  }

  lemma {:induction false} RunStocked(s: Sys, actions: seq<Action>)
    requires Shape(s.pc, s.fetched) && SecretsInv(s)
    ensures SecretsInv(Run(s, actions))
    decreases |actions|
  {
    hide Act, Disturb, Shape, SecretsInv;
    if actions != [] {
      var a := actions[0];
      StepShape(s, a);
      if a.Operator? {
        ActStocked(s, a.outcome);
      } else {
        DisturbStocked(s, a.env);
      }
      RunStocked(Step(s, a), actions[1..]);
    }
  }

  lemma ReachableStocked(s: Sys)
    requires Reachable(s)
    ensures SecretsInv(s)
  {
    hide Step;
    var s0: Sys, actions: seq<Action> :| Init(s0) && s == Run(s0, actions);
    RunStocked(s0, actions);
  }

  /** Whenever a pass has a workload in hand, every generated secret its pod refers to is in the store, as long as
      the copy in use needs no generated secret that the first read did not need. Without a force step the two
      copies have the same specification. */
  lemma SecretsBeforeWorkloads(s: Sys)
    requires Reachable(s) && s.pc.Todo?
    requires AppSecrets(s.pc.snap.spec) <= AppSecrets(s.fetched.spec)
    ensures s.pc.rest != [] && Needs(s.pc.snap.spec, s.pc.rest[0]) <= s.store.objs.Keys
  {
    hide AppSecrets, After, Upstream, Downstream, Fits;
    ReachableShape(s);
    ReachableStocked(s);
    TodoSpec(s);
    if s.pc.phase.Down? {
      assert s.pc.rest[0] in s.pc.rest;
      DownstreamFits(s.pc.snap.spec, s.pc.rest[0]);
    }
  }

  /** The migrate Job runs in the shared environment too: its secrets are there when it is created. */
  lemma SecretsBeforeJob(s: Sys)
    requires Reachable(s) && s.pc.MakeJob?
    ensures AppSecrets(s.pc.snap.spec) <= s.store.objs.Keys
  {
    hide AppSecrets;
    ReachableShape(s);
    ReachableStocked(s);
  }

  // ---------------------------------------------------------------- when a force step changes the copy

  /** The workload in hand, if any, finds its secrets. */
  predicate HandBacked(s: Sys)
  {
    s.pc.Todo? && s.pc.rest != [] ==> Needs(s.pc.snap.spec, s.pc.rest[0]) <= s.store.objs.Keys
  }

  /** The rest of pass `pass` works from `snap`, whose secrets are there. */
  ghost predicate BackedPass(s: Sys, pass: nat, snap: Cr)
  {
    && Shape(s.pc, s.fetched) && SecretsInv(s) && pass <= s.pass
    && (s.pass == pass ==>
          s.pc.Idle? || s.pc.Finish?
          || (s.pc.Todo? && s.pc.phase.Down? && s.pc.snap == snap && AppSecrets(snap.spec) <= s.store.objs.Keys))
  }

  lemma TodoBackedPass(s: Sys, outcome: Outcome, pass: nat, snap: Cr)
    requires BackedPass(s, pass, snap) && s.pc.Todo?
    ensures pass == s.pass ==>
              var t := StepTodo(s, outcome);
              t.pc.Idle? || t.pc.Finish?
              || (t.pc.Todo? && t.pc.phase.Down? && t.pc.snap == snap && AppSecrets(snap.spec) <= t.store.objs.Keys)
  {
    hide StepTodo, Needs, AppSecrets, Shape, SecretsInv, Upstream, Downstream, Fits, Backed;
    ShapeHead(s);
    TodoNames(s, outcome);
    if pass == s.pass {
      assert s.pc.rest[0] in Downstream(snap.spec) by { HeadInPlan(s); }
      DownstreamFits(snap.spec, s.pc.rest[0]);
      ReferencesMatchCreation(snap.spec);
    }
  }

  lemma HeadInPlan(s: Sys)
    requires Shape(s.pc, s.fetched) && s.pc.Todo?
    ensures s.pc.rest != [] && s.pc.rest[0] in PlanOf(s.pc.snap, s.pc.phase)
  {
    hide Upstream, Downstream;
    assert s.pc.rest[0] in s.pc.rest;
  }

  lemma StepBackedPass(s: Sys, a: Action, pass: nat, snap: Cr)
    requires BackedPass(s, pass, snap)
    ensures BackedPass(Step(s, a), pass, snap)
  {
    hide StepTodo, StepForce, StepMigrate, StepResource, AppSecrets, Shape, Start, EnvStep, Stocked;
    StepShape(s, a);
    if a.Operator? {
      ActStocked(s, a.outcome);
      ActFrame(s, a.outcome);
      if s.pc.Todo? {
        HeadInPlan(s);
        TodoBackedPass(s, a.outcome, pass, snap);
      } else if s.pc.Finish? {
        StepResourceFrame(s, a.outcome);
      }
    } else {
      DisturbStocked(s, a.env);
      if Working(s.pc) {
        NamesStay(s, a.env);
      }
    }
  }

  lemma NamesStay(s: Sys, e: Env)
    requires SecretsInv(s) && Working(s.pc)
    ensures Disturb(s, e).store.objs.Keys == s.store.objs.Keys
  {
    hide Stocked;
  }

  lemma {:induction false} RunBackedPass(s: Sys, actions: seq<Action>, pass: nat, snap: Cr)
    requires BackedPass(s, pass, snap)
    ensures BackedPass(Run(s, actions), pass, snap)
    decreases |actions|
  {
    hide Step, BackedPass;
    if actions != [] {
      StepBackedPass(s, actions[0], pass, snap);
      RunBackedPass(Step(s, actions[0]), actions[1..], pass, snap);
    }
  }

  /** Exactly when is every workload behind the gate backed? When the gate is passed with every generated secret of
      the copy in the store: then no interleaving breaks it, and otherwise the pass breaks it undisturbed. */
  lemma DownstreamBackedIff(s: Sys)
    requires Reachable(s) && s.pc.Todo? && s.pc.phase.Down? && s.pc.seen.Unread? && s.pc.rest == Downstream(s.pc.snap.spec)
    ensures AppSecrets(s.pc.snap.spec) <= s.store.objs.Keys
            <==> forall actions: seq<Action> :: Run(s, actions).pass == s.pass ==> HandBacked(Run(s, actions))
  {
    hide Step, Run, AppSecrets, Downstream, Shape, SecretsInv;
    ReachableShape(s);
    ReachableStocked(s);
    if AppSecrets(s.pc.snap.spec) <= s.store.objs.Keys {
      forall actions: seq<Action> | Run(s, actions).pass == s.pass ensures HandBacked(Run(s, actions)) {
        RunBackedPass(s, actions, s.pass, s.pc.snap);
        BackedHand(Run(s, actions), s.pass, s.pc.snap);
      }
    } else {
      var n := FirstWorkload(s);
      var m := GoIsRun(s, n);
      ReferencesMatchCreation(s.pc.snap.spec);
      assert !HandBacked(Run(s, Calls(m)));
    }
  }

  lemma BackedHand(s: Sys, pass: nat, snap: Cr)
    requires BackedPass(s, pass, snap) && pass == s.pass
    ensures HandBacked(s)
  {
    hide AppSecrets, Downstream, SecretsInv, Fits;
    if s.pc.Todo? {
      HeadInPlan(s);
      DownstreamFits(snap.spec, s.pc.rest[0]);
    }
  }

  /** The jobs Deployment is the first workload behind the gate, after its service account. */
  lemma FirstWorkload(s: Sys) returns (n: nat)
    requires s.pc.Todo? && s.pc.phase.Down? && s.pc.seen.Unread? && s.pc.rest == Downstream(s.pc.snap.spec)
    ensures var t := Go(s, n);
            && t.pass == s.pass && t.pc.Todo? && t.pc.rest != [] && t.pc.rest[0] == Apply(Id(Deployment, Jobs))
            && t.pc.snap == s.pc.snap && Needs(t.pc.snap.spec, t.pc.rest[0]) == AppSecrets(s.pc.snap.spec)
            && t.store.objs.Keys == s.store.objs.Keys + {Id(ServiceAccount, Jobs)}
  {
    hide NatsPlan, NodePlan, OpampPlan, AppSecrets, Merged, BodyFor, Go;
    n := OpUndisturbed(s);
    assert s.pc.rest[0] == Apply(Id(ServiceAccount, Jobs)) && s.pc.rest[1..][0] == Apply(Id(Deployment, Jobs));
    assert Go(s, n).pc == Todo(s.pc.snap, s.pc.phase, s.pc.rest[1..], Unread);
    assert ExecOp(s.store, s.pc.snap.spec, s.pc.rest[0]).objs.Keys == s.store.objs.Keys + {Id(ServiceAccount, Jobs)};
  }

  /** Steps for other names leave a name as it is. */
  lemma {:induction false} ExecElsewhere(st: Store, spec: Spec, ops: seq<Op>, id: Id)
    requires forall op :: op in ops ==> op.id != id
    ensures id in Exec(st, spec, ops).objs <==> id in st.objs
    decreases |ops|
  {
    hide Merged, BodyFor;
    if ops != [] {
      assert ops[0] in ops;
      ExecElsewhere(ExecOp(st, spec, ops[0]), spec, ops[1..], id);
    }
  }

  /** The patch takes over the edited specification, and with the check skipped the gate opens. */
  lemma PatchAndReset(s: Sys, cr: Cr, edited: Spec, before: Sys) returns (gate: Sys)
    requires before.pc == ForcePatch(cr) && before.store.cr == Some(cr) && Skip(cr)
    requires s == Step(before, Other(UserEdits(edited, cr.notes)))
    ensures gate == Act(Act(s, Ok), Ok) && gate.store.objs == before.store.objs
    ensures gate.pc.Todo? && gate.pc.phase.Down? && gate.pc.seen.Unread? && gate.pc.snap.spec == edited
            && gate.pc.rest == Downstream(edited)
  {
    hide Downstream;
    var reset := Act(s, Ok);
    assert reset.pc.ForceReset? && reset.store.cr == Some(reset.pc.snap);
    assert reset.pc.snap.spec == edited && Skip(reset.pc.snap);
    gate := Act(reset, Ok);
  }

  /** The pieces of a run put together. */
  lemma Chain(s: Sys, first: seq<Action>, edit: Action, patch: Sys, gate: Sys, last: seq<Action>)
    requires Run(s, first) == patch && gate == Act(Act(Step(patch, edit), Ok), Ok)
    ensures Run(s, first + ([edit] + ([Operator(Ok), Operator(Ok)] + last))) == Run(gate, last)
  {
    hide Act, Disturb;
    var calls := [Operator(Ok), Operator(Ok)];
    var r := Step(patch, edit);
    RunConcat(s, first, [edit] + (calls + last));
    RunConcat(patch, [edit], calls + last);
    RunConcat(r, calls, last);
    assert [edit][1..] == [] && calls[1..] == [Operator(Ok)] && calls[1..][1..] == [];
    assert Run(patch, [edit]) == Run(r, []) == r;
    assert Run(r, calls) == Run(Act(r, Ok), calls[1..]) == Run(Act(Act(r, Ok), Ok), []) == gate;
  }

  /** The condition can fail. A pass forces a migration with the check skipped, and while it runs the user switches
      status keys on: the patch brings the edited specification in, and the jobs Deployment is brought up to a
      specification whose status secret nobody has created. */
  lemma ForcedEditDangles(s: Sys, cr: Cr, edited: Spec) returns (actions: seq<Action>)
    requires s.pc.Idle? && s.store.cr == Some(cr) && Actionable(cr) && Force(cr) && Skip(cr)
    requires !Conflicting(cr.spec)
    requires STATUS_KEYS !in s.store.objs && !CreatesStatus(cr.spec) && CreatesStatus(edited)
    ensures var t := Run(s, actions);
            t.pc.Todo? && t.pc.rest != [] && t.pc.rest[0] == Apply(Id(Deployment, Jobs))
            && t.pc.snap.spec == edited && STATUS_KEYS in Needs(edited, t.pc.rest[0]) && STATUS_KEYS !in t.store.objs
  {
    hide Act, Run, Go, Exec, Upstream, Downstream, AppSecrets, MigrateImage, Enabled, Managed, Needs, Conflicting;
    var up := Act(s, Ok);
    var k := UpstreamUndisturbed(s, cr);
    var at := Go(up, k);
    ExecFrame(s.store, cr.spec, Upstream(cr.spec));
    forall op | op in Upstream(cr.spec) ensures op.id != STATUS_KEYS { UpstreamFits(cr.spec, op); }
    ExecElsewhere(s.store, cr.spec, Upstream(cr.spec), STATUS_KEYS);
    assert at.pc == ForceLook(cr);
    var m := PatchReached(at, cr);
    GoAdds(up, k, m);
    var patch := Go(up, k + m);
    var first := PassIsRun(s, k + m);
    var edit := Other(UserEdits(edited, cr.notes));
    var gate := PatchAndReset(Step(patch, edit), cr, edited, patch);
    var n := FirstWorkload(gate);
    var last := GoIsRun(gate, n);
    Chain(s, Calls(first), edit, patch, gate, Calls(last));
    actions := Calls(first) + ([edit] + ([Operator(Ok), Operator(Ok)] + Calls(last)));
    ReferencesMatchCreation(edited);
  }
}
