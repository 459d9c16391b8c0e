/** The operator beside other writers: what the autoscaler, Argo Rollouts and the secret generators put
    into an object survives every operator step, in every interleaving. */
module Writers {
  import opened Cluster
  import opened Plan
  import opened Machine
  import opened Lifecycle
  import ServiceSelector

  // ---------------------------------------------------------------- versions tell contents

  /** An object at the version that was read is the object that was read. */
  ghost predicate Versioned(s: Sys)
  {
    && (forall id :: id in s.store.objs ==> s.store.objs[id].rv < s.store.nextRv)
    && (s.pc.Todo? && s.pc.seen.Found? && s.pc.rest != [] ==>
          var (id, obj) := (s.pc.rest[0].id, s.pc.seen.obj);
          && obj.rv < s.store.nextRv
          && (id in s.store.objs && s.store.objs[id].rv == obj.rv ==> s.store.objs[id] == obj))
  }

  predicate RightBody(id: Id, body: Body)
  {
    (IsWorkload(id.kind) ==> body.Workload?) && (id.kind == Service ==> body.Routing?) && (id.kind == Secret ==> body.Data?)
  }

  ghost predicate RightBodies(objs: map<Id, Obj>)
  {
    forall id :: id in objs ==> RightBody(id, objs[id].body)
  }

  ghost predicate WritersInv(s: Sys)
  {
    Shape(s.pc, s.fetched) && Versioned(s) && RightBodies(s.store.objs)
  }

  lemma ShapeOf(s: Sys)
    requires WritersInv(s)
    ensures Shape(s.pc, s.fetched)
  {}

  lemma NonEmpty(s: Sys)
    requires WritersInv(s) && s.pc.Todo?
    ensures s.pc.rest != []
  {}

  /** The three things a call of the plan can do to the objects. */
  lemma TodoObjs(s: Sys, outcome: Outcome)
    requires WritersInv(s) && s.pc.Todo?
    ensures var t := StepTodo(s, outcome);
            var (op, id, objs) := (s.pc.rest[0], s.pc.rest[0].id, s.store.objs);
            || t.store == s.store
            || (op.Remove? && t.store == s.store.(objs := objs - {id}))
            || (op.Apply? && t.store == s.store.(objs := t.store.objs, nextRv := s.store.nextRv + 1)
                && ((id !in objs && t.store.objs == objs[id := Obj(s.store.nextRv, Defaulted(Fresh(s, s.pc.snap.spec, id)))])
                    || (id in objs && id.kind != Secret
                        && t.store.objs == objs[id := Obj(s.store.nextRv, Merged(s.pc.snap.spec, id, objs[id].body))])))
  {
    hide Next, Merged, Fresh, Upstream, Downstream, RightBodies, Actionable;
  }

  lemma FreshRight(s: Sys, spec: Spec, id: Id, live: Body)
    ensures RightBody(id, Defaulted(Fresh(s, spec, id)))
    ensures id.kind != Secret ==> RightBody(id, Merged(spec, id, live))
  {
    hide PartImage, PartReplicas, PartSecrets, Component;
  }

  lemma TodoWriters(s: Sys, outcome: Outcome)
    requires WritersInv(s) && s.pc.Todo?
    ensures WritersInv(StepTodo(s, outcome))
  {
    hide Shape, Merged, Fresh, RightBody, Next, Defaulted;
    NonEmpty(s);
    StepTodoShape(s, outcome);
    TodoObjs(s, outcome);
    var id := s.pc.rest[0].id;
    FreshRight(s, s.pc.snap.spec, id, if id in s.store.objs then s.store.objs[id].body else Data(0));
    NextUnread(s.pc.snap, s.pc.phase, s.pc.rest[1..]);
  }

  lemma NextUnread(snap: Cr, phase: Phase, rest: seq<Op>)
    ensures var pc := Next(snap, phase, rest); pc.Todo? ==> pc.seen.Unread?
  {
    hide Upstream, Downstream, MigrateImage, Enabled;
  }

  /** Other calls leave the objects alone and never hold one in hand. */
  lemma OtherWriters(s: Sys, t: Sys)
    requires WritersInv(s) && Shape(t.pc, t.fetched)
    requires t.store.objs == s.store.objs && t.store.nextRv >= s.store.nextRv && (t.pc.Todo? ==> t.pc.seen.Unread?)
    ensures WritersInv(t)
  {
    hide Shape, RightBodies;
  }

  lemma MigrateUnread(s: Sys, outcome: Outcome)
    requires InMigrate(s.pc)
    ensures var t := StepMigrate(s, outcome); t.store.nextRv >= s.store.nextRv && (t.pc.Todo? ==> t.pc.seen.Unread?)
  {
    hide MigrateImage, Downstream, Skip;
  }

  lemma ForceUnread(s: Sys, outcome: Outcome)
    requires InForce(s.pc)
    ensures var t := StepForce(s, outcome); t.store.nextRv >= s.store.nextRv && (t.pc.Todo? ==> t.pc.seen.Unread?)
  {
    hide Downstream, Skip;
  }

  lemma ResourceUnread(s: Sys, outcome: Outcome)
    requires OnResource(s.pc)
    ensures StepResource(s, outcome).store.nextRv >= s.store.nextRv
  {
    hide FinalReason;
  }

  lemma ActWriters(s: Sys, outcome: Outcome)
    requires WritersInv(s)
    ensures WritersInv(Act(s, outcome))
  {
    hide StepTodo, StepMigrate, StepForce, StepResource, Enabled, Upstream, WritersInv;
    StepShape(s, Operator(outcome)) by { ShapeOf(s); }
    if s.pc.Todo? {
      NonEmpty(s);
      TodoWriters(s, outcome);
    } else if OnResource(s.pc) {
      StepResourceFrame(s, outcome);
      ResourceUnread(s, outcome);
      OtherWriters(s, StepResource(s, outcome));
    } else if InForce(s.pc) {
      StepForceFrame(s, outcome);
      ForceUnread(s, outcome);
      OtherWriters(s, StepForce(s, outcome));
    } else if InMigrate(s.pc) {
      StepMigrateFrame(s, outcome);
      MigrateUnread(s, outcome);
      OtherWriters(s, StepMigrate(s, outcome));
    } else {
      OtherWriters(s, Act(s, outcome));
    }
  }

  lemma DisturbWriters(s: Sys, e: Env)
    requires WritersInv(s)
    ensures WritersInv(Disturb(s, e))
  {
    hide Shape;
  }

  lemma {:induction false} RunWriters(s: Sys, actions: seq<Action>)
    requires WritersInv(s)
    ensures WritersInv(Run(s, actions))
    decreases |actions|
  {
    hide Act, Disturb, WritersInv;
    if actions != [] {
      var a := actions[0];
      if a.Operator? {
        ActWriters(s, a.outcome);
      } else {
        DisturbWriters(s, a.env);
      }
      RunWriters(Step(s, a), actions[1..]);
    }
  }

  lemma ReachableWriters(s: Sys)
    requires Reachable(s)
    ensures WritersInv(s)
  {
    hide Step;
    var s0: Sys, actions: seq<Action> :| Init(s0) && s == Run(s0, actions);
    RunWriters(s0, actions);
  }

  // ---------------------------------------------------------------- theorems

  /** A workload that an autoscaler scales under this specification. */
  predicate Autoscaled(spec: Spec, id: Id)
  {
    (id.part == Node && (id.kind == Deployment || id.kind == Rollout) && spec.nodeAutoscaling)
    || (id == Id(Deployment, Opamp) && OpampScales(spec))
  }

  /** A plan's call on an object that is there before and after merges into it, or is not about it. */
  lemma KeptObject(s: Sys, outcome: Outcome, id: Id)
    requires WritersInv(s) && id in s.store.objs && id in Act(s, outcome).store.objs
    ensures Act(s, outcome).store.objs[id] == s.store.objs[id]
            || (s.pc.Todo? && id.kind != Secret
                && Act(s, outcome).store.objs[id].body == Merged(s.pc.snap.spec, id, s.store.objs[id].body))
  {
    hide StepTodo, StepMigrate, StepForce, StepResource, Enabled, Upstream, WritersInv, Merged, Fresh, Start;
    if s.pc.Todo? {
      NonEmpty(s);
      TodoObjs(s, outcome);
    } else if OnResource(s.pc) {
      StepResourceFrame(s, outcome);
    } else if InForce(s.pc) {
      StepForceFrame(s, outcome);
    } else if InMigrate(s.pc) {
      StepMigrateFrame(s, outcome);
    }
  }

  lemma RightObject(s: Sys, id: Id)
    requires WritersInv(s) && id in s.store.objs
    ensures RightBody(id, s.store.objs[id].body)
  {}

  /** In any interleaving, the live replica count of a workload that stays in the store is changed by nobody but
      the autoscaler while autoscaling is on in the copy the pass works from. */
  lemma OnlyTheAutoscalerScales(s: Sys, a: Action, id: Id)
    requires Reachable(s) && IsWorkload(id.kind) && (s.pc.Todo? ==> Autoscaled(s.pc.snap.spec, id))
    requires id in s.store.objs && id in Step(s, a).store.objs
    ensures s.store.objs[id].body.Workload? && Step(s, a).store.objs[id].body.Workload?
    ensures Step(s, a).store.objs[id].body.replicas != s.store.objs[id].body.replicas ==>
              a.Other? && a.env.Scales? && a.env.id == id
  {
    hide Act, WritersInv;
    ReachableWriters(s);
    RightObject(s, id);
    if a.Operator? {
      KeptObject(s, a.outcome, id);
    }
  }

  /** Likewise for the hash that Argo Rollouts keeps in the node Service's selector while Rollout mode is on. */
  lemma OnlyArgoSelects(s: Sys, a: Action)
    requires Reachable(s) && (s.pc.Todo? ==> s.pc.snap.spec.argoRollout)
    requires Id(Service, Node) in s.store.objs && Id(Service, Node) in Step(s, a).store.objs
    ensures s.store.objs[Id(Service, Node)].body.Routing? && Step(s, a).store.objs[Id(Service, Node)].body.Routing?
    ensures var (before, after) :=
              (s.store.objs[Id(Service, Node)].body.selector, Step(s, a).store.objs[Id(Service, Node)].body.selector);
            var h := ServiceSelector.ROLLOUT_HASH;
            || ((h in before <==> h in after) && (h in before ==> before[h] == after[h]))
            || (a.Other? && a.env.ArgoSelects?)
  {
    hide Act, WritersInv;
    var id := Id(Service, Node);
    ReachableWriters(s);
    RightObject(s, id);
    if a.Operator? {
      KeptObject(s, a.outcome, id);
      if s.pc.Todo? {
        assert ServiceSelector.ROLLOUT_HASH !in BodyFor(s.pc.snap.spec, id).selector by { HashIsNotALabel(); }
        ServiceSelector.RolloutHashKept(BodyFor(s.pc.snap.spec, id).selector, s.store.objs[id].body.selector);
      }
    }
  }

  lemma HashIsNotALabel()
    ensures ServiceSelector.ROLLOUT_HASH != COMPONENT_LABEL
  {
    assert ServiceSelector.ROLLOUT_HASH[0] != COMPONENT_LABEL[0];
  }
}
