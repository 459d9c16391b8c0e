/** Infinite runs: under a schedule that gives the operator an undisturbed pass and the Job its service again and
    again, every resource that can be migrated is migrated, whatever happens in between. */
module Fairness {
  import opened Options
  import opened Cluster
  import opened Plan
  import opened Machine
  import opened Lifecycle
  import opened Passes
  import opened Convergence
  import opened GateSafety
  import opened Migration
  import opened Adoption

  type Schedule = nat -> Action

  ghost function State(s: Sys, sched: Schedule, n: nat): Sys
    decreases n
  {
    if n == 0 then s else Step(State(s, sched, n - 1), sched(n - 1))
  }

  /** A whole pass without errors and with nobody in between. */
  ghost predicate Undisturbed(s: Sys, sched: Schedule, m: nat, k: nat)
  {
    && k > 0 && State(s, sched, m).pc.Idle? && State(s, sched, m + k).pc.Idle?
    && (forall i :: m <= i < m + k ==> sched(i) == Operator(Ok))
    && (forall i :: m < i < m + k ==> !State(s, sched, i).pc.Idle?)
  }

  ghost predicate PassAfter(s: Sys, sched: Schedule, n: nat)
  {
    exists m: nat, k: nat :: n <= m && Undisturbed(s, sched, m, k)
  }

  /** A Job that waits for nothing: it is not running, and it is not on its way out. */
  predicate AtRest(job: Option<Job>) { Served(job) == job }

  ghost predicate RestAfter(s: Sys, sched: Schedule, n: nat)
  {
    exists m: nat :: n <= m && AtRest(State(s, sched, m).store.job)
  }

  /** Nobody edits the resource and no Job fails or is removed early; the operator gets undisturbed passes again and
      again; and no Job waits for the cluster forever. Errors, conflicts and other writers may come in between. */
  ghost predicate Fair(s: Sys, sched: Schedule)
  {
    && (forall n: nat :: Steady(sched(n)))
    && (forall n: nat :: PassAfter(s, sched, n))
    && (forall n: nat :: RestAfter(s, sched, n))
  }

  // ---------------------------------------------------------------- what stays while nobody interferes

  /** The resource can be migrated, and the pass in progress is about migrating it. */
  ghost predicate Willing(s: Sys)
  {
    && Shape(s.pc, s.fetched) && JobInv(s) && InSync(s)
    && !s.pc.AddFinalizer? && !s.pc.MarkDeleting? && !s.pc.DropFinalizer?
    && s.store.cr.Some? && Actionable(s.store.cr.value) && !Conflicting(s.store.cr.value.spec)
    && Hopeful(s.store.cr.value, s.store.job)
  }

  /** The resource is there, the same but for its status and force annotation, and no hope was lost. */
  predicate Kept(s: Sys, t: Sys)
    requires s.store.cr.Some?
  {
    && !t.pc.AddFinalizer? && !t.pc.MarkDeleting? && !t.pc.DropFinalizer?
    && t.store.cr.Some? && SameResource(s.store.cr.value, t.store.cr.value)
    && Hopeful(t.store.cr.value, t.store.job)
  }

  lemma TodoKept(s: Sys, outcome: Outcome)
    requires Willing(s) && s.pc.Todo?
    ensures Kept(s, StepTodo(s, outcome))
  {
    hide StepTodo, Enabled, MigrateImage, Merged, Upstream, Downstream, Actionable, Hopeful, Rejected, Conflicting;
    StepTodoFrame(s, outcome);
  }

  lemma ResourceKept(s: Sys, outcome: Outcome)
    requires Willing(s) && OnResource(s.pc)
    ensures Kept(s, StepResource(s, outcome))
  {
    hide Enabled, MigrateImage, FinalReason, Actionable, View, Conflicting;
  }

  lemma ForceKept(s: Sys, outcome: Outcome)
    requires Willing(s) && InForce(s.pc)
    ensures Kept(s, StepForce(s, outcome))
  {
    hide Enabled, MigrateImage, Downstream, Actionable, Conflicting;
  }

  lemma MigrateKept(s: Sys, outcome: Outcome)
    requires Willing(s) && InMigrate(s.pc)
    ensures Kept(s, StepMigrate(s, outcome))
  {
    hide Enabled, MigrateImage, Downstream, Actionable, Conflicting;
  }

  lemma FetchKept(s: Sys, outcome: Outcome)
    requires Willing(s) && s.pc.Idle?
    ensures Kept(s, StepFetch(s, outcome))
  {
    hide Enabled, MigrateImage, Upstream, Hopeful, Rejected, Conflicting;
  }

  lemma DisturbKept(s: Sys, e: Env)
    requires Willing(s) && Steady(Other(e))
    ensures Kept(s, Disturb(s, e))
  {
    hide Enabled, MigrateImage, Actionable, Conflicting;
  }

  lemma WillingStep(s: Sys, a: Action)
    requires Willing(s) && Steady(a)
    ensures Willing(Step(s, a)) && Kept(s, Step(s, a))
  {
    hide StepTodo, StepFetch, StepForce, StepMigrate, StepResource, Disturb;
    hide Shape, JobInv, InSync, Hopeful, Actionable, SameResource;
    RankFalls(s, a);
    StepShape(s, a);
    StepJob(s, a);
    if a.Other? {
      DisturbKept(s, a.env);
    } else if s.pc.Idle? {
      FetchKept(s, a.outcome);
    } else if s.pc.Todo? {
      NonEmptyPlan(s);
      TodoKept(s, a.outcome);
    } else if OnResource(s.pc) {
      ResourceKept(s, a.outcome);
    } else if InForce(s.pc) {
      ForceKept(s, a.outcome);
    } else {
      MigrateKept(s, a.outcome);
    }
    SameDecisions(s.store.cr.value, Step(s, a).store.cr.value);
    SameSpec(s.store.cr.value, Step(s, a).store.cr.value);
  }

  lemma NonEmptyPlan(s: Sys)
    requires Shape(s.pc, s.fetched) && s.pc.Todo?
    ensures s.pc.rest != []
  {}

  lemma SameSpec(before: Cr, after: Cr)
    requires SameResource(before, after)
    ensures after.spec == before.spec
  {}

  // ---------------------------------------------------------------- along a schedule

  /** As long as the rank is the same, so are the Job, the recorded image and whether a force is asked for. */
  ghost predicate Unchanged(s: Sys, t: Sys)
  {
    s.store.cr.Some? && t.store.cr.Some? && t.store.job == s.store.job
    && t.store.cr.value.status.migrated == s.store.cr.value.status.migrated
    && (Force(t.store.cr.value) <==> Force(s.store.cr.value))
  }

  lemma {:induction false} Since(s: Sys, sched: Schedule, n: nat, m: nat)
    requires Willing(State(s, sched, n)) && (forall i: nat :: Steady(sched(i))) && n <= m
    ensures Willing(State(s, sched, m))
    ensures Rank(State(s, sched, m)) <= Rank(State(s, sched, n))
    ensures State(s, sched, m).store.cr.value.spec == State(s, sched, n).store.cr.value.spec
    ensures Rank(State(s, sched, m)) == Rank(State(s, sched, n)) ==> Unchanged(State(s, sched, n), State(s, sched, m))
    decreases m
  {
    hide Step, Shape, JobInv, InSync, Hopeful, Actionable, Conflicting, Force, Rank, Steady, SameResource;
    if m > n {
      Since(s, sched, n, m - 1);
      var (r, a) := (State(s, sched, m - 1), sched(m - 1));
      WillingStep(r, a);
      RankFalls(r, a);
      SameSpec(r.store.cr.value, Step(r, a).store.cr.value);
    }
  }

  /** The undisturbed pass of a schedule is the undisturbed pass. */
  lemma {:induction false} WindowIsPass(s: Sys, sched: Schedule, m: nat, k: nat)
    requires k > 0 && (forall i :: m <= i < m + k ==> sched(i) == Operator(Ok))
    requires forall i :: m < i < m + k ==> !State(s, sched, i).pc.Idle?
    ensures State(s, sched, m + k) == Go(Act(State(s, sched, m), Ok), k - 1)
    decreases k
  {
    hide Act;
    if k == 1 {
      assert State(s, sched, m + 1) == Act(State(s, sched, m), Ok);
    } else {
      var first := Act(State(s, sched, m), Ok);
      WindowIsPass(s, sched, m, k - 1);
      assert !State(s, sched, m + k - 1).pc.Idle?;
      GoAdds(first, k - 2, 1);
      GoSteps(State(s, sched, m + k - 1));
    }
  }

  /** From every point on the rank falls, or a pass ends with everything done. */
  lemma NextFall(s: Sys, sched: Schedule, n: nat) returns (m: nat)
    requires Willing(State(s, sched, n)) && Fair(s, sched)
    ensures n <= m && Willing(State(s, sched, m))
    ensures Finished(State(s, sched, m)) || Rank(State(s, sched, m)) < Rank(State(s, sched, n))
  {
    hide Shape, JobInv, InSync, Hopeful, Actionable, Conflicting, Rank, Step, Steady, Converged, Willing, Undisturbed, Served;
    assert RestAfter(s, sched, n);
    var r: nat :| n <= r && AtRest(State(s, sched, r).store.job);
    assert PassAfter(s, sched, r);
    var p: nat, k: nat :| r <= p && Undisturbed(s, sched, p, k);
    Since(s, sched, n, r);
    Since(s, sched, r, p);
    if Rank(State(s, sched, p)) < Rank(State(s, sched, n)) {
      m := p;
    } else {
      m := p + k;
      PassFalls(s, sched, p, k);
    }
    Since(s, sched, n, m);
  }

  /** The migration is recorded and not forced, the condition says so, and everything owned is settled. */
  ghost predicate Finished(s: Sys)
  {
    && s.store.cr.Some? && Recorded(s.store.cr.value) && !Force(s.store.cr.value)
    && s.store.cr.value.status.reason == Reconciled && Converged(s.store.objs, s.store.cr.value.spec)
  }

  lemma PassFalls(s: Sys, sched: Schedule, p: nat, k: nat)
    requires Willing(State(s, sched, p)) && Undisturbed(s, sched, p, k) && AtRest(State(s, sched, p).store.job)
    ensures Finished(State(s, sched, p + k)) || Rank(State(s, sched, p + k)) < Rank(State(s, sched, p))
  {
    hide Shape, JobInv, InSync, Hopeful, Actionable, Conflicting, Rank, Act, Converged, State, Enabled, MigrateImage;
    var (u, t) := (State(s, sched, p), State(s, sched, p + k));
    var cr := u.store.cr.value;
    WindowIsPass(s, sched, p, k);
    var n, after := PassConverges(u, cr);
    GoStops(Act(u, Ok), k - 1, n);
    TableProgress(u, cr, u, t, after);
  }

  /** In every fair run a resource that can be migrated without help is migrated and converges. */
  lemma {:induction false} FairRunsMigrate(s: Sys, sched: Schedule, n: nat) returns (m: nat)
    requires Willing(State(s, sched, n)) && Fair(s, sched)
    ensures n <= m && Finished(State(s, sched, m))
    decreases Rank(State(s, sched, n))
  {
    hide Willing, Fair, Finished, Rank, State;
    m := NextFall(s, sched, n);
    if !Finished(State(s, sched, m)) {
      m := FairRunsMigrate(s, sched, m);
    }
  }

  /** The same from any reachable idle state over a hopeful, actionable resource without conflicting TLS sources. */
  lemma FairRunsMigrateReachable(s: Sys, cr: Cr, sched: Schedule) returns (m: nat)
    requires Reachable(s) && s.pc.Idle? && InHand(s, cr) && Actionable(cr) && !Conflicting(cr.spec)
    requires Hopeful(cr, s.store.job) && Fair(s, sched)
    ensures Finished(State(s, sched, m))
  {
    hide Fair, Finished, Hopeful, Actionable, Conflicting, Shape, JobInv, AllJustified, TrustInv;
    ReachableGate(s);
    m := FairRunsMigrate(s, sched, 0);
  }

  // ---------------------------------------------------------------- from a new resource on

  /** The resource is as its user made it, and the operator has not taken it on yet. */
  predicate Untouched(s: Sys, cr: Cr)
  {
    && s.store.cr.Some? && s.store.cr.value.(rv := cr.rv) == cr && s.store.job.None?
    && (s.pc.Idle? || (s.pc.AddFinalizer? && s.pc.snap.(rv := cr.rv) == cr))
  }

  /** A resource its user made well. */
  predicate WellMade(cr: Cr)
  {
    !cr.deleting && !cr.finalizer && cr.spec.valid && !Enabled(cr.notes, PAUSE) && !Conflicting(cr.spec)
    && cr.status == Status("", NoReason)
  }

  lemma UntouchedStep(s: Sys, a: Action, cr: Cr)
    requires Untouched(s, cr) && WellMade(cr) && JobInv(s) && Steady(a)
    ensures Untouched(Step(s, a), cr) || Willing(Step(s, a))
  {
    hide Enabled, MigrateImage, Conflicting, Upstream, JobInv, StepTodo, StepForce, StepMigrate;
    StepJob(s, a);
  }

  lemma {:induction false} UntouchedOrWilling(s: Sys, sched: Schedule, n: nat, cr: Cr)
    requires Untouched(s, cr) && WellMade(cr) && JobInv(s) && forall i: nat :: Steady(sched(i))
    ensures JobInv(State(s, sched, n)) && (Untouched(State(s, sched, n), cr) || Willing(State(s, sched, n)))
    decreases n
  {
    hide Step, JobInv, Untouched, Willing, WellMade, Steady;
    if n > 0 {
      UntouchedOrWilling(s, sched, n - 1, cr);
      var (r, a) := (State(s, sched, n - 1), sched(n - 1));
      StepJob(r, a);
      if Willing(r) {
        WillingStep(r, a);
      } else {
        UntouchedStep(r, a, cr);
      }
    }
  }

  /** A pass over an untouched resource takes it on. */
  lemma WindowTakesOn(s: Sys, sched: Schedule, p: nat, k: nat, cr: Cr)
    requires Undisturbed(s, sched, p, k) && Untouched(State(s, sched, p), cr) && WellMade(cr)
    ensures !Untouched(State(s, sched, p + k), cr)
  {
    hide Act, Go, Enabled, Conflicting, State;
    var u := State(s, sched, p);
    WindowIsPass(s, sched, p, k);
    var n := NewResourceIsTakenOn(u, u.store.cr.value);
    GoStops(Act(u, Ok), k - 1, n);
  }

  /** In every fair run every well-made resource is taken on, migrated, and converges. */
  lemma FairRunsMigrateNewResources(s: Sys, cr: Cr, sched: Schedule) returns (m: nat)
    requires Init(s) && s.store.cr == Some(cr) && WellMade(cr) && Fair(s, sched)
    ensures Finished(State(s, sched, m))
  {
    hide State, Finished, Willing, Undisturbed, Steady, Untouched, WellMade, JobInv;
    assert JobInv(s) && Untouched(s, cr) by { FreshStart(s, cr); }
    assert PassAfter(s, sched, 0);
    var p: nat, k: nat :| 0 <= p && Undisturbed(s, sched, p, k);
    UntouchedOrWilling(s, sched, p, cr);
    UntouchedOrWilling(s, sched, p + k, cr);
    if Willing(State(s, sched, p)) {
      m := FairRunsMigrate(s, sched, p);
    } else {
      WindowTakesOn(s, sched, p, k, cr);
      m := FairRunsMigrate(s, sched, p + k);
    }
  }

  lemma FreshStart(s: Sys, cr: Cr)
    requires Init(s) && s.store.cr == Some(cr)
    ensures JobInv(s) && Untouched(s, cr)
  {}
}
