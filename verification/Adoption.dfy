/** What an undisturbed pass makes of any resource: a new one is taken on, a deleted one is let go, a paused or invalid
    one is reported and otherwise left alone. From there a new resource is migrated. */
module Adoption {
  import opened Options
  import opened Cluster
  import opened Plan
  import opened Machine
  import opened Passes
  import opened Convergence
  import opened GateSafety
  import opened Migration

  /** Nothing but the resource changed. */
  predicate RestKept(s: Sys, t: Sys)
  {
    t.store == s.store.(cr := t.store.cr, nextRv := t.store.nextRv)
  }

  /** The pass over a live resource without the finalizer puts the finalizer on and does nothing else. */
  lemma NewResourceIsTakenOn(s: Sys, cr: Cr) returns (n: nat)
    requires s.pc.Idle? && s.store.cr == Some(cr) && !cr.deleting && !cr.finalizer
    ensures var t := Go(Act(s, Ok), n);
            && t.pc == Idle(Done) && RestKept(s, t)
            && t.store.cr == Some(cr.(finalizer := true, rv := s.store.nextRv))
  {
    hide Upstream, Enabled;
    GoSteps(Act(s, Ok));
    n := 1;
  }

  /** The pass over a resource that is being deleted lets it go. */
  lemma DeletedResourceIsLetGo(s: Sys, cr: Cr) returns (n: nat)
    requires s.pc.Idle? && s.store.cr == Some(cr) && cr.deleting && cr.finalizer
    ensures var t := Go(Act(s, Ok), n);
            t.pc == Idle(Done) && RestKept(s, t) && t.store.cr.None?
  {
    hide Upstream, Enabled;
    GoSteps(Act(s, Ok));
    n := 2;
  }

  /** It does so even if the status update on the way is refused. */
  lemma LetGoWithoutStatus(s: Sys, cr: Cr)
    requires s.pc.Idle? && s.store.cr == Some(cr) && cr.deleting && cr.finalizer
    ensures var t := Act(Act(Act(s, Ok), Refused), Ok);
            t.pc == Idle(Done) && RestKept(s, t) && t.store.cr.None?
  {
    hide Upstream, Enabled;
  }

  /** A paused or invalid resource gets the condition that says so, the pause first, and nothing else happens. */
  lemma HeldResourceIsReported(s: Sys, cr: Cr) returns (n: nat)
    requires s.pc.Idle? && s.store.cr == Some(cr) && !cr.deleting && cr.finalizer
    requires Enabled(cr.notes, PAUSE) || !cr.spec.valid
    ensures var t := Go(Act(s, Ok), n);
            && t.pc == Idle(Done) && RestKept(s, t)
            && t.store.cr == Some(cr.(rv := s.store.nextRv,
                 status := cr.status.(reason := if Enabled(cr.notes, PAUSE) then Paused else Invalid)))
  {
    hide Upstream, Enabled;
    GoSteps(Act(s, Ok));
    n := 1;
  }

  /** Nothing is left to do for a resource that is gone, or going without the finalizer. */
  lemma NothingToDo(s: Sys)
    requires s.pc.Idle? && (s.store.cr.None? || (s.store.cr.value.deleting && !s.store.cr.value.finalizer))
    ensures Act(s, Ok).pc == Idle(Done) && Act(s, Ok).store == s.store
  {}

  // ---------------------------------------------------------------- from a new resource to a migrated one

  /** A new resource that is live, valid and unpaused, without conflicting TLS sources. */
  predicate Sound(cr: Cr)
  {
    !cr.deleting && cr.spec.valid && !Enabled(cr.notes, PAUSE) && !Conflicting(cr.spec)
  }

  /** Calm rounds lead every such resource, as it is created, to a recorded migration, a settled store and a truthful
      Reconciled. */
  lemma NewResourceIsMigrated(s: Sys, cr: Cr) returns (actions: seq<Action>, after: Cr)
    requires Init(s) && s.store.cr == Some(cr) && Sound(cr)
    ensures forall a :: a in actions ==> Calm(a)
    ensures var t := Run(s, actions);
            && t.pc.Idle? && t.store.cr == Some(after) && after.spec == cr.spec && after.finalizer && !Force(after)
            && Recorded(after) && after.status.reason == Reconciled && Converged(t.store.objs, cr.spec)
  {
    hide Run, Act, Go, Enabled, MigrateImage, Conflicting, Converged, Upstream;
    var n := NewResourceIsTakenOn(s, cr);
    var m := PassIsRun(s, n);
    var t := Run(s, Calls(m));
    var taken := cr.(finalizer := true, rv := s.store.nextRv);
    var more;
    more, after := EventuallyMigrated(t, taken);
    RunConcat(s, Calls(m), more);
    actions := Calls(m) + more;
  }
}
