/** Edits reach the cluster: what a new version means for images, for the migration and for the workloads, and that
    any other edit is rolled out too. */
module Upgrades {
  import opened Options
  import opened Cluster
  import opened Plan
  import opened Machine
  import opened Passes
  import opened Convergence
  import opened Contents
  import Gates = GateSafety
  import opened Writers

  // ---------------------------------------------------------------- images and versions

  predicate EndsWith(s: string, suffix: string) { |suffix| <= |s| && s[|s| - |suffix|..] == suffix }

  /** Nothing has an image of its own. */
  predicate AllDefault(spec: Spec)
  {
    NoOverrides(spec) && spec.agentImage == spec.tsdbImage == ""
  }

  /** What every image ends in: the tag, which is the version, marked for the transform agent. */
  lemma ImagesNameTheVersion(spec: Spec, part: Part)
    requires AllDefault(spec) && part in IMAGE_PARTS
    ensures EndsWith(MigrateImage(spec), ":" + spec.version)
    ensures EndsWith(PartImage(spec, part), ":" + spec.version + if part == TransformAgent then "-bindplane" else "")
  {
    var ee := "ghcr.io/observiq/bindplane-ee";
    Tagged(ee, ":" + spec.version);
    assert ee + (":" + spec.version) == "ghcr.io/observiq/bindplane-ee:" + spec.version;
    Tagged("ghcr.io/observiq/bindplane-prometheus", ":" + spec.version);
    assert "ghcr.io/observiq/bindplane-prometheus" + (":" + spec.version)
           == "ghcr.io/observiq/bindplane-prometheus:" + spec.version;
    Tagged("ghcr.io/observiq/bindplane-transform-agent", ":" + spec.version + "-bindplane");
    assert "ghcr.io/observiq/bindplane-transform-agent" + (":" + spec.version + "-bindplane")
           == "ghcr.io/observiq/bindplane-transform-agent:" + spec.version + "-bindplane";
  }

  lemma Tagged(repository: string, tag: string)
    ensures EndsWith(repository + tag, tag)
  {}

  /** The migration, and every component of the migrated product, runs one image. */
  lemma OneProduct(spec: Spec, part: Part)
    requires AllDefault(spec) && part in {Node, Nats, Jobs, Opamp}
    ensures PartImage(spec, part) == MigrateImage(spec)
  {}

  /** The product, the transform agent and the TSDB come from three repositories, at any versions. */
  lemma RepositoriesApart(a: Spec, b: Spec)
    requires AllDefault(a) && AllDefault(b)
    ensures PartImage(a, Node) != PartImage(b, TransformAgent) && PartImage(a, Node) != PartImage(b, Tsdb)
    ensures PartImage(a, TransformAgent) != PartImage(b, Tsdb)
  {
    assert PartImage(a, Node)[27] == 'e' && PartImage(b, TransformAgent)[27] == 't' && PartImage(b, Tsdb)[27] == 'p';
    assert PartImage(a, TransformAgent)[27] == 't';
  }

  /** Another version is another image, for the migration and for every component. */
  lemma VersionsDiffer(a: Spec, b: Spec, part: Part)
    requires AllDefault(a) && AllDefault(b) && a.version != b.version && part in IMAGE_PARTS
    ensures MigrateImage(a) != MigrateImage(b) && PartImage(a, part) != PartImage(b, part)
  {
    TagsDiffer("ghcr.io/observiq/bindplane-ee:", a.version, b.version, "");
    TagsDiffer("ghcr.io/observiq/bindplane-prometheus:", a.version, b.version, "");
    TagsDiffer("ghcr.io/observiq/bindplane-transform-agent:", a.version, b.version, "-bindplane");
  }

  lemma TagsDiffer(prefix: string, x: string, y: string, suffix: string)
    requires x != y
    ensures prefix + x != prefix + y && prefix + x + suffix != prefix + y + suffix
  {
    var (p, q) := (prefix + x + suffix, prefix + y + suffix);
    assert p[|prefix|..|p| - |suffix|] == x && q[|prefix|..|q| - |suffix|] == y;
    assert (prefix + x)[|prefix|..] == x && (prefix + y)[|prefix|..] == y;
  }

  // ---------------------------------------------------------------- a new version migrates first

  /** An edit of the version alone makes the recorded migration stale. */
  lemma UpgradeIsUnrecorded(cr: Cr, version: string)
    requires Recorded(cr) && AllDefault(cr.spec) && version != cr.spec.version
    ensures !Recorded(cr.(spec := cr.spec.(version := version)))
  {
    VersionsDiffer(cr.spec, cr.spec.(version := version), Node);
  }

  /** So after the edit, in any continuation, no gated workload is written unskipped from the new version before a Job
      with the image of that version has completed; and that image is what is written. */
  lemma UpgradeIsGated(s: Sys, cr: Cr, version: string, actions: seq<Action>, i: nat)
    requires Reachable(s) && s.store.cr == Some(cr) && Recorded(cr) && AllDefault(cr.spec) && version != cr.spec.version
    requires var edit := Other(UserEdits(cr.spec.(version := version), cr.notes));
             var log := Run(s, [edit] + actions).log;
             i < |log| && log[i].Wrote? && log[i].body.Workload? && log[i].id.part in Gates.GATED
             && AllDefault(log[i].snap.spec) && log[i].snap.spec.version == version && !Skip(log[i].snap)
    ensures var edit := Other(UserEdits(cr.spec.(version := version), cr.notes));
            var log := Run(s, [edit] + actions).log;
            exists j, uid: nat, image: Image :: 0 <= j < i && log[j] == JobCompleted(uid, image)
              && log[i].body.image == image && EndsWith(image, ":" + version) && image != cr.status.migrated
  {
    hide Step, Run, Skip, AllDefault, PartImage, MigrateImage;
    var edit := Other(UserEdits(cr.spec.(version := version), cr.notes));
    var t := Run(s, [edit] + actions);
    ReachableRun(s, [edit] + actions);
    Gates.GateSafety(t, i);
    var spec := t.log[i].snap.spec;
    assert NoOverrides(spec) by { Plainly(spec); }
    ImagesNameTheVersion(spec, Node);
    VersionsDiffer(cr.spec, spec, Node);
    var j, uid: nat :| 0 <= j < i && t.log[j] == JobCompleted(uid, MigrateImage(spec));
    assert t.log[j] == JobCompleted(uid, MigrateImage(spec)) && t.log[i].body.image == MigrateImage(spec);
  }

  lemma Plainly(spec: Spec)
    requires AllDefault(spec)
    ensures NoOverrides(spec)
  {}

  lemma ReachableRun(s: Sys, actions: seq<Action>)
    requires Reachable(s)
    ensures Reachable(Run(s, actions))
  {
    hide Step, Init;
    var s0: Sys, before: seq<Action> :| Init(s0) && s == Run(s0, before);
    RunConcat(s0, before, actions);
  }

  // ---------------------------------------------------------------- and every edit is rolled out

  /** The gate is open for this resource as it stands. */
  predicate Open(cr: Cr) { Skip(cr) || (Recorded(cr) && !Force(cr)) }

  /** A workload whose wanted content changed is at a new version after the pass. */
  lemma ChangedIsRewritten(s: Sys, t: Sys, id: Id)
    requires Reachable(s) && Rewritten(s.store.objs, t.store.objs, s.store.nextRv)
    requires id in s.store.objs && id in t.store.objs && t.store.objs[id].body != s.store.objs[id].body
    ensures t.store.objs[id].rv > s.store.objs[id].rv
  {
    hide Merged;
    ReachableWriters(s);
  }

  /** From a store that is settled for a specification, an edit of anything that only reaches contents makes the next
      pass write every workload anew, with the new contents. */
  lemma EditRollsOut(s: Sys, cr: Cr, was: Spec) returns (n: nat, after: Cr)
    requires Reachable(s) && s.pc.Idle? && InHand(s, cr) && Actionable(cr) && !Conflicting(cr.spec) && Open(cr)
    requires Converged(s.store.objs, was) && was.(rest := cr.spec.rest) == cr.spec && was.rest != cr.spec.rest
    ensures var t := Go(Act(s, Ok), n);
            && t.pc.Idle? && t.pc.result != Error
            && forall id :: Managed(id) && Wanted(cr.spec, id) && IsWorkload(id.kind) ==>
                 && id in s.store.objs && id in t.store.objs && t.store.objs[id].body.Workload?
                 && t.store.objs[id].body.rest == cr.spec.rest && t.store.objs[id].rv > s.store.objs[id].rv
  {
    hide Act, Go, Converged, Actionable, Conflicting, Enabled, MigrateImage, Wanted, Managed;
    n, after := PassConverges(s, cr);
    var t := Go(Act(s, Ok), n);
    forall id | Managed(id) && Wanted(cr.spec, id) && IsWorkload(id.kind)
      ensures id in s.store.objs && id in t.store.objs && t.store.objs[id].body.Workload?
      ensures t.store.objs[id].body.rest == cr.spec.rest && t.store.objs[id].rv > s.store.objs[id].rv
    {
      WantedAlike(was, cr.spec.rest, cr.spec.version, id);
      WorkloadImage(s.store.objs, was, id);
      WorkloadImage(t.store.objs, cr.spec, id);
      ChangedIsRewritten(s, t, id);
    }
  }

  /** Neither contents nor version decide which objects exist. */
  lemma WantedAlike(spec: Spec, rest: nat, version: string, id: Id)
    ensures Wanted(spec.(rest := rest), id) <==> Wanted(spec, id)
    ensures Wanted(spec.(version := version), id) <==> Wanted(spec, id)
  {
    hide Wanted, SameWants;
    RestKeepsWants(spec, rest);
    VersionKeepsWants(spec, version);
    SameWantsAgree(spec, spec.(rest := rest), id);
    SameWantsAgree(spec, spec.(version := version), id);
  }

  lemma RestKeepsWants(spec: Spec, rest: nat)
    ensures SameWants(spec, spec.(rest := rest))
  {}

  lemma VersionKeepsWants(spec: Spec, version: string)
    ensures SameWants(spec, spec.(version := version))
  {}

  /** Likewise for a new version: once its migration is recorded, or with the check skipped, the next pass moves every
      workload to an image of that version. */
  lemma UpgradeRollsOut(s: Sys, cr: Cr, was: Spec) returns (n: nat, after: Cr)
    requires Reachable(s) && s.pc.Idle? && InHand(s, cr) && Actionable(cr) && !Conflicting(cr.spec) && Open(cr)
    requires Converged(s.store.objs, was) && was.(version := cr.spec.version) == cr.spec && was.version != cr.spec.version
    requires AllDefault(cr.spec)
    ensures var t := Go(Act(s, Ok), n);
            && t.pc.Idle? && t.pc.result != Error
            && forall id :: Managed(id) && Wanted(cr.spec, id) && IsWorkload(id.kind) ==>
                 && id in s.store.objs && id in t.store.objs && t.store.objs[id].body.Workload?
                 && EndsWith(t.store.objs[id].body.image,
                             ":" + cr.spec.version + if id.part == TransformAgent then "-bindplane" else "")
                 && t.store.objs[id].rv > s.store.objs[id].rv
  {
    hide Act, Go, Converged, Actionable, Conflicting, Enabled, Wanted, Managed;
    n, after := PassConverges(s, cr);
    var t := Go(Act(s, Ok), n);
    forall id | Managed(id) && Wanted(cr.spec, id) && IsWorkload(id.kind)
      ensures id in s.store.objs && id in t.store.objs && t.store.objs[id].body.Workload?
      ensures EndsWith(t.store.objs[id].body.image,
                       ":" + cr.spec.version + if id.part == TransformAgent then "-bindplane" else "")
      ensures t.store.objs[id].rv > s.store.objs[id].rv
    {
      WantedAlike(was, cr.spec.rest, cr.spec.version, id);
      ConvergedWorkload(s.store.objs, was, id);
      ConvergedWorkload(t.store.objs, cr.spec, id);
      WorkloadsHaveImages(id);
      ImagesNameTheVersion(cr.spec, id.part);
      VersionsDiffer(was, cr.spec, id.part);
      ChangedIsRewritten(s, t, id);
    }
  }

  lemma WorkloadsHaveImages(id: Id)
    requires Managed(id) && IsWorkload(id.kind)
    ensures id.part in IMAGE_PARTS
  {}
}
