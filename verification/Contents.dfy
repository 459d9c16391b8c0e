/** What a converged store holds, object by object, in terms of the specification's fields alone: images, replicas,
    secrets, selectors, autoscaler targets and everything else. */
module Contents {
  import opened Options
  import opened Cluster
  import opened Plan
  import opened Machine
  import opened Passes
  import opened Convergence
  import PodTemplate
  import ServiceSelector

  const COMPONENT := "app.kubernetes.io/component"
  const HASH := "rollouts-pod-template-hash"

  lemma SettledObject(objs: map<Id, Obj>, spec: Spec, id: Id)
    requires Converged(objs, spec) && Managed(id) && Wanted(spec, id)
    ensures id in objs && (id.kind != Secret ==> objs[id].body == Merged(spec, id, objs[id].body))
  {
    hide Managed, Merged, Wanted;
    var op := OpFor(spec, id);
    assert Fits(spec, op);
    assert Settled(objs, spec, op);
  }

  // ---------------------------------------------------------------- workloads

  /** The image a component runs: the user's if one is named, else the product's image of the specified version. */
  function ExpectedImage(spec: Spec, part: Part): string
  {
    match part
    case Node => if spec.nodeImage != "" then spec.nodeImage else "ghcr.io/observiq/bindplane-ee:" + spec.version
    case Nats => if spec.natsImage != "" then spec.natsImage else "ghcr.io/observiq/bindplane-ee:" + spec.version
    case Jobs => if spec.jobsImage != "" then spec.jobsImage else "ghcr.io/observiq/bindplane-ee:" + spec.version
    case Opamp =>
      if spec.opamp.Some? && spec.opamp.value.image != "" then spec.opamp.value.image
      else "ghcr.io/observiq/bindplane-ee:" + spec.version
    case TransformAgent =>
      if spec.agentImage != "" then spec.agentImage
      else "ghcr.io/observiq/bindplane-transform-agent:" + spec.version + "-bindplane"
    case Tsdb => if spec.tsdbImage != "" then spec.tsdbImage else "ghcr.io/observiq/bindplane-prometheus:" + spec.version
    case _ => ""
  }

  lemma WorkloadImage(objs: map<Id, Obj>, spec: Spec, id: Id)
    requires Converged(objs, spec) && Managed(id) && Wanted(spec, id) && IsWorkload(id.kind)
    ensures id in objs && objs[id].body.Workload? && objs[id].body.rest == spec.rest
    ensures objs[id].body.image == ExpectedImage(spec, id.part)
  {
    hide PartReplicas, PartSecrets;
    SettledObject(objs, spec, id);
  }

  /** Every workload's replica count is the specification's, where no autoscaler owns it; jobs and TSDB run once. */
  lemma WorkloadReplicas(objs: map<Id, Obj>, spec: Spec, id: Id)
    requires Converged(objs, spec) && Managed(id) && Wanted(spec, id) && IsWorkload(id.kind)
    ensures id in objs && objs[id].body.Workload?
    ensures id.part == Node && !spec.nodeAutoscaling ==> objs[id].body.replicas == Some(spec.nodeReplicas)
    ensures id.part == Opamp ==>
              spec.opamp.Some?
              && (!spec.opamp.value.autoscaling ==> objs[id].body.replicas == Some(spec.opamp.value.replicas))
    ensures id.part == Nats ==> objs[id].body.replicas == Some(spec.natsReplicas)
    ensures id.part == TransformAgent ==> objs[id].body.replicas == Some(spec.agentReplicas)
    ensures id.part in {Jobs, Tsdb} ==> objs[id].body.replicas == Some(1)
  {
    hide PartImage, PartSecrets;
    SettledObject(objs, spec, id);
  }

  /** A Bindplane pod refers to the generated session secret unless the user gave one as a value or a reference, to the
      generated status keys unless status is off or the user gave keys, and to the TSDB credentials unless the TSDB is
      remote; the TSDB itself mounts its credentials, and the transform agent needs none of them. */
  lemma WorkloadSecrets(objs: map<Id, Obj>, spec: Spec, id: Id)
    requires Converged(objs, spec) && Managed(id) && Wanted(spec, id) && IsWorkload(id.kind)
    ensures id in objs && objs[id].body.Workload?
    ensures id.part in {Node, Opamp, Jobs, Nats} ==>
              var secrets := objs[id].body.secrets;
              && secrets <= {Id(Secret, SessionSecret), Id(Secret, StatusSecret), Id(Secret, TsdbBasicAuth)}
              && (Id(Secret, SessionSecret) !in secrets <==>
                    spec.auth.Some? && (spec.auth.value.sessionSecret != "" || spec.auth.value.sessionSecretRef))
              && (Id(Secret, StatusSecret) !in secrets <==>
                    spec.status.Some?
                    && (!spec.status.value.enabled || spec.status.value.keys > 0 || spec.status.value.keysRef))
              && (Id(Secret, TsdbBasicAuth) !in secrets <==> spec.remoteTsdb)
    ensures id.part == Tsdb ==> objs[id].body.secrets == {Id(Secret, TsdbBasicAuth)}
    ensures id.part == TransformAgent ==> objs[id].body.secrets == {}
  {
    hide PartImage, PartReplicas;
    SettledObject(objs, spec, id);
  }

  // ---------------------------------------------------------------- the other kinds

  /** The component whose pods a Service selects; the two NATS Services select the same pods. */
  function SelectedBy(part: Part): string
  {
    match part
    case Node => "node"
    case Opamp => "opamp"
    case NatsClient => "nats"
    case NatsCluster => "nats"
    case Tsdb => "tsdb"
    case TransformAgent => "transform-agent"
    case _ => ""
  }

  /** A Service selects its component's pods by that label alone, whatever else was in the live selector; only the node
      Service in Rollout mode may carry the hash of Argo Rollouts besides. */
  lemma ServiceContents(objs: map<Id, Obj>, spec: Spec, id: Id)
    requires Converged(objs, spec) && Managed(id) && Wanted(spec, id) && id.kind == Service
    ensures id in objs && objs[id].body.Routing? && objs[id].body.rest == spec.rest
    ensures !(id.part == Node && spec.argoRollout) ==> objs[id].body.selector == map[COMPONENT := SelectedBy(id.part)]
    ensures objs[id].body.selector - {HASH} == map[COMPONENT := SelectedBy(id.part)]
  {
    hide Converged, Wanted, Managed, BodyFor, KeepFor, ServiceSelector.Kept, KeysKept;
    SettledObject(objs, spec, id);
    ServiceWant(spec, id);
    var body := objs[id].body;
    assert body == Preserving(BodyFor(spec, id), KeepFor(spec, id), body);
    var base := map[COMPONENT := SelectedBy(id.part)];
    if id.part == Node && spec.argoRollout {
      HashBeside(base, body.selector);
    } else {
      NothingKept(base, body.selector);
    }
  }

  lemma ServiceWant(spec: Spec, id: Id)
    requires Managed(id) && id.kind == Service
    ensures BodyFor(spec, id) == Routing(map[COMPONENT := SelectedBy(id.part)], spec.rest)
    ensures KeysKept(KeepFor(spec, id)) ==
            if id.part == Node && spec.argoRollout then ServiceSelector.KeysOf(ServiceSelector.Annotation([HASH])) else []
  {
    hide ServiceSelector.Annotation, ServiceSelector.KeysOf;
  }

  lemma NothingKept(base: map<string, string>, live: map<string, string>)
    requires base.Keys == {COMPONENT}
    ensures ServiceSelector.Kept(base, live, []) == base && base - {HASH} == base
  {
    assert HASH[0] != COMPONENT[0];
  }

  lemma HashBeside(base: map<string, string>, live: map<string, string>)
    requires base.Keys == {COMPONENT}
    ensures ServiceSelector.Kept(base, live, ServiceSelector.KeysOf(ServiceSelector.Annotation([HASH]))) - {HASH} == base
  {
    hide ServiceSelector.Kept, ServiceSelector.KeysOf, ServiceSelector.Annotation;
    assert HASH[0] != COMPONENT[0];
    ServiceSelector.RolloutHashKept(base, live);
  }

  /** Switching back to Deployment mode takes the stale hash out, which no pod of a Deployment carries. */
  lemma StaleHashIsDropped(objs: map<Id, Obj>, spec: Spec)
    requires Converged(objs, spec) && !spec.argoRollout
    ensures Id(Service, Node) in objs && objs[Id(Service, Node)].body.Routing?
    ensures HASH !in objs[Id(Service, Node)].body.selector
  {
    ServiceContents(objs, spec, Id(Service, Node));
    assert HASH[0] != COMPONENT[0];
  }

  /** Two Services select the same pods exactly if they are the two of NATS. */
  lemma ServicesSelectApart(objs: map<Id, Obj>, spec: Spec, a: Id, b: Id)
    requires Converged(objs, spec) && Managed(a) && Wanted(spec, a) && Managed(b) && Wanted(spec, b)
    requires a.kind == Service && b.kind == Service && a != b
    ensures a in objs && b in objs && objs[a].body.Routing? && objs[b].body.Routing?
    ensures objs[a].body.selector - {HASH} == objs[b].body.selector - {HASH}
            <==> a.part in {NatsClient, NatsCluster} && b.part in {NatsClient, NatsCluster}
  {
    ServiceContents(objs, spec, a);
    ServiceContents(objs, spec, b);
    var (s, t) := (map[COMPONENT := SelectedBy(a.part)], map[COMPONENT := SelectedBy(b.part)]);
    assert s == t <==> s[COMPONENT] == t[COMPONENT];
    NamesApart(a.part, b.part);
  }

  lemma NamesApart(a: Part, b: Part)
    requires SelectedBy(a) != "" && SelectedBy(b) != "" && a != b
    ensures SelectedBy(a) == SelectedBy(b) <==> a in {NatsClient, NatsCluster} && b in {NatsClient, NatsCluster}
  {
    var (x, y) := (SelectedBy(a), SelectedBy(b));
    if !(a in {NatsClient, NatsCluster} && b in {NatsClient, NatsCluster}) {
      assert |x| != |y| || x[0] != y[0] || x[1] != y[1];
    }
  }

  /** The node autoscaler scales the kind of the mode, the OpAMP autoscaler the OpAMP Deployment. */
  lemma AutoscalerContents(objs: map<Id, Obj>, spec: Spec, id: Id)
    requires Converged(objs, spec) && Managed(id) && Wanted(spec, id) && id.kind == Hpa
    ensures id in objs && objs[id].body.Scaling? && objs[id].body.rest == spec.rest
    ensures objs[id].body.target == if id.part == Node && spec.argoRollout then Rollout else Deployment
    ensures Id(objs[id].body.target, id.part) in objs
  {
    SettledObject(objs, spec, id);
    NamesDependOnSpecAlone(objs, spec, Id(objs[id].body.target, id.part));
  }

  /** Service accounts, disruption budgets, certificates and the web configuration hold what the specification says. */
  lemma PlainContents(objs: map<Id, Obj>, spec: Spec, id: Id)
    requires Converged(objs, spec) && Managed(id) && Wanted(spec, id)
    requires id.kind in {ServiceAccount, Pdb, Certificate, ConfigMap}
    ensures id in objs && objs[id].body == Plain(spec.rest)
  {
    SettledObject(objs, spec, id);
  }

  // ---------------------------------------------------------------- which objects there are

  lemma Presence(objs: map<Id, Obj>, spec: Spec, id: Id)
    requires Converged(objs, spec) && Managed(id) && !CreateOnce(id)
    ensures id in objs <==> Wanted(spec, id)
  {
    NamesDependOnSpecAlone(objs, spec, id);
  }

  /** The objects that are always there. */
  lemma AlwaysThere(objs: map<Id, Obj>, spec: Spec)
    requires Converged(objs, spec)
    ensures forall part :: part in {Node, Jobs, Nats, TransformAgent, Migrate} ==> Id(ServiceAccount, part) in objs
    ensures forall part :: part in {Node, NatsClient, NatsCluster, TransformAgent} ==> Id(Service, part) in objs
    ensures Id(Deployment, Jobs) in objs && Id(StatefulSet, Nats) in objs && Id(Deployment, TransformAgent) in objs
  {
    forall part | part in {Node, Jobs, Nats, TransformAgent, Migrate} ensures Id(ServiceAccount, part) in objs {
      Presence(objs, spec, Id(ServiceAccount, part));
    }
    forall part | part in {Node, NatsClient, NatsCluster, TransformAgent} ensures Id(Service, part) in objs {
      Presence(objs, spec, Id(Service, part));
    }
    Presence(objs, spec, Id(Deployment, Jobs));
    Presence(objs, spec, Id(StatefulSet, Nats));
    Presence(objs, spec, Id(Deployment, TransformAgent));
  }

  /** The node: one kind of workload by mode, the budget unless disabled, the autoscaler if asked for. */
  lemma NodeObjects(objs: map<Id, Obj>, spec: Spec)
    requires Converged(objs, spec)
    ensures Id(Rollout, Node) in objs <==> spec.argoRollout
    ensures Id(Deployment, Node) in objs <==> !spec.argoRollout
    ensures Id(Pdb, Node) in objs <==> !spec.nodeDisablePdb
    ensures Id(Hpa, Node) in objs <==> spec.nodeAutoscaling
    ensures Id(Pdb, Nats) in objs <==> !spec.natsDisablePdb
    ensures Id(Pdb, TransformAgent) in objs <==> !spec.agentDisablePdb
  {
    Presence(objs, spec, Id(Rollout, Node));
    Presence(objs, spec, Id(Deployment, Node));
    Presence(objs, spec, Id(Pdb, Node));
    Presence(objs, spec, Id(Hpa, Node));
    Presence(objs, spec, Id(Pdb, Nats));
    Presence(objs, spec, Id(Pdb, TransformAgent));
  }

  /** OpAMP: all or nothing by its switch, and within it the budget and the autoscaler. */
  lemma OpampObjects(objs: map<Id, Obj>, spec: Spec)
    requires Converged(objs, spec)
    ensures forall kind :: kind in {ServiceAccount, Deployment, Service} ==>
              (Id(kind, Opamp) in objs <==> spec.opamp.Some? && spec.opamp.value.enabled)
    ensures Id(Pdb, Opamp) in objs <==> spec.opamp.Some? && spec.opamp.value.enabled && !spec.opamp.value.disablePdb
    ensures Id(Hpa, Opamp) in objs <==> spec.opamp.Some? && spec.opamp.value.enabled && spec.opamp.value.autoscaling
  {
    forall kind | kind in {ServiceAccount, Deployment, Service}
      ensures Id(kind, Opamp) in objs <==> spec.opamp.Some? && spec.opamp.value.enabled
    {
      Presence(objs, spec, Id(kind, Opamp));
    }
    Presence(objs, spec, Id(Pdb, Opamp));
    Presence(objs, spec, Id(Hpa, Opamp));
  }

  /** The TSDB: local resources exactly while it is not remote; certificates by their own switches. */
  lemma TsdbObjects(objs: map<Id, Obj>, spec: Spec)
    requires Converged(objs, spec)
    ensures forall kind :: kind in {ServiceAccount, StatefulSet, Service} ==> (Id(kind, Tsdb) in objs <==> !spec.remoteTsdb)
    ensures Id(Secret, TsdbBasicAuth) in objs <==> !spec.remoteTsdb
    ensures Id(ConfigMap, TsdbWebConfig) in objs <==> !spec.remoteTsdb
    ensures forall part :: part in {TsdbServerCert, TsdbProbeCert} ==> (Id(Certificate, part) in objs <==> spec.tsdbServerCert)
    ensures Id(Certificate, TsdbClientCert) in objs <==> spec.tsdbClientCert
    ensures Id(Certificate, NatsCert) in objs <==> spec.natsCert
    ensures Id(Certificate, TransformAgentCert) in objs <==> spec.agentCert
  {
    forall kind | kind in {ServiceAccount, StatefulSet, Service} ensures Id(kind, Tsdb) in objs <==> !spec.remoteTsdb {
      Presence(objs, spec, Id(kind, Tsdb));
    }
    forall part | part in {TsdbServerCert, TsdbProbeCert} ensures Id(Certificate, part) in objs <==> spec.tsdbServerCert {
      Presence(objs, spec, Id(Certificate, part));
    }
    Presence(objs, spec, Id(Secret, TsdbBasicAuth));
    Presence(objs, spec, Id(ConfigMap, TsdbWebConfig));
    Presence(objs, spec, Id(Certificate, TsdbClientCert));
    Presence(objs, spec, Id(Certificate, NatsCert));
    Presence(objs, spec, Id(Certificate, TransformAgentCert));
  }

  // ---------------------------------------------------------------- Services and the pods they select

  /** No user template takes a pod out of its Service: the labels a selector may use are the operator's in the merged
      template, the component label among them. */
  lemma ServicesKeepTheirPods(operator: PodTemplate.Template, user: PodTemplate.Template, merged: PodTemplate.Template,
                              part: Part)
    requires PodTemplate.MergedMetadata(operator, user, merged)
    requires COMPONENT in operator.labels && operator.labels[COMPONENT] == SelectedBy(part)
    ensures var selector := map[COMPONENT := SelectedBy(part)];
            forall k :: k in selector ==> k in merged.labels && merged.labels[k] == selector[k]
    ensures forall k :: k in {"app.kubernetes.io/name", "app.kubernetes.io/instance"} && k in operator.labels ==>
              k in merged.labels && merged.labels[k] == operator.labels[k]
  {}
}
