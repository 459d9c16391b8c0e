/** What one pass does to the owned objects, in order: the component reconcilers read as lists of
    apply and delete-if-exists steps. */
module Plan {
  import opened Options
  import opened Cluster
  import ServiceSelector

  /** One step of a reconciler: bring the named object to what the specification says, or delete it if it exists. */
  datatype Op = Apply(id: Id) | Remove(id: Id)

  // ---------------------------------------------------------------- generated secrets

  const SESSION := Id(Secret, SessionSecret)
  const STATUS_KEYS := Id(Secret, StatusSecret)
  const BASIC_AUTH := Id(Secret, TsdbBasicAuth)

  /** Whether reconcileSessionSecret goes past its first check. */
  predicate CreatesSession(spec: Spec)
  {
    !(spec.auth.Some? && (spec.auth.value.sessionSecret != "" || spec.auth.value.sessionSecretRef))
  }

  /** Whether reconcileStatusSecret goes past its first two checks. */
  predicate CreatesStatus(spec: Spec)
  {
    StatusEnabled(spec) && !(spec.status.Some? && (spec.status.value.keysRef || spec.status.value.keys > 0))
  }

  predicate StatusEnabled(spec: Spec) { spec.status.None? || spec.status.value.enabled }

  datatype Source = FromUser | FromOperator(secret: Id) | NotSet

  /** A reference wins over a plain value; neither leaves the variable unset. */
  function SecretOrValue(value: string, ref: bool): Source
  {
    if ref then FromUser else if value != "" then FromUser else NotSet
  }

  /** Where the environment builder takes the session secret from. */
  function SessionSource(spec: Spec): Source
  {
    var given :=
      if spec.auth.Some? then SecretOrValue(spec.auth.value.sessionSecret, spec.auth.value.sessionSecretRef) else NotSet;
    if given == NotSet then FromOperator(SESSION) else given
  }

  /** Where it takes the status keys from. */
  function StatusSource(spec: Spec): Source
  {
    if !StatusEnabled(spec) then NotSet
    else if spec.status.Some? && spec.status.value.keysRef then FromUser
    else if spec.status.Some? && spec.status.value.keys > 0 then FromUser
    else FromOperator(STATUS_KEYS)
  }

  /** Where it takes the TSDB credentials from. */
  function BasicAuthSource(spec: Spec): Source
  {
    if spec.remoteTsdb then FromUser else FromOperator(BASIC_AUTH)
  }

  function Referenced(source: Source): set<Id>
  {
    if source.FromOperator? then {source.secret} else {}
  }

  /** The operator's secrets that the shared environment of every Bindplane pod refers to. */
  function AppSecrets(spec: Spec): set<Id>
  {
    Referenced(SessionSource(spec)) + Referenced(StatusSource(spec)) + Referenced(BasicAuthSource(spec))
  }

  /** The environment refers to a generated secret exactly when the matching reconciler creates it. */
  lemma ReferencesMatchCreation(spec: Spec)
    ensures SESSION in AppSecrets(spec) <==> CreatesSession(spec)
    ensures STATUS_KEYS in AppSecrets(spec) <==> CreatesStatus(spec)
    ensures BASIC_AUTH in AppSecrets(spec) <==> !spec.remoteTsdb
    ensures AppSecrets(spec) <= {SESSION, STATUS_KEYS, BASIC_AUTH}
  {}

  // ---------------------------------------------------------------- bodies

  const COMPONENT_LABEL := "app.kubernetes.io/component"

  function Component(part: Part): string
  {
    match part
    case Node => "node"
    case Opamp => "opamp"
    case Jobs => "jobs"
    case Migrate => "migrate"
    case Nats => "nats"
    case NatsClient => "nats"
    case NatsCluster => "nats"
    case Tsdb => "tsdb"
    case TransformAgent => "transform-agent"
    case _ => ""
  }

  predicate OpampOn(spec: Spec) { spec.opamp.Some? && spec.opamp.value.enabled }

  predicate OpampScales(spec: Spec) { OpampOn(spec) && spec.opamp.value.autoscaling }

  function PartImage(spec: Spec, part: Part): Image
  {
    match part
    case Node => NodeImage(spec)
    case Opamp => OpampImage(spec)
    case Jobs => JobsImage(spec)
    case Nats => NatsImage(spec)
    case Tsdb => TsdbImage(spec)
    case TransformAgent => AgentImage(spec)
    case _ => ""
  }

  /** The specification with the image of one component set by the user. */
  function WithOverride(spec: Spec, part: Part, image: Image): Spec
  {
    match part
    case Node => spec.(nodeImage := image)
    case Nats => spec.(natsImage := image)
    case Jobs => spec.(jobsImage := image)
    case Migrate => spec.(migrateImage := image)
    case TransformAgent => spec.(agentImage := image)
    case Tsdb => spec.(tsdbImage := image)
    case Opamp => if spec.opamp.Some? then spec.(opamp := Some(spec.opamp.value.(image := image))) else spec
    case _ => spec
  }

  const IMAGE_PARTS := {Node, Nats, Jobs, TransformAgent, Tsdb, Opamp}

  /** An image override reaches its own component and no other, and only that of the migration changes what the
      migrate Job runs. */
  lemma OverrideReachesItsPart(spec: Spec, image: Image, part: Part, other: Part)
    requires image != "" && other in IMAGE_PARTS && (other == Opamp ==> spec.opamp.Some?)
    ensures PartImage(WithOverride(spec, part, image), other) == if other == part then image else PartImage(spec, other)
    ensures MigrateImage(WithOverride(spec, part, image)) == if part == Migrate then image else MigrateImage(spec)
  {}

  /** Left out while an autoscaler owns the count. */
  function PartReplicas(spec: Spec, part: Part): Option<nat>
  {
    match part
    case Node => if spec.nodeAutoscaling then None else Some(spec.nodeReplicas)
    case Opamp => if spec.opamp.None? || spec.opamp.value.autoscaling then None else Some(spec.opamp.value.replicas)
    case Nats => Some(spec.natsReplicas)
    case TransformAgent => Some(spec.agentReplicas)
    case _ => Some(1)
  }

  function PartSecrets(spec: Spec, part: Part): set<Id>
  {
    match part
    case Node => AppSecrets(spec)
    case Opamp => AppSecrets(spec)
    case Jobs => AppSecrets(spec)
    case Nats => AppSecrets(spec)
    case Tsdb => {BASIC_AUTH}
    case _ => {}
  }

  predicate IsWorkload(kind: Kind) { kind == Deployment || kind == Rollout || kind == StatefulSet }

  function BodyFor(spec: Spec, id: Id): Body
  {
    if IsWorkload(id.kind) then
      Workload(PartImage(spec, id.part), PartReplicas(spec, id.part), PartSecrets(spec, id.part), spec.rest)
    else if id.kind == Service then Routing(map[COMPONENT_LABEL := Component(id.part)], spec.rest)
    else if id.kind == Hpa then Scaling(if id.part == Node && spec.argoRollout then Rollout else Deployment, spec.rest)
    else Plain(spec.rest)
  }

  /** Only the node Service in Rollout mode asks for a selector key to be preserved. */
  function KeepFor(spec: Spec, id: Id): Option<string>
  {
    if id == Id(Service, Node) && spec.argoRollout then Some(ServiceSelector.Annotation([ServiceSelector.ROLLOUT_HASH]))
    else None
  }

  /** HPAs and the web-config ConfigMap are updated even when nothing differs. */
  predicate Blind(id: Id) { id.kind == Hpa || id.kind == ConfigMap }

  /** Switching OpAMP off accepts that these went away between the get and the delete. */
  predicate Tolerant(id: Id)
  {
    id.part == Opamp && (id.kind == Deployment || id.kind == Service || id.kind == ServiceAccount)
  }

  function Toggle(id: Id, on: bool): Op { if on then Apply(id) else Remove(id) }

  // ---------------------------------------------------------------- the component reconcilers, in order

  function CertificatePlan(spec: Spec): seq<Op>
  {
    [Toggle(Id(Certificate, TsdbServerCert), spec.tsdbServerCert),
     Toggle(Id(Certificate, TsdbProbeCert), spec.tsdbServerCert),
     Toggle(Id(Certificate, TsdbClientCert), spec.tsdbClientCert),
     Toggle(Id(Certificate, NatsCert), spec.natsCert),
     Toggle(Id(Certificate, TransformAgentCert), spec.agentCert)]
  }

  function SecretPlan(spec: Spec): seq<Op>
  {
    (if CreatesSession(spec) then [Apply(SESSION)] else []) +
    (if CreatesStatus(spec) then [Apply(STATUS_KEYS)] else [])
  }

  function TransformAgentPlan(spec: Spec): seq<Op>
  {
    [Apply(Id(ServiceAccount, TransformAgent)),
     Apply(Id(Deployment, TransformAgent)),
     Apply(Id(Service, TransformAgent)),
     Toggle(Id(Pdb, TransformAgent), !spec.agentDisablePdb)]
  }

  function TsdbPlan(spec: Spec): seq<Op>
  {
    if spec.remoteTsdb then
      [Remove(Id(StatefulSet, Tsdb)), Remove(Id(Service, Tsdb)), Remove(Id(ServiceAccount, Tsdb)),
       Remove(BASIC_AUTH), Remove(Id(ConfigMap, TsdbWebConfig))]
    else
      [Apply(BASIC_AUTH), Apply(Id(ConfigMap, TsdbWebConfig)), Apply(Id(ServiceAccount, Tsdb)),
       Apply(Id(StatefulSet, Tsdb)), Apply(Id(Service, Tsdb))]
  }

  function JobsPlan(spec: Spec): seq<Op>
  {
    [Apply(Id(ServiceAccount, Jobs)), Apply(Id(Deployment, Jobs))]
  }

  function NatsPlan(spec: Spec): seq<Op>
  {
    [Apply(Id(ServiceAccount, Nats)),
     Apply(Id(StatefulSet, Nats)),
     Apply(Id(Service, NatsCluster)),
     Apply(Id(Service, NatsClient)),
     Toggle(Id(Pdb, Nats), !spec.natsDisablePdb)]
  }

  function NodePlan(spec: Spec): seq<Op>
  {
    [Apply(Id(ServiceAccount, Node))] +
    (if spec.argoRollout then [Remove(Id(Deployment, Node)), Apply(Id(Rollout, Node))]
     else [Remove(Id(Rollout, Node)), Apply(Id(Deployment, Node))]) +
    [Apply(Id(Service, Node)),
     Toggle(Id(Pdb, Node), !spec.nodeDisablePdb),
     Toggle(Id(Hpa, Node), spec.nodeAutoscaling)]
  }

  function OpampPlan(spec: Spec): seq<Op>
  {
    if OpampOn(spec) then
      [Apply(Id(ServiceAccount, Opamp)),
       Apply(Id(Deployment, Opamp)),
       Apply(Id(Service, Opamp)),
       Toggle(Id(Pdb, Opamp), !spec.opamp.value.disablePdb),
       Toggle(Id(Hpa, Opamp), spec.opamp.value.autoscaling)]
    else
      [Remove(Id(Deployment, Opamp)), Remove(Id(Service, Opamp)), Remove(Id(ServiceAccount, Opamp)),
       Remove(Id(Pdb, Opamp)), Remove(Id(Hpa, Opamp))]
  }

  /** Everything before the migration check; the migrate Job's service account is its first step. */
  function Upstream(spec: Spec): (ops: seq<Op>)
    ensures ops != []
  {
    CertificatePlan(spec) + SecretPlan(spec) + TransformAgentPlan(spec) + TsdbPlan(spec) + [Apply(Id(ServiceAccount, Migrate))]
  }

  /** Everything behind the migration gate. */
  function Downstream(spec: Spec): (ops: seq<Op>)
    ensures ops != []
  {
    JobsPlan(spec) + NatsPlan(spec) + NodePlan(spec) + OpampPlan(spec)
  }

  // ---------------------------------------------------------------- checks on the way

  /** A TLS block that names both an issuer and a secret. Validation of the resource does not look at these blocks;
      the certificate reconciler does, and gives up. */
  predicate ServerConflict(spec: Spec) { spec.tsdbServerCert && spec.tsdbServerSecret }

  predicate ClientConflict(spec: Spec) { spec.tsdbClientCert && spec.tsdbClientSecret }

  predicate Conflicting(spec: Spec) { ServerConflict(spec) || ClientConflict(spec) }

  /** The check in front of this step fails. */
  predicate Rejected(spec: Spec, op: Op)
  {
    (op == Apply(Id(Certificate, TsdbServerCert)) && ServerConflict(spec))
    || (op == Apply(Id(Certificate, TsdbClientCert)) && ClientConflict(spec))
  }

  ghost predicate Blocked(spec: Spec, ops: seq<Op>) { exists op :: op in ops && Rejected(spec, op) }

  /** The plan before the gate runs into a failing check exactly if the TLS sources conflict; no other plan does. */
  lemma BlockedIffConflicting(spec: Spec)
    ensures Blocked(spec, Upstream(spec)) <==> Conflicting(spec)
    ensures !Blocked(spec, Downstream(spec))
  {
    hide Upstream, Downstream, Fits;
    if Conflicting(spec) {
      var op := if ServerConflict(spec) then Apply(Id(Certificate, TsdbServerCert)) else Apply(Id(Certificate, TsdbClientCert));
      assert Rejected(spec, op) && OpFor(spec, op.id) == op;
      UpstreamComplete(spec, op.id);
    }
    forall op | op in Downstream(spec) ensures !Rejected(spec, op) { DownstreamFits(spec, op); }
  }

  // ---------------------------------------------------------------- what an update writes

  function KeysKept(keep: Option<string>): seq<string>
  {
    if keep.None? then [] else ServiceSelector.KeysOf(keep.value)
  }

  /** The wanted body, with the live replica count where none is wanted and the live values of preserved selector keys. */
  function Preserving(want: Body, keep: Option<string>, live: Body): Body
  {
    if want.Workload? && want.replicas.None? && live.Workload? then want.(replicas := live.replicas)
    else if want.Routing? && live.Routing? then
      want.(selector := ServiceSelector.Kept(want.selector, live.selector, KeysKept(keep)))
    else want
  }

  function Merged(spec: Spec, id: Id, live: Body): Body
  {
    Preserving(BodyFor(spec, id), KeepFor(spec, id), live)
  }

  /** An update settles the object at once, and so does a creation. */
  lemma MergedSettles(want: Body, keep: Option<string>, live: Body)
    ensures Preserving(want, keep, Preserving(want, keep, live)) == Preserving(want, keep, live)
    ensures Preserving(want, keep, Defaulted(want)) == Defaulted(want)
  {
    if want.Routing? && live.Routing? {
      ServiceSelector.KeptStable(want.selector, live.selector, KeysKept(keep));
    }
    if want.Routing? {
      assert ServiceSelector.Kept(want.selector, want.selector, KeysKept(keep)) == want.selector;
    }
  }

  // ---------------------------------------------------------------- which names a specification wants

  /** Names that exist after a complete pass, stated per name rather than in the order of the steps. */
  predicate Wanted(spec: Spec, id: Id)
  {
    match id.part
    case Node =>
      id.kind == ServiceAccount || id.kind == Service
      || (id.kind == Deployment && !spec.argoRollout) || (id.kind == Rollout && spec.argoRollout)
      || (id.kind == Pdb && !spec.nodeDisablePdb) || (id.kind == Hpa && spec.nodeAutoscaling)
    case Opamp =>
      OpampOn(spec)
      && (id.kind == ServiceAccount || id.kind == Deployment || id.kind == Service
          || (id.kind == Pdb && !spec.opamp.value.disablePdb) || (id.kind == Hpa && spec.opamp.value.autoscaling))
    case Jobs => id.kind == ServiceAccount || id.kind == Deployment
    case Migrate => id.kind == ServiceAccount
    case Nats => id.kind == ServiceAccount || id.kind == StatefulSet || (id.kind == Pdb && !spec.natsDisablePdb)
    case NatsClient => id.kind == Service
    case NatsCluster => id.kind == Service
    case Tsdb => !spec.remoteTsdb && (id.kind == ServiceAccount || id.kind == StatefulSet || id.kind == Service)
    case TransformAgent =>
      id.kind == ServiceAccount || id.kind == Deployment || id.kind == Service || (id.kind == Pdb && !spec.agentDisablePdb)
    case SessionSecret => id.kind == Secret && CreatesSession(spec)
    case StatusSecret => id.kind == Secret && CreatesStatus(spec)
    case TsdbBasicAuth => id.kind == Secret && !spec.remoteTsdb
    case TsdbWebConfig => id.kind == ConfigMap && !spec.remoteTsdb
    case TsdbServerCert => id.kind == Certificate && spec.tsdbServerCert
    case TsdbProbeCert => id.kind == Certificate && spec.tsdbServerCert
    case TsdbClientCert => id.kind == Certificate && spec.tsdbClientCert
    case NatsCert => id.kind == Certificate && spec.natsCert
    case TransformAgentCert => id.kind == Certificate && spec.agentCert
  }

  /** Every name that some specification makes the operator create. */
  predicate Managed(id: Id)
  {
    match id.part
    case Node => id.kind in {ServiceAccount, Service, Deployment, Rollout, Pdb, Hpa}
    case Opamp => id.kind in {ServiceAccount, Service, Deployment, Pdb, Hpa}
    case Jobs => id.kind in {ServiceAccount, Deployment}
    case Migrate => id.kind == ServiceAccount
    case Nats => id.kind in {ServiceAccount, StatefulSet, Pdb}
    case NatsClient => id.kind == Service
    case NatsCluster => id.kind == Service
    case Tsdb => id.kind in {ServiceAccount, StatefulSet, Service}
    case TransformAgent => id.kind in {ServiceAccount, Deployment, Service, Pdb}
    case SessionSecret => id.kind == Secret
    case StatusSecret => id.kind == Secret
    case TsdbBasicAuth => id.kind == Secret
    case TsdbWebConfig => id.kind == ConfigMap
    case _ => id.kind == Certificate
  }

  /** The two secrets that are created once and never removed by the operator. */
  predicate CreateOnce(id: Id) { id == SESSION || id == STATUS_KEYS }

  /** The plan's step for a name, from what is wanted. */
  function OpFor(spec: Spec, id: Id): Op { Toggle(id, Wanted(spec, id)) }

  predicate IsUpstream(id: Id)
  {
    match id.part
    case Node => false
    case Opamp => false
    case Jobs => false
    case Nats => false
    case NatsClient => false
    case NatsCluster => false
    case _ => true
  }

  /** The step is the one its name calls for. */
  predicate Fits(spec: Spec, op: Op)
  {
    Managed(op.id) && op == OpFor(spec, op.id) && (CreateOnce(op.id) ==> Wanted(spec, op.id))
  }

  lemma CertificatesFit(spec: Spec, op: Op)
    requires op in CertificatePlan(spec)
    ensures Fits(spec, op) && op.id.kind == Certificate
  {}

  lemma SecretsFit(spec: Spec, op: Op)
    requires op in SecretPlan(spec)
    ensures Fits(spec, op) && CreateOnce(op.id)
  {}

  lemma TransformAgentFits(spec: Spec, op: Op)
    requires op in TransformAgentPlan(spec)
    ensures Fits(spec, op) && op.id.part == TransformAgent
  {}

  lemma TsdbFits(spec: Spec, op: Op)
    requires op in TsdbPlan(spec)
    ensures Fits(spec, op) && op.id.part in {Tsdb, TsdbBasicAuth, TsdbWebConfig}
  {}

  lemma JobsFit(spec: Spec, op: Op)
    requires op in JobsPlan(spec)
    ensures Fits(spec, op) && op.id.part == Jobs
  {}

  lemma NatsFits(spec: Spec, op: Op)
    requires op in NatsPlan(spec)
    ensures Fits(spec, op) && op.id.part in {Nats, NatsClient, NatsCluster}
  {}

  lemma NodeFits(spec: Spec, op: Op)
    requires op in NodePlan(spec)
    ensures Fits(spec, op) && op.id.part == Node
  {}

  lemma OpampFits(spec: Spec, op: Op)
    requires op in OpampPlan(spec)
    ensures Fits(spec, op) && op.id.part == Opamp
  {}

  lemma UpstreamFits(spec: Spec, op: Op)
    requires op in Upstream(spec)
    ensures Fits(spec, op) && IsUpstream(op.id)
  {
    if op in CertificatePlan(spec) {
      CertificatesFit(spec, op);
    } else if op in SecretPlan(spec) {
      SecretsFit(spec, op);
    } else if op in TransformAgentPlan(spec) {
      TransformAgentFits(spec, op);
    } else if op in TsdbPlan(spec) {
      TsdbFits(spec, op);
    } else {
      assert op == Apply(Id(ServiceAccount, Migrate));
    }
  }

  lemma DownstreamFits(spec: Spec, op: Op)
    requires op in Downstream(spec)
    ensures Fits(spec, op) && !IsUpstream(op.id) && op.id.kind != Secret
  {
    if op in JobsPlan(spec) {
      JobsFit(spec, op);
    } else if op in NatsPlan(spec) {
      NatsFits(spec, op);
    } else if op in NodePlan(spec) {
      NodeFits(spec, op);
    } else {
      OpampFits(spec, op);
    }
  }

  lemma UpstreamComplete(spec: Spec, id: Id)
    requires Managed(id) && IsUpstream(id) && (CreateOnce(id) ==> Wanted(spec, id))
    ensures OpFor(spec, id) in Upstream(spec)
  {
    var op := OpFor(spec, id);
    if id.kind == Certificate {
      assert op in CertificatePlan(spec);
    } else if CreateOnce(id) {
      assert op in SecretPlan(spec);
    } else if id.part == TransformAgent {
      assert op in TransformAgentPlan(spec);
    } else if id.part != Migrate {
      assert op in TsdbPlan(spec);
    }
  }

  lemma DownstreamComplete(spec: Spec, id: Id)
    requires Managed(id) && !IsUpstream(id)
    ensures OpFor(spec, id) in Downstream(spec)
  {
    var op := OpFor(spec, id);
    if id.part == Jobs {
      assert op in JobsPlan(spec);
    } else if id.part == Node {
      assert op in NodePlan(spec);
    } else if id.part == Opamp {
      assert op in OpampPlan(spec);
    } else {
      assert op in NatsPlan(spec);
    }
  }

  /** The two plans together hold one step for every name but a create-once secret that is not wanted,
      and no other step: what is done to a name depends on the specification and the name alone. */
  lemma PlanIsByName(spec: Spec, op: Op)
    ensures op in Upstream(spec) + Downstream(spec) <==> Fits(spec, op)
  {
    if op in Upstream(spec) {
      UpstreamFits(spec, op);
    } else if op in Downstream(spec) {
      DownstreamFits(spec, op);
    }
    if Fits(spec, op) {
      if IsUpstream(op.id) {
        UpstreamComplete(spec, op.id);
      } else {
        DownstreamComplete(spec, op.id);
      }
    }
  }

  // ---------------------------------------------------------------- the names present along a plan

  function AfterOp(names: set<Id>, op: Op): set<Id>
  {
    if op.Remove? then names - {op.id} else names + {op.id}
  }

  function After(names: set<Id>, ops: seq<Op>): set<Id>
    decreases |ops|
  {
    if ops == [] then names else After(AfterOp(names, ops[0]), ops[1..])
  }

  lemma {:induction false} AfterConcat(names: set<Id>, a: seq<Op>, b: seq<Op>)
    ensures After(names, a + b) == After(After(names, a), b)
    decreases |a|
  {
    if a == [] {
      assert a + b == b;
    } else {
      assert (a + b)[1..] == a[1..] + b;
      AfterConcat(AfterOp(names, a[0]), a[1..], b);
    }
  }

  /** When all steps for a name agree, that step decides; when there is none, the name is as before. */
  lemma {:induction false} AfterDecides(names: set<Id>, ops: seq<Op>, op: Op)
    requires forall o :: o in ops && o.id == op.id ==> o == op
    ensures op in ops ==> (op.id in After(names, ops) <==> !op.Remove?)
    ensures op !in ops ==> (op.id in After(names, ops) <==> op.id in names)
    decreases |ops|
  {
    if ops != [] {
      assert ops[0] in ops;
      AfterDecides(AfterOp(names, ops[0]), ops[1..], op);
      if op in ops && op !in ops[1..] {
        assert op == ops[0];
      }
    }
  }

  // ---------------------------------------------------------------- order

  /** Certificates are applied before any workload that mounts what they issue. */
  lemma CertificatesFirst(spec: Spec, i: nat, j: nat)
    requires i < |Upstream(spec) + Downstream(spec)| && j < |Upstream(spec) + Downstream(spec)|
    requires (Upstream(spec) + Downstream(spec))[i].id.kind == Certificate
    requires IsWorkload((Upstream(spec) + Downstream(spec))[j].id.kind)
    ensures i < j
  {
    hide SecretPlan, TransformAgentPlan, TsdbPlan, Downstream, Fits;
    var first := CertificatePlan(spec);
    var rest := SecretPlan(spec) + TransformAgentPlan(spec) + TsdbPlan(spec)
                + [Apply(Id(ServiceAccount, Migrate))] + Downstream(spec);
    assert Upstream(spec) + Downstream(spec) == first + rest;
    forall op | op in first ensures op.id.kind == Certificate { CertificatesFit(spec, op); }
    forall op | op in rest ensures op.id.kind != Certificate {
      if op in SecretPlan(spec) {
        SecretsFit(spec, op);
      } else if op in TransformAgentPlan(spec) {
        TransformAgentFits(spec, op);
        AgentKinds(op.id);
      } else if op in TsdbPlan(spec) {
        TsdbFits(spec, op);
        TsdbKinds(op.id);
      } else if op in Downstream(spec) {
        DownstreamFits(spec, op);
        DownstreamKinds(op.id);
      }
    }
    FirstPart(first, rest, i);
    FirstPart(first, rest, j);
  }

  lemma FirstPart<T>(a: seq<T>, b: seq<T>, i: nat)
    requires i < |a + b|
    ensures if i < |a| then (a + b)[i] in a else (a + b)[i] in b
  {}

  lemma AgentKinds(id: Id)
    requires Managed(id) && id.part == TransformAgent
    ensures id.kind != Certificate
  {}

  lemma TsdbKinds(id: Id)
    requires Managed(id) && id.part in {Tsdb, TsdbBasicAuth, TsdbWebConfig}
    ensures id.kind != Certificate
  {}

  lemma DownstreamKinds(id: Id)
    requires Managed(id) && !IsUpstream(id)
    ensures id.kind != Certificate
  {}
}
