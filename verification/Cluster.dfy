/** What the API server stores for one Bindplane resource: the resource itself, the migrate Job and
    its pods, and the objects the operator owns. */
module Cluster {
  import opened Options

  type Image = string

  // ---------------------------------------------------------------- the custom resource

  /** spec.config.auth, as far as the session secret goes. */
  datatype Auth = Auth(sessionSecret: string, sessionSecretRef: bool)

  /** spec.config.status. */
  datatype StatusKeys = StatusKeys(enabled: bool, keys: nat, keysRef: bool)

  /** spec.opamp when present. */
  datatype OpampSpec = OpampSpec(enabled: bool, image: Image, autoscaling: bool, replicas: nat, disablePdb: bool)

  /** The fields that decide which objects exist, what they refer to and which checks a pass meets; `rest` stands
      for all others. A TLS block of the TSDB may name an issuer (`Cert`), a secret (`Secret`), or both. */
  datatype Spec = Spec(
    valid: bool, version: string,
    nodeImage: Image, natsImage: Image, jobsImage: Image, migrateImage: Image, agentImage: Image, tsdbImage: Image,
    argoRollout: bool, nodeAutoscaling: bool, nodeReplicas: nat, nodeDisablePdb: bool,
    natsReplicas: nat, natsDisablePdb: bool, agentReplicas: nat, agentDisablePdb: bool,
    opamp: Option<OpampSpec>,
    remoteTsdb: bool, tsdbServerCert: bool, tsdbServerSecret: bool, tsdbClientCert: bool, tsdbClientSecret: bool,
    natsCert: bool, agentCert: bool,
    auth: Option<Auth>, status: Option<StatusKeys>,
    rest: nat)

  type Annotations = map<string, string>

  const FORCE_MIGRATE := "k8s.bindplane.com/force-migrate"
  const SKIP_MIGRATE_CHECK := "k8s.bindplane.com/skip-migrate-check"
  const PAUSE := "k8s.bindplane.com/pause-reconciliation"

  /** A boolean annotation counts as set when its value parses as true; anything else is false. */
  predicate Enabled(notes: Annotations, key: string)
  {
    key in notes && notes[key] in {"1", "t", "T", "TRUE", "true", "True"}
  }

  datatype Reason = NoReason | Paused | Invalid | MigrationFailed | Reconciled | MigrationCheckSkipped

  /** `migrated` is status.components.jobsMigrate.image; `reason` that of the Reconciled condition. */
  datatype Status = Status(migrated: Image, reason: Reason)

  datatype Cr = Cr(rv: nat, spec: Spec, notes: Annotations, finalizer: bool, deleting: bool, status: Status)

  predicate Skip(cr: Cr) { Enabled(cr.notes, SKIP_MIGRATE_CHECK) }

  predicate Force(cr: Cr) { Enabled(cr.notes, FORCE_MIGRATE) }

  /** The resource may be acted on: ours, live, not paused, valid. */
  predicate Actionable(cr: Cr)
  {
    cr.finalizer && !cr.deleting && !Enabled(cr.notes, PAUSE) && cr.spec.valid
  }

  // ---------------------------------------------------------------- images

  function Resolve(override: Image, fallback: Image): Image
  {
    if override != "" then override else fallback
  }

  function DefaultImage(spec: Spec): Image { "ghcr.io/observiq/bindplane-ee:" + spec.version }

  function MigrateImage(spec: Spec): (image: Image)
    ensures image != ""
  {
    Resolve(spec.migrateImage, DefaultImage(spec))
  }

  function NodeImage(spec: Spec): Image { Resolve(spec.nodeImage, DefaultImage(spec)) }

  function NatsImage(spec: Spec): Image { Resolve(spec.natsImage, DefaultImage(spec)) }

  function JobsImage(spec: Spec): Image { Resolve(spec.jobsImage, DefaultImage(spec)) }

  function OpampImage(spec: Spec): Image
  {
    if spec.opamp.None? then DefaultImage(spec) else Resolve(spec.opamp.value.image, DefaultImage(spec))
  }

  function AgentImage(spec: Spec): Image
  {
    Resolve(spec.agentImage, "ghcr.io/observiq/bindplane-transform-agent:" + spec.version + "-bindplane")
  }

  function TsdbImage(spec: Spec): Image
  {
    Resolve(spec.tsdbImage, "ghcr.io/observiq/bindplane-prometheus:" + spec.version)
  }

  /** No component of the migrated product has an image of its own. */
  predicate NoOverrides(spec: Spec)
  {
    && spec.migrateImage == spec.nodeImage == spec.natsImage == spec.jobsImage == ""
    && (spec.opamp.Some? ==> spec.opamp.value.image == "")
  }

  // ---------------------------------------------------------------- the migrate Job

  datatype JobPhase = Running | Succeeded | Failed

  datatype Job = Job(uid: nat, image: Image, phase: JobPhase, terminating: bool)

  /** Foreground keeps the Job until its pods are gone, background drops it at once. */
  datatype Propagation = Foreground | Background

  // ---------------------------------------------------------------- owned objects

  datatype Kind = ServiceAccount | Deployment | Rollout | StatefulSet | Service | Pdb | Hpa | Secret | ConfigMap | Certificate

  datatype Part =
    | Node | Opamp | Jobs | Migrate | Nats | NatsClient | NatsCluster | Tsdb | TransformAgent
    | SessionSecret | StatusSecret | TsdbBasicAuth | TsdbWebConfig
    | TsdbServerCert | TsdbProbeCert | TsdbClientCert | NatsCert | TransformAgentCert

  /** Names are the resource's name and a fixed suffix per part, so kind and part name an object. */
  datatype Id = Id(kind: Kind, part: Part)

  datatype Body =
    | Workload(image: Image, replicas: Option<nat>, secrets: set<Id>, rest: nat)
    | Routing(selector: map<string, string>, rest: nat)
    | Scaling(target: Kind, rest: nat)
    | Data(seed: nat)
    | Plain(rest: nat)

  datatype Obj = Obj(rv: nat, body: Body)

  datatype Store = Store(
    cr: Option<Cr>, job: Option<Job>, pods: map<nat, nat>, objs: map<Id, Obj>,
    nextRv: nat, nextUid: nat)

  /** Replicas left out of a new workload default to one. */
  function Defaulted(body: Body): Body
  {
    if body.Workload? && body.replicas.None? then body.(replicas := Some(1)) else body
  }

  // ---------------------------------------------------------------- API calls that change something;
  // None is the error the server answers with: conflict, not found, or already exists

  /** Compare-and-set of the resource's metadata; dropping the last finalizer of a deleted one removes it. */
  function UpdateCr(st: Store, snap: Cr): (r: Option<Store>)
    ensures r.Some? ==> r.value == st.(cr := r.value.cr, nextRv := r.value.nextRv)
  {
    if st.cr.Some? && st.cr.value.rv == snap.rv then
      var next := if snap.deleting && !snap.finalizer then None
                  else Some(snap.(rv := st.nextRv, status := st.cr.value.status));
      Some(st.(cr := next, nextRv := st.nextRv + 1))
    else None
  }

  /** Compare-and-set of the status subresource. */
  function UpdateStatus(st: Store, snap: Cr): (r: Option<Store>)
    ensures r.Some? ==> r.value == st.(cr := r.value.cr, nextRv := r.value.nextRv)
  {
    if st.cr.Some? && st.cr.value.rv == snap.rv then
      Some(st.(cr := Some(st.cr.value.(rv := st.nextRv, status := snap.status)), nextRv := st.nextRv + 1))
    else None
  }

  /** What the merge patch that takes the force annotation off the copy `snap` leaves of the server's annotations.
      A copy without any other annotation has an empty map then, which is not sent as an empty object but as a
      removal of the whole field. */
  function PatchedNotes(snap: Annotations, live: Annotations): Annotations
  {
    if snap.Keys == {FORCE_MIGRATE} then map[] else live - {FORCE_MIGRATE}
  }

  /** Patches do not compare versions; one that changes nothing makes no new version. */
  function PatchNotes(st: Store, snap: Cr): (r: Option<Store>)
    ensures r.Some? ==> r.value == st.(cr := r.value.cr, nextRv := r.value.nextRv)
  {
    if st.cr.None? then None
    else
      var notes := PatchedNotes(snap.notes, st.cr.value.notes);
      if notes == st.cr.value.notes then Some(st)
      else Some(st.(cr := Some(st.cr.value.(rv := st.nextRv, notes := notes)), nextRv := st.nextRv + 1))
  }

  function CreateJob(st: Store, image: Image): (r: Option<Store>)
    ensures r.Some? ==> r.value == st.(job := r.value.job, nextUid := r.value.nextUid)
  {
    if st.job.None? then
      Some(st.(job := Some(Job(st.nextUid, image, Running, false)), nextUid := st.nextUid + 1))
    else None
  }

  function DeleteJob(st: Store, propagation: Propagation): (r: Option<Store>)
    ensures r.Some? ==> r.value == st.(job := r.value.job)
  {
    if st.job.None? then None
    else if propagation == Foreground then Some(st.(job := Some(st.job.value.(terminating := true))))
    else Some(st.(job := None))
  }

  function CreateObj(st: Store, id: Id, body: Body): (r: Option<Store>)
    ensures r.Some? ==> r.value == st.(objs := r.value.objs, nextRv := r.value.nextRv)
  {
    if id in st.objs then None
    else Some(st.(objs := st.objs[id := Obj(st.nextRv, Defaulted(body))], nextRv := st.nextRv + 1))
  }

  /** Compare-and-set; an update that changes nothing is not a new version. */
  function UpdateObj(st: Store, id: Id, rv: nat, body: Body): (r: Option<Store>)
    ensures r.Some? ==> r.value == st.(objs := r.value.objs, nextRv := r.value.nextRv)
  {
    if id in st.objs && st.objs[id].rv == rv then
      if st.objs[id].body == body then Some(st)
      else Some(st.(objs := st.objs[id := Obj(st.nextRv, body)], nextRv := st.nextRv + 1))
    else None
  }

  function DeleteObj(st: Store, id: Id): (r: Option<Store>)
    ensures r.Some? ==> r.value == st.(objs := r.value.objs)
  {
    if id in st.objs then Some(st.(objs := st.objs - {id})) else None
  }

  /** The three annotations, by key and value: a boolean that parses as true sets them, and nothing else does. */
  lemma AnnotationRules(cr: Cr, value: string)
    ensures Skip(cr.(notes := map["k8s.bindplane.com/skip-migrate-check" := value])) <==>
            value in {"1", "t", "T", "TRUE", "true", "True"}
    ensures Force(cr.(notes := map["k8s.bindplane.com/force-migrate" := value])) <==>
            value in {"1", "t", "T", "TRUE", "true", "True"}
    ensures cr.finalizer && !cr.deleting && cr.spec.valid ==>
              (Actionable(cr.(notes := map["k8s.bindplane.com/pause-reconciliation" := value])) <==>
                 value !in {"1", "t", "T", "TRUE", "true", "True"})
    ensures value in {"", "0", "f", "F", "FALSE", "false", "False", "yes", "on", "tRUE"} ==>
              !Skip(cr.(notes := map["k8s.bindplane.com/skip-migrate-check" := value]))
    ensures !Skip(cr.(notes := map[])) && !Force(cr.(notes := map[]))
  {}
}
