/** Merging a user's pod template over the operator's (mergePodTemplateSpec and below, in
    bindplane_controller.go). Pod specs and containers are JSON documents; marshalling to and from
    them is taken to be faithful, and the merge of two of them is the in-place one on decoded objects. */
module PodTemplate {
  import opened Options
  import opened Json
  import EnvVars
  import ExtraVolumes
  import GoRuntime
  import MergeMaps
  import TextLib = Text

  type Container = Fields
  type PodSpec = Fields

  datatype Template = Template(labels: map<string, string>, annotations: map<string, string>, spec: PodSpec)

  /** The container fields only the operator sets. */
  const PROTECTED: set<string> := {"name", "image", "ports", "env", "command", "args"}

  const PROTECTED_LABELS: set<string> :=
    {"app.kubernetes.io/name", "app.kubernetes.io/instance", "app.kubernetes.io/component"}

  function NameOf(c: Container): string
  {
    if "name" in c && c["name"].Leaf? && c["name"].atom.Text? then c["name"].atom.text else ""
  }

  function EnvOf(c: Container): seq<EnvVars.EnvVar>
  {
    if "env" in c && c["env"].Leaf? && c["env"].atom.EnvList? then c["env"].atom.env else []
  }

  function ContainersOf(spec: PodSpec): seq<Container>
  {
    if "containers" in spec && spec["containers"].Leaf? && spec["containers"].atom.Containers?
    then spec["containers"].atom.containers else []
  }

  function VolumesOf(spec: PodSpec): seq<ExtraVolumes.Volume>
  {
    if "volumes" in spec && spec["volumes"].Leaf? && spec["volumes"].atom.Volumes?
    then spec["volumes"].atom.volumes else []
  }

  /** `key` as it is in `from`, present or not. */
  function Restore(merged: Fields, from: Fields, key: string): Fields
  {
    if key in from then merged[key := from[key]] else merged - {key}
  }

  predicate SameAt(a: Fields, b: Fields, key: string)
  {
    (key in a <==> key in b) && (key in a ==> a[key] == b[key])
  }

  /** The user's container merged over the operator's, then each protected field put back. */
  function MergeSingleContainer(operator: Container, user: Container): Container
  {
    var merged := Merge(Obj(operator), Obj(user)).fields;
    var merged := Restore(merged, operator, "name");
    var merged := Restore(merged, operator, "image");
    var merged := Restore(merged, operator, "ports");
    var merged := Restore(merged, operator, "env");
    var merged := Restore(merged, operator, "command");
    Restore(merged, operator, "args")
  }

  /** mergeSingleContainer: both containers decoded, merged in place, encoded, and the protected fields put back. */
  method MergeOne(operator: Container, user: Container) returns (merged: Container)
    ensures merged == MergeSingleContainer(operator, user)
  {
    merged := MergeMaps.MergeDocuments(operator, user);
    merged := Restore(merged, operator, "name");
    merged := Restore(merged, operator, "image");
    merged := Restore(merged, operator, "ports");
    merged := Restore(merged, operator, "env");
    merged := Restore(merged, operator, "command");
    merged := Restore(merged, operator, "args");
  }

  /** Protected fields are the operator's; every other field is merged. */
  lemma SingleContainerFrame(operator: Container, user: Container, key: string)
    ensures key in PROTECTED ==> SameAt(MergeSingleContainer(operator, user), operator, key)
    ensures key !in PROTECTED ==>
              SameAt(MergeSingleContainer(operator, user), Merge(Obj(operator), Obj(user)).fields, key)
  {}

  /** The user entries named `name` applied to a container from first to last. */
  function Fold(c: Container, user: seq<Container>, name: string): Container
  {
    if user == [] then c
    else
      var sofar, last := Fold(c, user[..|user| - 1], name), user[|user| - 1];
      if NameOf(last) == name then MergeSingleContainer(sofar, last) else sofar
  }

  function ContainerNames(cs: seq<Container>): (names: seq<string>)
    ensures |names| == |cs| && forall i :: 0 <= i < |cs| ==> names[i] == NameOf(cs[i])
  {
    seq(|cs|, i requires 0 <= i < |cs| => NameOf(cs[i]))
  }

  /** The last container of a name; operator templates have distinct names, so it is the only one. */
  function LastNamed(cs: seq<Container>, name: string): Container
  {
    if cs == [] then map[]
    else if NameOf(cs[|cs| - 1]) == name then cs[|cs| - 1]
    else LastNamed(cs[..|cs| - 1], name)
  }

  lemma {:induction false} LastNamedDistinct(cs: seq<Container>, i: nat)
    requires ExtraVolumes.Distinct(ContainerNames(cs)) && i < |cs|
    ensures LastNamed(cs, NameOf(cs[i])) == cs[i]
  {
    if i < |cs| - 1 {
      assert ContainerNames(cs)[i] != ContainerNames(cs)[|cs| - 1];
      assert ContainerNames(cs)[..|cs| - 1] == ContainerNames(cs[..|cs| - 1]);
      LastNamedDistinct(cs[..|cs| - 1], i);
    }
  }

  /** The container the merge puts at position `i`: the operator's, with every user entry of its
      name applied in order. */
  function Chosen(operator: seq<Container>, user: seq<Container>, i: nat): Container
    requires i < |operator|
  {
    if user == [] then operator[i]
    else Fold(LastNamed(operator, NameOf(operator[i])), user, NameOf(operator[i]))
  }

  ghost predicate Maps(containerMap: map<string, Container>, protected: seq<Container>, user: seq<Container>)
  {
    && (forall c :: c in protected ==> NameOf(c) in containerMap)
    && (forall n :: n in containerMap ==> containerMap[n] == Fold(LastNamed(protected, n), user, n))
  }

  lemma MapProtected(containerMap: map<string, Container>, protected: seq<Container>, i: nat)
    requires i < |protected| && Maps(containerMap, protected[..i], [])
    ensures Maps(containerMap[NameOf(protected[i]) := protected[i]], protected[..i + 1], [])
  {
    assert protected[..i + 1][..i] == protected[..i];
    assert protected[..i + 1] == protected[..i] + [protected[i]];
  }

  lemma MapUser(containerMap: map<string, Container>, protected: seq<Container>, user: seq<Container>, i: nat)
    requires i < |user| && Maps(containerMap, protected, user[..i])
    ensures var name := NameOf(user[i]);
            Maps(if name in containerMap
                 then containerMap[name := MergeSingleContainer(containerMap[name], user[i])]
                 else containerMap, protected, user[..i + 1])
  {
    assert user[..i + 1][..i] == user[..i];
  }

  /** Merges by name through a map; unknown names are dropped, repeated ones apply in order. */
  method MergeContainers(protected: seq<Container>, user: seq<Container>) returns (result: seq<Container>)
    ensures |result| == |protected|
    ensures forall i :: 0 <= i < |protected| ==> result[i] == Chosen(protected, user, i)
  {
    if |user| == 0 {
      return protected;
    }
    var containerMap: map<string, Container> := map[];
    for i := 0 to |protected|
      invariant Maps(containerMap, protected[..i], [])
    {
      MapProtected(containerMap, protected, i);
      containerMap := containerMap[NameOf(protected[i]) := protected[i]];
    }
    assert protected[..|protected|] == protected;
    for i := 0 to |user|
      invariant Maps(containerMap, protected, user[..i])
    {
      MapUser(containerMap, protected, user, i);
      var name := NameOf(user[i]);
      if name in containerMap {
        var merged := MergeOne(containerMap[name], user[i]);
        containerMap := containerMap[name := merged];
      }
    }
    assert user[..|user|] == user;
    result := [];
    for i := 0 to |protected|
      invariant |result| == i
      invariant forall j :: 0 <= j < i ==> result[j] == Chosen(protected, user, j)
    {
      assert protected[i] in protected;
      result := result + [containerMap[NameOf(protected[i])]];
    }
  }

  lemma {:induction false} FoldKeepsProtected(c: Container, user: seq<Container>, name: string, key: string)
    requires key in PROTECTED
    ensures SameAt(Fold(c, user, name), c, key)
  {
    if user != [] {
      var sofar := Fold(c, user[..|user| - 1], name);
      FoldKeepsProtected(c, user[..|user| - 1], name, key);
      SingleContainerFrame(sofar, user[|user| - 1], key);
    }
  }

  /** A resource quantity that is set and not zero: milli-CPUs or bytes. */
  function Quantity(c: Container, section: string, resource: string): Option<GoRuntime.int64>
  {
    match At(Obj(c), ["resources", section, resource])
    case Some(Leaf(Number(n))) => if n != 0 then Some(n) else None
    case _ => None
  }

  /** The limit if there is one, else the request. */
  function LimitOrRequest(c: Container, resource: string): Option<GoRuntime.int64>
  {
    var limit := Quantity(c, "limits", resource);
    if limit.Some? then limit else Quantity(c, "requests", resource)
  }

  function FormatInt(n: GoRuntime.int64): string
  {
    if n >= 0 then TextLib.Decimal(n as nat) else "-" + TextLib.Decimal(-(n as int))
  }

  /** The runtime variables a container's resources call for. */
  function GoRuntimeEnvVars(c: Container): (vars: seq<EnvVars.EnvVar>)
    ensures EnvVars.RuntimeVars(vars)
  {
    var cpu, memory := LimitOrRequest(c, "cpu"), LimitOrRequest(c, "memory");
    (if cpu.Some? then [EnvVars.EnvVar(EnvVars.GOMAXPROCS, FormatInt(GoRuntime.CeilMilliCPUs(cpu.value)))] else [])
    + (if memory.Some?
       then [EnvVars.EnvVar(EnvVars.GOMEMLIMIT, FormatInt(GoRuntime.ApplyMemoryHeadroom(memory.value)))] else [])
  }

  function WithRuntime(c: Container): Container
  {
    c["env" := Leaf(EnvList(EnvVars.UpsertAll(EnvOf(c), GoRuntimeEnvVars(c))))]
  }

  /** Sets the runtime variables of every container, one after the other. */
  method ApplyGoRuntime(containers: seq<Container>) returns (result: seq<Container>)
    ensures |result| == |containers|
    ensures forall i :: 0 <= i < |containers| ==> result[i] == WithRuntime(containers[i])
  {
    result := containers;
    for i := 0 to |containers|
      invariant |result| == |containers|
      invariant forall j :: 0 <= j < i ==> result[j] == WithRuntime(containers[j])
      invariant forall j :: i <= j < |containers| ==> result[j] == containers[j]
    {
      var env := new EnvVars.EnvList(EnvOf(result[i]));
      env.ApplyGoRuntimeEnvVars(GoRuntimeEnvVars(result[i]));
      result := result[i := result[i]["env" := Leaf(EnvList(env.items))]];
    }
  }

  /** The spec after the deep merge, with the two protected fields put back and the two lists set. */
  function RestoredSpec(operator: PodSpec, user: PodSpec, containers: seq<Container>,
                        volumes: seq<ExtraVolumes.Volume>): PodSpec
  {
    var spec := Merge(Obj(operator), Obj(user)).fields;
    var spec := Restore(spec, operator, "serviceAccountName");
    var spec := Restore(spec, operator, "terminationGracePeriodSeconds");
    spec["containers" := Leaf(Containers(containers))]["volumes" := Leaf(Volumes(volumes))]
  }

  /** mergeSpecViaJSON and what mergePodTemplateSpec puts back after it. */
  method MergeSpec(operator: PodSpec, user: PodSpec, containers: seq<Container>, volumes: seq<ExtraVolumes.Volume>)
    returns (spec: PodSpec)
    ensures spec == RestoredSpec(operator, user, containers, volumes)
  {
    spec := MergeMaps.MergeDocuments(operator, user);
    spec := Restore(spec, operator, "serviceAccountName");
    spec := Restore(spec, operator, "terminationGracePeriodSeconds");
    spec := spec["containers" := Leaf(Containers(containers))]["volumes" := Leaf(Volumes(volumes))];
  }

  lemma RestoredSpecFrame(operator: PodSpec, user: PodSpec, containers: seq<Container>,
                          volumes: seq<ExtraVolumes.Volume>)
    ensures var spec := RestoredSpec(operator, user, containers, volumes);
            MergedSpec(operator, user, spec) && ContainersOf(spec) == containers && VolumesOf(spec) == volumes
  {}

  /** The pod template of a workload: the operator's, with the user's merged in and the
      operator's fields put back. */
  method MergePodTemplateSpec(operator: Template, userProvided: Option<Template>) returns (merged: Template)
    ensures MergedContainers(ContainersOf(operator.spec),
                             if userProvided.Some? then ContainersOf(userProvided.value.spec) else [],
                             ContainersOf(merged.spec))
    ensures match userProvided
            case None =>
              && merged.labels == operator.labels && merged.annotations == operator.annotations
              && forall k :: k != "containers" ==> SameAt(merged.spec, operator.spec, k)
            case Some(user) =>
              && MergedMetadata(operator, user, merged)
              && MergedSpec(operator.spec, user.spec, merged.spec)
              && MergedVolumes(VolumesOf(operator.spec), VolumesOf(user.spec), VolumesOf(merged.spec))
  {
    if userProvided.None? {
      var containers := ApplyGoRuntime(ContainersOf(operator.spec));
      return operator.(spec := operator.spec["containers" := Leaf(Containers(containers))]);
    }
    var user := userProvided.value;
    var labels := MergeLabels(operator.labels, user.labels);
    var containers := MergeContainers(ContainersOf(operator.spec), ContainersOf(user.spec));
    var volumes := ExtraVolumes.MergeVolumes(VolumesOf(operator.spec), VolumesOf(user.spec));
    containers := ApplyGoRuntime(containers);
    RestoredSpecFrame(operator.spec, user.spec, containers, volumes);
    var spec := MergeSpec(operator.spec, user.spec, containers, volumes);
    merged := Template(labels, operator.annotations + user.annotations, spec);
  }

  ghost predicate MergedContainers(operator: seq<Container>, user: seq<Container>, merged: seq<Container>)
  {
    |merged| == |operator| && forall i :: 0 <= i < |operator| ==> merged[i] == WithRuntime(Chosen(operator, user, i))
  }

  ghost predicate MergedVolumes(operator: seq<ExtraVolumes.Volume>, user: seq<ExtraVolumes.Volume>,
                                merged: seq<ExtraVolumes.Volume>)
  {
    && (user == [] ==> merged == operator)
    && (user != [] ==>
          && ExtraVolumes.VolumeNames(merged) == ExtraVolumes.VolumeNames(operator) +
             ExtraVolumes.FirstOccurrences(ExtraVolumes.VolumeNames(user), ExtraVolumes.VolumeNames(operator))
          && forall v :: v in merged ==>
               && (v.name in ExtraVolumes.VolumeNames(operator) || v.name in ExtraVolumes.VolumeNames(user))
               && v == ExtraVolumes.Chosen(operator, user, v.name))
  }

  /** The protected labels are the operator's, other labels and all annotations let the user's win. */
  ghost predicate MergedMetadata(operator: Template, user: Template, merged: Template)
  {
    && (forall k :: k in PROTECTED_LABELS || k !in user.labels ==>
          (k in merged.labels <==> k in operator.labels)
          && (k in operator.labels ==> merged.labels[k] == operator.labels[k]))
    && (forall k :: k in user.labels && k !in PROTECTED_LABELS ==> k in merged.labels && merged.labels[k] == user.labels[k])
    && merged.annotations == operator.annotations + user.annotations
  }

  /** Service account and grace period are the operator's; fields other than those and the two lists are merged. */
  ghost predicate MergedSpec(operator: PodSpec, user: PodSpec, merged: PodSpec)
  {
    && SameAt(merged, operator, "serviceAccountName")
    && SameAt(merged, operator, "terminationGracePeriodSeconds")
    && forall k :: k !in {"serviceAccountName", "terminationGracePeriodSeconds", "containers", "volumes"} ==>
         SameAt(merged, Merge(Obj(operator), Obj(user)).fields, k)
  }

  /** Copies the user's labels one by one, passing over the protected keys. */
  method MergeLabels(operator: map<string, string>, user: map<string, string>) returns (labels: map<string, string>)
    ensures labels == operator + map k | k in user && k !in PROTECTED_LABELS :: user[k]
  {
    labels := operator;
    var keys := user.Keys;
    while keys != {}
      invariant keys <= user.Keys
      invariant labels == operator + map k | k in user && k !in keys && k !in PROTECTED_LABELS :: user[k]
      decreases keys
    {
      var k :| k in keys;
      if k !in PROTECTED_LABELS {
        labels := labels[k := user[k]];
      }
      keys := keys - {k};
    }
  }

  /** Whatever the user's template lists, each container keeps the operator's protected fields, its
      environment differs from the operator's only in the two runtime variables, and those are
      computed from the merged resources. */
  lemma ProtectedContainerFrame(operator: seq<Container>, user: seq<Container>, i: nat, c: Container)
    requires i < |operator| && ExtraVolumes.Distinct(ContainerNames(operator))
    requires c == WithRuntime(Chosen(operator, user, i))
    ensures forall key :: key in PROTECTED && key != "env" ==> SameAt(c, operator[i], key)
    ensures c == WithRuntime(Fold(operator[i], user, NameOf(operator[i])))
    ensures EnvOf(c) == EnvVars.UpsertAll(EnvOf(operator[i]), GoRuntimeEnvVars(c))
    ensures forall name :: name !in {EnvVars.GOMAXPROCS, EnvVars.GOMEMLIMIT} ==>
              EnvVars.Effective(EnvOf(c), name) == EnvVars.Effective(EnvOf(operator[i]), name)
  {
    var name := NameOf(operator[i]);
    LastNamedDistinct(operator, i);
    var m := Fold(operator[i], user, name);
    forall key | key in PROTECTED
      ensures SameAt(m, operator[i], key)
    {
      FoldKeepsProtected(operator[i], user, name, key);
    }
    assert "env" in PROTECTED && EnvOf(m) == EnvOf(operator[i]);
    RuntimeEnvStable(m);
    forall n | n !in {EnvVars.GOMAXPROCS, EnvVars.GOMEMLIMIT}
      ensures EnvVars.Effective(EnvOf(c), n) == EnvVars.Effective(EnvOf(operator[i]), n)
    {
      UpsertRuntimeOthers(EnvOf(operator[i]), GoRuntimeEnvVars(m), n);
    }
  }

  /** By name: whatever the user's template says, the container keeps its name, image, ports, command and arguments. */
  lemma KeepsItsIdentity(operator: seq<Container>, user: seq<Container>, i: nat, c: Container)
    requires i < |operator| && ExtraVolumes.Distinct(ContainerNames(operator))
    requires c == WithRuntime(Chosen(operator, user, i))
    ensures SameAt(c, operator[i], "name") && SameAt(c, operator[i], "image") && SameAt(c, operator[i], "ports")
    ensures SameAt(c, operator[i], "command") && SameAt(c, operator[i], "args")
  {
    hide SameAt, WithRuntime, Chosen;
    ProtectedContainerFrame(operator, user, i, c);
  }

  // ---------------------------------------------------------------- what the user's template decides

  /** The container has no value at the path and none on the way to it. */
  predicate Silent(c: Container, path: seq<string>)
  {
    At(Obj(c), path).None? && !Cut(Obj(c), path)
  }

  lemma AtField(a: Container, b: Container, path: seq<string>)
    requires path != [] && SameAt(a, b, path[0])
    ensures At(Obj(a), path) == At(Obj(b), path)
  {}

  /** One entry merged in, at a path the operator does not protect. */
  lemma MergeOneAt(c: Container, entry: Container, path: seq<string>)
    requires path != [] && path[0] !in PROTECTED
    ensures At(Obj(entry), path).Some? && At(Obj(entry), path).value.Leaf? ==>
              At(Obj(MergeSingleContainer(c, entry)), path) == At(Obj(entry), path)
    ensures Silent(entry, path) ==> At(Obj(MergeSingleContainer(c, entry)), path) == At(Obj(c), path)
  {
    hide MergeSingleContainer, Merge;
    SingleContainerFrame(c, entry, path[0]);
    MergeIsObject(c, entry);
    AtField(MergeSingleContainer(c, entry), Merge(Obj(c), Obj(entry)).fields, path);
    MergeAtPath(Obj(c), Obj(entry), path);
    if At(Obj(entry), path).Some? && At(Obj(entry), path).value.Leaf? {
      MergeIsRightBiased(Obj(c), Obj(entry), path);
    }
  }

  lemma MergeIsObject(a: Container, b: Container)
    ensures Merge(Obj(a), Obj(b)).Obj?
  {}

  /** The last entry of the name that sets a plain value decides it. */
  lemma {:induction false} FoldTakes(c: Container, user: seq<Container>, name: string, path: seq<string>, j: nat)
    requires path != [] && path[0] !in PROTECTED && j < |user| && NameOf(user[j]) == name
    requires At(Obj(user[j]), path).Some? && At(Obj(user[j]), path).value.Leaf?
    requires forall k :: j < k < |user| && NameOf(user[k]) == name ==> Silent(user[k], path)
    ensures At(Obj(Fold(c, user, name)), path) == At(Obj(user[j]), path)
    decreases |user|
  {
    hide MergeSingleContainer, Silent, NameOf;
    var rest, last := user[..|user| - 1], user[|user| - 1];
    MergeOneAt(Fold(c, rest, name), last, path);
    if j < |user| - 1 {
      FoldTakes(c, rest, name, path, j);
    }
  }

  /** Where no entry of the name says anything, the operator's value stays. */
  lemma {:induction false} FoldKeeps(c: Container, user: seq<Container>, name: string, path: seq<string>)
    requires path != [] && path[0] !in PROTECTED
    requires forall k :: 0 <= k < |user| && NameOf(user[k]) == name ==> Silent(user[k], path)
    ensures At(Obj(Fold(c, user, name)), path) == At(Obj(c), path)
    decreases |user|
  {
    hide MergeSingleContainer, Silent, NameOf;
    if user != [] {
      var rest, last := user[..|user| - 1], user[|user| - 1];
      MergeOneAt(Fold(c, rest, name), last, path);
      FoldKeeps(c, rest, name, path);
    }
  }

  lemma RuntimeAt(c: Container, path: seq<string>)
    requires path != [] && path[0] !in PROTECTED
    ensures At(Obj(WithRuntime(c)), path) == At(Obj(c), path)
  {
    hide GoRuntimeEnvVars, EnvOf, EnvVars.UpsertAll;
    AtField(WithRuntime(c), c, path);
  }

  /** The user's template reaches the container of the name it gives: a plain value there, outside the protected fields,
      is the one the pod gets, from the last entry that says anything; and where no entry of the name says anything the
      container is the operator's. */
  lemma TemplateReachesItsContainer(operator: seq<Container>, user: seq<Container>, i: nat, c: Container, path: seq<string>)
    requires i < |operator| && ExtraVolumes.Distinct(ContainerNames(operator))
    requires c == WithRuntime(Chosen(operator, user, i)) && path != [] && path[0] !in PROTECTED
    ensures forall j ::
              (0 <= j < |user| && NameOf(user[j]) == NameOf(operator[i])
               && At(Obj(user[j]), path).Some? && At(Obj(user[j]), path).value.Leaf?
               && (forall k :: j < k < |user| && NameOf(user[k]) == NameOf(operator[i]) ==> Silent(user[k], path))
               ==> At(Obj(c), path) == At(Obj(user[j]), path))
    ensures (forall k :: 0 <= k < |user| && NameOf(user[k]) == NameOf(operator[i]) ==> Silent(user[k], path))
            ==> At(Obj(c), path) == At(Obj(operator[i]), path)
  {
    hide Silent, NameOf, WithRuntime, Fold, Chosen, At, EnvOf, GoRuntimeEnvVars, EnvVars.UpsertAll;
    var name := NameOf(operator[i]);
    ProtectedContainerFrame(operator, user, i, c);
    RuntimeAt(Fold(operator[i], user, name), path);
    forall j | 0 <= j < |user| && NameOf(user[j]) == name && At(Obj(user[j]), path).Some? && At(Obj(user[j]), path).value.Leaf?
        && forall k :: j < k < |user| && NameOf(user[k]) == name ==> Silent(user[k], path)
      ensures At(Obj(c), path) == At(Obj(user[j]), path)
    {
      FoldTakes(operator[i], user, name, path, j);
    }
    if forall k :: 0 <= k < |user| && NameOf(user[k]) == name ==> Silent(user[k], path) {
      FoldKeeps(operator[i], user, name, path);
    }
  }

  lemma QuantityStable(c: Container, section: string, resource: string)
    ensures Quantity(WithRuntime(c), section, resource) == Quantity(c, section, resource)
  {
    hide GoRuntimeEnvVars, EnvVars.UpsertAll, EnvOf;
    var path := ["resources", section, resource];
    assert At(Obj(WithRuntime(c)), path) == At(Obj(c), path);
  }

  /** Writing the environment does not change the resources it was computed from. */
  lemma RuntimeEnvStable(c: Container)
    ensures GoRuntimeEnvVars(WithRuntime(c)) == GoRuntimeEnvVars(c)
  {
    hide WithRuntime, Quantity, FormatInt, GoRuntime.CeilMilliCPUs, GoRuntime.ApplyMemoryHeadroom;
    QuantityStable(c, "limits", "cpu");
    QuantityStable(c, "requests", "cpu");
    QuantityStable(c, "limits", "memory");
    QuantityStable(c, "requests", "memory");
  }

  lemma UpsertRuntimeOthers(env: seq<EnvVars.EnvVar>, vars: seq<EnvVars.EnvVar>, name: string)
    requires EnvVars.RuntimeVars(vars) && name !in {EnvVars.GOMAXPROCS, EnvVars.GOMEMLIMIT}
    ensures EnvVars.Effective(EnvVars.UpsertAll(env, vars), name) == EnvVars.Effective(env, name)
    decreases |vars|
  {
    if vars != [] {
      var rest, last := vars[..|vars| - 1], vars[|vars| - 1];
      assert last in vars;
      UpsertRuntimeOthers(env, rest, name);
      EnvVars.UpsertOthers(EnvVars.UpsertAll(env, rest), last, name);
    }
  }

  /** The environment of a pod from end to end: validated user entries, the operator's lists, the merge with the
      user's template, and the runtime variables. Looked up by name, a container sees the values computed from its
      merged resources, then the operator's, then the user's. */
  lemma PodEnvironment(operator: seq<Container>, user: seq<Container>, i: nat, c: Container,
                       extra: seq<EnvVars.EnvVar>, operatorEnv: seq<seq<EnvVars.EnvVar>>,
                       allowBindplanePrefix: bool, name: string)
    requires i < |operator| && ExtraVolumes.Distinct(ContainerNames(operator))
    requires c == WithRuntime(Chosen(operator, user, i))
    requires EnvOf(operator[i]) == extra + EnvVars.Flatten(operatorEnv)
    requires forall e :: e in extra ==> EnvVars.Allowed(e.name, allowBindplanePrefix)
    requires EnvVars.GOMAXPROCS !in EnvVars.Names(EnvVars.Flatten(operatorEnv))
    requires EnvVars.GOMEMLIMIT !in EnvVars.Names(EnvVars.Flatten(operatorEnv))
    ensures var (computed, managed) := (GoRuntimeEnvVars(c), EnvVars.Flatten(operatorEnv));
            EnvVars.Effective(EnvOf(c), name) ==
            if name in EnvVars.Names(computed) then EnvVars.Effective(computed, name)
            else if name in EnvVars.Names(managed) then EnvVars.Effective(managed, name)
            else EnvVars.Effective(extra, name)
  {
    hide EnvVars.Effective, EnvVars.UpsertAll, Chosen, WithRuntime, GoRuntimeEnvVars, EnvOf, SameAt;
    ProtectedContainerFrame(operator, user, i, c);
    EnvVars.EffectiveEnvironment(extra, operatorEnv, GoRuntimeEnvVars(c), allowBindplanePrefix, name);
  }

  // ---------------------------------------------------------------- the values of the runtime variables

  /** The container's resources set this quantity; a zero does not count. */
  predicate Sets(c: Container, section: string, resource: string, quantity: GoRuntime.int64)
  {
    At(Obj(c), ["resources", section, resource]) == Some(Leaf(Number(quantity))) && quantity != 0
  }

  /** The quantity that decides: the limit, or the request where no limit is set. */
  ghost predicate Governs(c: Container, resource: string, quantity: GoRuntime.int64)
  {
    Sets(c, "limits", resource, quantity)
    || (Sets(c, "requests", resource, quantity) && forall q :: !Sets(c, "limits", resource, q))
  }

  lemma GoverningQuantity(c: Container, resource: string)
    ensures LimitOrRequest(c, resource).Some? ==> Governs(c, resource, LimitOrRequest(c, resource).value)
    ensures forall q :: Governs(c, resource, q) ==> LimitOrRequest(c, resource) == Some(q)
  {
    QuantityIs(c, "limits", resource);
    QuantityIs(c, "requests", resource);
  }

  lemma QuantityIs(c: Container, section: string, resource: string)
    ensures forall q :: Sets(c, section, resource, q) <==> Quantity(c, section, resource) == Some(q)
  {}

  /** The variable holds the number written in decimal. */
  predicate Holds(env: seq<EnvVars.EnvVar>, name: string, n: nat)
  {
    var found := EnvVars.Effective(env, name);
    found.Some? && TextLib.IsNumeral(found.value.value) && TextLib.Numeral(found.value.value) == n
  }

  lemma Formatted(n: GoRuntime.int64)
    requires n >= 0
    ensures TextLib.IsNumeral(FormatInt(n)) && TextLib.Numeral(FormatInt(n)) == n as int
  {
    TextLib.DecimalStandsFor(n as nat);
  }

  /** Looked up in the computed variables. */
  lemma ComputedValues(c: Container)
    ensures var (cpu, vars) := (LimitOrRequest(c, "cpu"), GoRuntimeEnvVars(c));
            EnvVars.Effective(vars, "GOMAXPROCS") ==
            if cpu.Some? then Some(EnvVars.EnvVar("GOMAXPROCS", FormatInt(GoRuntime.CeilMilliCPUs(cpu.value)))) else None
    ensures var (memory, vars) := (LimitOrRequest(c, "memory"), GoRuntimeEnvVars(c));
            EnvVars.Effective(vars, "GOMEMLIMIT") ==
            if memory.Some? then Some(EnvVars.EnvVar("GOMEMLIMIT", FormatInt(GoRuntime.ApplyMemoryHeadroom(memory.value))))
            else None
  {
    hide LimitOrRequest, FormatInt, GoRuntime.CeilMilliCPUs, GoRuntime.ApplyMemoryHeadroom;
    var (cpu, memory) := (LimitOrRequest(c, "cpu"), LimitOrRequest(c, "memory"));
    var first := if cpu.Some? then [EnvVars.EnvVar("GOMAXPROCS", FormatInt(GoRuntime.CeilMilliCPUs(cpu.value)))] else [];
    var second :=
      if memory.Some? then [EnvVars.EnvVar("GOMEMLIMIT", FormatInt(GoRuntime.ApplyMemoryHeadroom(memory.value)))] else [];
    assert GoRuntimeEnvVars(c) == first + second;
    EnvVars.EffectiveConcat(first, second, "GOMAXPROCS");
    EnvVars.EffectiveConcat(first, second, "GOMEMLIMIT");
    assert first != [] ==> first[..|first| - 1] == [] && first[|first| - 1] == first[0];
    assert second != [] ==> second[..|second| - 1] == [] && second[|second| - 1] == second[0];
  }

  /** What a merged container's Go runtime is told. The CPU quantity that governs gives GOMAXPROCS, the least number of
      whole CPUs that covers it; the memory quantity gives GOMEMLIMIT, nine tenths of it and at least one byte; and
      where nothing is set the variable is left to the user's template alone, who may not set it either. */
  lemma PodRuntime(operator: seq<Container>, user: seq<Container>, i: nat, c: Container,
                   extra: seq<EnvVars.EnvVar>, operatorEnv: seq<seq<EnvVars.EnvVar>>,
                   allowBindplanePrefix: bool, quantity: GoRuntime.int64)
    requires i < |operator| && ExtraVolumes.Distinct(ContainerNames(operator))
    requires c == WithRuntime(Chosen(operator, user, i))
    requires EnvOf(operator[i]) == extra + EnvVars.Flatten(operatorEnv)
    requires forall e :: e in extra ==> EnvVars.Allowed(e.name, allowBindplanePrefix)
    requires "GOMAXPROCS" !in EnvVars.Names(EnvVars.Flatten(operatorEnv))
    requires "GOMEMLIMIT" !in EnvVars.Names(EnvVars.Flatten(operatorEnv))
    ensures Governs(c, "cpu", quantity) && quantity as int + 999 <= GoRuntime.MAX_INT64 ==>
              exists n: nat :: GoRuntime.LeastCpus(quantity as int, n) && Holds(EnvOf(c), "GOMAXPROCS", n)
    ensures Governs(c, "memory", quantity) && quantity as int * 10 <= GoRuntime.MAX_INT64 ==>
              Holds(EnvOf(c), "GOMEMLIMIT", GoRuntime.AtLeastOne(GoRuntime.NineTenths(quantity as int)))
    ensures (forall q :: !Governs(c, "cpu", q)) ==> EnvVars.Effective(EnvOf(c), "GOMAXPROCS").None?
    ensures (forall q :: !Governs(c, "memory", q)) ==> EnvVars.Effective(EnvOf(c), "GOMEMLIMIT").None?
  {
    hide EnvVars.Effective, EnvVars.UpsertAll, Chosen, WithRuntime, GoRuntimeEnvVars, EnvOf, LimitOrRequest, FormatInt, Governs,
         GoRuntime.CeilMilliCPUs, GoRuntime.ApplyMemoryHeadroom, GoRuntime.LeastCpus, GoRuntime.NineTenths, EnvVars.Flatten;
    ComputedValues(c);
    GoverningQuantity(c, "cpu");
    GoverningQuantity(c, "memory");
    PodEnvironment(operator, user, i, c, extra, operatorEnv, allowBindplanePrefix, "GOMAXPROCS");
    PodEnvironment(operator, user, i, c, extra, operatorEnv, allowBindplanePrefix, "GOMEMLIMIT");
    NotAllowed(extra, allowBindplanePrefix);
    if Governs(c, "cpu", quantity) && quantity as int + 999 <= GoRuntime.MAX_INT64 {
      GoRuntime.MaxProcsIsLeastIffNoOverflow(quantity);
      var n := GoRuntime.CeilMilliCPUs(quantity);
      AtLeastOneCpu(quantity as int, n as int);
      Formatted(n);
      assert GoRuntime.LeastCpus(quantity as int, n as int) && Holds(EnvOf(c), "GOMAXPROCS", n as int);
    }
    if Governs(c, "memory", quantity) && quantity as int * 10 <= GoRuntime.MAX_INT64 {
      GoRuntime.MemLimitIsNineTenthsIffNoOverflow(quantity);
      Formatted(GoRuntime.ApplyMemoryHeadroom(quantity));
    }
  }

  lemma AtLeastOneCpu(quantity: int, n: int)
    requires GoRuntime.LeastCpus(quantity, n)
    ensures n >= 1
  {}

  /** A validated list does not set the runtime variables. */
  lemma NotAllowed(extra: seq<EnvVars.EnvVar>, allowBindplanePrefix: bool)
    requires forall e :: e in extra ==> EnvVars.Allowed(e.name, allowBindplanePrefix)
    ensures EnvVars.Effective(extra, "GOMAXPROCS").None? && EnvVars.Effective(extra, "GOMEMLIMIT").None?
  {
    hide EnvVars.Effective;
  }

  // ---------------------------------------------------------------- volumes from end to end

  /** No name of `names` is lost or repeated by the merge with a template, and the template's are there. */
  lemma MergedNames(protected: seq<ExtraVolumes.Volume>, user: seq<ExtraVolumes.Volume>, merged: seq<ExtraVolumes.Volume>)
    requires ExtraVolumes.Distinct(ExtraVolumes.VolumeNames(protected)) && MergedVolumes(protected, user, merged)
    ensures ExtraVolumes.Distinct(ExtraVolumes.VolumeNames(merged))
    ensures ExtraVolumes.VolumeNames(protected) <= ExtraVolumes.VolumeNames(merged)
    ensures forall n :: n in ExtraVolumes.VolumeNames(merged) <==>
              n in ExtraVolumes.VolumeNames(protected) || n in ExtraVolumes.VolumeNames(user)
  {
    if user != [] {
      ExtraVolumes.MergedVolumesSound(protected, user, ExtraVolumes.VolumeNames(merged));
    }
  }

  lemma {:induction false} LastIs(vs: seq<ExtraVolumes.Volume>, i: nat)
    requires i < |vs| && forall k :: i < k < |vs| ==> vs[k].name != vs[i].name
    ensures vs[i].name in ExtraVolumes.VolumeNames(vs) && ExtraVolumes.LastNamed(vs, vs[i].name) == vs[i]
    decreases |vs|
  {
    assert ExtraVolumes.VolumeNames(vs)[i] == vs[i].name;
    if i < |vs| - 1 {
      LastIs(vs[..|vs| - 1], i);
    }
  }

  lemma NamedIn(vs: seq<ExtraVolumes.Volume>, name: string) returns (v: ExtraVolumes.Volume)
    requires name in ExtraVolumes.VolumeNames(vs)
    ensures v in vs && v.name == name
  {
    var i :| 0 <= i < |vs| && ExtraVolumes.VolumeNames(vs)[i] == name;
    v := vs[i];
  }

  /** The volumes a pod gets: the template's last one of each name it gives, and the operator's of all other names. */
  lemma VolumeOrigins(protected: seq<ExtraVolumes.Volume>, user: seq<ExtraVolumes.Volume>, merged: seq<ExtraVolumes.Volume>,
                      i: nat)
    requires ExtraVolumes.Distinct(ExtraVolumes.VolumeNames(protected)) && MergedVolumes(protected, user, merged)
    ensures i < |user| && (forall k :: i < k < |user| ==> user[k].name != user[i].name) ==> user[i] in merged
    ensures i < |protected| && protected[i].name !in ExtraVolumes.VolumeNames(user) ==> protected[i] in merged
    ensures forall v :: v in merged ==> v in user || (v in protected && v.name !in ExtraVolumes.VolumeNames(user))
  {
    MergedNames(protected, user, merged);
    if i < |user| && forall k :: i < k < |user| ==> user[k].name != user[i].name {
      LastIs(user, i);
      var v := NamedIn(merged, user[i].name);
    }
    if i < |protected| && protected[i].name !in ExtraVolumes.VolumeNames(user) {
      var names := ExtraVolumes.VolumeNames(protected);
      assert forall k :: i < k < |protected| ==> names[k] != names[i];
      LastIs(protected, i);
      var v := NamedIn(merged, protected[i].name);
    }
  }

  /** The volumes of a server pod from end to end: the operator's, accepted extra volumes, and any template merged over
      both. Names stay distinct, the operator's and the extra ones stay in front and in order, and every accepted extra
      mount has its volume. */
  lemma ServerPodVolumes(t: ExtraVolumes.ConfigTls, operator: seq<ExtraVolumes.Volume>, extra: seq<ExtraVolumes.Volume>,
                         mounts: seq<ExtraVolumes.Mount>, user: seq<ExtraVolumes.Volume>, merged: seq<ExtraVolumes.Volume>)
    requires ExtraVolumes.VolumeNames(operator) == ExtraVolumes.ConfigVolumes(t)
    requires ExtraVolumes.Acceptable(extra, mounts, {}) && MergedVolumes(operator + extra, user, merged)
    ensures ExtraVolumes.Distinct(ExtraVolumes.VolumeNames(merged))
    ensures ExtraVolumes.ConfigVolumes(t) + ExtraVolumes.VolumeNames(extra) <= ExtraVolumes.VolumeNames(merged)
    ensures forall m :: m in mounts ==> m.name in ExtraVolumes.VolumeNames(merged)
  {
    ExtraVolumes.ServerPodSound(t, extra, mounts);
    assert ExtraVolumes.VolumeNames(operator + extra) == ExtraVolumes.VolumeNames(operator) + ExtraVolumes.VolumeNames(extra);
    MergedNames(operator + extra, user, merged);
  }

  /** Likewise for the TSDB pod; its data volume comes from the StatefulSet's claims, so a template must not reuse that name. */
  lemma TsdbPodVolumes(t: ExtraVolumes.TsdbTls, bindplane: string, operator: seq<ExtraVolumes.Volume>,
                       extra: seq<ExtraVolumes.Volume>, mounts: seq<ExtraVolumes.Mount>,
                       user: seq<ExtraVolumes.Volume>, merged: seq<ExtraVolumes.Volume>)
    requires ExtraVolumes.VolumeNames(operator) == ExtraVolumes.TsdbVolumes(t)
    requires ExtraVolumes.Acceptable(extra, mounts, {ExtraVolumes.DataVolume(bindplane)})
    requires MergedVolumes(operator + extra, user, merged)
    ensures var names := [ExtraVolumes.DataVolume(bindplane)] + ExtraVolumes.VolumeNames(merged);
            ExtraVolumes.Distinct(names) <==> ExtraVolumes.DataVolume(bindplane) !in ExtraVolumes.VolumeNames(user)
    ensures forall m :: m in mounts ==> m.name in ExtraVolumes.VolumeNames(merged)
  {
    var data := ExtraVolumes.DataVolume(bindplane);
    var front := ExtraVolumes.TsdbVolumes(t) + ExtraVolumes.VolumeNames(extra);
    ExtraVolumes.TsdbPodSound(t, bindplane, extra, mounts);
    assert [data] + ExtraVolumes.TsdbVolumes(t) + ExtraVolumes.VolumeNames(extra) == [data] + front;
    assert ExtraVolumes.VolumeNames(operator + extra) == front;
    assert ExtraVolumes.Distinct(front) && data !in front by { TailDistinct(data, front); }
    MergedNames(operator + extra, user, merged);
    HeadDistinct(data, ExtraVolumes.VolumeNames(merged));
  }

  lemma TailDistinct(head: string, tail: seq<string>)
    requires ExtraVolumes.Distinct([head] + tail)
    ensures ExtraVolumes.Distinct(tail) && head !in tail
  {
    var all := [head] + tail;
    assert all[0] == head;
    assert forall i :: 0 <= i < |tail| ==> all[i + 1] == tail[i] && all[i + 1] != all[0];
  }

  lemma HeadDistinct(head: string, tail: seq<string>)
    requires ExtraVolumes.Distinct(tail)
    ensures ExtraVolumes.Distinct([head] + tail) <==> head !in tail
  {
    var all := [head] + tail;
    assert forall i :: 0 <= i < |tail| ==> all[i + 1] == tail[i];
    if head in tail {
      var i :| 0 <= i < |tail| && tail[i] == head;
      assert all[0] == all[i + 1];
    }
  }
}
