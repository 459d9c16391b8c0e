/** Volumes: what the validator accepts beside the operator's own volumes, and how a pod
    template's volumes are merged over them (validate.go, bindplane_controller.go, prometheus.go). */
module ExtraVolumes {

  datatype SourceKind = HostPath | Secret | ConfigMap | Projected | Csi | EmptyDir | DownwardApi | OtherSource

  /** A volume's source fields that are set, and a token for their contents. */
  datatype Volume = Volume(name: string, sources: set<SourceKind>, contents: nat)

  datatype Mount = Mount(name: string, path: string)

  const RESERVED_NAMES: set<string> :=
    {"ldap-tls", "network-tls", "postgres-tls", "tsdb-remote-write-tls", "nats-tls", "transform-agent-tls",
     "tsdb-web-config", "tsdb-tls", "tsdb-web-server-tls", "tsdb-probe-client-tls", "tsdb-probe-auth"}

  const RESERVED_PATHS: set<string> :=
    {"/etc/bindplane/ldap-tls", "/etc/bindplane/network-tls", "/etc/bindplane/postgres-tls",
     "/etc/bindplane/tsdb-remote-write-tls", "/etc/bindplane/nats-tls", "/etc/bindplane/transform-agent-tls",
     "/etc/prometheus", "/etc/tsdb-tls", "/etc/tsdb-web-tls", "/etc/tsdb-probe-client", "/etc/tsdb-probe-auth",
     "/prometheus"}

  predicate IsLabel(name: string)
  {
    && 0 < |name| <= 63
    && (forall c :: c in name ==> IsAlnum(c) || c == '-')
    && IsAlnum(name[0]) && IsAlnum(name[|name| - 1])
  }

  predicate IsAlnum(c: char) { 'a' <= c <= 'z' || '0' <= c <= '9' }

  predicate AllowedSource(v: Volume)
  {
    HostPath !in v.sources && v.sources * {Secret, ConfigMap, Projected, Csi, EmptyDir, DownwardApi} != {}
  }

  function VolumeNames(vs: seq<Volume>): (names: seq<string>)
    ensures |names| == |vs| && forall i :: 0 <= i < |vs| ==> names[i] == vs[i].name
  {
    seq(|vs|, i requires 0 <= i < |vs| => vs[i].name)
  }

  function Paths(ms: seq<Mount>): (paths: seq<string>)
    ensures |paths| == |ms| && forall i :: 0 <= i < |ms| ==> paths[i] == ms[i].path
  {
    seq(|ms|, i requires 0 <= i < |ms| => ms[i].path)
  }

  predicate Distinct<T(==)>(s: seq<T>)
  {
    forall i, j :: 0 <= i < j < |s| ==> s[i] != s[j]
  }

  predicate AcceptableVolume(v: Volume, more: set<string>)
  {
    IsLabel(v.name) && v.name !in RESERVED_NAMES && v.name !in more && AllowedSource(v)
  }

  predicate AcceptableMount(m: Mount, volumes: seq<Volume>)
  {
    "/" <= m.path && m.path !in RESERVED_PATHS && m.name in VolumeNames(volumes)
  }

  /** What one component may add: well-named distinct volumes outside the operator's names, from
      allowed sources, and distinct absolute mounts of those volumes outside the reserved paths. */
  predicate Acceptable(volumes: seq<Volume>, mounts: seq<Mount>, more: set<string>)
  {
    && Distinct(VolumeNames(volumes)) && (forall v :: v in volumes ==> AcceptableVolume(v, more))
    && Distinct(Paths(mounts)) && (forall m :: m in mounts ==> AcceptableMount(m, volumes))
  }

  /** One pass over the volumes, one over the mounts, with the names and paths seen so far. */
  method ValidateExtraVolumes(volumes: seq<Volume>, mounts: seq<Mount>, more: set<string>) returns (ok: bool)
    ensures ok <==> Acceptable(volumes, mounts, more)
  {
    var volNames: set<string>;
    ok, volNames := ValidateVolumes(volumes, more);
    if ok {
      ok := ValidateMounts(mounts, volNames, volumes);
    }
  }

  method ValidateVolumes(volumes: seq<Volume>, more: set<string>) returns (ok: bool, volNames: set<string>)
    ensures ok <==> Distinct(VolumeNames(volumes)) && forall v :: v in volumes ==> AcceptableVolume(v, more)
    ensures ok ==> forall n :: n in volNames <==> n in VolumeNames(volumes)
  {
    volNames := {};
    for i := 0 to |volumes|
      invariant forall n :: n in volNames <==> n in VolumeNames(volumes)[..i]
      invariant Distinct(VolumeNames(volumes)[..i])
      invariant forall j :: 0 <= j < i ==> AcceptableVolume(volumes[j], more)
    {
      var vol := volumes[i];
      assert vol in volumes;
      if !IsLabel(vol.name) {
        return false, volNames;
      }
      if vol.name in volNames {
        assert vol.name == VolumeNames(volumes)[i] && vol.name in VolumeNames(volumes)[..i];
        return false, volNames;
      }
      volNames := volNames + {vol.name};
      if vol.name in RESERVED_NAMES {
        return false, volNames;
      }
      if vol.name in more {
        return false, volNames;
      }
      if !AllowedSource(vol) {
        return false, volNames;
      }
    }
    assert VolumeNames(volumes)[..|volumes|] == VolumeNames(volumes);
    return true, volNames;
  }

  method ValidateMounts(mounts: seq<Mount>, volNames: set<string>, ghost volumes: seq<Volume>) returns (ok: bool)
    requires forall n :: n in volNames <==> n in VolumeNames(volumes)
    ensures ok <==> Distinct(Paths(mounts)) && forall m :: m in mounts ==> AcceptableMount(m, volumes)
  {
    var mountPaths: set<string> := {};
    for i := 0 to |mounts|
      invariant forall p :: p in mountPaths <==> p in Paths(mounts)[..i]
      invariant Distinct(Paths(mounts)[..i])
      invariant forall j :: 0 <= j < i ==> AcceptableMount(mounts[j], volumes)
    {
      var m := mounts[i];
      assert m in mounts;
      if !("/" <= m.path) {
        return false;
      }
      if m.path in mountPaths {
        assert m.path == Paths(mounts)[i] && m.path in Paths(mounts)[..i];
        return false;
      }
      mountPaths := mountPaths + {m.path};
      if m.path in RESERVED_PATHS {
        return false;
      }
      if m.name !in volNames {
        return false;
      }
    }
    assert Paths(mounts)[..|mounts|] == Paths(mounts);
    return true;
  }

  /** The TLS features of a server workload; each adds a volume and its mount. */
  datatype ConfigTls = ConfigTls(ldap: bool, network: bool, postgres: bool, tsdbClient: bool, nats: bool,
                                 transformAgent: bool)

  function Features(t: ConfigTls): seq<bool>
  {
    [t.ldap, t.network, t.postgres, t.tsdbClient, t.nats, t.transformAgent]
  }

  const CONFIG_VOLUMES: seq<string> :=
    ["ldap-tls", "network-tls", "postgres-tls", "tsdb-remote-write-tls", "nats-tls", "transform-agent-tls"]

  const CONFIG_PATHS: seq<string> :=
    ["/etc/bindplane/ldap-tls", "/etc/bindplane/network-tls", "/etc/bindplane/postgres-tls",
     "/etc/bindplane/tsdb-remote-write-tls", "/etc/bindplane/nats-tls", "/etc/bindplane/transform-agent-tls"]

  /** The items whose feature is on, in order. */
  function Pick(on: seq<bool>, items: seq<string>): seq<string>
    requires |on| == |items|
  {
    if items == [] then [] else (if on[0] then [items[0]] else []) + Pick(on[1..], items[1..])
  }

  /** Names of the operator's volumes of a server workload, in order. */
  function ConfigVolumes(t: ConfigTls): seq<string> { Pick(Features(t), CONFIG_VOLUMES) }

  function ConfigPaths(t: ConfigTls): seq<string> { Pick(Features(t), CONFIG_PATHS) }

  datatype TsdbTls = NoTls | CertManager | UserSecret

  /** Names of the operator's volumes of the TSDB workload, in order; the data volume comes from
      its claim template. */
  function TsdbVolumes(t: TsdbTls): seq<string>
  {
    ["tsdb-web-config"]
    + (match t
       case NoTls => ["tsdb-probe-auth"]
       case CertManager => ["tsdb-web-server-tls", "tsdb-probe-client-tls", "tsdb-probe-auth"]
       case UserSecret => ["tsdb-tls", "tsdb-probe-auth"])
  }

  const WEB_FILE := "/etc/prometheus/web.yml"
  const PROBE_FILE := "/etc/prometheus/probe-http.yml"

  function TsdbPaths(t: TsdbTls): seq<string>
  {
    ["/prometheus", WEB_FILE, PROBE_FILE]
    + (match t
       case NoTls => []
       case CertManager => ["/etc/tsdb-web-tls", "/etc/tsdb-probe-client"]
       case UserSecret => ["/etc/tsdb-tls"])
    + ["/etc/tsdb-probe-auth"]
  }

  /** The name of the TSDB data volume of one resource. */
  function DataVolume(bindplane: string): string { bindplane + "-tsdb-data" }

  lemma {:induction false} PickDistinct(on: seq<bool>, items: seq<string>)
    requires |on| == |items| && Distinct(items)
    ensures Distinct(Pick(on, items)) && forall x :: x in Pick(on, items) ==> x in items
  {
    if items != [] {
      PickDistinct(on[1..], items[1..]);
      DistinctConcat(if on[0] then [items[0]] else [], Pick(on[1..], items[1..]));
    }
  }

  lemma DataVolumeFree(bindplane: string)
    ensures DataVolume(bindplane) !in RESERVED_NAMES && DataVolume(bindplane) != "extra"
  {
    var d := DataVolume(bindplane);
    assert d[|d| - 1] == "-tsdb-data"[9] == 'a' && |d| >= 10;
  }

  lemma ConfigReserved(t: ConfigTls)
    ensures Distinct(ConfigVolumes(t)) && (forall n :: n in ConfigVolumes(t) ==> n in RESERVED_NAMES)
    ensures Distinct(ConfigPaths(t)) && (forall p :: p in ConfigPaths(t) ==> p in RESERVED_PATHS)
  {
    PickDistinct(Features(t), CONFIG_VOLUMES);
    PickDistinct(Features(t), CONFIG_PATHS);
  }

  lemma TsdbReserved(t: TsdbTls)
    ensures Distinct(TsdbVolumes(t)) && (forall n :: n in TsdbVolumes(t) ==> n in RESERVED_NAMES)
    ensures Distinct(TsdbPaths(t)) && (forall p :: p in TsdbPaths(t) ==> p in RESERVED_PATHS + {WEB_FILE, PROBE_FILE})
  {}

  lemma DistinctConcat<T>(a: seq<T>, b: seq<T>)
    requires Distinct(a) && Distinct(b) && forall x :: x in a ==> x !in b
    ensures Distinct(a + b)
  {
    forall i, j | 0 <= i < j < |a + b|
      ensures (a + b)[i] != (a + b)[j]
    {
      if i < |a| <= j {
        assert a[i] in a && b[j - |a|] in b;
      }
    }
  }

  /** In a server workload an accepted addition leaves all volume names distinct, all mount
      paths distinct, and every added mount with a volume to mount. */
  lemma ServerPodSound(t: ConfigTls, volumes: seq<Volume>, mounts: seq<Mount>)
    requires Acceptable(volumes, mounts, {})
    ensures Distinct(ConfigVolumes(t) + VolumeNames(volumes))
    ensures Distinct(ConfigPaths(t) + Paths(mounts))
    ensures forall m :: m in mounts ==> m.name in VolumeNames(volumes)
  {
    ConfigReserved(t);
    OutsideReserved(volumes, mounts, {});
    DistinctConcat(ConfigVolumes(t), VolumeNames(volumes));
    DistinctConcat(ConfigPaths(t), Paths(mounts));
  }

  lemma OutsideReserved(volumes: seq<Volume>, mounts: seq<Mount>, more: set<string>)
    requires Acceptable(volumes, mounts, more)
    ensures forall n :: n in RESERVED_NAMES || n in more ==> n !in VolumeNames(volumes)
    ensures forall p :: p in RESERVED_PATHS ==> p !in Paths(mounts)
  {
    forall n | n in VolumeNames(volumes)
      ensures n !in RESERVED_NAMES && n !in more
    {
      var i :| 0 <= i < |volumes| && VolumeNames(volumes)[i] == n;
      assert volumes[i] in volumes;
    }
    forall p | p in Paths(mounts)
      ensures p !in RESERVED_PATHS
    {
      var i :| 0 <= i < |mounts| && Paths(mounts)[i] == p;
      assert mounts[i] in mounts;
    }
  }

  /** In the TSDB workload names stay distinct, the data volume included, but paths do so exactly
      when no added mount takes one of the two files the operator mounts inside its reserved directory. */
  lemma TsdbPodSound(t: TsdbTls, bindplane: string, volumes: seq<Volume>, mounts: seq<Mount>)
    requires Acceptable(volumes, mounts, {DataVolume(bindplane)})
    ensures Distinct([DataVolume(bindplane)] + TsdbVolumes(t) + VolumeNames(volumes))
    ensures Distinct(TsdbPaths(t) + Paths(mounts)) <==> WEB_FILE !in Paths(mounts) && PROBE_FILE !in Paths(mounts)
    ensures forall m :: m in mounts ==> m.name in VolumeNames(volumes)
  {
    DataVolumeFree(bindplane);
    TsdbReserved(t);
    OutsideReserved(volumes, mounts, {DataVolume(bindplane)});
    DistinctConcat([DataVolume(bindplane)], TsdbVolumes(t));
    DistinctConcat([DataVolume(bindplane)] + TsdbVolumes(t), VolumeNames(volumes));
    if WEB_FILE !in Paths(mounts) && PROBE_FILE !in Paths(mounts) {
      DistinctConcat(TsdbPaths(t), Paths(mounts));
    } else {
      var f := if WEB_FILE in Paths(mounts) then WEB_FILE else PROBE_FILE;
      var i :| 0 <= i < |mounts| && Paths(mounts)[i] == f;
      var all := TsdbPaths(t) + Paths(mounts);
      assert all[if f == WEB_FILE then 1 else 2] == f == all[|TsdbPaths(t)| + i];
    }
  }

  /** Such an addition passes validation: the validator reserves the directory, not the files. */
  lemma ValidatorMissesTsdbFiles(bindplane: string)
    ensures Acceptable([Volume("extra", {EmptyDir}, 0)], [Mount("extra", WEB_FILE)], {DataVolume(bindplane)})
    ensures !Distinct(TsdbPaths(NoTls) + Paths([Mount("extra", WEB_FILE)]))
  {
    DataVolumeFree(bindplane);
    var vs, ms := [Volume("extra", {EmptyDir}, 0)], [Mount("extra", WEB_FILE)];
    assert EmptyDir in vs[0].sources * {Secret, ConfigMap, Projected, Csi, EmptyDir, DownwardApi};
    assert WEB_FILE[0] == '/' && VolumeNames(vs)[0] == "extra";
    var all := TsdbPaths(NoTls) + Paths(ms);
    assert all[1] == WEB_FILE == all[4];
  }

  /** The last volume of this name. */
  function LastNamed(vs: seq<Volume>, name: string): (v: Volume)
    requires name in VolumeNames(vs)
    ensures v in vs && v.name == name
    decreases |vs|
  {
    if vs[|vs| - 1].name == name then vs[|vs| - 1]
    else
      assert VolumeNames(vs)[..|vs| - 1] == VolumeNames(vs[..|vs| - 1]);
      LastNamed(vs[..|vs| - 1], name)
  }

  /** The names of `names` not in `known`, each where it first occurs. */
  function FirstOccurrences(names: seq<string>, known: seq<string>): seq<string>
  {
    if names == [] then []
    else
      var rest, last := names[..|names| - 1], names[|names| - 1];
      var sofar := FirstOccurrences(rest, known);
      if last in known || last in rest then sofar else sofar + [last]
  }

  lemma TakeOne(vs: seq<Volume>, i: nat)
    requires i < |vs|
    ensures VolumeNames(vs[..i + 1]) == VolumeNames(vs[..i]) + [vs[i].name]
    ensures LastNamed(vs[..i + 1], vs[i].name) == vs[i]
    ensures forall n :: n in VolumeNames(vs[..i]) && n != vs[i].name ==>
              n in VolumeNames(vs[..i + 1]) && LastNamed(vs[..i + 1], n) == LastNamed(vs[..i], n)
  {
    assert vs[..i + 1][..i] == vs[..i];
  }

  lemma FirstOccurrencesSnoc(names: seq<string>, last: string, known: seq<string>)
    ensures FirstOccurrences(names + [last], known) ==
            FirstOccurrences(names, known) + if last in known || last in names then [] else [last]
  {
    assert (names + [last])[..|names|] == names;
  }

  /** The volume a name stands for after merging: the template's last one, else the operator's last one. */
  function Chosen(protected: seq<Volume>, user: seq<Volume>, name: string): (v: Volume)
    requires name in VolumeNames(protected) || name in VolumeNames(user)
    ensures v.name == name
  {
    if name in VolumeNames(user) then LastNamed(user, name) else LastNamed(protected, name)
  }

  ghost predicate Maps(volumeMap: map<string, Volume>, order: seq<string>, protected: seq<Volume>, user: seq<Volume>)
  {
    && order == VolumeNames(protected) + FirstOccurrences(VolumeNames(user), VolumeNames(protected))
    && (forall n :: n in volumeMap <==> n in VolumeNames(protected) || n in VolumeNames(user))
    && (forall n :: n in order ==> n in volumeMap)
    && (forall n :: n in volumeMap ==> volumeMap[n] == Chosen(protected, user, n))
  }

  lemma NothingMapped()
    ensures Maps(map[], [], [], [])
  {}

  lemma MapProtected(volumeMap: map<string, Volume>, order: seq<string>, protected: seq<Volume>, i: nat)
    requires i < |protected| && Maps(volumeMap, order, protected[..i], [])
    ensures Maps(volumeMap[protected[i].name := protected[i]], order + [protected[i].name], protected[..i + 1], [])
  {
    TakeOne(protected, i);
  }

  lemma MapUser(volumeMap: map<string, Volume>, order: seq<string>, protected: seq<Volume>, user: seq<Volume>, i: nat)
    requires i < |user| && Maps(volumeMap, order, protected, user[..i])
    ensures Maps(volumeMap[user[i].name := user[i]],
                 if user[i].name in volumeMap then order else order + [user[i].name], protected, user[..i + 1])
  {
    hide LastNamed, FirstOccurrences;
    TakeOne(user, i);
    FirstOccurrencesSnoc(VolumeNames(user[..i]), user[i].name, VolumeNames(protected));
  }

  lemma Collected(result: seq<Volume>, order: seq<string>, protected: seq<Volume>, user: seq<Volume>)
    requires order == VolumeNames(protected) + FirstOccurrences(VolumeNames(user), VolumeNames(protected))
    requires forall n :: n in order ==> n in VolumeNames(protected) || n in VolumeNames(user)
    requires |result| == |order|
    requires forall j :: 0 <= j < |order| ==> result[j] == Chosen(protected, user, order[j]) && result[j].name == order[j]
    ensures VolumeNames(result) == order
    ensures forall v :: v in result ==> (v.name in VolumeNames(protected) || v.name in VolumeNames(user))
                                        && v == Chosen(protected, user, v.name)
  {
    hide Chosen, FirstOccurrences;
  }

  /** Merges a template's volumes over the operator's by name, through a map and an order list. */
  method MergeVolumes(protected: seq<Volume>, user: seq<Volume>) returns (result: seq<Volume>)
    ensures user == [] ==> result == protected
    ensures user != [] ==>
              VolumeNames(result) == VolumeNames(protected) + FirstOccurrences(VolumeNames(user), VolumeNames(protected))
    ensures user != [] ==>
              forall v :: v in result ==> (v.name in VolumeNames(protected) || v.name in VolumeNames(user))
                                          && v == Chosen(protected, user, v.name)
  {
    hide LastNamed, Chosen, FirstOccurrences;
    if |user| == 0 {
      return protected;
    }
    var volumeMap: map<string, Volume> := map[];
    var order: seq<string> := [];
    NothingMapped();
    for i := 0 to |protected|
      invariant Maps(volumeMap, order, protected[..i], [])
    {
      MapProtected(volumeMap, order, protected, i);
      volumeMap := volumeMap[protected[i].name := protected[i]];
      order := order + [protected[i].name];
    }
    assert protected[..|protected|] == protected;
    for i := 0 to |user|
      invariant Maps(volumeMap, order, protected, user[..i])
    {
      MapUser(volumeMap, order, protected, user, i);
      if user[i].name !in volumeMap {
        order := order + [user[i].name];
      }
      volumeMap := volumeMap[user[i].name := user[i]];
    }
    assert user[..|user|] == user;
    result := [];
    for i := 0 to |order|
      invariant |result| == i
      invariant forall j :: 0 <= j < i ==> result[j] == Chosen(protected, user, order[j]) && result[j].name == order[j]
    {
      result := result + [volumeMap[order[i]]];
    }
    Collected(result, order, protected, user);
  }

  lemma {:induction false} FirstOccurrencesSound(names: seq<string>, known: seq<string>)
    ensures Distinct(FirstOccurrences(names, known))
    ensures forall n :: n in FirstOccurrences(names, known) <==> n in names && n !in known
  {
    if names != [] {
      FirstOccurrencesSound(names[..|names| - 1], known);
      assert forall n :: n in names <==> n in names[..|names| - 1] || n == names[|names| - 1];
    }
  }

  /** Different new names come in the order they are given. */
  lemma {:induction false} NewNamesInOrder(names: seq<string>, known: seq<string>)
    requires Distinct(names) && forall n :: n in names ==> n !in known
    ensures FirstOccurrences(names, known) == names
  {
    if names != [] {
      var rest, last := names[..|names| - 1], names[|names| - 1];
      NewNamesInOrder(rest, known);
      assert names == rest + [last] && last in names && last !in rest;
    }
  }

  /** Merging volumes never drops a name, never repeats one if the operator does not, and keeps
      the operator's order in front, then that of the template where it only brings new names. */
  lemma MergedVolumesSound(protected: seq<Volume>, user: seq<Volume>, merged: seq<string>)
    requires Distinct(VolumeNames(protected))
    requires merged == VolumeNames(protected) + FirstOccurrences(VolumeNames(user), VolumeNames(protected))
    ensures Distinct(merged) && VolumeNames(protected) <= merged
    ensures forall n :: n in merged <==> n in VolumeNames(protected) || n in VolumeNames(user)
    ensures Distinct(VolumeNames(user)) && (forall n :: n in VolumeNames(user) ==> n !in VolumeNames(protected)) ==>
              merged == VolumeNames(protected) + VolumeNames(user)
  {
    if Distinct(VolumeNames(user)) && forall n :: n in VolumeNames(user) ==> n !in VolumeNames(protected) {
      NewNamesInOrder(VolumeNames(user), VolumeNames(protected));
    }
    FirstOccurrencesSound(VolumeNames(user), VolumeNames(protected));
    DistinctConcat(VolumeNames(protected), FirstOccurrences(VolumeNames(user), VolumeNames(protected)));
  }

  // ---------------------------------------------------------------- the rules by example and as a whole

  /** The reserved names are those that some pod of the operator uses, no more and no fewer. */
  lemma ReservedNamesAreUsed(name: string)
    ensures name in RESERVED_NAMES <==>
            (exists t: ConfigTls :: name in ConfigVolumes(t)) || (exists t: TsdbTls :: name in TsdbVolumes(t))
  {
    var all := ConfigTls(true, true, true, true, true, true);
    AllFeatures();
    assert name in RESERVED_NAMES ==>
             name in ConfigVolumes(all) || name in TsdbVolumes(CertManager) || name in TsdbVolumes(UserSecret);
    forall t: ConfigTls ensures name in ConfigVolumes(t) ==> name in RESERVED_NAMES { ConfigReserved(t); }
    forall t: TsdbTls ensures name in TsdbVolumes(t) ==> name in RESERVED_NAMES { TsdbReserved(t); }
  }

  lemma AllFeatures()
    ensures ConfigVolumes(ConfigTls(true, true, true, true, true, true)) == CONFIG_VOLUMES
  {
    PickAll(CONFIG_VOLUMES, Features(ConfigTls(true, true, true, true, true, true)));
  }

  lemma {:induction false} PickAll(items: seq<string>, on: seq<bool>)
    requires |on| == |items| && forall b :: b in on ==> b
    ensures Pick(on, items) == items
  {
    if items != [] {
      assert on[0] in on && forall b :: b in on[1..] ==> b in on;
      PickAll(items[1..], on[1..]);
      assert items == [items[0]] + items[1..];
    }
  }

  lemma {:induction false} PickedIff(on: seq<bool>, items: seq<string>, i: nat)
    requires |on| == |items| && i < |items| && Distinct(items)
    ensures items[i] in Pick(on, items) <==> on[i]
  {
    PickDistinct(on[1..], items[1..]);
    if i == 0 {
      assert items[0] !in items[1..];
    } else {
      PickedIff(on[1..], items[1..], i - 1);
      assert items[i] == items[1..][i - 1] && on[i] == on[1..][i - 1];
    }
  }

  lemma FeaturesApart()
    ensures Distinct(CONFIG_VOLUMES) && Distinct(CONFIG_PATHS)
  {}

  /** Each TLS feature brings its own volume and its own mount, and no other feature does. */
  lemma FeatureVolumes(t: ConfigTls)
    ensures "ldap-tls" in ConfigVolumes(t) <==> t.ldap
    ensures "network-tls" in ConfigVolumes(t) <==> t.network
    ensures "postgres-tls" in ConfigVolumes(t) <==> t.postgres
    ensures "tsdb-remote-write-tls" in ConfigVolumes(t) <==> t.tsdbClient
    ensures "nats-tls" in ConfigVolumes(t) <==> t.nats
    ensures "transform-agent-tls" in ConfigVolumes(t) <==> t.transformAgent
  {
    hide Pick, Distinct;
    FeaturesApart();
    PickedIff(Features(t), CONFIG_VOLUMES, 0);
    PickedIff(Features(t), CONFIG_VOLUMES, 1);
    PickedIff(Features(t), CONFIG_VOLUMES, 2);
    PickedIff(Features(t), CONFIG_VOLUMES, 3);
    PickedIff(Features(t), CONFIG_VOLUMES, 4);
    PickedIff(Features(t), CONFIG_VOLUMES, 5);
    assert CONFIG_VOLUMES[0] == "ldap-tls" && CONFIG_VOLUMES[1] == "network-tls" && CONFIG_VOLUMES[2] == "postgres-tls";
    assert CONFIG_VOLUMES[3] == "tsdb-remote-write-tls" && CONFIG_VOLUMES[4] == "nats-tls";
    assert CONFIG_VOLUMES[5] == "transform-agent-tls";
  }

  lemma FeatureMounts(t: ConfigTls)
    ensures "/etc/bindplane/ldap-tls" in ConfigPaths(t) <==> t.ldap
    ensures "/etc/bindplane/network-tls" in ConfigPaths(t) <==> t.network
    ensures "/etc/bindplane/postgres-tls" in ConfigPaths(t) <==> t.postgres
    ensures "/etc/bindplane/tsdb-remote-write-tls" in ConfigPaths(t) <==> t.tsdbClient
    ensures "/etc/bindplane/nats-tls" in ConfigPaths(t) <==> t.nats
    ensures "/etc/bindplane/transform-agent-tls" in ConfigPaths(t) <==> t.transformAgent
  {
    hide Pick, Distinct;
    FeaturesApart();
    PickedIff(Features(t), CONFIG_PATHS, 0);
    PickedIff(Features(t), CONFIG_PATHS, 1);
    PickedIff(Features(t), CONFIG_PATHS, 2);
    PickedIff(Features(t), CONFIG_PATHS, 3);
    PickedIff(Features(t), CONFIG_PATHS, 4);
    PickedIff(Features(t), CONFIG_PATHS, 5);
    assert CONFIG_PATHS[0] == "/etc/bindplane/ldap-tls" && CONFIG_PATHS[1] == "/etc/bindplane/network-tls";
    assert CONFIG_PATHS[2] == "/etc/bindplane/postgres-tls" && CONFIG_PATHS[3] == "/etc/bindplane/tsdb-remote-write-tls";
    assert CONFIG_PATHS[4] == "/etc/bindplane/nats-tls" && CONFIG_PATHS[5] == "/etc/bindplane/transform-agent-tls";
  }

  /** A host path is never accepted, beside whatever other source; an accepted volume has one of six sources; and each
      of the six is enough. */
  lemma SourceRules(volumes: seq<Volume>, mounts: seq<Mount>, more: set<string>, v: Volume, kind: SourceKind)
    ensures Acceptable(volumes, mounts, more) && v in volumes ==>
              && HostPath !in v.sources
              && exists k :: k in v.sources && k in {Secret, ConfigMap, Projected, Csi, EmptyDir, DownwardApi}
    ensures Acceptable([Volume("data", {kind}, 0)], [], {}) <==>
            kind in {Secret, ConfigMap, Projected, Csi, EmptyDir, DownwardApi}
    ensures !Acceptable([Volume("data", {kind, HostPath}, 0)], [], {})
  {
    var one, two := Volume("data", {kind}, 0), Volume("data", {kind, HostPath}, 0);
    assert one in [one] && two in [two];
    if kind in {Secret, ConfigMap, Projected, Csi, EmptyDir, DownwardApi} {
      assert kind in one.sources * {Secret, ConfigMap, Projected, Csi, EmptyDir, DownwardApi};
    }
    if Acceptable(volumes, mounts, more) && v in volumes {
      var k :| k in v.sources * {Secret, ConfigMap, Projected, Csi, EmptyDir, DownwardApi};
      assert k in v.sources;
    }
  }

  /** Volume names are DNS labels outside the operator's; mount paths are absolute and outside the operator's; the
      operator's own volumes cannot be mounted. */
  lemma NameRules(volumes: seq<Volume>, mounts: seq<Mount>, more: set<string>, v: Volume, m: Mount)
    requires Acceptable(volumes, mounts, more)
    ensures v in volumes ==>
              1 <= |v.name| <= 63 && (forall c :: c in v.name ==> 'a' <= c <= 'z' || '0' <= c <= '9' || c == '-')
              && v.name[0] != '-' && v.name[|v.name| - 1] != '-'
              && v.name !in more && v.name !in {"tsdb-tls", "tsdb-web-config", "nats-tls", "ldap-tls"}
    ensures m in mounts ==>
              m.path != "" && m.path[0] == '/' && m.path !in {"/prometheus", "/etc/prometheus", "/etc/bindplane/nats-tls"}
              && exists u :: u in volumes && u.name == m.name
  {
    if m in mounts {
      var i :| 0 <= i < |volumes| && VolumeNames(volumes)[i] == m.name;
      assert volumes[i] in volumes;
    }
  }

  /** A path is reserved exactly if some pod of the operator mounts something there, except that of the two files below
      /etc/prometheus their directory is reserved instead. */
  lemma ReservedPathsAreUsed(path: string)
    ensures path in RESERVED_PATHS <==>
            path == "/etc/prometheus"
            || (path != "/etc/prometheus/web.yml" && path != "/etc/prometheus/probe-http.yml"
                && ((exists t: ConfigTls :: path in ConfigPaths(t)) || exists t: TsdbTls :: path in TsdbPaths(t)))
  {
    var all := ConfigTls(true, true, true, true, true, true);
    PickAll(CONFIG_PATHS, Features(all));
    assert path in RESERVED_PATHS ==>
             path == "/etc/prometheus" || path in ConfigPaths(all)
             || path in TsdbPaths(CertManager) || path in TsdbPaths(UserSecret);
    FilesNotReserved();
    forall t: ConfigTls ensures path in ConfigPaths(t) ==> path in RESERVED_PATHS { ConfigReserved(t); }
    forall t: TsdbTls ensures path in TsdbPaths(t) ==> path in RESERVED_PATHS + {WEB_FILE, PROBE_FILE} { TsdbReserved(t); }
  }

  lemma FilesNotReserved()
    ensures WEB_FILE !in RESERVED_PATHS && PROBE_FILE !in RESERVED_PATHS
  {
    assert forall p :: p in RESERVED_PATHS ==> p[|p| - 1] != 'l' || p[|p| - 2] != 'm';
  }

  /** Which volume, and which mount of it, is accepted where nothing else is asked for. */
  lemma OneExtra(name: string, path: string)
    ensures Acceptable([Volume(name, {EmptyDir}, 0)], [], {}) <==>
            && 1 <= |name| <= 63 && (forall c :: c in name ==> 'a' <= c <= 'z' || '0' <= c <= '9' || c == '-')
            && name[0] != '-' && name[|name| - 1] != '-' && name !in RESERVED_NAMES
    ensures Acceptable([Volume("data", {EmptyDir}, 0)], [Mount("data", path)], {}) <==>
            path != "" && path[0] == '/' && path !in RESERVED_PATHS
  {
    hide RESERVED_NAMES, RESERVED_PATHS, Acceptable;
    assert name != "" ==> name[0] in name && name[|name| - 1] in name;
    OneVolume(name);
    OneVolume("data");
    DataIsFree();
    OneMount(path);
  }

  lemma DataIsFree()
    ensures "data" !in RESERVED_NAMES
  {}

  lemma OneVolume(name: string)
    ensures Acceptable([Volume(name, {EmptyDir}, 0)], [], {}) <==> IsLabel(name) && name !in RESERVED_NAMES
  {
    hide RESERVED_NAMES, IsLabel;
    var v := Volume(name, {EmptyDir}, 0);
    assert v in [v] && EmptyDir in v.sources * {Secret, ConfigMap, Projected, Csi, EmptyDir, DownwardApi};
  }

  lemma OneMount(path: string)
    ensures Acceptable([Volume("data", {EmptyDir}, 0)], [Mount("data", path)], {})
            <==> Acceptable([Volume("data", {EmptyDir}, 0)], [], {}) && "/" <= path && path !in RESERVED_PATHS
  {
    hide RESERVED_NAMES, RESERVED_PATHS, AcceptableVolume;
    var m, vs := Mount("data", path), [Volume("data", {EmptyDir}, 0)];
    assert m in [m] && VolumeNames(vs)[0] == "data";
  }

  /** Different resources have different data volumes. */
  lemma DataVolumesApart(a: string, b: string)
    requires a != b
    ensures DataVolume(a) != DataVolume(b)
  {
    if |a| == |b| {
      assert DataVolume(a)[..|a|] == a && DataVolume(b)[..|b|] == b;
    }
  }
}
