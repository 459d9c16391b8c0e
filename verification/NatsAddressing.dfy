/** NATS cluster addressing: the routes every server is given, and the DNS names its
    certificate covers (nats.go and cert_manager.go). */
module NatsAddressing {
  import opened Text

  const SCHEME := "nats://"
  const CLUSTER_PORT: nat := 6222
  const CLIENT_PORT: nat := 4222

  /** What the name validator accepts, over ASCII names. */
  predicate ValidName(name: string)
  {
    && 0 < |name| <= 47
    && IsLower(name[0])
    && (IsLower(name[|name| - 1]) || IsDigit(name[|name| - 1]))
    && forall c :: c in name ==> c == '-' || IsLower(c) || IsDigit(c)
  }

  predicate IsLower(c: char) { 'a' <= c <= 'z' }

  predicate IsDigit(c: char) { '0' <= c <= '9' }

  /** A namespace is a DNS label, so it has no separator of the route syntax. */
  predicate ValidNamespace(ns: string)
  {
    forall c :: c in ns ==> c == '-' || IsLower(c) || IsDigit(c)
  }

  function Resource(name: string): string { name + "-nats" }

  function ClientService(name: string): string { Resource(name) + "-client" }

  function ClusterService(name: string): string { Resource(name) + "-cluster" }

  /** The DNS name the headless service gives to the pod with ordinal `i`. */
  function PodHost(name: string, ns: string, i: nat): string
  {
    Resource(name) + "-" + Decimal(i) + "." + ClusterService(name) + "." + ns
  }

  function Route(name: string, ns: string, i: nat): string
  {
    SCHEME + PodHost(name, ns, i) + ":" + Decimal(CLUSTER_PORT)
  }

  function Routes(name: string, ns: string, replicas: nat): (routes: seq<string>)
    ensures |routes| == replicas
    ensures forall i :: 0 <= i < replicas ==> routes[i] == Route(name, ns, i)
  {
    seq(replicas, i requires 0 <= i => Route(name, ns, i))
  }

  function ClientEndpoint(name: string, ns: string): string
  {
    SCHEME + ClientService(name) + "." + ns + ":" + Decimal(CLIENT_PORT)
  }

  /** What a NATS client dials: the part of the URL between the scheme and the port. */
  function HostOf(url: string): string
    requires |SCHEME| <= |url|
  {
    Split(url[|SCHEME|..], ':')[0]
  }

  /** Builds the route list, then writes it with commas, as the operator does. */
  method GetNatsClusterRoutes(name: string, ns: string, replicas: nat) returns (result: string)
    ensures result == Join(Routes(name, ns, replicas), ',')
  {
    var routes: seq<string> := [];
    for i := 0 to replicas
      invariant routes == Routes(name, ns, i)
    {
      RoutesSnoc(name, ns, i);
      routes := routes + [Route(name, ns, i)];
    }
    result := "";
    for i := 0 to |routes|
      invariant result == Join(routes[..i], ',')
    {
      JoinTake(routes, i, ',');
      if i > 0 {
        result := result + [','];
      }
      result := result + routes[i];
    }
    assert routes[..|routes|] == routes;
  }

  lemma RoutesSnoc(name: string, ns: string, i: nat)
    ensures Routes(name, ns, i + 1) == Routes(name, ns, i) + [Route(name, ns, i)]
  {}

  lemma JoinTake(parts: seq<string>, i: nat, sep: char)
    requires i < |parts|
    ensures Join(parts[..i + 1], sep) == (if i == 0 then "" else Join(parts[..i], sep) + [sep]) + parts[i]
  {
    JoinSnoc(parts[..i], parts[i], sep);
    assert parts[..i + 1] == parts[..i] + [parts[i]];
  }

  lemma {:induction false} JoinSnoc(parts: seq<string>, last: string, sep: char)
    ensures Join(parts + [last], sep) == if parts == [] then last else Join(parts, sep) + [sep] + last
  {
    if parts == [] {
    } else if |parts| == 1 {
      assert (parts + [last])[1..] == [last];
    } else {
      assert (parts + [last])[1..] == parts[1..] + [last];
      JoinSnoc(parts[1..], last, sep);
    }
  }

  /** The certificate's DNS names for `replicas` servers, in the order they are written. */
  method GetNatsServerCertDNSNames(name: string, ns: string, replicas: nat) returns (names: seq<string>)
    ensures forall h :: h in names <==> Covered(name, ns, replicas, h)
  {
    var client, headless := ClientService(name), ClusterService(name);
    names := [client + "." + ns, client + "." + ns + ".svc.cluster.local", client + "." + ns + ".svc",
              headless + "." + ns, headless + "." + ns + ".svc.cluster.local", headless + "." + ns + ".svc",
              "localhost"];
    ghost var fixed := names;
    for i := 0 to replicas
      invariant forall h :: h in names <==> h in fixed || PodCovered(name, ns, i, h)
    {
      names := names + [PodHost(name, ns, i)];
      names := names + [PodHost(name, ns, i) + ".svc.cluster.local"];
    }
  }

  predicate PodCovered(name: string, ns: string, replicas: nat, host: string)
  {
    exists i :: 0 <= i < replicas && (host == PodHost(name, ns, i) || host == PodHost(name, ns, i) + ".svc.cluster.local")
  }

  /** The hosts the certificate speaks for: both services in three forms, localhost, and two
      forms of every pod's name. */
  predicate Covered(name: string, ns: string, replicas: nat, host: string)
  {
    || host in {ClientService(name) + "." + ns, ClusterService(name) + "." + ns}
    || host in {ClientService(name) + "." + ns + ".svc", ClusterService(name) + "." + ns + ".svc"}
    || host in {ClientService(name) + "." + ns + ".svc.cluster.local",
                ClusterService(name) + "." + ns + ".svc.cluster.local"}
    || host == "localhost"
    || PodCovered(name, ns, replicas, host)
  }

  lemma PodHostPlain(name: string, ns: string, i: nat, c: char)
    requires ValidName(name) && ValidNamespace(ns) && c in {',', ':'}
    ensures c !in PodHost(name, ns, i) && c !in ClientService(name) + "." + ns
  {
    assert forall d :: d in Decimal(i) ==> '0' <= d <= '9';
  }

  lemma HostOfUrl(host: string, port: nat)
    requires ':' !in host
    ensures HostOf(SCHEME + host + ":" + Decimal(port)) == host
  {
    var url := SCHEME + host + ":" + Decimal(port);
    assert url[|SCHEME|..] == host + [':'] + Decimal(port);
    SplitFirst(host, Decimal(port), ':');
  }

  lemma PodHostInjective(name: string, ns: string, i: nat, j: nat)
    requires PodHost(name, ns, i) == PodHost(name, ns, j)
    ensures i == j
  {
    var pre, post := Resource(name) + "-", "." + ClusterService(name) + "." + ns;
    assert PodHost(name, ns, i) == pre + Decimal(i) + post;
    assert PodHost(name, ns, j) == pre + Decimal(j) + post;
    var h := PodHost(name, ns, i);
    assert h[|pre|..|h| - |post|] == Decimal(i);
    assert h[|pre|..|h| - |post|] == Decimal(j);
    DecimalInjective(i, j);
  }

  /** A server that splits its route list at commas gets exactly the routes of the replicas, in
      ordinal order. */
  lemma RoutesSplit(name: string, ns: string, replicas: nat)
    requires ValidName(name) && ValidNamespace(ns) && replicas >= 1
    ensures Split(Join(Routes(name, ns, replicas), ','), ',') == Routes(name, ns, replicas)
  {
    var list := Routes(name, ns, replicas);
    forall p | p in list
      ensures ',' !in p
    {
      var i :| 0 <= i < replicas && p == list[i];
      PodHostPlain(name, ns, i, ',');
    }
    SplitJoin(list, ',');
  }

  /** The route for ordinal `i` dials that pod, and the certificate covers it. */
  lemma RouteCovered(name: string, ns: string, replicas: nat, i: nat)
    requires ValidName(name) && ValidNamespace(ns) && i < replicas
    ensures HostOf(Route(name, ns, i)) == PodHost(name, ns, i)
    ensures Covered(name, ns, replicas, HostOf(Route(name, ns, i)))
  {
    PodHostPlain(name, ns, i, ':');
    HostOfUrl(PodHost(name, ns, i), CLUSTER_PORT);
    assert PodCovered(name, ns, replicas, PodHost(name, ns, i));
  }

  /** No two ordinals share a route. */
  lemma RouteInjective(name: string, ns: string, i: nat, j: nat)
    requires ValidName(name) && ValidNamespace(ns) && Route(name, ns, i) == Route(name, ns, j)
    ensures i == j
  {
    RouteCovered(name, ns, i + 1, i);
    RouteCovered(name, ns, j + 1, j);
    PodHostInjective(name, ns, i, j);
  }

  /** What a NATS server reads from its route list and what its certificate covers agree: one
      route per replica in ordinal order, pairwise distinct, each to a covered host. */
  lemma RoutesMatchCertificate(name: string, ns: string, replicas: nat, routes: seq<string>)
    requires ValidName(name) && ValidNamespace(ns) && replicas >= 1
    requires routes == Split(Join(Routes(name, ns, replicas), ','), ',')
    ensures |routes| == replicas
    ensures forall i :: 0 <= i < replicas ==>
              |SCHEME| <= |routes[i]| && HostOf(routes[i]) == PodHost(name, ns, i)
              && Covered(name, ns, replicas, HostOf(routes[i]))
    ensures forall i, j :: 0 <= i < j < replicas ==> routes[i] != routes[j]
  {
    RoutesSplit(name, ns, replicas);
    forall i | 0 <= i < replicas
      ensures HostOf(routes[i]) == PodHost(name, ns, i) && Covered(name, ns, replicas, HostOf(routes[i]))
    {
      RouteCovered(name, ns, replicas, i);
    }
    forall i, j | 0 <= i < j < replicas
      ensures routes[i] != routes[j]
    {
      if routes[i] == routes[j] {
        RouteInjective(name, ns, i, j);
      }
    }
  }

  /** The endpoint NATS clients dial is covered too. */
  lemma ClientEndpointCovered(name: string, ns: string, replicas: nat)
    requires ValidName(name) && ValidNamespace(ns)
    ensures Covered(name, ns, replicas, HostOf(ClientEndpoint(name, ns)))
  {
    PodHostPlain(name, ns, 0, ':');
    HostOfUrl(ClientService(name) + "." + ns, CLIENT_PORT);
    assert ClientEndpoint(name, ns) == SCHEME + (ClientService(name) + "." + ns) + ":" + Decimal(CLIENT_PORT);
  }

  /** The text itself: a server is dialled under its pod's name within the cluster service at port 6222, clients dial
      the client service at port 4222. */
  lemma AddressText(name: string, ns: string, i: nat)
    ensures PodHost(name, ns, i) == name + "-nats-" + Decimal(i) + "." + name + "-nats-cluster." + ns
    ensures Route(name, ns, i) == "nats://" + PodHost(name, ns, i) + ":6222"
    ensures ClientEndpoint(name, ns) == "nats://" + name + "-nats-client." + ns + ":4222"
  {
    hide Decimal;
    Ports();
    PodHostText(name, ns, Decimal(i));
    assert ":" + "6222" == ":6222" && ":" + "4222" == ":4222";
    EndpointText(name, ns);
  }

  lemma PodHostText(name: string, ns: string, ordinal: string)
    ensures Resource(name) + "-" + ordinal + "." + ClusterService(name) + "." + ns
            == name + "-nats-" + ordinal + "." + name + "-nats-cluster." + ns
  {
    assert Resource(name) + "-" == name + "-nats-";
    assert name + "-nats-" + ordinal + "." + ClusterService(name) == name + "-nats-" + ordinal + "." + name + "-nats-cluster";
  }

  lemma EndpointText(name: string, ns: string)
    ensures SCHEME + ClientService(name) + "." + ns + ":4222" == "nats://" + name + "-nats-client." + ns + ":4222"
  {
    assert SCHEME + ClientService(name) + "." == "nats://" + name + "-nats-client.";
  }

  lemma Ports()
    ensures Decimal(6222) == "6222" && Decimal(4222) == "4222"
  {
    assert Decimal(6) == "6" && Decimal(62) == "62" && Decimal(622) == "622";
    assert Decimal(4) == "4" && Decimal(42) == "42" && Decimal(422) == "422";
  }

  /** An accepted name is a DNS label that starts with a letter, short enough for the longest component suffix. */
  lemma NameRules(name: string)
    ensures ValidName(name) ==> |name + "-transform-agent"| <= 63 && 'a' <= name[0] <= 'z' && name[|name| - 1] != '-'
    ensures ValidName("b") && ValidName("bindplane-2")
    ensures !ValidName("") && !ValidName("2b") && !ValidName("b-") && !ValidName("B")
    ensures |name| == 47 && (forall c :: c in name ==> 'a' <= c <= 'z') ==> ValidName(name)
  {
    if |name| == 47 {
      assert name[0] in name && name[46] in name;
    }
  }
}
