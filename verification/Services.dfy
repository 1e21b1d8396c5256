/** Kubernetes services of a compose service (internal/convert/service.go). */
module Services {
  import opened Wrappers
  import opened Text
  import C = Compose
  import K = Kube
  import Pods

  const PUBLISHED_SUFFIX := "-published"
  const RANDOM_PORTS_SUFFIX := "-random-ports"
  const HEADLESS_PORT_NAME := "headless"
  const HEADLESS_PORT := 55555

  /** Which kind of service publishes ports. */
  datatype Strategy = LoadBalancerStrategy | NodePortStrategy

  function PublishedKind(strategy: Strategy): string {
    match strategy case LoadBalancerStrategy => K.LOAD_BALANCER case NodePortStrategy => K.NODE_PORT
  }

  function Lower(s: string): (r: string)
    ensures |r| == |s|
    ensures forall i :: 0 <= i < |s| ==>
              if 'A' <= s[i] <= 'Z' then 'a' <= r[i] <= 'z' && (r[i] - 'a') as int == (s[i] - 'A') as int
              else r[i] == s[i]
  {
    seq(|s|, i requires 0 <= i < |s| => if 'A' <= s[i] <= 'Z' then s[i] - 'A' + 'a' else s[i])
  }

  function FindPortOrDefault(ports: seq<K.ServicePort>, name: string): (p: K.ServicePort)
    ensures p.name == name && (p in ports || forall q :: q in ports ==> q.name != name)
  {
    if ports == [] then K.ServicePort(name, 0, 0, 0, "")
    else if ports[0].name == name then ports[0]
    else FindPortOrDefault(ports[1..], name)
  }

  /** "80-tcp": the number the port is published under, or its target when that is left open. */
  function PortName(c: C.Port): string {
    FormatNat(if c.published != 0 then c.published else c.target) + "-" + (if c.protocol == "udp" then "udp" else "tcp")
  }

  /** convertServicePort of both strategies, for the service the port belongs to. */
  function ConvertPort(strategy: Strategy, c: C.Port, original: seq<K.ServicePort>): K.ServicePort {
    var p := FindPortOrDefault(original, PortName(c));
    var q := p.(protocol := Pods.ToProtocol(c.protocol), targetPort := c.target);
    if c.published == 0 then q.(port := C.ToInt32(c.target))
    else match strategy
    case LoadBalancerStrategy => q.(port := C.ToInt32(c.published))
    case NodePortStrategy => q.(port := C.ToInt32(c.target), nodePort := C.ToInt32(c.published))
  }

  /** The ports published under a number, or those left to the cluster. */
  function Select(ports: seq<C.Port>, published: bool): (r: seq<C.Port>)
    ensures forall i :: 0 <= i < |r| ==> (r[i].published != 0) == published
  {
    if ports == [] then []
    else
      var n := |ports| - 1;
      var before := Select(ports[..n], published);
      if (ports[n].published != 0) == published then before + [ports[n]] else before
  }

  function ConvertPorts(strategy: Strategy, selected: seq<C.Port>, original: seq<K.ServicePort>): seq<K.ServicePort> {
    seq(|selected|, i requires 0 <= i < |selected| => ConvertPort(strategy, selected[i], original))
  }

  // ----- What a generated port is -----

  predicate FirstNamed(ports: seq<K.ServicePort>, name: string, i: nat) {
    i < |ports| && ports[i].name == name && forall j :: 0 <= j < i ==> ports[j].name != name
  }

  /** The node port the stored service has under that name, 0 if it has none. */
  ghost predicate StoredNodePort(stored: seq<K.ServicePort>, name: string, nodePort: int) {
    if exists i: nat :: FirstNamed(stored, name, i)
    then exists i: nat :: FirstNamed(stored, name, i) && nodePort == stored[i].nodePort
    else nodePort == 0
  }

  /**
  The service port of a compose port.  A port published under a number listens on it, as the load
  balancer's port or as a node port; other node ports are the stored ones.
  */
  ghost predicate PortFor(strategy: Strategy, c: C.Port, stored: seq<K.ServicePort>, p: K.ServicePort) {
    var number, udp := if c.published != 0 then c.published else c.target, c.protocol == "udp";
    && p.name == FormatNat(number) + (if udp then "-udp" else "-tcp")
    && p.protocol == (if udp then "UDP" else "TCP")
    && p.targetPort == c.target
    && p.port == C.ToInt32(if strategy.LoadBalancerStrategy? then number else c.target)
    && if strategy.NodePortStrategy? && c.published != 0 then p.nodePort == C.ToInt32(c.published)
       else StoredNodePort(stored, p.name, p.nodePort)
  }

  lemma {:induction false} FindPortStored(ports: seq<K.ServicePort>, name: string)
    ensures StoredNodePort(ports, name, FindPortOrDefault(ports, name).nodePort)
  {
    if ports != [] {
      if ports[0].name == name {
        assert FirstNamed(ports, name, 0);
      } else {
        FindPortStored(ports[1..], name);
        var found := FindPortOrDefault(ports, name).nodePort;
        if i: nat :| FirstNamed(ports[1..], name, i) && found == ports[1..][i].nodePort {
          assert FirstNamed(ports, name, i + 1) by {
            assert forall j :: 0 < j < i + 1 ==> ports[j] == ports[1..][j - 1];
          }
        }
        if i: nat :| FirstNamed(ports, name, i) {
          assert ports[i] == ports[1..][i - 1];
          assert FirstNamed(ports[1..], name, i - 1) by {
            assert forall j :: 0 <= j < i - 1 ==> ports[1..][j] == ports[j + 1];
          }
        }
      }
    }
  }

  lemma ConvertedPort(strategy: Strategy, c: C.Port, stored: seq<K.ServicePort>)
    ensures PortFor(strategy, c, stored, ConvertPort(strategy, c, stored))
  {
    FindPortStored(stored, PortName(c));
    var number := FormatNat(if c.published != 0 then c.published else c.target);
    assert number + "-" + "udp" == number + "-udp";
    assert number + "-" + "tcp" == number + "-tcp";
  }

  /** The positions, in order, of the ports published under a number, or of the others. */
  function PublishedAt(ports: seq<C.Port>, published: bool): (at: seq<nat>)
    ensures forall i, j :: 0 <= i < j < |at| ==> at[i] < at[j]
    ensures forall n: nat :: n in at <==> n < |ports| && (ports[n].published != 0) == published
  {
    if ports == [] then []
    else
      var n := |ports| - 1;
      var before := PublishedAt(ports[..n], published);
      assert forall i :: 0 <= i < |before| ==> before[i] in before;
      if (ports[n].published != 0) == published then before + [n] else before
  }

  /** One service port for each of these compose ports, in order. */
  ghost predicate PortsFor(strategy: Strategy, ports: seq<C.Port>, published: bool, stored: seq<K.ServicePort>,
                           r: seq<K.ServicePort>) {
    var at := PublishedAt(ports, published);
    |r| == |at| && forall k :: 0 <= k < |at| ==> at[k] < |ports| && PortFor(strategy, ports[at[k]], stored, r[k])
  }

  lemma {:induction false} SelectedAt(ports: seq<C.Port>, published: bool)
    ensures var at, r := PublishedAt(ports, published), Select(ports, published);
            |r| == |at| && forall k :: 0 <= k < |at| ==> at[k] < |ports| && r[k] == ports[at[k]]
  {
    if ports != [] {
      SelectedAt(ports[..|ports| - 1], published);
    }
  }

  lemma ConvertedPorts(strategy: Strategy, ports: seq<C.Port>, published: bool, stored: seq<K.ServicePort>)
    ensures PortsFor(strategy, ports, published, stored, ConvertPorts(strategy, Select(ports, published), stored))
  {
    SelectedAt(ports, published);
    var at, selected := PublishedAt(ports, published), Select(ports, published);
    forall k | 0 <= k < |at|
      ensures PortFor(strategy, ports[at[k]], stored, ConvertPorts(strategy, selected, stored)[k])
    {
      ConvertedPort(strategy, ports[at[k]], stored);
    }
  }

  /** The loop of toServices: every port goes to one of the two lists, in order. */
  method SplitPorts(strategy: Strategy, ports: seq<C.Port>, originalPublished: seq<K.ServicePort>,
                    originalRandom: seq<K.ServicePort>)
    returns (published: seq<K.ServicePort>, random: seq<K.ServicePort>)
    ensures published == ConvertPorts(strategy, Select(ports, true), originalPublished)
    ensures random == ConvertPorts(strategy, Select(ports, false), originalRandom)
    ensures PortsFor(strategy, ports, true, originalPublished, published)
    ensures PortsFor(strategy, ports, false, originalRandom, random)
  {
    published, random := [], [];
    for i := 0 to |ports|
      invariant published == ConvertPorts(strategy, Select(ports[..i], true), originalPublished)
      invariant random == ConvertPorts(strategy, Select(ports[..i], false), originalRandom)
    {
      assert ports[..i + 1][..i] == ports[..i];
      if ports[i].published != 0 {
        published := published + [ConvertPort(strategy, ports[i], originalPublished)];
      } else {
        random := random + [ConvertPort(strategy, ports[i], originalRandom)];
      }
    }
    assert ports[..|ports|] == ports;
    ConvertedPorts(strategy, ports, true, originalPublished);
    ConvertedPorts(strategy, ports, false, originalRandom);
  }

  predicate UseHeadless(srv: C.Service) {
    srv.internalServiceType == "Headless" || (srv.internalServiceType == "" && srv.internalPorts == [])
  }

  function InternalPorts(srv: C.Service): seq<K.ServicePort> {
    if UseHeadless(srv) then [K.ServicePort(HEADLESS_PORT_NAME, HEADLESS_PORT, HEADLESS_PORT, 0, "TCP")]
    else seq(|srv.internalPorts|, i requires 0 <= i < |srv.internalPorts| =>
               var p := srv.internalPorts[i];
               K.ServicePort(FormatInt(p.port) + "-" + Lower(p.protocol), p.port, p.port, 0, p.protocol))
  }

  function ToInternalSpec(srv: C.Service, selector: map<string, string>, original: K.ServiceSpec): K.ServiceSpec {
    original.(
      selector := selector,
      clusterIP := if UseHeadless(srv) then K.CLUSTER_IP_NONE
                   else if original.clusterIP == K.CLUSTER_IP_NONE then "" else original.clusterIP,
      ports := InternalPorts(srv))
  }

  function ToExposedSpec(kind: string, ports: seq<K.ServicePort>, selector: map<string, string>,
                         original: K.ServiceSpec): K.ServiceSpec {
    original.(kind := kind, selector := selector, ports := ports)
  }

  /** The spec of the -published or the -random-ports service, when it has ports. */
  function ToExposed(strategy: Strategy, srv: C.Service, published: bool, selector: map<string, string>,
                     original: K.ServiceSpec)
    : Option<K.ServiceSpec>
  {
    var ports := ConvertPorts(strategy, Select(srv.ports, published), original.ports);
    if ports == [] then None
    else Some(ToExposedSpec(if published then PublishedKind(strategy) else K.NODE_PORT, ports, selector, original))
  }

  // ----- What a generated service is -----

  /** The published service has the type of the strategy, the other one is a NodePort. */
  ghost predicate ExposedFor(strategy: Strategy, srv: C.Service, published: bool, selector: map<string, string>,
                             stored: K.ServiceSpec, spec: K.ServiceSpec) {
    && spec.kind == (if published && strategy.LoadBalancerStrategy? then "LoadBalancer" else "NodePort")
    && spec.selector == selector
    && PortsFor(strategy, srv.ports, published, stored.ports, spec.ports)
    && spec.clusterIP == stored.clusterIP && spec.rest == stored.rest
  }

  lemma ExposedMeans(strategy: Strategy, srv: C.Service, published: bool, selector: map<string, string>,
                     stored: K.ServiceSpec)
    ensures var spec := ToExposed(strategy, srv, published, selector, stored);
            && (spec.Some? <==> exists c :: c in srv.ports && (c.published != 0) == published)
            && (spec.Some? ==> ExposedFor(strategy, srv, published, selector, stored, spec.value))
  {
    ConvertedPorts(strategy, srv.ports, published, stored.ports);
    SelectedAt(srv.ports, published);
    var at := PublishedAt(srv.ports, published);
    if at != [] {
      assert at[0] in at && srv.ports[at[0]] in srv.ports;
    }
    if c :| c in srv.ports && (c.published != 0) == published {
      var n :| 0 <= n < |srv.ports| && srv.ports[n] == c;
      assert n in at;
    }
  }

  predicate InternalPortFor(c: C.InternalPort, p: K.ServicePort) {
    && p.name == FormatInt(c.port) + "-" + Lower(c.protocol)
    && p.port == c.port && p.targetPort == c.port && p.nodePort == 0 && p.protocol == c.protocol
  }

  /**
  A service for traffic inside the stack: headless with a dummy port if asked, or if the choice is
  open and there are no internal ports; else with a cluster IP and one port per internal port.
  */
  ghost predicate InternalFor(srv: C.Service, selector: map<string, string>, stored: K.ServiceSpec,
                              spec: K.ServiceSpec) {
    && spec.kind == stored.kind && spec.rest == stored.rest && spec.selector == selector
    && if srv.internalServiceType == "Headless" || (srv.internalServiceType == "" && |srv.internalPorts| == 0) then
         && spec.clusterIP == "None"
         && spec.ports == [K.ServicePort("headless", 55555, 55555, 0, "TCP")]
       else
         && spec.clusterIP == (if stored.clusterIP == "None" then "" else stored.clusterIP)
         && |spec.ports| == |srv.internalPorts|
         && forall i :: 0 <= i < |srv.internalPorts| ==> InternalPortFor(srv.internalPorts[i], spec.ports[i])
  }

  lemma InternalMeans(srv: C.Service, selector: map<string, string>, stored: K.ServiceSpec)
    ensures InternalFor(srv, selector, stored, ToInternalSpec(srv, selector, stored))
  {
  }

  // ----- What the server may do to a submitted service -----

  predicate ExposedKind(kind: string) { kind == K.NODE_PORT || kind == K.LOAD_BALANCER }

  predicate AdmitsPort(kind: string, p: K.ServicePort, stored: K.ServicePort) {
    && stored == p.(nodePort := stored.nodePort)
    && (stored.nodePort == p.nodePort || (p.nodePort == 0 && ExposedKind(kind)))
  }

  /** An empty type defaults to ClusterIP, an empty cluster IP is allocated, and exposed services get node ports. */
  ghost predicate AdmitsService(s: K.ServiceSpec, stored: K.ServiceSpec) {
    && stored == s.(kind := stored.kind, clusterIP := stored.clusterIP, ports := stored.ports, rest := stored.rest)
    && (stored.kind == s.kind || (s.kind == "" && stored.kind == "ClusterIP"))
    && (stored.clusterIP == s.clusterIP || (s.clusterIP == "" && stored.clusterIP != K.CLUSTER_IP_NONE))
    && |stored.ports| == |s.ports|
    && (forall i :: 0 <= i < |s.ports| ==> AdmitsPort(s.kind, s.ports[i], stored.ports[i]))
  }

  // ----- Converting what the server stored changes nothing -----

  lemma InternalSettles(srv: C.Service, selector: map<string, string>, original: K.ServiceSpec, stored: K.ServiceSpec)
    requires !ExposedKind(original.kind)
    requires AdmitsService(ToInternalSpec(srv, selector, original), stored)
    ensures ToInternalSpec(srv, selector, stored) == stored
  {
    var d := ToInternalSpec(srv, selector, original);
    assert forall i :: 0 <= i < |d.ports| ==> AdmitsPort(d.kind, d.ports[i], stored.ports[i]);
    assert stored.ports == d.ports;
  }

  /**
  The internal service settles after one write, whatever the server fills in, exactly when the
  stored service is not of a type that gets node ports, or it has no port.
  */
  lemma InternalSettlesIff(srv: C.Service, selector: map<string, string>, original: K.ServiceSpec)
    ensures (forall stored :: AdmitsService(ToInternalSpec(srv, selector, original), stored) ==>
                ToInternalSpec(srv, selector, stored) == stored)
            <==> !ExposedKind(original.kind) || InternalPorts(srv) == []
  {
    var d := ToInternalSpec(srv, selector, original);
    if !ExposedKind(original.kind) {
      forall stored | AdmitsService(d, stored) ensures ToInternalSpec(srv, selector, stored) == stored {
        InternalSettles(srv, selector, original, stored);
      }
    } else if InternalPorts(srv) == [] {
      forall stored | AdmitsService(d, stored) ensures ToInternalSpec(srv, selector, stored) == stored {
        assert stored.ports == d.ports == [];
      }
    } else {
      assert d.ports[0].nodePort == 0;
      var stored := d.(ports := d.ports[0 := d.ports[0].(nodePort := 30000)]);
      forall i | 0 <= i < |d.ports| ensures AdmitsPort(d.kind, d.ports[i], stored.ports[i]) {
      }
      assert AdmitsService(d, stored);
      assert ToInternalSpec(srv, selector, stored).ports[0] != stored.ports[0];
    }
  }

  predicate DistinctPortNames(selected: seq<C.Port>) {
    forall i, j :: 0 <= i < j < |selected| ==> PortName(selected[i]) != PortName(selected[j])
  }

  lemma {:induction false} FindAt(ports: seq<K.ServicePort>, i: nat)
    requires i < |ports| && forall j :: 0 <= j < i ==> ports[j].name != ports[i].name
    ensures FindPortOrDefault(ports, ports[i].name) == ports[i]
  {
    if i > 0 {
      assert ports[1..][i - 1] == ports[i];
      FindAt(ports[1..], i - 1);
    }
  }

  lemma OnePortSettles(strategy: Strategy, c: C.Port, kind: string, original: seq<K.ServicePort>,
                       stored: seq<K.ServicePort>, p: K.ServicePort)
    requires AdmitsPort(kind, ConvertPort(strategy, c, original), p)
    requires FindPortOrDefault(stored, PortName(c)) == p
    ensures ConvertPort(strategy, c, stored) == p
  {
    if c.published != 0 {
      assert C.ToInt32(c.published) != 0;
    }
  }

  lemma AdmittedName(strategy: Strategy, c: C.Port, kind: string, original: seq<K.ServicePort>, p: K.ServicePort)
    requires AdmitsPort(kind, ConvertPort(strategy, c, original), p)
    ensures p.name == PortName(c)
  {
  }

  lemma PortsSettle(strategy: Strategy, selected: seq<C.Port>, kind: string, original: seq<K.ServicePort>,
                    stored: seq<K.ServicePort>)
    requires DistinctPortNames(selected) && |stored| == |selected|
    requires forall i :: 0 <= i < |selected| ==> AdmitsPort(kind, ConvertPort(strategy, selected[i], original),
                                                            stored[i])
    ensures ConvertPorts(strategy, selected, stored) == stored
  {
    forall i | 0 <= i < |stored| ensures stored[i].name == PortName(selected[i]) {
      AdmittedName(strategy, selected[i], kind, original, stored[i]);
    }
    forall i | 0 <= i < |stored| ensures ConvertPort(strategy, selected[i], stored) == stored[i] {
      FindAt(stored, i);
      OnePortSettles(strategy, selected[i], kind, original, stored, stored[i]);
    }
  }

  lemma ExposedSettles(strategy: Strategy, srv: C.Service, published: bool, selector: map<string, string>,
                       original: K.ServiceSpec, stored: K.ServiceSpec)
    requires DistinctPortNames(Select(srv.ports, published))
    requires var d := ToExposed(strategy, srv, published, selector, original); d.Some? && AdmitsService(d.value, stored)
    ensures ToExposed(strategy, srv, published, selector, stored) == Some(stored)
  {
    var d := ToExposed(strategy, srv, published, selector, original).value;
    var selected := Select(srv.ports, published);
    assert d.ports == ConvertPorts(strategy, selected, original.ports);
    forall i | 0 <= i < |selected|
      ensures AdmitsPort(d.kind, ConvertPort(strategy, selected[i], original.ports), stored.ports[i])
    {
      assert d.ports[i] == ConvertPort(strategy, selected[i], original.ports);
    }
    PortsSettle(strategy, selected, d.kind, original.ports, stored.ports);
  }

  /** Whether a service is exposed does not depend on what is stored. */
  lemma ExposedIgnoresOriginal(strategy: Strategy, srv: C.Service, published: bool, selector: map<string, string>,
                               a: K.ServiceSpec, b: K.ServiceSpec)
    ensures ToExposed(strategy, srv, published, selector, a).Some? <==>
              ToExposed(strategy, srv, published, selector, b).Some?
  {
  }
}
