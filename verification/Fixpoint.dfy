/**
The reconcile fixpoint: after a reconcile that reported no error, the next one finds nothing to
do (reconcileChildren in internal/controller/stackreconciler.go:135-159).
*/
module Fixpoint {
  import opened Wrappers
  import opened Kube
  import opened Diff
  import C = Compose
  import Cluster
  import Convert
  import Equality
  import Labels
  import P = Platform
  import Pods
  import Services
  import Volumes

  // ----- What the server may do to a submitted object -----

  /** A strategy the converter left empty may be defaulted. */
  predicate AdmitsStrategy(s: Strategy, stored: Strategy) { stored == s || s.kind == "" }

  ghost predicate AdmitsDeployment(s: DeploymentSpec, stored: DeploymentSpec) {
    && stored == s.(template := stored.template, strategy := stored.strategy, rest := stored.rest)
    && Pods.AdmitsTemplate(s.template, stored.template)
    && AdmitsStrategy(s.strategy, stored.strategy)
  }

  ghost predicate AdmitsStatefulSet(s: StatefulSetSpec, stored: StatefulSetSpec) {
    && stored == s.(template := stored.template, updateStrategy := stored.updateStrategy, claims := stored.claims,
                    rest := stored.rest)
    && Pods.AdmitsTemplate(s.template, stored.template)
    && AdmitsStrategy(s.updateStrategy, stored.updateStrategy)
    && Volumes.AdmitsClaims(s.claims, stored.claims)
  }

  ghost predicate AdmitsDaemonSet(s: DaemonSetSpec, stored: DaemonSetSpec) {
    stored == s.(template := stored.template, rest := stored.rest) && Pods.AdmitsTemplate(s.template, stored.template)
  }

  ghost predicate Admissible(servers: Cluster.Servers) {
    && (forall t: nat, s :: AdmitsDeployment(s, servers.deployments.admit(t, s)))
    && (forall t: nat, s :: AdmitsStatefulSet(s, servers.statefulsets.admit(t, s)))
    && (forall t: nat, s :: AdmitsDaemonSet(s, servers.daemonsets.admit(t, s)))
    && (forall t: nat, s :: Services.AdmitsService(s, servers.services.admit(t, s)))
  }

  /** Allocating a cluster IP and, for exposed types, node ports, where none is given. */
  function Allocated(ip: nat -> string, port: (nat, nat) -> int, t: nat, s: ServiceSpec): ServiceSpec {
    var exposed := Services.ExposedKind(s.kind);
    s.(clusterIP := if s.clusterIP == "" then ip(t) else s.clusterIP,
       ports := seq(|s.ports|, i requires 0 <= i < |s.ports| =>
                  if exposed && s.ports[i].nodePort == 0 then s.ports[i].(nodePort := port(t, i)) else s.ports[i]))
  }

  function Verbatim<S(==)>(): Cluster.Server<S> {
    Cluster.Server((t: nat, s: S) => s, (was: Object<S>, o: Object<S>) => was.spec != o.spec, (t: nat) => false)
  }

  /** A server that stores workloads as submitted and services with what it allocates. */
  function AllocatingServers(ip: nat -> string, port: (nat, nat) -> int): Cluster.Servers {
    Cluster.Servers(Verbatim(), Verbatim(), Verbatim(),
                    Verbatim<ServiceSpec>().(admit := (t: nat, s: ServiceSpec) => Allocated(ip, port, t, s)))
  }

  lemma AllocatedAdmitted(ip: nat -> string, port: (nat, nat) -> int, t: nat, s: ServiceSpec)
    requires ip(t) != CLUSTER_IP_NONE
    ensures Services.AdmitsService(s, Allocated(ip, port, t, s))
  {
    var stored := Allocated(ip, port, t, s);
    forall i | 0 <= i < |s.ports| ensures Services.AdmitsPort(s.kind, s.ports[i], stored.ports[i]) {
      assert s.ports[i] == s.ports[i].(nodePort := s.ports[i].nodePort);
    }
  }

  lemma VerbatimAdmitted(d: DeploymentSpec, s: StatefulSetSpec, g: DaemonSetSpec)
    ensures AdmitsDeployment(d, d) && AdmitsStatefulSet(s, s) && AdmitsDaemonSet(g, g)
  {
  }

  /**
  Whatever addresses and ports it hands out, this server is one of those the fixpoint is proved for,
  and it refuses nothing.
  */
  lemma AllocatingServerAdmissible(ip: nat -> string, port: (nat, nat) -> int)
    requires forall t :: ip(t) != CLUSTER_IP_NONE
    ensures Admissible(AllocatingServers(ip, port)) && Cluster.Willing(AllocatingServers(ip, port))
  {
    forall d, s, g ensures AdmitsDeployment(d, d) && AdmitsStatefulSet(s, s) && AdmitsDaemonSet(g, g) {
      VerbatimAdmitted(d, s, g);
    }
    forall t: nat, s ensures Services.AdmitsService(s, AllocatingServers(ip, port).services.admit(t, s)) {
      AllocatedAdmitted(ip, port, t, s);
    }
  }

  // ----- Converting a stored workload gives an equal one -----

  lemma UnpinnedEqual(srv: C.Service, t: PodTemplate)
    requires Pods.OnlyPinned(srv, t)
    ensures Equality.EqualTemplate(t, Pods.Unpinned(srv, t))
  {
    Equality.EqualTemplateIff(t, Pods.Unpinned(srv, t));
  }

  lemma DeploymentSettles(parts: Pods.Parts, srv: C.Service, labels: Labels.LabelMap, selector: Labels.LabelMap,
                          original: DeploymentSpec, stored: DeploymentSpec)
    requires parts.restartPolicy != Some("")
    requires AdmitsDeployment(Convert.ToDeploymentSpec(parts, srv, labels, selector, original), stored)
    ensures var again := Convert.ToDeploymentSpec(parts, srv, labels, selector, stored);
            Equality.EqualTemplate(stored.template, again.template) && stored == again.(template := stored.template)
  {
    Pods.ForcedFillSettles(parts, srv, labels, original.template, stored.template);
    UnpinnedEqual(srv, stored.template);
  }

  lemma StatefulSetSettles(parts: Pods.Parts, srv: C.Service, labels: Labels.LabelMap, selector: Labels.LabelMap,
                           original: StatefulSetSpec, stored: StatefulSetSpec)
    requires parts.restartPolicy != Some("")
    requires AdmitsStatefulSet(Convert.ToStatefulSetSpec(parts, srv, labels, selector, original), stored)
    ensures var again := Convert.ToStatefulSetSpec(parts, srv, labels, selector, stored);
            Equality.EqualTemplate(stored.template, again.template) && stored == again.(template := stored.template)
  {
    Pods.ForcedFillSettles(parts, srv, labels, original.template, stored.template);
    UnpinnedEqual(srv, stored.template);
    Volumes.ClaimsSettle(srv, original.claims, stored.claims);
  }

  lemma DaemonSetSettles(parts: Pods.Parts, srv: C.Service, labels: Labels.LabelMap, selector: Labels.LabelMap,
                         original: DaemonSetSpec, stored: DaemonSetSpec)
    requires parts.restartPolicy != Some("")
    requires AdmitsDaemonSet(Convert.ToDaemonSetSpec(parts, srv, labels, selector, original), stored)
    ensures var again := Convert.ToDaemonSetSpec(parts, srv, labels, selector, stored);
            Equality.EqualTemplate(stored.template, again.template) && stored == again.(template := stored.template)
  {
    Pods.FillSettles(parts, srv, labels, original.template, stored.template);
    UnpinnedEqual(srv, stored.template);
  }

  // ----- The same, for one object of a reconcile -----

  /** setStackOwnership on one object. */
  function Owned<S>(o: Object<S>, uid: string): Object<S> { o.(meta := o.meta.(ownerUid := uid)) }

  /** Two reconciles of one stack: only the walk of maps and the dirtiness may differ, and a clean stack stays clean. */
  ghost predicate Successive(first: Convert.Context, second: Convert.Context) {
    second == first.(platform := second.platform, dirty := second.dirty) && (first.dirty || !second.dirty)
  }

  /** A kind's comparison is reflexive and ignores the owner. */
  ghost predicate Comparing<S(!new)>(cmp: Compare<S>, uid: string) {
    (forall o :: cmp.same(o, o)) && (forall a, b :: cmp.same(a, Owned(b, uid)) == cmp.same(a, b))
  }

  /** Whatever the server makes of the converted object, converting that again gives an equal one. */
  ghost predicate Settling<S(!new)>(server: Cluster.Server<S>, cmp: Compare<S>, convert: Object<S> -> Object<S>,
                                    original: Object<S>, uid: string) {
    && Comparing(cmp, uid)
    && forall stored :: Cluster.Admitted(server, Owned(convert(original), uid), stored) ==>
        cmp.same(stored, convert(stored))
  }

  /** An object is converted, unless the fast path keeps it. */
  function Kept<S>(ctx: Convert.Context, convert: Object<S> -> Object<S>, o: Object<S>): Object<S> {
    if Convert.Skip(ctx, o) then o else convert(o)
  }

  /** Whatever the fast path keeps is desired as it is. */
  ghost predicate SkippedKept<S>(ctx: Convert.Context, current: Objects<S>, desired: Objects<S>, uid: string) {
    forall k :: k in current && k in desired && Convert.Skip(ctx, current[k]) ==> desired[k] == Owned(current[k], uid)
  }

  /** One object, over two reconciles. */
  lemma ObjectSteady<S(!new)>(server: Cluster.Server<S>, cmp: Compare<S>, first: Convert.Context,
                              second: Convert.Context, convert: Object<S> -> Object<S>, zero: Object<S>,
                              current: Objects<S>, desired: Objects<S>, next: Objects<S>, key: string, uid: string)
    requires Settling(server, cmp, convert, Lookup(current, key, zero), uid) && Successive(first, second)
    requires Cluster.KindReached(server, cmp, current, desired, next) && key in desired
    requires SkippedKept(first, current, desired, uid) && zero.meta.generation == 0
    ensures desired[key] == Owned(Kept(first, convert, Lookup(current, key, zero)), uid) ==>
              cmp.same(next[key], Kept(second, convert, next[key]))
    ensures Convert.Skip(first, Lookup(current, key, zero)) ==> Convert.Skip(second, next[key])
  {
    assert Cluster.Settled(server, cmp, current, desired[key], key, next[key]);
  }

  /**
  The objects a service asks for twice: under the same keys, and equal to what is stored where the
  first ones were written.
  */
  ghost predicate Agree<S>(cmp: Compare<S>, first: Objects<S>, second: Objects<S>, desired: Objects<S>,
                           next: Objects<S>, uid: string) {
    && first.Keys == second.Keys
    && forall k :: k in first && k in desired && k in next && desired[k] == Owned(first[k], uid) ==>
        cmp.same(next[k], second[k])
  }

  /** Later objects replace earlier ones on both sides alike. */
  lemma AgreeAdd<S>(cmp: Compare<S>, a1: Objects<S>, b1: Objects<S>, a2: Objects<S>, b2: Objects<S>,
                    desired: Objects<S>, next: Objects<S>, uid: string)
    requires Agree(cmp, a1, a2, desired, next, uid) && Agree(cmp, b1, b2, desired, next, uid)
    ensures Agree(cmp, a1 + b1, a2 + b2, desired, next, uid)
  {
  }

  // ----- Workloads -----

  /** A conversion settles, where there is one. */
  ghost predicate WorkloadSettles<S(!new)>(server: Cluster.Server<S>, cmp: Compare<S>,
                                           converter: Result<Object<S> -> Object<S>>, original: Object<S>,
                                           uid: string) {
    Comparing(cmp, uid) && (converter.Ok? ==> Settling(server, cmp, converter.value, original, uid))
  }

  /** A conversion sets the name, namespace and labels of `meta`. */
  ghost predicate Stamps<S(!new)>(converter: Result<Object<S> -> Object<S>>, meta: Meta) {
    converter.Ok? ==> forall o :: converter.value(o).meta == meta.(annotations := converter.value(o).meta.annotations)
  }

  /** A workload, over two reconciles: it converts again, to what is stored. */
  lemma WorkloadSteady<S(!new)>(server: Cluster.Server<S>, cmp: Compare<S>, first: Convert.Context,
                                second: Convert.Context, converter: Result<Object<S> -> Object<S>>, zero: Object<S>,
                                current: Objects<S>, desired: Objects<S>, next: Objects<S>, key: string, uid: string)
    requires WorkloadSettles(server, cmp, converter, Lookup(current, key, zero), uid) && Successive(first, second)
    requires Cluster.KindReached(server, cmp, current, desired, next) && key in desired
    requires SkippedKept(first, current, desired, uid) && zero.meta.generation == 0
    requires Convert.KeptOrConverted(first, converter, Lookup(current, key, zero)).Ok?
    ensures var once := Convert.KeptOrConverted(first, converter, Lookup(current, key, zero)).value;
            var again := Convert.KeptOrConverted(second, converter, next[key]);
            again.Ok? && (desired[key] == Owned(once, uid) ==> cmp.same(next[key], again.value))
  {
    var convert := if converter.Ok? then converter.value else (o: Object<S>) => o;
    ObjectSteady(server, cmp, first, second, convert, zero, current, desired, next, key, uid);
  }

  lemma WorkloadKey<S(!new)>(ctx: Convert.Context, converter: Result<Object<S> -> Object<S>>, zero: Object<S>,
                             original: Objects<S>, meta: Meta)
    requires Keyed(original) && zero.meta.generation == 0 && Stamps(converter, meta)
    ensures var r := Convert.KeptOrConverted(ctx, converter, Lookup(original, KeyOf(meta), zero));
            r.Ok? ==> KeyOf(r.value.meta) == KeyOf(meta)
  {
  }

  lemma AgreeSingle<S>(cmp: Compare<S>, key: string, once: Object<S>, again: Object<S>, desired: Objects<S>,
                       next: Objects<S>, uid: string)
    requires key in desired && key in next && (desired[key] == Owned(once, uid) ==> cmp.same(next[key], again))
    requires KeyOf(once.meta) == key && KeyOf(again.meta) == key
    ensures Agree(cmp, map[KeyOf(once.meta) := once], map[KeyOf(again.meta) := again], desired, next, uid)
  {
  }

  lemma WorkloadsAgree<S(!new)>(server: Cluster.Server<S>, cmp: Compare<S>, first: Convert.Context,
                                second: Convert.Context, converter: Result<Object<S> -> Object<S>>, zero: Object<S>,
                                meta: Meta, current: Objects<S>, desired: Objects<S>, next: Objects<S>, uid: string)
    requires WorkloadSettles(server, cmp, converter, Lookup(current, KeyOf(meta), zero), uid) && Stamps(converter, meta)
    requires Successive(first, second) && Keyed(current) && Keyed(next) && zero.meta.generation == 0
    requires Cluster.KindReached(server, cmp, current, desired, next) && SkippedKept(first, current, desired, uid)
    requires var once := Convert.KeptOrConverted(first, converter, Lookup(current, KeyOf(meta), zero));
             once.Ok? && KeyOf(once.value.meta) in desired
    ensures var once := Convert.KeptOrConverted(first, converter, Lookup(current, KeyOf(meta), zero)).value;
            var again := Convert.KeptOrConverted(second, converter, Lookup(next, KeyOf(meta), zero));
            again.Ok? && Agree(cmp, map[KeyOf(once.meta) := once], map[KeyOf(again.value.meta) := again.value],
                               desired, next, uid)
  {
    var key := KeyOf(meta);
    WorkloadKey(first, converter, zero, current, meta);
    WorkloadKey(second, converter, zero, next, meta);
    WorkloadSteady(server, cmp, first, second, converter, zero, current, desired, next, key, uid);
    AgreeSingle(cmp, key, Convert.KeptOrConverted(first, converter, Lookup(current, key, zero)).value,
                Convert.KeptOrConverted(second, converter, Lookup(next, key, zero)).value, desired, next, uid);
  }

  lemma DeploymentConversion(server: Cluster.Server<DeploymentSpec>, parts: Result<Pods.Parts>, srv: C.Service,
                             meta: Meta, selector: Labels.LabelMap, original: Deployment, uid: string)
    requires parts.Ok? ==> parts.value.restartPolicy != Some("")
    requires forall t: nat, s :: AdmitsDeployment(s, server.admit(t, s))
    ensures var converter := Convert.DeploymentConverter(parts, srv, meta, selector);
            WorkloadSettles(server, DEPLOYMENTS, converter, original, uid) && Stamps(converter, meta)
  {
    var converter := Convert.DeploymentConverter(parts, srv, meta, selector);
    forall o: Deployment ensures DEPLOYMENTS.same(o, o) {
      Equality.EqualReflexive(o.spec.template);
    }
    if converter.Ok? {
      forall stored | Cluster.Admitted(server, Owned(converter.value(original), uid), stored)
        ensures DEPLOYMENTS.same(stored, converter.value(stored))
      {
        DeploymentSettles(parts.value, srv, meta.labels, selector, original.spec, stored.spec);
      }
    }
  }

  lemma StatefulSetConversion(server: Cluster.Server<StatefulSetSpec>, parts: Result<Pods.Parts>, srv: C.Service,
                              meta: Meta, selector: Labels.LabelMap, original: StatefulSet, uid: string)
    requires parts.Ok? ==> parts.value.restartPolicy != Some("")
    requires forall t: nat, s :: AdmitsStatefulSet(s, server.admit(t, s))
    ensures var converter := Convert.StatefulSetConverter(parts, srv, meta, selector);
            WorkloadSettles(server, STATEFULSETS, converter, original, uid) && Stamps(converter, meta)
  {
    var converter := Convert.StatefulSetConverter(parts, srv, meta, selector);
    forall o: StatefulSet ensures STATEFULSETS.same(o, o) {
      Equality.EqualReflexive(o.spec.template);
    }
    if converter.Ok? {
      forall stored | Cluster.Admitted(server, Owned(converter.value(original), uid), stored)
        ensures STATEFULSETS.same(stored, converter.value(stored))
      {
        StatefulSetSettles(parts.value, srv, meta.labels, selector, original.spec, stored.spec);
      }
    }
  }

  lemma DaemonSetConversion(server: Cluster.Server<DaemonSetSpec>, parts: Result<Pods.Parts>, srv: C.Service,
                            meta: Meta, selector: Labels.LabelMap, original: DaemonSet, uid: string)
    requires parts.Ok? ==> parts.value.restartPolicy != Some("")
    requires forall t: nat, s :: AdmitsDaemonSet(s, server.admit(t, s))
    ensures var converter := Convert.DaemonSetConverter(parts, srv, meta, selector);
            WorkloadSettles(server, DAEMONSETS, converter, original, uid) && Stamps(converter, meta)
  {
    var converter := Convert.DaemonSetConverter(parts, srv, meta, selector);
    forall o: DaemonSet ensures DAEMONSETS.same(o, o) {
      Equality.EqualReflexive(o.spec.template);
    }
    if converter.Ok? {
      forall stored | Cluster.Admitted(server, Owned(converter.value(original), uid), stored)
        ensures DAEMONSETS.same(stored, converter.value(stored))
      {
        DaemonSetSettles(parts.value, srv, meta.labels, selector, original.spec, stored.spec);
      }
    }
  }

  // ----- A requested update strategy does not settle -----

  predicate AsksStrategy(srv: C.Service) {
    srv.deploy.updateConfig.Some? && srv.deploy.updateConfig.value.parallelism.Some?
  }

  /** The server fills what a submitted strategy leaves open. */
  predicate DefaultsStrategy(s: Strategy, stored: Strategy) {
    s.kind == "" || (stored == s.(rest := stored.rest) && (s.rest == "" || stored.rest == s.rest))
  }

  /** Against a server that may fill open fields, the strategy settles exactly if the service asks for none. */
  lemma StrategySettlesIff(srv: C.Service, original: Strategy)
    ensures (forall stored :: DefaultsStrategy(Convert.ToStrategy(srv, original), stored) ==>
             Convert.ToStrategy(srv, stored) == stored)
            <==> !AsksStrategy(srv)
  {
    var submitted := Convert.ToStrategy(srv, original);
    if AsksStrategy(srv) {
      var stored := submitted.(rest := "25%");
      assert DefaultsStrategy(submitted, stored) && Convert.ToStrategy(srv, stored).rest == "";
    }
  }

  /** A server that does fill the open fields of every rolling update. */
  ghost predicate FillsRollingUpdates(server: Cluster.Server<DeploymentSpec>) {
    forall t: nat, s: DeploymentSpec :: s.strategy.kind == "RollingUpdate" && s.strategy.rest == "" ==>
      server.admit(t, s).strategy.rest != ""
  }

  /** Successive versions of an object: each is what the server made of the conversion of the one before. */
  ghost predicate Rewrites<S>(server: Cluster.Server<S>, convert: Object<S> -> Object<S>, uid: string,
                              versions: seq<Object<S>>) {
    forall i {:trigger versions[i + 1]} :: 0 <= i < |versions| - 1 ==>
      Cluster.Admitted(server, Owned(convert(versions[i]), uid), versions[i + 1])
  }

  /**
  So a Deployment of such a service is updated by every reconcile that converts it: each version
  the controller has written differs from its own conversion.
  */
  lemma RollingUpdateNeverSettles(server: Cluster.Server<DeploymentSpec>, parts: Pods.Parts, srv: C.Service, meta: Meta,
                                  selector: Labels.LabelMap, uid: string, versions: seq<Deployment>, i: nat,
                                  current: Objects<DeploymentSpec>, desired: Objects<DeploymentSpec>, k: string)
    requires AsksStrategy(srv) && FillsRollingUpdates(server) && i + 1 < |versions|
    requires Rewrites(server, o => Convert.ToDeployment(parts, srv, meta, selector, o), uid, versions)
    requires k in current && current[k] == versions[i + 1]
    requires k in desired && desired[k] == Owned(Convert.ToDeployment(parts, srv, meta, selector, versions[i + 1]), uid)
    ensures k in Updated(DEPLOYMENTS, current, desired)
  {
    var submitted := Owned(Convert.ToDeployment(parts, srv, meta, selector, versions[i]), uid);
    assert Cluster.Admitted(server, submitted, versions[i + 1]);
    var t: nat :| versions[i + 1].spec == server.admit(t, submitted.spec);
    assert submitted.spec.strategy.kind == "RollingUpdate" && submitted.spec.strategy.rest == "";
    assert current[k].spec.strategy.rest != "" && desired[k].spec.strategy.rest == "";
  }

  /** A server that gives every port of a service of an exposed type a node port. */
  ghost predicate FillsNodePorts(server: Cluster.Server<ServiceSpec>) {
    forall t: nat, s: ServiceSpec ::
      && Services.AdmitsService(s, server.admit(t, s))
      && (Services.ExposedKind(s.kind) ==>
            forall i :: 0 <= i < |s.ports| ==> server.admit(t, s).ports[i].nodePort != 0)
  }

  lemma {:induction false} ExposedKindStays(server: Cluster.Server<ServiceSpec>, ctx: Convert.Context, srv: C.Service,
                                            uid: string, versions: seq<Service>, i: nat)
    requires FillsNodePorts(server) && i < |versions| && Services.ExposedKind(versions[0].spec.kind)
    requires Rewrites(server, o => Convert.InternalService(ctx, srv, o), uid, versions)
    ensures Services.ExposedKind(versions[i].spec.kind)
  {
    if i > 0 {
      var j := i - 1;
      ExposedKindStays(server, ctx, srv, uid, versions, j);
      var submitted := Owned(Convert.InternalService(ctx, srv, versions[j]), uid);
      assert Cluster.Admitted(server, submitted, versions[j + 1]);
      var t: nat :| versions[i].spec == server.admit(t, submitted.spec);
      assert Services.AdmitsService(submitted.spec, server.admit(t, submitted.spec));
    }
  }

  lemma InternalDiffers(srv: C.Service, selector: Labels.LabelMap, original: ServiceSpec, stored: ServiceSpec)
    requires Services.AdmitsService(Services.ToInternalSpec(srv, selector, original), stored)
    requires Services.InternalPorts(srv) != [] && stored.ports[0].nodePort != 0
    ensures var again := Services.ToInternalSpec(srv, selector, stored);
            again != stored && again.clusterIP == stored.clusterIP
  {
    assert Services.ToInternalSpec(srv, selector, stored).ports[0].nodePort == 0;
  }

  /**
  An internal service that was of an exposed type when the controller first wrote it stays so, and
  if it has a port it is updated in place by every later reconcile: each version the controller has
  written differs from its own conversion.
  */
  lemma InternalServiceNeverSettles(server: Cluster.Server<ServiceSpec>, ctx: Convert.Context, srv: C.Service,
                                    uid: string, versions: seq<Service>, i: nat,
                                    current: Objects<ServiceSpec>, desired: Objects<ServiceSpec>, k: string)
    requires FillsNodePorts(server) && i + 1 < |versions| && Services.ExposedKind(versions[0].spec.kind)
    requires Services.InternalPorts(srv) != []
    requires Rewrites(server, o => Convert.InternalService(ctx, srv, o), uid, versions)
    requires k in current && current[k] == versions[i + 1]
    requires k in desired && desired[k] == Owned(Convert.InternalService(ctx, srv, versions[i + 1]), uid)
    ensures k in Updated(SERVICES, current, desired)
  {
    ExposedKindStays(server, ctx, srv, uid, versions, i);
    var submitted := Owned(Convert.InternalService(ctx, srv, versions[i]), uid);
    assert Cluster.Admitted(server, submitted, versions[i + 1]);
    var t: nat :| versions[i + 1].spec == server.admit(t, submitted.spec);
    assert Services.AdmitsService(submitted.spec, server.admit(t, submitted.spec));
    InternalDiffers(srv, Convert.Selector(ctx, srv), versions[i].spec, versions[i + 1].spec);
  }

  // ----- Services -----

  /** The comparison of services ignores the owner and is reflexive. */
  lemma ServicesSettling(server: Cluster.Server<ServiceSpec>, convert: Service -> Service, original: Service,
                         uid: string)
    requires forall stored :: Cluster.Admitted(server, Owned(convert(original), uid), stored) ==>
               SERVICES.same(stored, convert(stored))
    ensures Settling(server, SERVICES, convert, original, uid)
  {
  }

  /** Services have no fast path: both reconciles convert them as for a dirty stack. */
  lemma ServiceSteady(server: Cluster.Server<ServiceSpec>, ctx: Convert.Context, convert: Service -> Service,
                      current: Objects<ServiceSpec>, desired: Objects<ServiceSpec>, next: Objects<ServiceSpec>,
                      key: string, uid: string)
    requires Settling(server, SERVICES, convert, Lookup(current, key, ZERO_SERVICE), uid)
    requires Cluster.KindReached(server, SERVICES, current, desired, next) && key in desired
    ensures desired[key] == Owned(convert(Lookup(current, key, ZERO_SERVICE)), uid) ==>
              SERVICES.same(next[key], convert(next[key]))
  {
    var dirty := ctx.(dirty := true);
    ObjectSteady(server, SERVICES, dirty, dirty, convert, ZERO_SERVICE, current, desired, next, key, uid);
  }

  lemma InternalAgree(server: Cluster.Server<ServiceSpec>, first: Convert.Context, second: Convert.Context,
                      srv: C.Service, current: Objects<ServiceSpec>, desired: Objects<ServiceSpec>,
                      next: Objects<ServiceSpec>, uid: string)
    requires Successive(first, second) && forall t: nat, s :: Services.AdmitsService(s, server.admit(t, s))
    requires Cluster.KindReached(server, SERVICES, current, desired, next)
    requires !Services.ExposedKind(Lookup(current, Convert.Key(first, srv.name), ZERO_SERVICE).spec.kind)
    ensures var key := Convert.Key(first, srv.name);
            Agree(SERVICES, map[key := Convert.InternalService(first, srv, Lookup(current, key, ZERO_SERVICE))],
                  map[key := Convert.InternalService(second, srv, Lookup(next, key, ZERO_SERVICE))], desired, next, uid)
  {
    var key := Convert.Key(first, srv.name);
    var original := Lookup(current, key, ZERO_SERVICE);
    var convert := o => Convert.InternalService(first, srv, o);
    if key in desired {
      forall stored | Cluster.Admitted(server, Owned(convert(original), uid), stored)
        ensures SERVICES.same(stored, convert(stored))
      {
        Services.InternalSettles(srv, Convert.Selector(first, srv), original.spec, stored.spec);
      }
      ServicesSettling(server, convert, original, uid);
      ServiceSteady(server, first, convert, current, desired, next, key, uid);
    }
  }

  function ExposedKey(ctx: Convert.Context, srv: C.Service, published: bool): string {
    Convert.Key(ctx, if published then Convert.PublishedName(srv) else Convert.RandomPortsName(srv))
  }

  function ExposedConversion(ctx: Convert.Context, srv: C.Service, published: bool): Service -> Service {
    var meta := Convert.ObjectMeta(ctx, srv,
                                   if published then Convert.PublishedName(srv) else Convert.RandomPortsName(srv));
    (o: Service) => Object(meta, Services.ToExposed(ctx.strategy, srv, published, Convert.Selector(ctx, srv),
                                                    o.spec).GetOr(o.spec))
  }

  lemma ExposedSettling(server: Cluster.Server<ServiceSpec>, ctx: Convert.Context, srv: C.Service, published: bool,
                        original: Service, uid: string)
    requires forall t: nat, s :: Services.AdmitsService(s, server.admit(t, s))
    requires Services.DistinctPortNames(Services.Select(srv.ports, published))
    requires Services.ToExposed(ctx.strategy, srv, published, Convert.Selector(ctx, srv), original.spec).Some?
    ensures Settling(server, SERVICES, ExposedConversion(ctx, srv, published), original, uid)
  {
    var convert := ExposedConversion(ctx, srv, published);
    forall stored | Cluster.Admitted(server, Owned(convert(original), uid), stored)
      ensures SERVICES.same(stored, convert(stored))
    {
      Services.ExposedSettles(ctx.strategy, srv, published, Convert.Selector(ctx, srv), original.spec, stored.spec);
    }
    ServicesSettling(server, convert, original, uid);
  }

  lemma ExposedAgree(server: Cluster.Server<ServiceSpec>, first: Convert.Context, second: Convert.Context,
                     srv: C.Service, published: bool, current: Objects<ServiceSpec>, desired: Objects<ServiceSpec>,
                     next: Objects<ServiceSpec>, uid: string)
    requires Successive(first, second) && forall t: nat, s :: Services.AdmitsService(s, server.admit(t, s))
    requires Cluster.KindReached(server, SERVICES, current, desired, next)
    requires Services.DistinctPortNames(Services.Select(srv.ports, published))
    ensures var key := ExposedKey(first, srv, published);
            Agree(SERVICES, Convert.ExposedService(first, srv, published, Lookup(current, key, ZERO_SERVICE)),
                  Convert.ExposedService(second, srv, published, Lookup(next, key, ZERO_SERVICE)), desired, next, uid)
  {
    var key := ExposedKey(first, srv, published);
    var selector := Convert.Selector(first, srv);
    var original := Lookup(current, key, ZERO_SERVICE);
    Services.ExposedIgnoresOriginal(first.strategy, srv, published, selector, original.spec,
                                    Lookup(next, key, ZERO_SERVICE).spec);
    if key in desired && Services.ToExposed(first.strategy, srv, published, selector, original.spec).Some? {
      ExposedSettling(server, first, srv, published, original, uid);
      ServiceSteady(server, first, ExposedConversion(first, srv, published), current, desired, next, key, uid);
    }
  }

  /** What a service's port lists and its stored internal service must be like. */
  ghost predicate PortsSettle(ctx: Convert.Context, srv: C.Service, current: Objects<ServiceSpec>) {
    && Services.DistinctPortNames(Services.Select(srv.ports, true))
    && Services.DistinctPortNames(Services.Select(srv.ports, false))
    && !Services.ExposedKind(Lookup(current, Convert.Key(ctx, srv.name), ZERO_SERVICE).spec.kind)
  }

  lemma ServicesAgree(server: Cluster.Server<ServiceSpec>, first: Convert.Context, second: Convert.Context,
                      srv: C.Service, current: Objects<ServiceSpec>, desired: Objects<ServiceSpec>,
                      next: Objects<ServiceSpec>, uid: string)
    requires Successive(first, second) && forall t: nat, s :: Services.AdmitsService(s, server.admit(t, s))
    requires Cluster.KindReached(server, SERVICES, current, desired, next) && PortsSettle(first, srv, current)
    ensures Agree(SERVICES, Convert.ToServices(first, srv, current), Convert.ToServices(second, srv, next), desired,
                  next, uid)
  {
    var key, published, random := Convert.Key(first, srv.name), ExposedKey(first, srv, true),
        ExposedKey(first, srv, false);
    var a1 := map[key := Convert.InternalService(first, srv, Lookup(current, key, ZERO_SERVICE))];
    var a2 := map[key := Convert.InternalService(second, srv, Lookup(next, key, ZERO_SERVICE))];
    var b1 := Convert.ExposedService(first, srv, true, Lookup(current, published, ZERO_SERVICE));
    var b2 := Convert.ExposedService(second, srv, true, Lookup(next, published, ZERO_SERVICE));
    var c1 := Convert.ExposedService(first, srv, false, Lookup(current, random, ZERO_SERVICE));
    var c2 := Convert.ExposedService(second, srv, false, Lookup(next, random, ZERO_SERVICE));
    InternalAgree(server, first, second, srv, current, desired, next, uid);
    ExposedAgree(server, first, second, srv, true, current, desired, next, uid);
    ExposedAgree(server, first, second, srv, false, current, desired, next, uid);
    AgreeAdd(SERVICES, a1, b1, a2, b2, desired, next, uid);
    AgreeAdd(SERVICES, a1 + b1, c1, a2 + b2, c2, desired, next, uid);
  }

  // ----- All objects of a service -----

  ghost predicate StatesAgree(first: StackState, second: StackState, desired: StackState, next: StackState,
                              uid: string) {
    && Agree(DEPLOYMENTS, first.deployments, second.deployments, desired.deployments, next.deployments, uid)
    && Agree(STATEFULSETS, first.statefulsets, second.statefulsets, desired.statefulsets, next.statefulsets, uid)
    && Agree(DAEMONSETS, first.daemonsets, second.daemonsets, desired.daemonsets, next.daemonsets, uid)
    && Agree(SERVICES, first.services, second.services, desired.services, next.services, uid)
  }

  ghost predicate AllSkippedKept(ctx: Convert.Context, current: StackState, desired: StackState, uid: string) {
    && SkippedKept(ctx, current.deployments, desired.deployments, uid)
    && SkippedKept(ctx, current.statefulsets, desired.statefulsets, uid)
    && SkippedKept(ctx, current.daemonsets, desired.daemonsets, uid)
  }

  /** Every workload of `part` has its key in `whole`. */
  predicate Within(part: StackState, whole: StackState) {
    && part.deployments.Keys <= whole.deployments.Keys && part.statefulsets.Keys <= whole.statefulsets.Keys
    && part.daemonsets.Keys <= whole.daemonsets.Keys
  }

  /** Everything the two reconciles have in common. */
  ghost predicate Twice(servers: Cluster.Servers, first: Convert.Context, second: Convert.Context, current: StackState,
                        desired: StackState, next: StackState, uid: string) {
    && Admissible(servers) && Successive(first, second) && KeyedState(current) && KeyedState(next)
    && Cluster.Reached(servers, current, desired, next) && AllSkippedKept(first, current, desired, uid)
  }

  lemma GlobalAgree(servers: Cluster.Servers, first: Convert.Context, second: Convert.Context,
                    parts: Result<Pods.Parts>, srv: C.Service, current: StackState, desired: StackState,
                    next: StackState, uid: string, once: Result<StackState>, again: Result<StackState>)
    requires Twice(servers, first, second, current, desired, next, uid) && Convert.IsGlobal(srv)
    requires !Volumes.HasPersistentVolumes(srv)
    requires parts.Ok? ==> parts.value.restartPolicy != Some("")
    requires once == Convert.WorkloadFor(first, parts, srv, current)
             && again == Convert.WorkloadFor(second, parts, srv, next)
    requires once.Ok? && Within(once.value, desired)
    ensures again.Ok? && StatesAgree(once.value, again.value, desired, next, uid)
  {
    var meta, selector := Convert.ObjectMeta(first, srv, srv.name), Convert.Selector(first, srv);
    var o := Convert.DaemonSetFor(first, parts, srv, Lookup(current.daemonsets, KeyOf(meta), ZERO_DAEMONSET)).value;
    assert once.value == EMPTY_STATE.(daemonsets := map[KeyOf(o.meta) := o]);
    DaemonSetConversion(servers.daemonsets, parts, srv, meta, selector,
                        Lookup(current.daemonsets, KeyOf(meta), ZERO_DAEMONSET), uid);
    WorkloadsAgree(servers.daemonsets, DAEMONSETS, first, second,
                   Convert.DaemonSetConverter(parts, srv, meta, selector), ZERO_DAEMONSET, meta,
                   current.daemonsets, desired.daemonsets, next.daemonsets, uid);
  }

  lemma StatefulAgree(servers: Cluster.Servers, first: Convert.Context, second: Convert.Context,
                      parts: Result<Pods.Parts>, srv: C.Service, current: StackState, desired: StackState,
                      next: StackState, uid: string, once: Result<StackState>, again: Result<StackState>)
    requires Twice(servers, first, second, current, desired, next, uid) && !Convert.IsGlobal(srv)
             && Volumes.HasPersistentVolumes(srv)
    requires parts.Ok? ==> parts.value.restartPolicy != Some("")
    requires once == Convert.WorkloadFor(first, parts, srv, current)
             && again == Convert.WorkloadFor(second, parts, srv, next)
    requires once.Ok? && Within(once.value, desired)
    ensures again.Ok? && StatesAgree(once.value, again.value, desired, next, uid)
  {
    var meta, selector := Convert.ObjectMeta(first, srv, srv.name), Convert.Selector(first, srv);
    var o := Convert.StatefulSetFor(first, parts, srv,
                                    Lookup(current.statefulsets, KeyOf(meta), ZERO_STATEFULSET)).value;
    assert once.value == EMPTY_STATE.(statefulsets := map[KeyOf(o.meta) := o]);
    StatefulSetConversion(servers.statefulsets, parts, srv, meta, selector,
                          Lookup(current.statefulsets, KeyOf(meta), ZERO_STATEFULSET), uid);
    WorkloadsAgree(servers.statefulsets, STATEFULSETS, first, second,
                   Convert.StatefulSetConverter(parts, srv, meta, selector), ZERO_STATEFULSET, meta,
                   current.statefulsets, desired.statefulsets, next.statefulsets, uid);
  }

  lemma StatelessAgree(servers: Cluster.Servers, first: Convert.Context, second: Convert.Context,
                       parts: Result<Pods.Parts>, srv: C.Service, current: StackState, desired: StackState,
                       next: StackState, uid: string, once: Result<StackState>, again: Result<StackState>)
    requires Twice(servers, first, second, current, desired, next, uid) && !Convert.IsGlobal(srv)
             && !Volumes.HasPersistentVolumes(srv)
    requires parts.Ok? ==> parts.value.restartPolicy != Some("")
    requires once == Convert.WorkloadFor(first, parts, srv, current)
             && again == Convert.WorkloadFor(second, parts, srv, next)
    requires once.Ok? && Within(once.value, desired)
    ensures again.Ok? && StatesAgree(once.value, again.value, desired, next, uid)
  {
    var meta, selector := Convert.ObjectMeta(first, srv, srv.name), Convert.Selector(first, srv);
    var o := Convert.DeploymentFor(first, parts, srv, Lookup(current.deployments, KeyOf(meta), ZERO_DEPLOYMENT)).value;
    assert once.value == EMPTY_STATE.(deployments := map[KeyOf(o.meta) := o]);
    DeploymentConversion(servers.deployments, parts, srv, meta, selector,
                         Lookup(current.deployments, KeyOf(meta), ZERO_DEPLOYMENT), uid);
    WorkloadsAgree(servers.deployments, DEPLOYMENTS, first, second,
                   Convert.DeploymentConverter(parts, srv, meta, selector), ZERO_DEPLOYMENT, meta,
                   current.deployments, desired.deployments, next.deployments, uid);
  }

  lemma WorkloadAgree(servers: Cluster.Servers, first: Convert.Context, second: Convert.Context,
                      parts: Result<Pods.Parts>, srv: C.Service, current: StackState, desired: StackState,
                      next: StackState, uid: string, once: Result<StackState>, again: Result<StackState>)
    requires Twice(servers, first, second, current, desired, next, uid)
    requires parts.Ok? ==> parts.value.restartPolicy != Some("")
    requires once == Convert.WorkloadFor(first, parts, srv, current)
             && again == Convert.WorkloadFor(second, parts, srv, next)
    requires once.Ok? && Within(once.value, desired)
    ensures again.Ok? && StatesAgree(once.value, again.value, desired, next, uid)
  {
    if Convert.IsGlobal(srv) {
      GlobalAgree(servers, first, second, parts, srv, current, desired, next, uid, once, again);
    } else if Volumes.HasPersistentVolumes(srv) {
      StatefulAgree(servers, first, second, parts, srv, current, desired, next, uid, once, again);
    } else {
      StatelessAgree(servers, first, second, parts, srv, current, desired, next, uid, once, again);
    }
  }

  /** A service whose objects settle. */
  ghost predicate Settleable(ctx: Convert.Context, srv: C.Service, current: StackState) {
    && (srv.deploy.constraints.Some? ==> |srv.deploy.constraints.value.matchLabels| <= 1)
    && PortsSettle(ctx, srv, current.services)
  }

  ghost predicate SamePlatform(first: Convert.Context, second: Convert.Context) {
    P.Valid(first.platform) && P.Valid(second.platform) && P.SameLibraries(first.platform, second.platform)
  }

  lemma PartsAgree(first: Convert.Context, second: Convert.Context, srv: C.Service)
    requires Successive(first, second) && SamePlatform(first, second)
    requires srv.deploy.constraints.Some? ==> |srv.deploy.constraints.value.matchLabels| <= 1
    ensures var parts := Pods.PartsOf(first.platform, srv, first.spec);
            && Pods.PartsOf(second.platform, srv, second.spec) == parts
            && (parts.Ok? ==> parts.value.restartPolicy != Some(""))
  {
    var parts := Pods.PartsOf(first.platform, srv, first.spec);
    Pods.PartsIgnoreOrder(first.platform, second.platform, srv, first.spec);
    if parts.Ok? { Pods.PartsRestartPolicy(first.platform, srv, first.spec); }
  }

  /** If the first reconcile could convert a service, so can the second, to objects that agree. */
  ghost predicate Pairs(desired: StackState, next: StackState, uid: string, once: Result<StackState>,
                        again: Result<StackState>) {
    once.Ok? && Within(once.value, desired) ==> again.Ok? && StatesAgree(once.value, again.value, desired, next, uid)
  }

  lemma CombinePairs(w1: Result<StackState>, w2: Result<StackState>, s1: Objects<ServiceSpec>, s2: Objects<ServiceSpec>,
                     desired: StackState, next: StackState, uid: string)
    requires Pairs(desired, next, uid, w1, w2) && Agree(SERVICES, s1, s2, desired.services, next.services, uid)
    ensures Pairs(desired, next, uid, Convert.WithServices(w1, s1), Convert.WithServices(w2, s2))
  {
  }

  lemma ResourcesPair(servers: Cluster.Servers, first: Convert.Context, second: Convert.Context,
                      parts: Result<Pods.Parts>, srv: C.Service, current: StackState, desired: StackState,
                      next: StackState, uid: string, w1: Result<StackState>, w2: Result<StackState>,
                      s1: Objects<ServiceSpec>, s2: Objects<ServiceSpec>)
    requires Twice(servers, first, second, current, desired, next, uid) && PortsSettle(first, srv, current.services)
    requires parts.Ok? ==> parts.value.restartPolicy != Some("")
    requires w1 == Convert.WorkloadFor(first, parts, srv, current)
             && w2 == Convert.WorkloadFor(second, parts, srv, next)
    requires s1 == Convert.ToServices(first, srv, current.services)
             && s2 == Convert.ToServices(second, srv, next.services)
    ensures Pairs(desired, next, uid, Convert.WithServices(w1, s1), Convert.WithServices(w2, s2))
  {
    if w1.Ok? && Within(w1.value, desired) {
      WorkloadAgree(servers, first, second, parts, srv, current, desired, next, uid, w1, w2);
    }
    ServicesAgree(servers.services, first, second, srv, current.services, desired.services, next.services, uid);
    CombinePairs(w1, w2, s1, s2, desired, next, uid);
  }

  lemma StackResourcesPair(servers: Cluster.Servers, first: Convert.Context, second: Convert.Context, srv: C.Service,
                           current: StackState, desired: StackState, next: StackState, uid: string)
    requires Twice(servers, first, second, current, desired, next, uid) && SamePlatform(first, second)
             && Settleable(first, srv, current)
    ensures Pairs(desired, next, uid, Convert.ToStackResources(first, srv, current),
                  Convert.ToStackResources(second, srv, next))
  {
    var parts := Pods.PartsOf(first.platform, srv, first.spec);
    PartsAgree(first, second, srv);
    ResourcesPair(servers, first, second, parts, srv, current, desired, next, uid,
                  Convert.WorkloadFor(first, parts, srv, current), Convert.WorkloadFor(second, parts, srv, next),
                  Convert.ToServices(first, srv, current.services), Convert.ToServices(second, srv, next.services));
  }

  // ----- All services of a stack -----

  lemma StatesAgreeAdd(a1: StackState, b1: StackState, a2: StackState, b2: StackState, desired: StackState,
                       next: StackState, uid: string)
    requires StatesAgree(a1, a2, desired, next, uid) && StatesAgree(b1, b2, desired, next, uid)
    ensures StatesAgree(a1.Add(b1), a2.Add(b2), desired, next, uid)
  {
    AgreeAdd(DEPLOYMENTS, a1.deployments, b1.deployments, a2.deployments, b2.deployments, desired.deployments,
             next.deployments, uid);
    AgreeAdd(STATEFULSETS, a1.statefulsets, b1.statefulsets, a2.statefulsets, b2.statefulsets, desired.statefulsets,
             next.statefulsets, uid);
    AgreeAdd(DAEMONSETS, a1.daemonsets, b1.daemonsets, a2.daemonsets, b2.daemonsets, desired.daemonsets,
             next.daemonsets, uid);
    AgreeAdd(SERVICES, a1.services, b1.services, a2.services, b2.services, desired.services, next.services, uid);
  }

  lemma {:induction false} MergeAgree(first: seq<Result<StackState>>, second: seq<Result<StackState>>,
                                      desired: StackState, next: StackState, uid: string)
    requires |first| == |second| && Convert.Merge(first).Ok?
    requires forall i :: 0 <= i < |first| && first[i].Ok? ==>
               second[i].Ok? && StatesAgree(first[i].value, second[i].value, desired, next, uid)
    ensures Convert.Merge(second).Ok? && StatesAgree(Convert.Merge(first).value, Convert.Merge(second).value, desired,
                                                     next, uid)
  {
    if first != [] {
      var n := |first| - 1;
      MergeAgree(first[..n], second[..n], desired, next, uid);
      StatesAgreeAdd(Convert.Merge(first[..n]).value, first[n].value, Convert.Merge(second[..n]).value,
                     second[n].value, desired, next, uid);
    }
  }

  lemma {:induction false} MergeWithin(results: seq<Result<StackState>>, i: nat)
    requires i < |results| && Convert.Merge(results).Ok?
    ensures results[i].Ok? && Within(results[i].value, Convert.Merge(results).value)
  {
    var n := |results| - 1;
    if i < n {
      MergeWithin(results[..n], i);
    }
  }

  // ----- The fast path keeps objects -----

  ghost predicate SkippedSame<S>(ctx: Convert.Context, current: Objects<S>, resources: Objects<S>) {
    forall k :: k in resources && k in current && Convert.Skip(ctx, current[k]) ==> resources[k] == current[k]
  }

  /**
  Stored under its own key, kept if the fast path keeps it and, if its service keeps the stack's
  label, listed under the stack.
  */
  ghost predicate Proper<S>(ctx: Convert.Context, current: Objects<S>, resources: Objects<S>, stackKey: string,
                            labelled: bool) {
    SkippedSame(ctx, current, resources) && Keyed(resources) && (labelled ==> Cluster.Indexed(resources, stackKey))
  }

  ghost predicate ProperState(ctx: Convert.Context, current: StackState, resources: StackState, stackKey: string,
                              labelled: bool) {
    && Proper(ctx, current.deployments, resources.deployments, stackKey, labelled)
    && Proper(ctx, current.statefulsets, resources.statefulsets, stackKey, labelled)
    && Proper(ctx, current.daemonsets, resources.daemonsets, stackKey, labelled)
    && Keyed(resources.services) && (labelled ==> Cluster.Indexed(resources.services, stackKey))
  }

  /** A stack's name is set and its services do not override the label that lists objects under the stack. */
  predicate KeepsStackLabel(ctx: Convert.Context, srv: C.Service) {
    ctx.stackName != "" && (Labels.FOR_STACK_NAME in srv.deploy.labels ==>
                            srv.deploy.labels[Labels.FOR_STACK_NAME] == ctx.stackName)
  }

  /** Where labels matter, what is stored is listed under the stack and the service keeps the stack's label. */
  ghost predicate Labelled(ctx: Convert.Context, srv: C.Service, current: StackState, labelled: bool) {
    labelled ==> Cluster.StateIndexed(current, StackKey(ctx)) && KeepsStackLabel(ctx, srv)
  }

  function StackKey(ctx: Convert.Context): string { ObjKey(ctx.namespace, ctx.stackName) }

  lemma MetaIndexed(ctx: Convert.Context, srv: C.Service, name: string)
    requires KeepsStackLabel(ctx, srv)
    ensures Cluster.IndexKey(Convert.ObjectMeta(ctx, srv, name)) == Some(StackKey(ctx))
  {
  }

  lemma WorkloadIsProper<S(!new)>(ctx: Convert.Context, converter: Result<Object<S> -> Object<S>>, zero: Object<S>,
                                  meta: Meta, current: Objects<S>, stackKey: string, labelled: bool)
    requires Keyed(current) && zero.meta.generation == 0 && Stamps(converter, meta)
    requires labelled ==> Cluster.Indexed(current, stackKey) && Cluster.IndexKey(meta) == Some(stackKey)
    requires Convert.KeptOrConverted(ctx, converter, Lookup(current, KeyOf(meta), zero)).Ok?
    ensures var o := Convert.KeptOrConverted(ctx, converter, Lookup(current, KeyOf(meta), zero)).value;
            Proper(ctx, current, map[KeyOf(o.meta) := o], stackKey, labelled)
  {
    WorkloadKey(ctx, converter, zero, current, meta);
  }

  lemma GlobalProper(ctx: Convert.Context, parts: Result<Pods.Parts>, srv: C.Service, current: StackState,
                     r: Result<StackState>, labelled: bool)
    requires KeyedState(current) && Labelled(ctx, srv, current, labelled)
    requires Convert.IsGlobal(srv)
    requires r == Convert.WorkloadFor(ctx, parts, srv, current) && r.Ok?
    ensures ProperState(ctx, current, r.value, StackKey(ctx), labelled)
  {
    var meta, selector := Convert.ObjectMeta(ctx, srv, srv.name), Convert.Selector(ctx, srv);
    var o := Convert.DaemonSetFor(ctx, parts, srv, Lookup(current.daemonsets, KeyOf(meta), ZERO_DAEMONSET)).value;
    assert r.value == EMPTY_STATE.(daemonsets := map[KeyOf(o.meta) := o]);
    if labelled { MetaIndexed(ctx, srv, srv.name); }
    WorkloadIsProper(ctx, Convert.DaemonSetConverter(parts, srv, meta, selector), ZERO_DAEMONSET, meta,
                     current.daemonsets, StackKey(ctx), labelled);
  }

  lemma StatefulProper(ctx: Convert.Context, parts: Result<Pods.Parts>, srv: C.Service, current: StackState,
                       r: Result<StackState>, labelled: bool)
    requires KeyedState(current) && Labelled(ctx, srv, current, labelled)
    requires !Convert.IsGlobal(srv) && Volumes.HasPersistentVolumes(srv)
    requires r == Convert.WorkloadFor(ctx, parts, srv, current) && r.Ok?
    ensures ProperState(ctx, current, r.value, StackKey(ctx), labelled)
  {
    var meta, selector := Convert.ObjectMeta(ctx, srv, srv.name), Convert.Selector(ctx, srv);
    var o := Convert.StatefulSetFor(ctx, parts, srv, Lookup(current.statefulsets, KeyOf(meta), ZERO_STATEFULSET)).value;
    assert r.value == EMPTY_STATE.(statefulsets := map[KeyOf(o.meta) := o]);
    if labelled { MetaIndexed(ctx, srv, srv.name); }
    WorkloadIsProper(ctx, Convert.StatefulSetConverter(parts, srv, meta, selector), ZERO_STATEFULSET, meta,
                     current.statefulsets, StackKey(ctx), labelled);
  }

  lemma StatelessProper(ctx: Convert.Context, parts: Result<Pods.Parts>, srv: C.Service, current: StackState,
                        r: Result<StackState>, labelled: bool)
    requires KeyedState(current) && Labelled(ctx, srv, current, labelled)
    requires !Convert.IsGlobal(srv) && !Volumes.HasPersistentVolumes(srv)
    requires r == Convert.WorkloadFor(ctx, parts, srv, current) && r.Ok?
    ensures ProperState(ctx, current, r.value, StackKey(ctx), labelled)
  {
    var meta, selector := Convert.ObjectMeta(ctx, srv, srv.name), Convert.Selector(ctx, srv);
    var o := Convert.DeploymentFor(ctx, parts, srv, Lookup(current.deployments, KeyOf(meta), ZERO_DEPLOYMENT)).value;
    assert r.value == EMPTY_STATE.(deployments := map[KeyOf(o.meta) := o]);
    if labelled { MetaIndexed(ctx, srv, srv.name); }
    WorkloadIsProper(ctx, Convert.DeploymentConverter(parts, srv, meta, selector), ZERO_DEPLOYMENT, meta,
                     current.deployments, StackKey(ctx), labelled);
  }

  lemma WorkloadProper(ctx: Convert.Context, parts: Result<Pods.Parts>, srv: C.Service, current: StackState,
                       r: Result<StackState>, labelled: bool)
    requires KeyedState(current) && Labelled(ctx, srv, current, labelled)
    requires r == Convert.WorkloadFor(ctx, parts, srv, current) && r.Ok?
    ensures ProperState(ctx, current, r.value, StackKey(ctx), labelled)
  {
    if Convert.IsGlobal(srv) {
      GlobalProper(ctx, parts, srv, current, r, labelled);
    } else if Volumes.HasPersistentVolumes(srv) {
      StatefulProper(ctx, parts, srv, current, r, labelled);
    } else {
      StatelessProper(ctx, parts, srv, current, r, labelled);
    }
  }

  lemma ServicesKeyed(ctx: Convert.Context, srv: C.Service, current: Objects<ServiceSpec>)
    ensures Keyed(Convert.ToServices(ctx, srv, current))
  {
  }

  lemma ServicesIndexed(ctx: Convert.Context, srv: C.Service, current: Objects<ServiceSpec>)
    requires KeepsStackLabel(ctx, srv)
    ensures Cluster.Indexed(Convert.ToServices(ctx, srv, current), StackKey(ctx))
  {
    MetaIndexed(ctx, srv, srv.name);
    MetaIndexed(ctx, srv, Convert.PublishedName(srv));
    MetaIndexed(ctx, srv, Convert.RandomPortsName(srv));
  }

  lemma StackResourcesProper(ctx: Convert.Context, srv: C.Service, current: StackState, labelled: bool)
    requires KeyedState(current) && Labelled(ctx, srv, current, labelled)
    ensures var r := Convert.ToStackResources(ctx, srv, current); r.Ok? ==>
              ProperState(ctx, current, r.value, StackKey(ctx), labelled)
  {
    var parts := Pods.PartsOf(ctx.platform, srv, ctx.spec);
    var w := Convert.WorkloadFor(ctx, parts, srv, current);
    if w.Ok? { WorkloadProper(ctx, parts, srv, current, w, labelled); }
    ServicesKeyed(ctx, srv, current.services);
    if labelled { ServicesIndexed(ctx, srv, current.services); }
  }

  lemma {:induction false} MergeProper(ctx: Convert.Context, current: StackState, results: seq<Result<StackState>>,
                                       stackKey: string, labelled: bool)
    requires Convert.Merge(results).Ok?
    requires forall i :: 0 <= i < |results| && results[i].Ok? ==>
               ProperState(ctx, current, results[i].value, stackKey, labelled)
    ensures ProperState(ctx, current, Convert.Merge(results).value, stackKey, labelled)
  {
    if results != [] {
      MergeProper(ctx, current, results[..|results| - 1], stackKey, labelled);
    }
  }

  // ----- Ownership, keys and labels -----

  function Own<S>(m: Objects<S>, uid: string): Objects<S> { map k | k in m :: Owned(m[k], uid) }

  /** setStackOwnership. */
  function OwnState(s: StackState, uid: string): StackState {
    StackState(Own(s.deployments, uid), Own(s.statefulsets, uid), Own(s.daemonsets, uid), Own(s.services, uid))
  }

  lemma OwnedProper(ctx: Convert.Context, current: StackState, s: StackState, stackKey: string, labelled: bool,
                    uid: string)
    requires ProperState(ctx, current, s, stackKey, labelled)
    ensures AllSkippedKept(ctx, current, OwnState(s, uid), uid)
    ensures KeyedState(OwnState(s, uid)) && (labelled ==> Cluster.StateIndexed(OwnState(s, uid), stackKey))
  {
  }

  lemma AgreeInSync<S>(cmp: Compare<S>, first: Objects<S>, second: Objects<S>, next: Objects<S>, uid: string)
    requires forall a, b :: cmp.same(a, Owned(b, uid)) == cmp.same(a, b)
    requires Agree(cmp, first, second, Own(first, uid), next, uid) && next.Keys == first.Keys
    ensures InSync(cmp, next, Own(second, uid))
  {
  }

  predicate SameKeys(a: StackState, b: StackState) {
    && a.deployments.Keys == b.deployments.Keys && a.statefulsets.Keys == b.statefulsets.Keys
    && a.daemonsets.Keys == b.daemonsets.Keys && a.services.Keys == b.services.Keys
  }

  lemma ReachedSameKeys(servers: Cluster.Servers, current: StackState, s: StackState, next: StackState, uid: string)
    requires Cluster.Reached(servers, current, OwnState(s, uid), next)
    ensures SameKeys(next, s)
  {
  }

  lemma StatesAgreeInSync(first: StackState, second: StackState, next: StackState, uid: string)
    requires StatesAgree(first, second, OwnState(first, uid), next, uid)
    requires SameKeys(next, first)
    ensures StatesInSync(next, OwnState(second, uid))
  {
    AgreeInSync(DEPLOYMENTS, first.deployments, second.deployments, next.deployments, uid);
    AgreeInSync(STATEFULSETS, first.statefulsets, second.statefulsets, next.statefulsets, uid);
    AgreeInSync(DAEMONSETS, first.daemonsets, second.daemonsets, next.daemonsets, uid);
    AgreeInSync(SERVICES, first.services, second.services, next.services, uid);
  }

  lemma ReachedKeyed<S>(server: Cluster.Server<S>, cmp: Compare<S>, current: Objects<S>, desired: Objects<S>,
                        next: Objects<S>)
    requires Keyed(current) && Keyed(desired) && Cluster.KindReached(server, cmp, current, desired, next)
    ensures Keyed(next)
  {
    forall k | k in next ensures KeyOf(next[k].meta) == k {
      assert Cluster.Settled(server, cmp, current, desired[k], k, next[k]);
    }
  }

  /** The merged results of two reconciles leave nothing to do. */
  lemma MergedInSync(next: StackState, once: seq<Result<StackState>>, again: seq<Result<StackState>>, uid: string)
    requires |once| == |again| && Convert.Merge(once).Ok? && SameKeys(next, Convert.Merge(once).value)
    requires var desired := OwnState(Convert.Merge(once).value, uid);
             forall i :: 0 <= i < |once| ==> Pairs(desired, next, uid, once[i], again[i])
    ensures Convert.Merge(again).Ok? && StatesInSync(next, OwnState(Convert.Merge(again).value, uid))
  {
    var desired := OwnState(Convert.Merge(once).value, uid);
    forall i | 0 <= i < |once| && once[i].Ok?
      ensures again[i].Ok? && StatesAgree(once[i].value, again[i].value, desired, next, uid)
    {
      MergeWithin(once, i);
    }
    MergeAgree(once, again, desired, next, uid);
    StatesAgreeInSync(Convert.Merge(once).value, Convert.Merge(again).value, next, uid);
  }

  // ----- The stack -----

  /** The desired state of reconcileChildren. */
  function Desired(p: P.Platform, strategy: Services.Strategy, stack: C.Stack,
                   current: StackState): Result<StackState> {
    var s :- Convert.StackToStack(p, strategy, stack, current);
    Ok(OwnState(s, stack.uid))
  }

  /** The same objects, owned by the stack. */
  ghost predicate OwnedBy<S>(uid: string, converted: Objects<S>, desired: Objects<S>) {
    && desired.Keys == converted.Keys
    && forall k :: k in desired ==>
        && desired[k].meta.ownerUid == uid && desired[k].spec == converted[k].spec
        && converted[k].meta == desired[k].meta.(ownerUid := converted[k].meta.ownerUid)
  }

  /** A reconcile desires what the stack converts to, every object owned by the stack. */
  lemma DesiredOwned(p: P.Platform, strategy: Services.Strategy, stack: C.Stack, current: StackState)
    requires Desired(p, strategy, stack, current).Ok?
    ensures var converted := Convert.StackToStack(p, strategy, stack, current);
            var desired := Desired(p, strategy, stack, current).value;
            && converted.Ok?
            && OwnedBy(stack.uid, converted.value.deployments, desired.deployments)
            && OwnedBy(stack.uid, converted.value.statefulsets, desired.statefulsets)
            && OwnedBy(stack.uid, converted.value.daemonsets, desired.daemonsets)
            && OwnedBy(stack.uid, converted.value.services, desired.services)
  {
  }

  /** Every service of the stack settles and keeps the stack's label. */
  ghost predicate Fits(ctx: Convert.Context, services: seq<C.Service>, current: StackState) {
    forall srv :: srv in services ==> Settleable(ctx, srv, current) && KeepsStackLabel(ctx, srv)
  }

  predicate KeepLabels(ctx: Convert.Context, services: seq<C.Service>) {
    forall srv :: srv in services ==> KeepsStackLabel(ctx, srv)
  }

  lemma ServicesProperState(ctx: Convert.Context, services: seq<C.Service>, current: StackState, labelled: bool)
    requires KeyedState(current)
    requires labelled ==> Cluster.StateIndexed(current, StackKey(ctx)) && KeepLabels(ctx, services)
    requires Convert.Merge(Convert.Map(Convert.ResourcesOf(ctx, current), services)).Ok?
    ensures ProperState(ctx, current, Convert.Merge(Convert.Map(Convert.ResourcesOf(ctx, current), services)).value,
                        StackKey(ctx), labelled)
  {
    var f := Convert.ResourcesOf(ctx, current);
    forall srv | srv in services
      ensures f(srv).Ok? ==> ProperState(ctx, current, f(srv).value, StackKey(ctx), labelled)
    {
      StackResourcesProper(ctx, srv, current, labelled);
    }
    MergeProper(ctx, current, Convert.Map(f, services), StackKey(ctx), labelled);
  }

  lemma AllServicesPair(servers: Cluster.Servers, first: Convert.Context, second: Convert.Context,
                        services: seq<C.Service>, current: StackState, desired: StackState, next: StackState,
                        uid: string)
    requires Twice(servers, first, second, current, desired, next, uid) && SamePlatform(first, second)
             && Fits(first, services, current)
    ensures forall i :: 0 <= i < |services| ==>
              Pairs(desired, next, uid, Convert.Map(Convert.ResourcesOf(first, current), services)[i],
                    Convert.Map(Convert.ResourcesOf(second, next), services)[i])
  {
    forall i | 0 <= i < |services|
      ensures Pairs(desired, next, uid, Convert.Map(Convert.ResourcesOf(first, current), services)[i],
                    Convert.Map(Convert.ResourcesOf(second, next), services)[i])
    {
      StackResourcesPair(servers, first, second, services[i], current, desired, next, uid);
    }
  }

  lemma ReachedState(servers: Cluster.Servers, current: StackState, desired: StackState, next: StackState)
    requires KeyedState(current) && KeyedState(desired) && Cluster.Reached(servers, current, desired, next)
    ensures KeyedState(next)
  {
    ReachedKeyed(servers.deployments, DEPLOYMENTS, current.deployments, desired.deployments, next.deployments);
    ReachedKeyed(servers.statefulsets, STATEFULSETS, current.statefulsets, desired.statefulsets, next.statefulsets);
    ReachedKeyed(servers.daemonsets, DAEMONSETS, current.daemonsets, desired.daemonsets, next.daemonsets);
    ReachedKeyed(servers.services, SERVICES, current.services, desired.services, next.services);
  }

  /** Two conversions around a successful apply. */
  lemma ConversionsInSync(servers: Cluster.Servers, first: Convert.Context, second: Convert.Context,
                          services: seq<C.Service>, current: StackState, next: StackState, uid: string)
    requires Admissible(servers) && Successive(first, second) && SamePlatform(first, second)
             && Fits(first, services, current)
    requires KeyedState(current) && Cluster.StateIndexed(current, StackKey(first))
    requires var once := Convert.Merge(Convert.Map(Convert.ResourcesOf(first, current), services));
             once.Ok? && Cluster.Reached(servers, current, OwnState(once.value, uid), next)
    ensures var again := Convert.Merge(Convert.Map(Convert.ResourcesOf(second, next), services));
            again.Ok? && StatesInSync(next, OwnState(again.value, uid))
  {
    var once, again := Convert.Map(Convert.ResourcesOf(first, current), services),
        Convert.Map(Convert.ResourcesOf(second, next), services);
    var desired := OwnState(Convert.Merge(once).value, uid);
    ServicesProperState(first, services, current, true);
    OwnedProper(first, current, Convert.Merge(once).value, StackKey(first), true, uid);
    ReachedState(servers, current, desired, next);
    AllServicesPair(servers, first, second, services, current, desired, next, uid);
    ReachedSameKeys(servers, current, Convert.Merge(once).value, next, uid);
    MergedInSync(next, once, again, uid);
  }

  /**
  On a stack that is not dirty, a stored workload whose generation is the expected one is desired as
  it is, whatever the spec asks for.
  */
  lemma CleanStackKeepsWorkloads(p: P.Platform, strategy: Services.Strategy, stack: C.Stack, current: StackState,
                                 s: StackState)
    requires KeyedState(current) && stack.spec.Some? && Convert.StackToStack(p, strategy, stack, current) == Ok(s)
    ensures SkippedSame(Convert.ContextOf(p, strategy, stack), current.deployments, s.deployments)
    ensures SkippedSame(Convert.ContextOf(p, strategy, stack), current.statefulsets, s.statefulsets)
    ensures SkippedSame(Convert.ContextOf(p, strategy, stack), current.daemonsets, s.daemonsets)
  {
    ServicesProperState(Convert.ContextOf(p, strategy, stack), Convert.SortByName(stack.spec.value.services), current,
                        false);
  }

  ghost predicate KeyedStores(c: Cluster.State) {
    Keyed(c.deployments.objects) && Keyed(c.statefulsets.objects) && Keyed(c.daemonsets.objects)
        && Keyed(c.services.objects)
  }

  lemma CurrentProper(c: Cluster.State, stackKey: string)
    requires KeyedStores(c)
    ensures KeyedState(Cluster.CurrentState(c, stackKey))
            && Cluster.StateIndexed(Cluster.CurrentState(c, stackKey), stackKey)
  {
  }

  /** The desired state is keyed, and labelled so that applying it reaches it. */
  lemma DesiredProper(p: P.Platform, strategy: Services.Strategy, stack: C.Stack, current: StackState, labelled: bool)
    requires KeyedState(current) && stack.spec.Some? && Desired(p, strategy, stack, current).Ok?
    requires labelled ==> Cluster.StateIndexed(current, ObjKey(stack.namespace, stack.name))
    requires labelled ==> KeepLabels(Convert.ContextOf(p, strategy, stack), stack.spec.value.services)
    ensures var desired := Desired(p, strategy, stack, current).value;
            KeyedState(desired) && (labelled ==> Cluster.StateIndexed(desired, ObjKey(stack.namespace, stack.name)))
  {
    var ctx, services := Convert.ContextOf(p, strategy, stack), Convert.SortByName(stack.spec.value.services);
    Convert.SortKeepsServices(stack.spec.value.services);
    ServicesProperState(ctx, services, current, labelled);
    OwnedProper(ctx, current, Convert.Merge(Convert.Map(Convert.ResourcesOf(ctx, current), services)).value,
                StackKey(ctx), labelled, stack.uid);
  }

  /** The second desired state, in terms of the states alone. */
  lemma DesiredAgain(servers: Cluster.Servers, p: P.Platform, q: P.Platform, strategy: Services.Strategy,
                     stack: C.Stack, later: C.Stack, current: StackState, next: StackState)
    requires Admissible(servers) && P.Valid(p) && P.Valid(q) && P.SameLibraries(p, q)
    requires later == stack.(status := later.status) && (C.IsDirty(stack.status) || !C.IsDirty(later.status))
    requires KeyedState(current) && Cluster.StateIndexed(current, ObjKey(stack.namespace, stack.name))
    requires && Desired(p, strategy, stack, current).Ok?
             && Fits(Convert.ContextOf(p, strategy, stack), stack.spec.value.services, current)
             && Cluster.Reached(servers, current, Desired(p, strategy, stack, current).value, next)
    ensures Desired(q, strategy, later, next).Ok? && StatesInSync(next, Desired(q, strategy, later, next).value)
  {
    Convert.SortKeepsServices(stack.spec.value.services);
    ConversionsInSync(servers, Convert.ContextOf(p, strategy, stack), Convert.ContextOf(q, strategy, later),
                      Convert.SortByName(stack.spec.value.services), current, next, stack.uid);
  }

  /**
  One reconcile of a cluster: the difference `d` between the current and the desired state was
  applied without error.
  */
  ghost predicate Reconciled(servers: Cluster.Servers, p: P.Platform, strategy: Services.Strategy, stack: C.Stack,
                             c: Cluster.State, d: StackDiff, after: Cluster.State) {
    var current := Cluster.CurrentState(c, ObjKey(stack.namespace, stack.name));
    var desired := Desired(p, strategy, stack, current);
    desired.Ok? && IsDiff(current, desired.value, d) && Cluster.ApplyDiff(servers, c, d) == (after, None)
  }

  /**
  A reconcile of a stack that converts goes through against a willing server exactly when no desired
  name is taken.
  */
  lemma ReconcileSucceedsIff(servers: Cluster.Servers, p: P.Platform, strategy: Services.Strategy, stack: C.Stack,
                             c: Cluster.State, current: StackState, desired: StackState)
    requires KeyedStores(c) && Cluster.Willing(servers) && stack.spec.Some?
    requires current == Cluster.CurrentState(c, ObjKey(stack.namespace, stack.name))
             && Desired(p, strategy, stack, current) == Ok(desired)
    ensures (exists d, after :: Reconciled(servers, p, strategy, stack, c, d, after)) <==>
            Cluster.NamesFree(c, desired, ObjKey(stack.namespace, stack.name))
  {
    var key := ObjKey(stack.namespace, stack.name);
    CurrentProper(c, key);
    DesiredProper(p, strategy, stack, current, false);
    Cluster.SomeDiffAppliesIff(servers, c, key, desired);
    if d, after :| Reconciled(servers, p, strategy, stack, c, d, after) {
      assert Cluster.Applies(servers, c, key, desired, d);
    }
    if d :| Cluster.Applies(servers, c, key, desired, d) {
      assert Reconciled(servers, p, strategy, stack, c, d, Cluster.ApplyDiff(servers, c, d).0);
    }
  }

  lemma ReconcileReaches(servers: Cluster.Servers, p: P.Platform, strategy: Services.Strategy, stack: C.Stack,
                         c: Cluster.State, d: StackDiff, after: Cluster.State, current: StackState, next: StackState)
    requires KeyedStores(c) && Reconciled(servers, p, strategy, stack, c, d, after)
    requires current == Cluster.CurrentState(c, ObjKey(stack.namespace, stack.name))
    requires next == Cluster.CurrentState(after, ObjKey(stack.namespace, stack.name))
    requires Fits(Convert.ContextOf(p, strategy, stack), stack.spec.value.services, current)
    ensures KeyedState(current) && Cluster.StateIndexed(current, ObjKey(stack.namespace, stack.name))
    ensures Desired(p, strategy, stack, current).Ok?
            && Cluster.Reached(servers, current, Desired(p, strategy, stack, current).value, next)
  {
    var key := ObjKey(stack.namespace, stack.name);
    CurrentProper(c, key);
    DesiredProper(p, strategy, stack, current, true);
    Cluster.ApplyReaches(servers, c, key, Desired(p, strategy, stack, current).value, d);
  }

  /**
  After a reconcile whose apply reported no error, the next reconcile of the same spec finds an
  empty difference, whatever the cluster held before, whatever the server filled in, in whatever
  order maps are walked, and whether or not the stack is still dirty (a clean stack stays clean).
  */
  lemma ReconcileFixpoint(servers: Cluster.Servers, p: P.Platform, q: P.Platform, strategy: Services.Strategy,
                          stack: C.Stack, later: C.Stack, c: Cluster.State, d: StackDiff, after: Cluster.State,
                          current: StackState, next: StackState)
    requires Admissible(servers) && KeyedStores(c) && P.Valid(p) && P.Valid(q) && P.SameLibraries(p, q)
    requires later == stack.(status := later.status) && (C.IsDirty(stack.status) || !C.IsDirty(later.status))
    requires Reconciled(servers, p, strategy, stack, c, d, after)
    requires current == Cluster.CurrentState(c, ObjKey(stack.namespace, stack.name))
    requires next == Cluster.CurrentState(after, ObjKey(stack.namespace, stack.name))
    requires Fits(Convert.ContextOf(p, strategy, stack), stack.spec.value.services, current)
    ensures Desired(q, strategy, later, next).Ok?
    ensures forall d' :: IsDiff(next, Desired(q, strategy, later, next).value, d') ==> d'.Empty()
  {
    ReconcileReaches(servers, p, strategy, stack, c, d, after, current, next);
    DesiredAgain(servers, p, q, strategy, stack, later, current, next);
    var again := Desired(q, strategy, later, next).value;
    forall d' | IsDiff(next, again, d') ensures d'.Empty() {
      EmptyIff(next, again, d');
    }
  }
}
