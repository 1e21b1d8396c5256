/** From a stack to its Kubernetes objects (internal/convert/stack.go and the workload files beside it). */
module Convert {
  import opened Wrappers
  import opened Text
  import opened Platform
  import C = Compose
  import K = Kube
  import HostAliases
  import Labels
  import Placement
  import Pods
  import Services
  import Volumes

  const EXPECTED_GENERATION := "com.docker.stack.expected-generation"

  // ----- Expected generations -----

  predicate GenerationMatchesExpected(meta: K.Meta) {
    && meta.generation >= 1
    && EXPECTED_GENERATION in meta.annotations
    && ParseInt(meta.annotations[EXPECTED_GENERATION]) == Some(meta.generation)
  }

  function SetExpectedGeneration(original: K.Meta, meta: K.Meta, changed: bool): K.Meta {
    var expected := if changed then original.generation + 1 else original.generation;
    meta.(annotations := meta.annotations[EXPECTED_GENERATION := FormatInt(expected)])
  }

  // ----- Workloads -----

  function ToReplicas(replicas: Option<C.uint64>): int {
    match replicas case None => 1 case Some(n) => C.ToInt32(n)
  }

  function ToStrategy(srv: C.Service, original: K.Strategy): K.Strategy {
    match srv.deploy.updateConfig
    case None => original
    case Some(config) =>
      match config.parallelism
      case None => original
      case Some(n) => K.Strategy("RollingUpdate", Some(C.ToInt32(n)), "")
  }

  function ToDeploymentSpec(parts: Pods.Parts, srv: C.Service, labels: Labels.LabelMap, selector: Labels.LabelMap,
                            original: K.DeploymentSpec): K.DeploymentSpec {
    original.(
      replicas := Some(ToReplicas(srv.deploy.replicas)),
      revisionHistoryLimit := Some(3),
      template := Pods.ForceRestartPolicy(Pods.Fill(parts, srv, labels, original.template)),
      strategy := ToStrategy(srv, original.strategy),
      selector := selector)
  }

  function ToStatefulSetSpec(parts: Pods.Parts, srv: C.Service, labels: Labels.LabelMap, selector: Labels.LabelMap,
                             original: K.StatefulSetSpec): K.StatefulSetSpec {
    original.(
      replicas := Some(ToReplicas(srv.deploy.replicas)),
      revisionHistoryLimit := Some(3),
      template := Pods.ForceRestartPolicy(Pods.Fill(parts, srv, labels, original.template)),
      updateStrategy := ToStrategy(srv, original.updateStrategy),
      claims := Volumes.ToPersistentVolumeClaims(srv, original.claims),
      selector := selector)
  }

  function ToDaemonSetSpec(parts: Pods.Parts, srv: C.Service, labels: Labels.LabelMap, selector: Labels.LabelMap,
                           original: K.DaemonSetSpec): K.DaemonSetSpec {
    original.(template := Pods.Fill(parts, srv, labels, original.template), selector := selector)
  }

  /** The API server bumps a Deployment's generation on annotation changes too, hence the second comparison. */
  function ToDeployment(parts: Pods.Parts, srv: C.Service, meta: K.Meta, selector: Labels.LabelMap,
                        original: K.Deployment): K.Deployment {
    var spec := ToDeploymentSpec(parts, srv, meta.labels, selector, original.spec);
    var first := SetExpectedGeneration(original.meta, meta, original.spec != spec);
    K.Object(SetExpectedGeneration(original.meta, first, original.meta.annotations != first.annotations), spec)
  }

  function ToStatefulSet(parts: Pods.Parts, srv: C.Service, meta: K.Meta, selector: Labels.LabelMap,
                         original: K.StatefulSet): K.StatefulSet {
    var spec := ToStatefulSetSpec(parts, srv, meta.labels, selector, original.spec);
    K.Object(SetExpectedGeneration(original.meta, meta, original.spec != spec), spec)
  }

  function ToDaemonSet(parts: Pods.Parts, srv: C.Service, meta: K.Meta, selector: Labels.LabelMap,
                       original: K.DaemonSet): K.DaemonSet {
    var spec := ToDaemonSetSpec(parts, srv, meta.labels, selector, original.spec);
    K.Object(SetExpectedGeneration(original.meta, meta, original.spec != spec), spec)
  }

  predicate IsGlobal(srv: C.Service) { srv.deploy.mode == "global" }

  // ----- One service -----

  /** Everything about a stack that toStackResources needs besides the service. */
  datatype Context = Context(
    platform: Platform,
    strategy: Services.Strategy,
    stackName: string,
    namespace: string,
    spec: C.StackSpec,
    dirty: bool)

  function ObjectMeta(ctx: Context, srv: C.Service, name: string): K.Meta {
    K.Meta(name, ctx.namespace, Labels.MergeLabels(Selector(ctx, srv), srv.deploy.labels), map[], 0, 0, "")
  }

  function Selector(ctx: Context, srv: C.Service): Labels.LabelMap { Labels.ForService(ctx.stackName, srv.name) }

  function Key(ctx: Context, name: string): string { K.ObjKey(ctx.namespace, name) }

  function PublishedName(srv: C.Service): string { srv.name + Services.PUBLISHED_SUFFIX }
  function RandomPortsName(srv: C.Service): string { srv.name + Services.RANDOM_PORTS_SUFFIX }

  function InternalService(ctx: Context, srv: C.Service, original: K.Service): K.Service {
    K.Object(ObjectMeta(ctx, srv, srv.name), Services.ToInternalSpec(srv, Selector(ctx, srv), original.spec))
  }

  function ExposedService(ctx: Context, srv: C.Service, published: bool, original: K.Service): map<string, K.Service> {
    var name := if published then PublishedName(srv) else RandomPortsName(srv);
    match Services.ToExposed(ctx.strategy, srv, published, Selector(ctx, srv), original.spec)
    case None => map[]
    case Some(spec) => map[Key(ctx, name) := K.Object(ObjectMeta(ctx, srv, name), spec)]
  }

  function ToServices(ctx: Context, srv: C.Service, original: map<string, K.Service>): map<string, K.Service> {
    map[Key(ctx, srv.name) := InternalService(ctx, srv, K.Lookup(original, Key(ctx, srv.name), K.ZERO_SERVICE))]
    + ExposedService(ctx, srv, true, K.Lookup(original, Key(ctx, PublishedName(srv)), K.ZERO_SERVICE))
    + ExposedService(ctx, srv, false, K.Lookup(original, Key(ctx, RandomPortsName(srv)), K.ZERO_SERVICE))
  }

  /** An untouched object of a clean stack is kept as it is. */
  predicate Skip<S>(ctx: Context, original: K.Object<S>) {
    !ctx.dirty && GenerationMatchesExpected(original.meta)
  }

  /** A workload is kept as it is stored, or converted if the parts of its service could be computed. */
  function KeptOrConverted<S>(ctx: Context, converter: Result<K.Object<S> -> K.Object<S>>,
                              original: K.Object<S>): Result<K.Object<S>> {
    if Skip(ctx, original) then Ok(original)
    else
      var convert :- converter;
      Ok(convert(original))
  }

  function DaemonSetConverter(parts: Result<Pods.Parts>, srv: C.Service, meta: K.Meta,
                              selector: Labels.LabelMap): Result<K.DaemonSet -> K.DaemonSet> {
    var parts :- parts;
    Ok(original => ToDaemonSet(parts, srv, meta, selector, original))
  }

  function DaemonSetFor(ctx: Context, parts: Result<Pods.Parts>, srv: C.Service,
                        original: K.DaemonSet): Result<K.DaemonSet> {
    KeptOrConverted(ctx, DaemonSetConverter(parts, srv, ObjectMeta(ctx, srv, srv.name), Selector(ctx, srv)), original)
  }

  function StatefulSetConverter(parts: Result<Pods.Parts>, srv: C.Service, meta: K.Meta,
                                selector: Labels.LabelMap): Result<K.StatefulSet -> K.StatefulSet> {
    var parts :- parts;
    Ok(original => ToStatefulSet(parts, srv, meta, selector, original))
  }

  function StatefulSetFor(ctx: Context, parts: Result<Pods.Parts>, srv: C.Service,
                          original: K.StatefulSet): Result<K.StatefulSet> {
    KeptOrConverted(ctx, StatefulSetConverter(parts, srv, ObjectMeta(ctx, srv, srv.name), Selector(ctx, srv)), original)
  }

  function DeploymentConverter(parts: Result<Pods.Parts>, srv: C.Service, meta: K.Meta,
                               selector: Labels.LabelMap): Result<K.Deployment -> K.Deployment> {
    var parts :- parts;
    Ok(original => ToDeployment(parts, srv, meta, selector, original))
  }

  function DeploymentFor(ctx: Context, parts: Result<Pods.Parts>, srv: C.Service,
                         original: K.Deployment): Result<K.Deployment> {
    KeptOrConverted(ctx, DeploymentConverter(parts, srv, ObjectMeta(ctx, srv, srv.name), Selector(ctx, srv)), original)
  }

  /** The workload of a service: a DaemonSet, a StatefulSet or a Deployment. */
  function WorkloadFor(ctx: Context, parts: Result<Pods.Parts>, srv: C.Service,
                       original: K.StackState): Result<K.StackState> {
    var key := Key(ctx, srv.name);
    if IsGlobal(srv) then
      if Volumes.HasPersistentVolumes(srv) then Err("using persistent volumes in a global service is not supported yet")
      else
        var d :- DaemonSetFor(ctx, parts, srv, K.Lookup(original.daemonsets, key, K.ZERO_DAEMONSET));
        Ok(K.EMPTY_STATE.(daemonsets := map[K.KeyOf(d.meta) := d]))
    else if Volumes.HasPersistentVolumes(srv) then
      var s :- StatefulSetFor(ctx, parts, srv, K.Lookup(original.statefulsets, key, K.ZERO_STATEFULSET));
      Ok(K.EMPTY_STATE.(statefulsets := map[K.KeyOf(s.meta) := s]))
    else
      var d :- DeploymentFor(ctx, parts, srv, K.Lookup(original.deployments, key, K.ZERO_DEPLOYMENT));
      Ok(K.EMPTY_STATE.(deployments := map[K.KeyOf(d.meta) := d]))
  }

  /** The service's workload and its services, as a state of their own. */
  function WithServices(workload: Result<K.StackState>, services: map<string, K.Service>): Result<K.StackState> {
    var w :- workload;
    Ok(w.(services := services))
  }

  /** toStackResources. */
  function ToStackResources(ctx: Context, srv: C.Service, original: K.StackState): Result<K.StackState> {
    WithServices(WorkloadFor(ctx, Pods.PartsOf(ctx.platform, srv, ctx.spec), srv, original),
                 ToServices(ctx, srv, original.services))
  }

  // ----- The stack -----

  function InsertByName(sorted: seq<C.Service>, srv: C.Service): (r: seq<C.Service>)
    ensures multiset(r) == multiset(sorted) + multiset{srv}
  {
    if sorted == [] then [srv]
    else if Less(srv.name, sorted[0].name) then [srv] + sorted
    else
      assert sorted == [sorted[0]] + sorted[1..];
      [sorted[0]] + InsertByName(sorted[1..], srv)
  }

  /** sort.Slice by name. */
  function SortByName(services: seq<C.Service>): (r: seq<C.Service>)
    ensures multiset(r) == multiset(services)
  {
    if services == [] then []
    else
      var n := |services| - 1;
      assert services == services[..n] + [services[n]];
      InsertByName(SortByName(services[..n]), services[n])
  }

  /** No service comes after one with a larger name. */
  predicate ByName(services: seq<C.Service>) {
    forall i, j :: 0 <= i < j < |services| ==> !Less(services[j].name, services[i].name)
  }

  lemma ByNameCons(first: C.Service, rest: seq<C.Service>)
    requires ByName(rest) && forall s :: s in rest ==> !Less(s.name, first.name)
    ensures ByName([first] + rest)
  {
  }

  lemma {:induction false} InsertKeepsOrder(sorted: seq<C.Service>, srv: C.Service)
    requires ByName(sorted)
    ensures ByName(InsertByName(sorted, srv))
  {
    if sorted == [] {
    } else if Less(srv.name, sorted[0].name) {
      forall s | s in sorted ensures !Less(s.name, srv.name) {
        if Less(s.name, srv.name) {
          LessTransitive(s.name, srv.name, sorted[0].name);
          LessIrreflexive(sorted[0].name);
        }
      }
      ByNameCons(srv, sorted);
    } else {
      InsertKeepsOrder(sorted[1..], srv);
      var rest := InsertByName(sorted[1..], srv);
      forall s | s in rest ensures !Less(s.name, sorted[0].name) {
        assert s in multiset(rest);
        assert s == srv || s in sorted[1..];
      }
      ByNameCons(sorted[0], rest);
    }
  }

  lemma {:induction false} SortOrders(services: seq<C.Service>)
    ensures ByName(SortByName(services))
  {
    if services != [] {
      var n := |services| - 1;
      SortOrders(services[..n]);
      InsertKeepsOrder(SortByName(services[..n]), services[n]);
    }
  }

  lemma {:induction false} InsertLargest(sorted: seq<C.Service>, srv: C.Service)
    requires forall i :: 0 <= i < |sorted| ==> !Less(srv.name, sorted[i].name)
    ensures InsertByName(sorted, srv) == sorted + [srv]
  {
    if sorted != [] {
      InsertLargest(sorted[1..], srv);
      assert sorted == [sorted[0]] + sorted[1..];
    }
  }

  lemma ByNameInit(services: seq<C.Service>, n: nat)
    requires n + 1 == |services| && ByName(services)
    ensures ByName(services[..n]) && InsertByName(services[..n], services[n]) == services
  {
    var init, last := services[..n], services[n];
    forall i | 0 <= i < n ensures !Less(last.name, init[i].name) {
      assert init[i] == services[i];
    }
    InsertLargest(init, last);
    assert services == init + [last];
  }

  lemma {:induction false} SortOfSorted(services: seq<C.Service>)
    requires ByName(services)
    ensures SortByName(services) == services
  {
    if services != [] {
      var n := |services| - 1;
      ByNameInit(services, n);
      SortOfSorted(services[..n]);
    }
  }

  predicate DistinctNames(services: seq<C.Service>) {
    forall i, j :: 0 <= i < j < |services| ==> services[i].name != services[j].name
  }

  /** The first of the services in order comes first in every list of them that is in order. */
  lemma FirstByName(a: seq<C.Service>, b: seq<C.Service>)
    requires ByName(a) && ByName(b) && DistinctNames(b) && multiset(a) == multiset(b) && a != []
    ensures b != [] && a[0] == b[0]
  {
    assert a[0] in multiset(a) && |multiset(a)| == |multiset(b)|;
    var j :| 0 <= j < |b| && b[j] == a[0];
    assert b[0] in multiset(b);
    var i :| 0 <= i < |a| && a[i] == b[0];
    LessIrreflexive(a[0].name);
    LessTotal(a[0].name, b[0].name);
    assert !Less(b[j].name, b[0].name) && !Less(a[i].name, a[0].name);
  }

  /** Services with distinct names have one order, so it does not matter how they are sorted. */
  lemma {:induction false} OrderIsUnique(a: seq<C.Service>, b: seq<C.Service>)
    requires ByName(a) && ByName(b) && DistinctNames(b) && multiset(a) == multiset(b)
    ensures a == b
  {
    if a == [] {
      assert |multiset(b)| == 0;
    } else {
      FirstByName(a, b);
      assert a == [a[0]] + a[1..] && b == [b[0]] + b[1..];
      assert multiset(a[1..]) == multiset(a) - multiset{a[0]};
      OrderIsUnique(a[1..], b[1..]);
    }
  }

  /** Whatever sorts the services by name, if their names are distinct, gives this order. */
  lemma AnySortAgrees(services: seq<C.Service>, sorted: seq<C.Service>)
    requires DistinctNames(sorted) && ByName(sorted) && multiset(sorted) == multiset(services)
    ensures SortByName(services) == sorted
  {
    SortOrders(services);
    OrderIsUnique(SortByName(services), sorted);
  }

  /** Sorting changes nothing exactly when the services are in order already. */
  lemma SortKeepsIff(services: seq<C.Service>)
    ensures SortByName(services) == services <==> ByName(services)
  {
    SortOrders(services);
    if ByName(services) { SortOfSorted(services); }
  }

  lemma SortIdempotent(services: seq<C.Service>)
    ensures SortByName(SortByName(services)) == SortByName(services)
  {
    SortOrders(services);
    SortOfSorted(SortByName(services));
  }

  /** The resources of one service after the other, up to the first error. */
  function Merge(results: seq<Result<K.StackState>>): Result<K.StackState> {
    if results == [] then Ok(K.EMPTY_STATE)
    else
      var n := |results| - 1;
      var before :- Merge(results[..n]);
      var resources :- results[n];
      Ok(before.Add(resources))
  }

  function Map(resourcesOf: C.Service -> Result<K.StackState>, services: seq<C.Service>): seq<Result<K.StackState>> {
    seq(|services|, i requires 0 <= i < |services| => resourcesOf(services[i]))
  }

  function ResourcesOf(ctx: Context, original: K.StackState): C.Service -> Result<K.StackState> {
    srv => ToStackResources(ctx, srv, original)
  }

  function ContextOf(p: Platform, strategy: Services.Strategy, stack: C.Stack): Context
    requires stack.spec.Some?
  {
    Context(p, strategy, stack.name, stack.namespace, stack.spec.value, C.IsDirty(stack.status))
  }

  function StackToStack(p: Platform, strategy: Services.Strategy, stack: C.Stack,
                        original: K.StackState): Result<K.StackState> {
    if stack.spec.None? then Err("stack spec is nil")
    else if stack.spec.value.services == [] then Err("this stack has no service")
    else
      Merge(Map(ResourcesOf(ContextOf(p, strategy, stack), original), SortByName(stack.spec.value.services)))
  }

  /** The loop of StackToStack, over the services already sorted; `resourcesOf` is toStackResources for this stack. */
  method ConvertServices(resourcesOf: C.Service -> Result<K.StackState>,
                         services: seq<C.Service>) returns (r: Result<K.StackState>)
    ensures r.Ok? <==> Merge(Map(resourcesOf, services)).Ok?
    ensures r.Ok? ==> r == Merge(Map(resourcesOf, services))
  {
    ghost var all := Map(resourcesOf, services);
    var state := K.EMPTY_STATE;
    for i := 0 to |services|
      invariant Merge(all[..i]) == Ok(state)
    {
      assert all[..i + 1][..i] == all[..i];
      var resources := resourcesOf(services[i]);
      assert resources == all[i];
      if resources.Err? {
        MergeFails(all, i);
        return Err(resources.message);
      }
      state := state.Add(resources.value);
    }
    assert all[..|services|] == all;
    return Ok(state);
  }

  lemma {:induction false} MergeFails(results: seq<Result<K.StackState>>, i: nat)
    requires i < |results| && results[i].Err?
    ensures Merge(results).Err?
  {
    var n := |results| - 1;
    if i < n {
      MergeFails(results[..n], i);
    }
  }

  // ----- When a stack converts -----

  /** What toStackResources demands of a service whose stored workload is not simply kept. */
  predicate Convertible(p: Platform, srv: C.Service) {
    !(IsGlobal(srv) && Volumes.HasPersistentVolumes(srv)) && Pods.Acceptable(p, srv)
  }

  lemma {:induction false} MergeOkIff(results: seq<Result<K.StackState>>)
    ensures Merge(results).Ok? <==> forall i :: 0 <= i < |results| ==> results[i].Ok?
  {
    if results != [] {
      var n := |results| - 1;
      MergeOkIff(results[..n]);
      assert forall i :: 0 <= i < n ==> results[..n][i] == results[i];
    }
  }

  lemma WorkloadOkIff(ctx: Context, parts: Result<Pods.Parts>, srv: C.Service, original: K.StackState)
    requires ctx.dirty
    ensures WorkloadFor(ctx, parts, srv, original).Ok? <==>
            !(IsGlobal(srv) && Volumes.HasPersistentVolumes(srv)) && parts.Ok?
  {
  }

  lemma ResourcesOkIff(ctx: Context, original: K.StackState, srv: C.Service)
    requires ctx.dirty && Valid(ctx.platform)
    ensures ResourcesOf(ctx, original)(srv).Ok? <==> Convertible(ctx.platform, srv)
  {
    Pods.PartsOkIff(ctx.platform, srv, ctx.spec);
    WorkloadOkIff(ctx, Pods.PartsOf(ctx.platform, srv, ctx.spec), srv, original);
  }

  lemma SortKeepsServices(services: seq<C.Service>)
    ensures forall srv :: srv in SortByName(services) <==> srv in services
  {
    forall srv ensures srv in SortByName(services) <==> srv in services {
      assert srv in multiset(SortByName(services)) <==> srv in multiset(services);
    }
  }

  /**
  A dirty stack converts, from whatever is stored, exactly when it has services and each of them is
  accepted: no global service with a volume, supported constraints, well-formed hosts, set variables,
  known policies, quantities that parse and absolute bind mounts.
  */
  lemma StackConvertsIff(p: Platform, strategy: Services.Strategy, stack: C.Stack, original: K.StackState)
    requires Valid(p) && C.IsDirty(stack.status)
    ensures StackToStack(p, strategy, stack, original).Ok? <==>
            && stack.spec.Some? && stack.spec.value.services != []
            && forall srv :: srv in stack.spec.value.services ==> Convertible(p, srv)
  {
    if stack.spec.Some? && stack.spec.value.services != [] {
      var ctx, sorted := ContextOf(p, strategy, stack), SortByName(stack.spec.value.services);
      SortKeepsServices(stack.spec.value.services);
      MergeOkIff(Map(ResourcesOf(ctx, original), sorted));
      forall i | 0 <= i < |sorted|
        ensures Map(ResourcesOf(ctx, original), sorted)[i].Ok? <==> Convertible(p, sorted[i])
      {
        ResourcesOkIff(ctx, original, sorted[i]);
      }
    }
  }

  /** A service that only names an image. */
  function PlainService(name: string, image: string): C.Service {
    C.Service(name, [], [], [], [], C.Deploy("", None, map[], None, None, None, None, None), [], map[], [], "", None,
              image, "", map[], "",
              [], false, false, [], false, None, [], false, None, [], "", "", "", [], "")
  }

  /** The smallest dirty stack converts, whatever is stored. */
  lemma PlainServiceConverts(p: Platform, strategy: Services.Strategy, stack: C.Stack, original: K.StackState,
                             name: string, image: string)
    requires Valid(p) && C.IsDirty(stack.status)
    requires stack.spec.Some? && stack.spec.value.services == [PlainService(name, image)]
    ensures StackToStack(p, strategy, stack, original).Ok?
  {
    StackConvertsIff(p, strategy, stack, original);
    assert Convertible(p, PlainService(name, image));
  }
}
