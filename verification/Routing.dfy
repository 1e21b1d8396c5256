/** Which pods the generated selectors pick (api/labels/labels.go:18-32, internal/convert/stack.go:62-63). */
module Routing {
  import opened Wrappers
  import opened Kube
  import C = Compose
  import Convert
  import Labels
  import Pods
  import Volumes

  /** A selector of a workload of the state. */
  ghost predicate HasWorkloadSelector(s: StackState, selector: Labels.LabelMap) {
    || (exists k :: k in s.deployments && s.deployments[k].spec.selector == selector)
    || (exists k :: k in s.statefulsets && s.statefulsets[k].spec.selector == selector)
    || (exists k :: k in s.daemonsets && s.daemonsets[k].spec.selector == selector)
  }

  ghost predicate HasServiceSelector(s: StackState, selector: Labels.LabelMap) {
    exists k :: k in s.services && s.services[k].spec.selector == selector
  }

  /** The labels of the pods of a workload of the state. */
  ghost predicate HasPods(s: StackState, labels: Labels.LabelMap) {
    || (exists k :: k in s.deployments && s.deployments[k].spec.template.labels == labels)
    || (exists k :: k in s.statefulsets && s.statefulsets[k].spec.template.labels == labels)
    || (exists k :: k in s.daemonsets && s.daemonsets[k].spec.template.labels == labels)
  }

  ghost predicate Selecting(services: map<string, Service>, selector: Labels.LabelMap) {
    forall k :: k in services ==> services[k].spec.selector == selector
  }

  /** Every workload selects by `selector` and labels its pods `labels`. */
  ghost predicate Uniform(s: StackState, selector: Labels.LabelMap, labels: Labels.LabelMap) {
    && (forall k :: k in s.deployments ==>
          s.deployments[k].spec.selector == selector && s.deployments[k].spec.template.labels == labels)
    && (forall k :: k in s.statefulsets ==>
          s.statefulsets[k].spec.selector == selector && s.statefulsets[k].spec.template.labels == labels)
    && (forall k :: k in s.daemonsets ==>
          s.daemonsets[k].spec.selector == selector && s.daemonsets[k].spec.template.labels == labels)
  }

  function PodLabels(ctx: Convert.Context, srv: C.Service): Labels.LabelMap {
    Labels.MergeLabels(Convert.Selector(ctx, srv), srv.deploy.labels)
  }

  lemma ServicesUniform(ctx: Convert.Context, srv: C.Service, original: map<string, Service>)
    ensures Selecting(Convert.ToServices(ctx, srv, original), Convert.Selector(ctx, srv))
  {
    var internal := map[Convert.Key(ctx, srv.name) := Convert.InternalService(ctx, srv,
        Lookup(original, Convert.Key(ctx, srv.name), ZERO_SERVICE))];
    var published := Convert.ExposedService(ctx, srv, true,
                                            Lookup(original, Convert.Key(ctx, Convert.PublishedName(srv)),
                                                   ZERO_SERVICE));
    var random := Convert.ExposedService(ctx, srv, false,
                                         Lookup(original, Convert.Key(ctx, Convert.RandomPortsName(srv)),
                                                ZERO_SERVICE));
    assert Selecting(internal, Convert.Selector(ctx, srv));
    assert Selecting(published, Convert.Selector(ctx, srv));
    assert Selecting(random, Convert.Selector(ctx, srv));
  }

  lemma DaemonSetLabels(ctx: Convert.Context, parts: Result<Pods.Parts>, srv: C.Service, original: DaemonSet)
    requires !Convert.Skip(ctx, original) && Convert.DaemonSetFor(ctx, parts, srv, original).Ok?
    ensures var o := Convert.DaemonSetFor(ctx, parts, srv, original).value;
            o.spec.selector == Convert.Selector(ctx, srv) && o.spec.template.labels == PodLabels(ctx, srv)
  {
  }

  lemma StatefulSetLabels(ctx: Convert.Context, parts: Result<Pods.Parts>, srv: C.Service, original: StatefulSet)
    requires !Convert.Skip(ctx, original) && Convert.StatefulSetFor(ctx, parts, srv, original).Ok?
    ensures var o := Convert.StatefulSetFor(ctx, parts, srv, original).value;
            o.spec.selector == Convert.Selector(ctx, srv) && o.spec.template.labels == PodLabels(ctx, srv)
  {
  }

  lemma DeploymentLabels(ctx: Convert.Context, parts: Result<Pods.Parts>, srv: C.Service, original: Deployment)
    requires !Convert.Skip(ctx, original) && Convert.DeploymentFor(ctx, parts, srv, original).Ok?
    ensures var o := Convert.DeploymentFor(ctx, parts, srv, original).value;
            o.spec.selector == Convert.Selector(ctx, srv) && o.spec.template.labels == PodLabels(ctx, srv)
  {
  }

  /** The service's workload is converted, not kept by the fast path. */
  predicate Converted(ctx: Convert.Context, srv: C.Service, original: StackState) {
    var key := Convert.Key(ctx, srv.name);
    if Convert.IsGlobal(srv) then !Convert.Skip(ctx, Lookup(original.daemonsets, key, ZERO_DAEMONSET))
    else if Volumes.HasPersistentVolumes(srv) then !Convert.Skip(ctx,
                                                                 Lookup(original.statefulsets, key, ZERO_STATEFULSET))
    else !Convert.Skip(ctx, Lookup(original.deployments, key, ZERO_DEPLOYMENT))
  }

  lemma WorkloadUniform(ctx: Convert.Context, parts: Result<Pods.Parts>, srv: C.Service, original: StackState,
                        w: Result<StackState>)
    requires Converted(ctx, srv, original) && w == Convert.WorkloadFor(ctx, parts, srv, original) && w.Ok?
    ensures Uniform(w.value, Convert.Selector(ctx, srv), PodLabels(ctx, srv))
  {
    var key := Convert.Key(ctx, srv.name);
    if Convert.IsGlobal(srv) {
      DaemonSetLabels(ctx, parts, srv, Lookup(original.daemonsets, key, ZERO_DAEMONSET));
    } else if Volumes.HasPersistentVolumes(srv) {
      StatefulSetLabels(ctx, parts, srv, Lookup(original.statefulsets, key, ZERO_STATEFULSET));
    } else {
      DeploymentLabels(ctx, parts, srv, Lookup(original.deployments, key, ZERO_DEPLOYMENT));
    }
  }

  lemma ResourcesUniform(ctx: Convert.Context, srv: C.Service, original: StackState, s: StackState)
    requires Convert.ToStackResources(ctx, srv, original) == Ok(s)
    ensures Selecting(s.services, Convert.Selector(ctx, srv))
    ensures Converted(ctx, srv, original) ==> Uniform(s, Convert.Selector(ctx, srv), PodLabels(ctx, srv))
  {
    var parts := Pods.PartsOf(ctx.platform, srv, ctx.spec);
    if Converted(ctx, srv, original) {
      WorkloadUniform(ctx, parts, srv, original, Convert.WorkloadFor(ctx, parts, srv, original));
    }
    ServicesUniform(ctx, srv, original.services);
  }

  lemma UniformMeans(s: StackState, own: Labels.LabelMap, ownLabels: Labels.LabelMap)
    requires Uniform(s, own, ownLabels)
    ensures forall selector :: HasWorkloadSelector(s, selector) ==> selector == own
    ensures forall labels :: HasPods(s, labels) ==> labels == ownLabels
  {
  }

  /** The selector is that of a service of the state, or of its workload where that is converted. */
  ghost predicate SelectorOf(ctx: Convert.Context, srv: C.Service, original: StackState, s: StackState,
                             selector: Labels.LabelMap) {
    && Convert.ToStackResources(ctx, srv, original) == Ok(s)
    && (HasServiceSelector(s, selector) || (Converted(ctx, srv, original) && HasWorkloadSelector(s, selector)))
  }

  ghost predicate PodsOf(ctx: Convert.Context, srv: C.Service, original: StackState, s: StackState,
                         labels: Labels.LabelMap) {
    Convert.ToStackResources(ctx, srv, original) == Ok(s) && Converted(ctx, srv, original) && HasPods(s, labels)
  }

  /** A selector generated for a service, from some stored state. */
  ghost predicate GeneratesSelector(ctx: Convert.Context, srv: C.Service, selector: Labels.LabelMap) {
    exists original, s :: SelectorOf(ctx, srv, original, s, selector)
  }

  /** The labels of pods generated for a service, from some stored state. */
  ghost predicate GeneratesPods(ctx: Convert.Context, srv: C.Service, labels: Labels.LabelMap) {
    exists original, s :: PodsOf(ctx, srv, original, s, labels)
  }

  lemma OwnSelector(ctx: Convert.Context, srv: C.Service, original: StackState, s: StackState,
                    selector: Labels.LabelMap)
    requires SelectorOf(ctx, srv, original, s, selector)
    ensures selector == Convert.Selector(ctx, srv)
  {
    ResourcesUniform(ctx, srv, original, s);
    if !HasServiceSelector(s, selector) { UniformMeans(s, Convert.Selector(ctx, srv), PodLabels(ctx, srv)); }
  }

  lemma OwnPods(ctx: Convert.Context, srv: C.Service, original: StackState, s: StackState, labels: Labels.LabelMap)
    requires PodsOf(ctx, srv, original, s, labels)
    ensures labels == PodLabels(ctx, srv)
  {
    ResourcesUniform(ctx, srv, original, s);
    UniformMeans(s, Convert.Selector(ctx, srv), PodLabels(ctx, srv));
  }

  /**
  A generated selector, of a service or a workload, picks a generated pod exactly when both come
  from the same service of the same stack.
  */
  lemma RoutesToOwnPods(a: Convert.Context, srvA: C.Service, b: Convert.Context, srvB: C.Service,
                        selector: Labels.LabelMap, labels: Labels.LabelMap)
    requires GeneratesSelector(a, srvA, selector) && GeneratesPods(b, srvB, labels)
    requires a.stackName != "" && srvA.name != "" && b.stackName != "" && srvB.name != ""
             && Labels.NoReserved(srvB.deploy.labels)
    ensures Labels.Matches(selector, labels) <==> a.stackName == b.stackName && srvA.name == srvB.name
  {
    var originalA, sA :| SelectorOf(a, srvA, originalA, sA, selector);
    OwnSelector(a, srvA, originalA, sA, selector);
    var originalB, sB :| PodsOf(b, srvB, originalB, sB, labels);
    OwnPods(b, srvB, originalB, sB, labels);
    Labels.SelectorPicksOwnPods(a.stackName, srvA.name, b.stackName, srvB.name, srvB.deploy.labels);
  }
}
