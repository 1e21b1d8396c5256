/**
What the objects generated for a stack say, field by field, from the compose services alone
(internal/convert/pod.go, deployment.go, stateful-set.go, daemon-set.go, service.go, stack.go).
*/
module Meaning {
  import opened Wrappers
  import opened Text
  import opened Kube
  import C = Compose
  import Convert
  import HostAliases
  import Labels
  import P = Platform
  import Placement
  import Pods
  import Services
  import Volumes

  // ----- Containers -----

  /** Exactly the variables of the service with their values, in order of their names. */
  ghost predicate EnvFor(environment: map<string, Option<string>>, env: seq<EnvVar>) {
    && (forall i, j :: 0 <= i < j < |env| ==> Less(env[i].name, env[j].name))
    && forall e :: e in env <==> e.name in environment && environment[e.name] == Some(e.value)
  }

  predicate PortsFor(ports: seq<C.Port>, r: seq<ContainerPort>) {
    && |r| == |ports|
    && forall i :: 0 <= i < |ports| ==>
        && r[i].port == C.ToInt32(ports[i].target)
        && r[i].protocol == if ports[i].protocol == "udp" then "UDP" else "TCP"
  }

  /** Whole seconds, cut off towards zero. */
  predicate Truncates(nanoseconds: int, seconds: int) {
    if nanoseconds >= 0 then seconds * 1_000_000_000 <= nanoseconds < (seconds + 1) * 1_000_000_000
    else (seconds - 1) * 1_000_000_000 < nanoseconds <= seconds * 1_000_000_000
  }

  ghost predicate ProbeSeconds(duration: Option<C.int64>, r: int) {
    if duration.None? then r == 1 else exists s :: Truncates(duration.value, s) && r == C.ToInt32(s)
  }

  ghost predicate ProbeFor(check: Option<C.HealthCheck>, probe: Option<Probe>) {
    if check.None? || check.value.test == [] || check.value.test[0] == "NONE" then probe.None?
    else
      var h := check.value;
      && probe.Some?
      && probe.value.command == (if h.test[0] == "CMD-SHELL" then ["sh", "-c"] else []) + h.test[1..]
      && ProbeSeconds(h.timeout, probe.value.timeoutSeconds)
      && ProbeSeconds(h.interval, probe.value.periodSeconds)
      && probe.value.failureThreshold == (if h.retries.None? then 3 else C.ToInt32(h.retries.value))
  }

  predicate SecurityFor(srv: C.Service, r: Option<SecurityContext>) {
    if r.None? then !srv.privileged && !srv.readOnly && srv.capAdd == [] && srv.capDrop == [] && srv.user.None?
    else
      && (srv.privileged || srv.readOnly || srv.capAdd != [] || srv.capDrop != [] || srv.user.Some?)
      && r.value.privileged == srv.privileged && r.value.readOnlyRoot == srv.readOnly
      && r.value.capAdd == srv.capAdd && r.value.capDrop == srv.capDrop
      && (if srv.user.None? then r.value.runAsUser == None else r.value.runAsUser == Some(srv.user.value as int))
  }

  /** The quantities of one list: the CPUs and the memory that are given, and nothing else. */
  ghost predicate QuantitiesFor(p: P.Platform, res: Option<C.Resource>, r: map<string, string>) {
    && (forall k :: k in r ==> k == "cpu" || k == "memory")
    && ("cpu" in r <==> res.Some? && res.value.nanoCPUs != "")
    && ("cpu" in r ==> p.parseQuantity(res.value.nanoCPUs) == Some(r["cpu"]))
    && ("memory" in r <==> res.Some? && res.value.memoryBytes != 0)
    && ("memory" in r ==> p.parseQuantity(FormatInt(res.value.memoryBytes)) == Some(r["memory"]))
  }

  predicate PullPolicyFor(image: string, asked: string, r: string) {
    r == if asked != "" then asked else if HasSuffix(image, ":latest") then "Always" else "IfNotPresent"
  }

  ghost predicate ContainerFor(p: P.Platform, srv: C.Service, c: Container) {
    && c.name == srv.name && c.image == srv.image && PullPolicyFor(srv.image, srv.pullPolicy, c.imagePullPolicy)
    && c.command == srv.entrypoint && c.args == srv.command && c.workingDir == srv.workingDir
    && c.tty == srv.tty && c.stdin == srv.stdinOpen
    && PortsFor(srv.ports, c.ports) && ProbeFor(srv.healthCheck, c.livenessProbe)
    && EnvFor(srv.environment, c.env) && SecurityFor(srv, c.securityContext)
    && QuantitiesFor(p, srv.deploy.limits, c.limits) && QuantitiesFor(p, srv.deploy.reservations, c.requests)
  }

  /**
  The service's container is the first stored one of its name, else the first of all; the other
  stored containers are kept, and so is what the converter does not write of its own.
  */
  predicate PlacedAt(srv: C.Service, stored: seq<Container>, containers: seq<Container>, ix: nat) {
    && |containers| == (if stored == [] then 1 else |stored|) && ix < |containers|
    && (forall j :: 0 <= j < |stored| && stored[j].name == srv.name ==> ix <= j)
    && (ix == 0 || stored[ix].name == srv.name)
    && (forall j :: 0 <= j < |stored| && j != ix ==> containers[j] == stored[j])
    && containers[ix].rest == (if stored == [] then "" else stored[ix].rest)
  }

  // ----- Pod templates -----

  /** Workloads other than DaemonSets always restart, once anything says how. */
  predicate RestartFor(condition: Option<string>, stored: string, forced: bool, r: string) {
    if condition.None? && stored == "" then r == ""
    else if forced then r == "Always"
    else match condition
    case None => r == stored
    case Some(c) =>
      (c == "any" && r == "Always") || (c == "none" && r == "Never") || (c == "on-failure" && r == "OnFailure")
  }

  predicate GracePeriodFor(period: Option<C.int64>, stored: Option<int>, r: Option<int>) {
    if period.None? then r == stored else r.Some? && Truncates(period.value, r.value)
  }

  /** The stored secrets, and the service's own if it has one. */
  predicate PullSecretsFor(secret: string, stored: seq<string>, r: seq<string>) {
    if secret == "" || secret in stored then r == stored else r == stored + [secret]
  }

  ghost predicate AffinityFor(constraints: Option<C.Constraints>, r: seq<Requirement>) {
    Placement.AffinityFor(constraints.GetOr(C.Constraints(None, None, None, map[])), r)
  }

  /** The service's container among the others, with its mounts and the pod's volumes. */
  ghost predicate ContainersFor(p: P.Platform, srv: C.Service, spec: C.StackSpec, stored: seq<Container>,
                                containers: seq<Container>, volumes: seq<Volume>) {
    exists ix: nat ::
      && PlacedAt(srv, stored, containers, ix) && ContainerFor(p, srv, containers[ix])
      && Volumes.VolumesFor(p, srv, spec, containers[ix].volumeMounts, volumes)
  }

  ghost predicate SettingsFor(srv: C.Service, stored: PodTemplate, t: PodTemplate) {
    && t.annotations == srv.labels
    && (t.hostPID <==> srv.pid == "host") && (t.hostIPC <==> srv.ipc == "host") && t.hostname == srv.hostname
    && GracePeriodFor(srv.stopGracePeriod, stored.terminationGracePeriod, t.terminationGracePeriod)
    && HostAliases.Canonical(srv.extraHosts, t.hostAliases)
    && AffinityFor(srv.deploy.constraints, t.affinity)
    && PullSecretsFor(srv.pullSecret, stored.imagePullSecrets, t.imagePullSecrets)
    && t.initContainers == stored.initContainers && t.tolerations == stored.tolerations && t.rest == stored.rest
  }

  ghost predicate PodFor(p: P.Platform, srv: C.Service, spec: C.StackSpec, stored: PodTemplate, forced: bool,
                         t: PodTemplate) {
    && SettingsFor(srv, stored, t)
    && RestartFor(srv.deploy.restartCondition, stored.restartPolicy, forced, t.restartPolicy)
    && ContainersFor(p, srv, spec, stored.containers, t.containers, t.volumes)
  }

  // ----- The parts -----

  ghost predicate PartsFor(p: P.Platform, srv: C.Service, spec: C.StackSpec, parts: Pods.Parts) {
    && AffinityFor(srv.deploy.constraints, parts.affinity)
    && HostAliases.Canonical(srv.extraHosts, parts.hostAliases)
    && EnvFor(srv.environment, parts.env)
    && QuantitiesFor(p, srv.deploy.limits, parts.limits) && QuantitiesFor(p, srv.deploy.reservations, parts.requests)
    && PullPolicyFor(srv.image, srv.pullPolicy, parts.imagePullPolicy)
    && Volumes.VolumesFor(p, srv, spec, parts.volumeMounts, parts.volumes)
    && (parts.restartPolicy.None? <==> srv.deploy.restartCondition.None?)
    && (parts.restartPolicy.Some? ==> RestartFor(srv.deploy.restartCondition, "", false, parts.restartPolicy.value))
  }

  lemma EnvMeans(environment: map<string, Option<string>>)
    requires Pods.ToEnv(environment).Ok?
    ensures EnvFor(environment, Pods.ToEnv(environment).value)
  {
    var names, env := Sorted(environment.Keys), Pods.ToEnv(environment).value;
    forall e ensures e in env <==> e.name in environment && environment[e.name] == Some(e.value) {
      if e.name in environment && environment[e.name] == Some(e.value) {
        var i :| 0 <= i < |names| && names[i] == e.name;
        assert env[i] == e;
      }
    }
  }

  lemma QuantitiesMean(p: P.Platform, res: Option<C.Resource>)
    requires Pods.ToResource(p, res).Ok?
    ensures QuantitiesFor(p, res, Pods.ToResource(p, res).value)
  {
  }

  lemma AffinityMeans(p: P.Platform, constraints: Option<C.Constraints>)
    requires P.Valid(p) && Placement.ToNodeAffinity(p, constraints).Ok?
    ensures AffinityFor(constraints, Placement.ToNodeAffinity(p, constraints).value)
  {
    var c := constraints.GetOr(C.Constraints(None, None, None, map[]));
    Placement.RequirementsMean(c, p.labelOrder(c.matchLabels));
  }

  lemma Assembled(affinity: Result<seq<Requirement>>, hostAliases: Result<seq<HostAlias>>,
                  env: Result<seq<EnvVar>>, restartPolicy: Result<Option<string>>,
                  limits: Result<map<string, string>>, requests: Result<map<string, string>>,
                  specs: Result<seq<Volumes.VolumeSpec>>, imagePullPolicy: Result<string>)
    ensures var r := Pods.Assemble(affinity, hostAliases, env, restartPolicy, limits, requests, specs, imagePullPolicy);
            r.Ok? ==>
              && affinity == Ok(r.value.affinity) && hostAliases == Ok(r.value.hostAliases) && env == Ok(r.value.env)
              && restartPolicy == Ok(r.value.restartPolicy) && limits == Ok(r.value.limits)
              && requests == Ok(r.value.requests) && imagePullPolicy == Ok(r.value.imagePullPolicy)
              && specs.Ok? && r.value.volumes == Volumes.VolumesOf(specs.value)
              && r.value.volumeMounts == Volumes.MountsOf(specs.value)
  {
  }

  lemma PoliciesMean(srv: C.Service)
    ensures var r := Pods.ToRestartPolicy(srv);
            r.Ok? ==>
              && (r.value.None? <==> srv.deploy.restartCondition.None?)
              && (r.value.Some? ==> RestartFor(srv.deploy.restartCondition, "", false, r.value.value))
    ensures var r := Pods.ToImagePullPolicy(srv.image, srv.pullPolicy);
            r.Ok? ==> PullPolicyFor(srv.image, srv.pullPolicy, r.value)
  {
  }

  lemma PartsMean(p: P.Platform, srv: C.Service, spec: C.StackSpec)
    requires P.Valid(p) && Pods.PartsOf(p, srv, spec).Ok?
    ensures PartsFor(p, srv, spec, Pods.PartsOf(p, srv, spec).value)
  {
    Assembled(Placement.ToNodeAffinity(p, srv.deploy.constraints), HostAliases.ToHostAliases(srv.extraHosts),
              Pods.ToEnv(srv.environment), Pods.ToRestartPolicy(srv),
              Pods.ToResource(p, srv.deploy.limits), Pods.ToResource(p, srv.deploy.reservations),
              Volumes.ToVolumeSpecs(p, srv, spec), Pods.ToImagePullPolicy(srv.image, srv.pullPolicy));
    AffinityMeans(p, srv.deploy.constraints);
    HostAliases.ToHostAliasesCanonical(srv.extraHosts);
    EnvMeans(srv.environment);
    PoliciesMean(srv);
    QuantitiesMean(p, srv.deploy.limits);
    QuantitiesMean(p, srv.deploy.reservations);
    Volumes.VolumesMean(p, srv, spec);
  }

  // ----- The template they are filled into -----

  lemma TruncationMeans(nanoseconds: int)
    ensures Truncates(nanoseconds, Pods.Seconds(nanoseconds))
  {
  }

  lemma ProbeMeans(check: Option<C.HealthCheck>)
    ensures ProbeFor(check, Pods.ToLivenessProbe(check))
  {
    if check.Some? {
      if check.value.timeout.Some? { TruncationMeans(check.value.timeout.value); }
      if check.value.interval.Some? { TruncationMeans(check.value.interval.value); }
      if check.value.test != [] {
        assert [] + check.value.test[1..] == check.value.test[1..];
      }
    }
  }

  lemma FilledContainerMeans(p: P.Platform, srv: C.Service, spec: C.StackSpec, parts: Pods.Parts, c: Container)
    requires PartsFor(p, srv, spec, parts)
    ensures var r := Pods.FillContainer(parts, srv, c);
            ContainerFor(p, srv, r) && r.volumeMounts == parts.volumeMounts && r.rest == c.rest
  {
    ProbeMeans(srv.healthCheck);
  }

  lemma FilledContainersMean(p: P.Platform, srv: C.Service, spec: C.StackSpec, parts: Pods.Parts,
                             stored: seq<Container>)
    requires PartsFor(p, srv, spec, parts)
    ensures ContainersFor(p, srv, spec, stored, Pods.FillContainers(parts, srv, stored), parts.volumes)
  {
    var before := if stored == [] then [ZERO_CONTAINER] else stored;
    var ix := Pods.MainIndex(before, srv.name);
    FilledContainerMeans(p, srv, spec, parts, before[ix]);
    assert PlacedAt(srv, stored, Pods.FillContainers(parts, srv, stored), ix);
  }

  lemma RestartMeans(condition: Option<string>, policy: Option<string>, stored: string)
    requires policy.None? <==> condition.None?
    requires policy.Some? ==> RestartFor(condition, "", false, policy.value)
    ensures var r := policy.GetOr(stored);
            && RestartFor(condition, stored, false, r)
            && RestartFor(condition, stored, true, if r != "" then "Always" else "")
  {
  }

  lemma FilledSettingsMean(p: P.Platform, srv: C.Service, spec: C.StackSpec, parts: Pods.Parts,
                           labels: Labels.LabelMap, stored: PodTemplate, policy: string)
    requires PartsFor(p, srv, spec, parts)
    ensures SettingsFor(srv, stored, Pods.Fill(parts, srv, labels, stored).(restartPolicy := policy))
  {
    if srv.stopGracePeriod.Some? { TruncationMeans(srv.stopGracePeriod.value); }
  }

  /** The template of a DaemonSet, and with the forced policy that of the other workloads. */
  lemma FilledMeans(p: P.Platform, srv: C.Service, spec: C.StackSpec, parts: Pods.Parts, labels: Labels.LabelMap,
                    stored: PodTemplate)
    requires PartsFor(p, srv, spec, parts)
    ensures var t := Pods.Fill(parts, srv, labels, stored);
            && PodFor(p, srv, spec, stored, false, t) && t.labels == labels
            && PodFor(p, srv, spec, stored, true, Pods.ForceRestartPolicy(t))
            && Pods.ForceRestartPolicy(t).labels == labels
  {
    var t := Pods.Fill(parts, srv, labels, stored);
    var forced := Pods.ForceRestartPolicy(t);
    FilledSettingsMean(p, srv, spec, parts, labels, stored, t.restartPolicy);
    FilledSettingsMean(p, srv, spec, parts, labels, stored, forced.restartPolicy);
    assert t == t.(restartPolicy := t.restartPolicy) && forced == t.(restartPolicy := forced.restartPolicy);
    FilledContainersMean(p, srv, spec, parts, stored.containers);
    RestartMeans(srv.deploy.restartCondition, parts.restartPolicy, stored.restartPolicy);
  }

  // ----- Labels -----

  /** A label by which a service's objects are found. */
  predicate FindsBy(stack: string, service: string, key: string, value: string) {
    || (key == "com.docker.service.name" && value == service && service != "")
    || (key == "com.docker.stack.namespace" && value == stack && stack != "")
    || (key == "com.docker.service.id" && value == stack + "-" + service && stack != "" && service != "")
  }

  ghost predicate SelectorFor(stack: string, service: string, selector: map<string, string>) {
    forall k, v :: k in selector && selector[k] == v <==> FindsBy(stack, service, k, v)
  }

  /** These, unless the deploy labels say otherwise, and the deploy labels. */
  ghost predicate LabelsFor(stack: string, srv: C.Service, labels: map<string, string>) {
    forall k, v :: k in labels && labels[k] == v <==>
                   if k in srv.deploy.labels then srv.deploy.labels[k] == v else FindsBy(stack, srv.name, k, v)
  }

  ghost predicate MetaFor(stack: C.Stack, srv: C.Service, name: string, meta: Meta) {
    meta.name == name && meta.namespace == stack.namespace && LabelsFor(stack.name, srv, meta.labels)
  }

  lemma SelectorMeans(stack: string, service: string)
    ensures SelectorFor(stack, service, Labels.ForService(stack, service))
  {
  }

  lemma LabelsMean(stack: string, srv: C.Service)
    ensures LabelsFor(stack, srv, Labels.MergeLabels(Labels.ForService(stack, srv.name), srv.deploy.labels))
  {
    SelectorMeans(stack, srv.name);
  }

  // ----- Workloads -----

  predicate ReplicasFor(replicas: Option<C.uint64>, r: Option<int>) {
    r == Some(if replicas.None? then 1 else C.ToInt32(replicas.value))
  }

  /** The strategy a service asks for by its parallelism, else the stored one. */
  predicate StrategyFor(config: Option<C.UpdateConfig>, stored: Strategy, r: Strategy) {
    if config.Some? && config.value.parallelism.Some?
    then r == Strategy("RollingUpdate", Some(C.ToInt32(config.value.parallelism.value)), "")
    else r == stored
  }

  ghost predicate DeploymentFor(p: P.Platform, stack: C.Stack, spec: C.StackSpec, srv: C.Service, stored: Deployment,
                                d: Deployment) {
    && MetaFor(stack, srv, srv.name, d.meta)
    && ReplicasFor(srv.deploy.replicas, d.spec.replicas) && d.spec.revisionHistoryLimit == Some(3)
    && StrategyFor(srv.deploy.updateConfig, stored.spec.strategy, d.spec.strategy)
    && SelectorFor(stack.name, srv.name, d.spec.selector) && d.spec.rest == stored.spec.rest
    && PodFor(p, srv, spec, stored.spec.template, true, d.spec.template) && d.spec.template.labels == d.meta.labels
  }

  ghost predicate StatefulSetFor(p: P.Platform, stack: C.Stack, spec: C.StackSpec, srv: C.Service,
                                 stored: StatefulSet, d: StatefulSet) {
    && MetaFor(stack, srv, srv.name, d.meta)
    && ReplicasFor(srv.deploy.replicas, d.spec.replicas) && d.spec.revisionHistoryLimit == Some(3)
    && StrategyFor(srv.deploy.updateConfig, stored.spec.updateStrategy, d.spec.updateStrategy)
    && Volumes.ClaimsFor(srv, stored.spec.claims, d.spec.claims)
    && SelectorFor(stack.name, srv.name, d.spec.selector) && d.spec.rest == stored.spec.rest
    && PodFor(p, srv, spec, stored.spec.template, true, d.spec.template) && d.spec.template.labels == d.meta.labels
  }

  ghost predicate DaemonSetFor(p: P.Platform, stack: C.Stack, spec: C.StackSpec, srv: C.Service, stored: DaemonSet,
                               d: DaemonSet) {
    && MetaFor(stack, srv, srv.name, d.meta)
    && SelectorFor(stack.name, srv.name, d.spec.selector) && d.spec.rest == stored.spec.rest
    && PodFor(p, srv, spec, stored.spec.template, false, d.spec.template) && d.spec.template.labels == d.meta.labels
  }

  lemma DeploymentMeans(ctx: Convert.Context, stack: C.Stack, srv: C.Service, parts: Pods.Parts, stored: Deployment)
    requires PartsFor(ctx.platform, srv, ctx.spec, parts)
    requires ctx.stackName == stack.name && ctx.namespace == stack.namespace
    ensures var d := Convert.ToDeployment(parts, srv, Convert.ObjectMeta(ctx, srv, srv.name),
                                          Convert.Selector(ctx, srv), stored);
            DeploymentFor(ctx.platform, stack, ctx.spec, srv, stored, d)
  {
    var meta := Convert.ObjectMeta(ctx, srv, srv.name);
    SelectorMeans(stack.name, srv.name);
    LabelsMean(stack.name, srv);
    FilledMeans(ctx.platform, srv, ctx.spec, parts, meta.labels, stored.spec.template);
  }

  lemma StatefulSetMeans(ctx: Convert.Context, stack: C.Stack, srv: C.Service, parts: Pods.Parts, stored: StatefulSet)
    requires PartsFor(ctx.platform, srv, ctx.spec, parts)
    requires ctx.stackName == stack.name && ctx.namespace == stack.namespace
    ensures var d := Convert.ToStatefulSet(parts, srv, Convert.ObjectMeta(ctx, srv, srv.name),
                                           Convert.Selector(ctx, srv), stored);
            StatefulSetFor(ctx.platform, stack, ctx.spec, srv, stored, d)
  {
    var meta := Convert.ObjectMeta(ctx, srv, srv.name);
    SelectorMeans(stack.name, srv.name);
    LabelsMean(stack.name, srv);
    Volumes.ClaimsMean(srv, stored.spec.claims);
    FilledMeans(ctx.platform, srv, ctx.spec, parts, meta.labels, stored.spec.template);
  }

  lemma DaemonSetMeans(ctx: Convert.Context, stack: C.Stack, srv: C.Service, parts: Pods.Parts, stored: DaemonSet)
    requires PartsFor(ctx.platform, srv, ctx.spec, parts)
    requires ctx.stackName == stack.name && ctx.namespace == stack.namespace
    ensures var d := Convert.ToDaemonSet(parts, srv, Convert.ObjectMeta(ctx, srv, srv.name),
                                         Convert.Selector(ctx, srv), stored);
            DaemonSetFor(ctx.platform, stack, ctx.spec, srv, stored, d)
  {
    var meta := Convert.ObjectMeta(ctx, srv, srv.name);
    SelectorMeans(stack.name, srv.name);
    LabelsMean(stack.name, srv);
    FilledMeans(ctx.platform, srv, ctx.spec, parts, meta.labels, stored.spec.template);
  }

  // ----- Merging the resources of the services -----

  /** One of the four maps of a state. */
  ghost predicate Projection<S>(project: StackState -> map<string, Object<S>>) {
    && project(EMPTY_STATE) == map[]
    && forall a: StackState, b: StackState :: project(a.Add(b)) == project(a) + project(b)
  }

  lemma {:induction false} MergedFrom<S>(project: StackState -> map<string, Object<S>>,
                                         results: seq<Result<StackState>>, k: string) returns (i: nat)
    requires Projection(project) && Convert.Merge(results).Ok? && k in project(Convert.Merge(results).value)
    ensures i < |results| && results[i].Ok? && k in project(results[i].value)
  {
    var n := |results| - 1;
    assert results != [];
    if k in project(results[n].value) {
      i := n;
    } else {
      i := MergedFrom(project, results[..n], k);
    }
  }

  lemma {:induction false} MergedAt<S>(project: StackState -> map<string, Object<S>>,
                                       results: seq<Result<StackState>>, i: nat, k: string)
    requires Projection(project) && Convert.Merge(results).Ok? && i < |results|
    requires results[i].Ok? && k in project(results[i].value)
    requires forall j :: i < j < |results| && results[j].Ok? ==> k !in project(results[j].value)
    ensures var s := Convert.Merge(results).value; k in project(s) && project(s)[k] == project(results[i].value)[k]
  {
    var n := |results| - 1;
    if i < n {
      MergedAt(project, results[..n], i, k);
    }
  }

  ghost const DEPLOYMENTS_OF := (s: StackState) => s.deployments
  ghost const STATEFULSETS_OF := (s: StackState) => s.statefulsets
  ghost const DAEMONSETS_OF := (s: StackState) => s.daemonsets
  ghost const SERVICES_OF := (s: StackState) => s.services

  lemma Projections()
    ensures Projection(DEPLOYMENTS_OF) && Projection(STATEFULSETS_OF) && Projection(DAEMONSETS_OF)
    ensures Projection(SERVICES_OF)
  {
  }

  // ----- The workloads of a stack -----

  predicate PerNode(srv: C.Service) { srv.deploy.mode == "global" }

  predicate HasVolume(srv: C.Service) { exists i :: 0 <= i < |srv.volumes| && srv.volumes[i].kind == "volume" }

  predicate Stateful(srv: C.Service) { !PerNode(srv) && HasVolume(srv) }

  predicate Stateless(srv: C.Service) { !PerNode(srv) && !HasVolume(srv) }

  /** Nobody but the controller changed the object, and the stack is neither new, pending nor failed. */
  predicate Untouched(stack: C.Stack, meta: Meta) {
    && stack.status.Some?
    && stack.status.value.phase != C.ReconciliationPending && stack.status.value.phase != C.Failure
    && meta.generation >= 1 && "com.docker.stack.expected-generation" in meta.annotations
    && ParseInt(meta.annotations["com.docker.stack.expected-generation"]) == Some(meta.generation)
  }

  function KeyFor(stack: C.Stack, srv: C.Service): string { ObjKey(stack.namespace, srv.name) }

  /** An untouched object is kept as it is, any other says what the service says. */
  ghost predicate DeploymentIs(p: P.Platform, stack: C.Stack, spec: C.StackSpec, srv: C.Service, stored: Deployment,
                               d: Deployment) {
    if Untouched(stack, stored.meta) then d == stored else DeploymentFor(p, stack, spec, srv, stored, d)
  }

  ghost predicate StatefulSetIs(p: P.Platform, stack: C.Stack, spec: C.StackSpec, srv: C.Service,
                                stored: StatefulSet, d: StatefulSet) {
    if Untouched(stack, stored.meta) then d == stored else StatefulSetFor(p, stack, spec, srv, stored, d)
  }

  ghost predicate DaemonSetIs(p: P.Platform, stack: C.Stack, spec: C.StackSpec, srv: C.Service, stored: DaemonSet,
                              d: DaemonSet) {
    if Untouched(stack, stored.meta) then d == stored else DaemonSetFor(p, stack, spec, srv, stored, d)
  }

  /** The state holds the workload of the service. */
  ghost predicate WorkloadFor(p: P.Platform, stack: C.Stack, spec: C.StackSpec, srv: C.Service, original: StackState,
                              s: StackState) {
    var k := KeyFor(stack, srv);
    if PerNode(srv) then
      && k in s.daemonsets
      && DaemonSetIs(p, stack, spec, srv, Lookup(original.daemonsets, k, ZERO_DAEMONSET), s.daemonsets[k])
    else if HasVolume(srv) then
      && k in s.statefulsets
      && StatefulSetIs(p, stack, spec, srv, Lookup(original.statefulsets, k, ZERO_STATEFULSET), s.statefulsets[k])
    else
      && k in s.deployments
      && DeploymentIs(p, stack, spec, srv, Lookup(original.deployments, k, ZERO_DEPLOYMENT), s.deployments[k])
  }

  /** The resources of one service hold its workload and no other. */
  ghost predicate OneWorkload(stack: C.Stack, srv: C.Service, w: StackState) {
    && w.daemonsets.Keys == (if PerNode(srv) then {KeyFor(stack, srv)} else {})
    && w.statefulsets.Keys == (if Stateful(srv) then {KeyFor(stack, srv)} else {})
    && w.deployments.Keys == (if Stateless(srv) then {KeyFor(stack, srv)} else {})
  }

  /** What would be kept is stored under its own key. */
  ghost predicate WellKeyed(stack: C.Stack, s: StackState) {
    && (forall k :: k in s.deployments && Untouched(stack, s.deployments[k].meta) ==> KeyOf(s.deployments[k].meta) == k)
    && (forall k :: k in s.statefulsets && Untouched(stack, s.statefulsets[k].meta) ==>
          KeyOf(s.statefulsets[k].meta) == k)
    && (forall k :: k in s.daemonsets && Untouched(stack, s.daemonsets[k].meta) ==> KeyOf(s.daemonsets[k].meta) == k)
  }

  lemma SkipsUntouched<S>(p: P.Platform, strategy: Services.Strategy, stack: C.Stack, stored: Object<S>)
    requires stack.spec.Some?
    ensures Convert.Skip(Convert.ContextOf(p, strategy, stack), stored) <==> Untouched(stack, stored.meta)
  {
  }

  lemma DeploymentConverts(p: P.Platform, strategy: Services.Strategy, stack: C.Stack, srv: C.Service,
                    parts: Result<Pods.Parts>, stored: Deployment, d: Deployment)
    requires stack.spec.Some? && (Untouched(stack, stored.meta) ==> KeyOf(stored.meta) == KeyFor(stack, srv))
    requires parts.Ok? ==> PartsFor(p, srv, stack.spec.value, parts.value)
    requires Convert.DeploymentFor(Convert.ContextOf(p, strategy, stack), parts, srv, stored) == Ok(d)
    ensures DeploymentIs(p, stack, stack.spec.value, srv, stored, d) && KeyOf(d.meta) == KeyFor(stack, srv)
  {
    var ctx := Convert.ContextOf(p, strategy, stack);
    SkipsUntouched(p, strategy, stack, stored);
    if !Untouched(stack, stored.meta) {
      DeploymentMeans(ctx, stack, srv, parts.value, stored);
    }
  }

  lemma StatefulSetConverts(p: P.Platform, strategy: Services.Strategy, stack: C.Stack, srv: C.Service,
                    parts: Result<Pods.Parts>, stored: StatefulSet, d: StatefulSet)
    requires stack.spec.Some? && (Untouched(stack, stored.meta) ==> KeyOf(stored.meta) == KeyFor(stack, srv))
    requires parts.Ok? ==> PartsFor(p, srv, stack.spec.value, parts.value)
    requires Convert.StatefulSetFor(Convert.ContextOf(p, strategy, stack), parts, srv, stored) == Ok(d)
    ensures StatefulSetIs(p, stack, stack.spec.value, srv, stored, d) && KeyOf(d.meta) == KeyFor(stack, srv)
  {
    var ctx := Convert.ContextOf(p, strategy, stack);
    SkipsUntouched(p, strategy, stack, stored);
    if !Untouched(stack, stored.meta) {
      StatefulSetMeans(ctx, stack, srv, parts.value, stored);
    }
  }

  lemma DaemonSetConverts(p: P.Platform, strategy: Services.Strategy, stack: C.Stack, srv: C.Service,
                    parts: Result<Pods.Parts>, stored: DaemonSet, d: DaemonSet)
    requires stack.spec.Some? && (Untouched(stack, stored.meta) ==> KeyOf(stored.meta) == KeyFor(stack, srv))
    requires parts.Ok? ==> PartsFor(p, srv, stack.spec.value, parts.value)
    requires Convert.DaemonSetFor(Convert.ContextOf(p, strategy, stack), parts, srv, stored) == Ok(d)
    ensures DaemonSetIs(p, stack, stack.spec.value, srv, stored, d) && KeyOf(d.meta) == KeyFor(stack, srv)
  {
    var ctx := Convert.ContextOf(p, strategy, stack);
    SkipsUntouched(p, strategy, stack, stored);
    if !Untouched(stack, stored.meta) {
      DaemonSetMeans(ctx, stack, srv, parts.value, stored);
    }
  }

  lemma GlobalUnfolds(ctx: Convert.Context, parts: Result<Pods.Parts>, srv: C.Service, original: StackState,
                     w: StackState)
    requires Convert.WorkloadFor(ctx, parts, srv, original) == Ok(w) && PerNode(srv)
    ensures var stored := Lookup(original.daemonsets, Convert.Key(ctx, srv.name), ZERO_DAEMONSET);
            var d := Convert.DaemonSetFor(ctx, parts, srv, stored);
            d.Ok? && w == EMPTY_STATE.(daemonsets := map[KeyOf(d.value.meta) := d.value])
  {
    assert HasVolume(srv) == Volumes.HasPersistentVolumes(srv);
  }

  lemma DaemonSetHeld(p: P.Platform, stack: C.Stack, spec: C.StackSpec, srv: C.Service, original: StackState,
                d: DaemonSet)
    requires PerNode(srv)
    requires DaemonSetIs(p, stack, spec, srv, Lookup(original.daemonsets, KeyFor(stack, srv), ZERO_DAEMONSET), d)
    ensures var w := EMPTY_STATE.(daemonsets := map[KeyFor(stack, srv) := d]);
            OneWorkload(stack, srv, w) && WorkloadFor(p, stack, spec, srv, original, w)
  {
  }

  lemma GlobalWorkload(p: P.Platform, strategy: Services.Strategy, stack: C.Stack, srv: C.Service,
                      original: StackState, parts: Result<Pods.Parts>, w: StackState)
    requires stack.spec.Some? && WellKeyed(stack, original) && PerNode(srv)
    requires parts.Ok? ==> PartsFor(p, srv, stack.spec.value, parts.value)
    requires Convert.WorkloadFor(Convert.ContextOf(p, strategy, stack), parts, srv, original) == Ok(w)
    ensures OneWorkload(stack, srv, w) && WorkloadFor(p, stack, stack.spec.value, srv, original, w)
  {
    var ctx := Convert.ContextOf(p, strategy, stack);
    GlobalUnfolds(ctx, parts, srv, original, w);
    var stored := Lookup(original.daemonsets, KeyFor(stack, srv), ZERO_DAEMONSET);
    var d := Convert.DaemonSetFor(ctx, parts, srv, stored).value;
    DaemonSetConverts(p, strategy, stack, srv, parts, stored, d);
    DaemonSetHeld(p, stack, stack.spec.value, srv, original, d);
  }

  lemma StatefulUnfolds(ctx: Convert.Context, parts: Result<Pods.Parts>, srv: C.Service, original: StackState,
                     w: StackState)
    requires Convert.WorkloadFor(ctx, parts, srv, original) == Ok(w) && Stateful(srv)
    ensures var stored := Lookup(original.statefulsets, Convert.Key(ctx, srv.name), ZERO_STATEFULSET);
            var d := Convert.StatefulSetFor(ctx, parts, srv, stored);
            d.Ok? && w == EMPTY_STATE.(statefulsets := map[KeyOf(d.value.meta) := d.value])
  {
    assert HasVolume(srv) == Volumes.HasPersistentVolumes(srv);
  }

  lemma StatefulSetHeld(p: P.Platform, stack: C.Stack, spec: C.StackSpec, srv: C.Service, original: StackState,
                d: StatefulSet)
    requires Stateful(srv)
    requires StatefulSetIs(p, stack, spec, srv, Lookup(original.statefulsets, KeyFor(stack, srv), ZERO_STATEFULSET), d)
    ensures var w := EMPTY_STATE.(statefulsets := map[KeyFor(stack, srv) := d]);
            OneWorkload(stack, srv, w) && WorkloadFor(p, stack, spec, srv, original, w)
  {
  }

  lemma StatefulWorkload(p: P.Platform, strategy: Services.Strategy, stack: C.Stack, srv: C.Service,
                      original: StackState, parts: Result<Pods.Parts>, w: StackState)
    requires stack.spec.Some? && WellKeyed(stack, original) && Stateful(srv)
    requires parts.Ok? ==> PartsFor(p, srv, stack.spec.value, parts.value)
    requires Convert.WorkloadFor(Convert.ContextOf(p, strategy, stack), parts, srv, original) == Ok(w)
    ensures OneWorkload(stack, srv, w) && WorkloadFor(p, stack, stack.spec.value, srv, original, w)
  {
    var ctx := Convert.ContextOf(p, strategy, stack);
    StatefulUnfolds(ctx, parts, srv, original, w);
    var stored := Lookup(original.statefulsets, KeyFor(stack, srv), ZERO_STATEFULSET);
    var d := Convert.StatefulSetFor(ctx, parts, srv, stored).value;
    StatefulSetConverts(p, strategy, stack, srv, parts, stored, d);
    StatefulSetHeld(p, stack, stack.spec.value, srv, original, d);
  }

  lemma StatelessUnfolds(ctx: Convert.Context, parts: Result<Pods.Parts>, srv: C.Service, original: StackState,
                     w: StackState)
    requires Convert.WorkloadFor(ctx, parts, srv, original) == Ok(w) && Stateless(srv)
    ensures var stored := Lookup(original.deployments, Convert.Key(ctx, srv.name), ZERO_DEPLOYMENT);
            var d := Convert.DeploymentFor(ctx, parts, srv, stored);
            d.Ok? && w == EMPTY_STATE.(deployments := map[KeyOf(d.value.meta) := d.value])
  {
    assert HasVolume(srv) == Volumes.HasPersistentVolumes(srv);
  }

  lemma DeploymentHeld(p: P.Platform, stack: C.Stack, spec: C.StackSpec, srv: C.Service, original: StackState,
                d: Deployment)
    requires Stateless(srv)
    requires DeploymentIs(p, stack, spec, srv, Lookup(original.deployments, KeyFor(stack, srv), ZERO_DEPLOYMENT), d)
    ensures var w := EMPTY_STATE.(deployments := map[KeyFor(stack, srv) := d]);
            OneWorkload(stack, srv, w) && WorkloadFor(p, stack, spec, srv, original, w)
  {
  }

  lemma StatelessWorkload(p: P.Platform, strategy: Services.Strategy, stack: C.Stack, srv: C.Service,
                      original: StackState, parts: Result<Pods.Parts>, w: StackState)
    requires stack.spec.Some? && WellKeyed(stack, original) && Stateless(srv)
    requires parts.Ok? ==> PartsFor(p, srv, stack.spec.value, parts.value)
    requires Convert.WorkloadFor(Convert.ContextOf(p, strategy, stack), parts, srv, original) == Ok(w)
    ensures OneWorkload(stack, srv, w) && WorkloadFor(p, stack, stack.spec.value, srv, original, w)
  {
    var ctx := Convert.ContextOf(p, strategy, stack);
    StatelessUnfolds(ctx, parts, srv, original, w);
    var stored := Lookup(original.deployments, KeyFor(stack, srv), ZERO_DEPLOYMENT);
    var d := Convert.DeploymentFor(ctx, parts, srv, stored).value;
    DeploymentConverts(p, strategy, stack, srv, parts, stored, d);
    DeploymentHeld(p, stack, stack.spec.value, srv, original, d);
  }

  lemma ServiceWorkload(p: P.Platform, strategy: Services.Strategy, stack: C.Stack, srv: C.Service,
                        original: StackState, parts: Result<Pods.Parts>, w: StackState)
    requires stack.spec.Some? && WellKeyed(stack, original)
    requires parts.Ok? ==> PartsFor(p, srv, stack.spec.value, parts.value)
    requires Convert.WorkloadFor(Convert.ContextOf(p, strategy, stack), parts, srv, original) == Ok(w)
    ensures OneWorkload(stack, srv, w) && WorkloadFor(p, stack, stack.spec.value, srv, original, w)
  {
    if PerNode(srv) {
      GlobalWorkload(p, strategy, stack, srv, original, parts, w);
    } else if HasVolume(srv) {
      StatefulWorkload(p, strategy, stack, srv, original, parts, w);
    } else {
      StatelessWorkload(p, strategy, stack, srv, original, parts, w);
    }
  }

  lemma KeysDiffer(stack: C.Stack, a: string, b: string)
    requires a != b
    ensures ObjKey(stack.namespace, a) != ObjKey(stack.namespace, b)
  {
    var prefix := stack.namespace + "/";
    assert (prefix + a)[|prefix|..] == a && (prefix + b)[|prefix|..] == b;
  }

  /** Whatever else a state holds, it holds the workload if it holds the same object under its key. */
  lemma WorkloadCarries(p: P.Platform, stack: C.Stack, spec: C.StackSpec, srv: C.Service, original: StackState,
                        w: StackState, s: StackState)
    requires WorkloadFor(p, stack, spec, srv, original, w)
    requires var k := KeyFor(stack, srv);
             if PerNode(srv) then k in s.daemonsets && s.daemonsets[k] == w.daemonsets[k]
             else if HasVolume(srv) then k in s.statefulsets && s.statefulsets[k] == w.statefulsets[k]
             else k in s.deployments && s.deployments[k] == w.deployments[k]
    ensures WorkloadFor(p, stack, spec, srv, original, s)
  {
  }

  /** The results for the services, each with its workload. */
  ghost predicate Results(p: P.Platform, stack: C.Stack, spec: C.StackSpec, services: seq<C.Service>,
                          original: StackState, results: seq<Result<StackState>>) {
    && |results| == |services|
    && forall i :: 0 <= i < |services| ==>
        && results[i].Ok? && OneWorkload(stack, services[i], results[i].value)
        && WorkloadFor(p, stack, spec, services[i], original, results[i].value)
  }

  lemma OtherWorkload(stack: C.Stack, a: C.Service, b: C.Service, w: StackState)
    requires OneWorkload(stack, b, w) && a.name != b.name
    ensures var k := KeyFor(stack, a); k !in w.daemonsets && k !in w.statefulsets && k !in w.deployments
  {
    KeysDiffer(stack, a.name, b.name);
  }

  lemma MergedWorkload(p: P.Platform, stack: C.Stack, spec: C.StackSpec, services: seq<C.Service>,
                       original: StackState, results: seq<Result<StackState>>, s: StackState, i: nat)
    requires Results(p, stack, spec, services, original, results)
    requires Convert.Merge(results) == Ok(s) && i < |services|
    requires forall j :: i < j < |services| ==> services[j].name != services[i].name
    ensures WorkloadFor(p, stack, spec, services[i], original, s)
  {
    var srv, w := services[i], results[i].value;
    var k := KeyFor(stack, srv);
    forall j | i < j < |results|
      ensures k !in results[j].value.daemonsets && k !in results[j].value.statefulsets
              && k !in results[j].value.deployments
    {
      OtherWorkload(stack, srv, services[j], results[j].value);
    }
    Projections();
    if PerNode(srv) {
      MergedAt(DAEMONSETS_OF, results, i, k);
    } else if HasVolume(srv) {
      MergedAt(STATEFULSETS_OF, results, i, k);
    } else {
      MergedAt(DEPLOYMENTS_OF, results, i, k);
    }
    WorkloadCarries(p, stack, spec, srv, original, w, s);
  }

  ghost predicate KeyOfSome(stack: C.Stack, services: seq<C.Service>, k: string, kind: C.Service -> bool) {
    exists srv :: srv in services && kind(srv) && k == KeyFor(stack, srv)
  }

  /** No workload but those of the services: each key belongs to a service of its kind. */
  ghost predicate NothingElse(stack: C.Stack, services: seq<C.Service>, s: StackState) {
    && (forall k :: k in s.daemonsets ==> KeyOfSome(stack, services, k, PerNode))
    && (forall k :: k in s.statefulsets ==> KeyOfSome(stack, services, k, Stateful))
    && (forall k :: k in s.deployments ==> KeyOfSome(stack, services, k, Stateless))
  }

  /** Each result has in this map the key of its service, if that is of the kind, and no other. */
  ghost predicate OneKeyEach<S>(project: StackState -> map<string, Object<S>>, kind: C.Service -> bool,
                                stack: C.Stack, services: seq<C.Service>, results: seq<Result<StackState>>) {
    && |results| == |services|
    && forall i :: 0 <= i < |services| && results[i].Ok? ==>
        project(results[i].value).Keys == if kind(services[i]) then {KeyFor(stack, services[i])} else {}
  }

  lemma MergedKeys<S>(project: StackState -> map<string, Object<S>>, kind: C.Service -> bool, stack: C.Stack,
                      services: seq<C.Service>, results: seq<Result<StackState>>)
    requires Projection(project) && OneKeyEach(project, kind, stack, services, results) && Convert.Merge(results).Ok?
    ensures forall k :: k in project(Convert.Merge(results).value) ==> KeyOfSome(stack, services, k, kind)
  {
    forall k | k in project(Convert.Merge(results).value) ensures KeyOfSome(stack, services, k, kind) {
      var i := MergedFrom(project, results, k);
      assert k in project(results[i].value).Keys && services[i] in services;
    }
  }

  lemma MergedNothingElse(stack: C.Stack, services: seq<C.Service>, results: seq<Result<StackState>>, s: StackState)
    requires |results| == |services| && Convert.Merge(results) == Ok(s)
    requires forall i :: 0 <= i < |services| && results[i].Ok? ==> OneWorkload(stack, services[i], results[i].value)
    ensures NothingElse(stack, services, s)
  {
    Projections();
    assert OneKeyEach(DAEMONSETS_OF, PerNode, stack, services, results);
    MergedKeys(DAEMONSETS_OF, PerNode, stack, services, results);
    assert OneKeyEach(STATEFULSETS_OF, Stateful, stack, services, results);
    MergedKeys(STATEFULSETS_OF, Stateful, stack, services, results);
    assert OneKeyEach(DEPLOYMENTS_OF, Stateless, stack, services, results);
    MergedKeys(DEPLOYMENTS_OF, Stateless, stack, services, results);
  }

  lemma ResourcesUnfold(ctx: Convert.Context, srv: C.Service, original: StackState, r: StackState)
    returns (parts: Result<Pods.Parts>, w: StackState)
    requires P.Valid(ctx.platform) && Convert.ToStackResources(ctx, srv, original) == Ok(r)
    ensures parts.Ok? ==> PartsFor(ctx.platform, srv, ctx.spec, parts.value)
    ensures Convert.WorkloadFor(ctx, parts, srv, original) == Ok(w)
    ensures r == w.(services := Convert.ToServices(ctx, srv, original.services))
  {
    parts := Pods.PartsOf(ctx.platform, srv, ctx.spec);
    w := Convert.WorkloadFor(ctx, parts, srv, original).value;
    if parts.Ok? { PartsMean(ctx.platform, srv, ctx.spec); }
  }

  lemma OneWorkloadCarries(stack: C.Stack, srv: C.Service, w: StackState, services: map<string, Service>)
    requires OneWorkload(stack, srv, w)
    ensures OneWorkload(stack, srv, w.(services := services))
  {
  }

  lemma WithServicesMean(p: P.Platform, stack: C.Stack, spec: C.StackSpec, srv: C.Service, original: StackState,
                         w: StackState, services: map<string, Service>)
    requires OneWorkload(stack, srv, w) && WorkloadFor(p, stack, spec, srv, original, w)
    ensures var r := w.(services := services);
            OneWorkload(stack, srv, r) && WorkloadFor(p, stack, spec, srv, original, r)
  {
    OneWorkloadCarries(stack, srv, w, services);
    WorkloadCarries(p, stack, spec, srv, original, w, w.(services := services));
  }

  lemma ResourcesMean(p: P.Platform, strategy: Services.Strategy, stack: C.Stack, srv: C.Service,
                      original: StackState, r: StackState)
    requires P.Valid(p) && stack.spec.Some? && WellKeyed(stack, original)
    requires Convert.ToStackResources(Convert.ContextOf(p, strategy, stack), srv, original) == Ok(r)
    ensures OneWorkload(stack, srv, r) && WorkloadFor(p, stack, stack.spec.value, srv, original, r)
  {
    var parts, w := ResourcesUnfold(Convert.ContextOf(p, strategy, stack), srv, original, r);
    ServiceWorkload(p, strategy, stack, srv, original, parts, w);
    WithServicesMean(p, stack, stack.spec.value, srv, original, w, r.services);
  }

  /** The results of the loop of StackToStack. */
  lemma ResultsMean(p: P.Platform, strategy: Services.Strategy, stack: C.Stack, services: seq<C.Service>,
                    original: StackState, results: seq<Result<StackState>>)
    requires P.Valid(p) && stack.spec.Some? && WellKeyed(stack, original) && Convert.Merge(results).Ok?
    requires results == Convert.Map(Convert.ResourcesOf(Convert.ContextOf(p, strategy, stack), original), services)
    ensures Results(p, stack, stack.spec.value, services, original, results)
  {
    Convert.MergeOkIff(results);
    forall i | 0 <= i < |services|
      ensures results[i].Ok? && OneWorkload(stack, services[i], results[i].value)
              && WorkloadFor(p, stack, stack.spec.value, services[i], original, results[i].value)
    {
      ResourcesMean(p, strategy, stack, services[i], original, results[i].value);
    }
  }

  // ----- One service among the others, before and after sorting -----

  /** Service `i` and no other claims something. */
  ghost predicate OnlyAt(services: seq<C.Service>, i: nat, claims: C.Service -> bool) {
    && i < |services| && claims(services[i])
    && forall j :: 0 <= j < |services| && j != i ==> !claims(services[j])
  }

  lemma Twice(services: seq<C.Service>, i: nat, j: nat)
    requires i < j < |services| && services[i] == services[j]
    ensures multiset(services)[services[i]] >= 2
  {
    assert services == services[..j] + services[j..];
    assert services[i] in services[..j] && services[i] in services[j..];
  }

  lemma Once(services: seq<C.Service>, i: nat, claims: C.Service -> bool)
    requires OnlyAt(services, i, claims)
    ensures multiset(services)[services[i]] == 1
  {
    var x := services[i];
    assert services == services[..i] + [x] + services[i + 1..];
    assert x !in services[..i] && x !in services[i + 1..];
  }

  lemma OnlyInSorted(services: seq<C.Service>, sorted: seq<C.Service>, i: nat, claims: C.Service -> bool)
    returns (k: nat)
    requires multiset(sorted) == multiset(services) && OnlyAt(services, i, claims)
    ensures OnlyAt(sorted, k, claims) && sorted[k] == services[i]
  {
    Once(services, i, claims);
    assert services[i] in multiset(sorted);
    k :| 0 <= k < |sorted| && sorted[k] == services[i];
    forall j | 0 <= j < |sorted| && j != k ensures !claims(sorted[j]) {
      assert sorted[j] in multiset(services);
      var m :| 0 <= m < |services| && services[m] == sorted[j];
      if m == i {
        if j < k { Twice(sorted, j, k); } else { Twice(sorted, k, j); }
      }
    }
  }

  predicate OnlyName(services: seq<C.Service>, i: nat) {
    i < |services| && forall j :: 0 <= j < |services| && j != i ==> services[j].name != services[i].name
  }

  /**
  A stack that converts desires, for each service whose name no other one bears, exactly one
  workload: a DaemonSet if it is global, else a StatefulSet if it has a volume, else a Deployment.
  It is kept as it is stored if nobody touched it and the stack is not waiting; otherwise its fields
  are those of the service.  There are no workloads but those of the services.
  */
  lemma WorkloadsMean(p: P.Platform, strategy: Services.Strategy, stack: C.Stack, original: StackState, s: StackState)
    requires P.Valid(p) && WellKeyed(stack, original) && Convert.StackToStack(p, strategy, stack, original) == Ok(s)
    ensures forall i: nat :: OnlyName(stack.spec.value.services, i) ==>
              WorkloadFor(p, stack, stack.spec.value, stack.spec.value.services[i], original, s)
    ensures NothingElse(stack, stack.spec.value.services, s)
  {
    var spec := stack.spec.value;
    var sorted := Convert.SortByName(spec.services);
    var results := Convert.Map(Convert.ResourcesOf(Convert.ContextOf(p, strategy, stack), original), sorted);
    ResultsMean(p, strategy, stack, sorted, original, results);
    forall i: nat | OnlyName(spec.services, i)
      ensures WorkloadFor(p, stack, spec, spec.services[i], original, s)
    {
      var k := OnlyInSorted(spec.services, sorted, i, (srv: C.Service) => srv.name == spec.services[i].name);
      MergedWorkload(p, stack, spec, sorted, original, results, s, k);
    }
    MergedNothingElse(stack, sorted, results, s);
    Convert.SortKeepsServices(spec.services);
    SameServices(stack, sorted, spec.services, s);
  }

  lemma SameServices(stack: C.Stack, a: seq<C.Service>, b: seq<C.Service>, s: StackState)
    requires NothingElse(stack, a, s) && forall srv :: srv in a <==> srv in b
    ensures NothingElse(stack, b, s)
  {
  }

  // ----- The services of a stack -----

  predicate HasPort(srv: C.Service, published: bool) {
    exists c :: c in srv.ports && (c.published != 0) == published
  }

  /** The names of the Kubernetes services of a compose service. */
  predicate Generates(srv: C.Service, name: string) {
    || name == srv.name
    || (name == srv.name + "-published" && HasPort(srv, true))
    || (name == srv.name + "-random-ports" && HasPort(srv, false))
  }

  ghost predicate ServiceFor(strategy: Services.Strategy, stack: C.Stack, srv: C.Service,
                             original: map<string, Service>, name: string, o: Service) {
    var stored := Lookup(original, ObjKey(stack.namespace, name), ZERO_SERVICE).spec;
    && MetaFor(stack, srv, name, o.meta) && SelectorFor(stack.name, srv.name, o.spec.selector)
    && if name == srv.name then Services.InternalFor(srv, o.spec.selector, stored, o.spec)
       else Services.ExposedFor(strategy, srv, name == srv.name + "-published", o.spec.selector, stored, o.spec)
  }

  /** Exactly these names, each with its service. */
  ghost predicate ServicesFor(strategy: Services.Strategy, stack: C.Stack, srv: C.Service,
                              original: map<string, Service>, r: map<string, Service>) {
    && (forall name :: Generates(srv, name) ==> HoldsService(strategy, stack, srv, original, name, r))
    && (forall k :: k in r ==> exists name :: Generates(srv, name) && k == ObjKey(stack.namespace, name))
  }

  ghost predicate HoldsService(strategy: Services.Strategy, stack: C.Stack, srv: C.Service,
                               original: map<string, Service>, name: string, r: map<string, Service>) {
    var k := ObjKey(stack.namespace, name); k in r && ServiceFor(strategy, stack, srv, original, name, r[k])
  }

  lemma InternalServiceMeans(ctx: Convert.Context, stack: C.Stack, srv: C.Service, original: map<string, Service>)
    requires ctx.stackName == stack.name && ctx.namespace == stack.namespace
    ensures var stored := Lookup(original, Convert.Key(ctx, srv.name), ZERO_SERVICE);
            ServiceFor(ctx.strategy, stack, srv, original, srv.name, Convert.InternalService(ctx, srv, stored))
  {
    SelectorMeans(stack.name, srv.name);
    LabelsMean(stack.name, srv);
    Services.InternalMeans(srv, Convert.Selector(ctx, srv),
                           Lookup(original, Convert.Key(ctx, srv.name), ZERO_SERVICE).spec);
  }

  lemma SuffixesDiffer(name: string)
    ensures name != name + "-published" && name != name + "-random-ports"
    ensures name + "-published" != name + "-random-ports"
  {
    assert |name + "-published"| == |name| + 10 && |name + "-random-ports"| == |name| + 13;
  }

  /** The map of the service with that suffix, empty if it has no ports. */
  ghost predicate ExposedMap(strategy: Services.Strategy, stack: C.Stack, srv: C.Service,
                             original: map<string, Service>, published: bool, r: map<string, Service>) {
    var name := srv.name + if published then "-published" else "-random-ports";
    var k := ObjKey(stack.namespace, name);
    && r.Keys == (if HasPort(srv, published) then {k} else {})
    && (k in r ==> ServiceFor(strategy, stack, srv, original, name, r[k]))
  }

  lemma ExposedServiceMeans(ctx: Convert.Context, stack: C.Stack, srv: C.Service, original: map<string, Service>,
                            published: bool)
    requires ctx.stackName == stack.name && ctx.namespace == stack.namespace
    ensures var name := srv.name + if published then "-published" else "-random-ports";
            var stored := Lookup(original, ObjKey(stack.namespace, name), ZERO_SERVICE);
            ExposedMap(ctx.strategy, stack, srv, original, published,
                       Convert.ExposedService(ctx, srv, published, stored))
  {
    SuffixesDiffer(srv.name);
    SelectorMeans(stack.name, srv.name);
    LabelsMean(stack.name, srv);
    var name := srv.name + if published then "-published" else "-random-ports";
    Services.ExposedMeans(ctx.strategy, srv, published, Convert.Selector(ctx, srv),
                          Lookup(original, ObjKey(stack.namespace, name), ZERO_SERVICE).spec);
  }

  /** The three maps ToServices merges have different keys. */
  lemma MergeThree(stack: C.Stack, name: string, a: map<string, Service>, b: map<string, Service>,
                   c: map<string, Service>)
    requires a.Keys == {ObjKey(stack.namespace, name)}
    requires b.Keys <= {ObjKey(stack.namespace, name + "-published")}
    requires c.Keys <= {ObjKey(stack.namespace, name + "-random-ports")}
    ensures forall k :: k in a ==> (a + b + c)[k] == a[k]
    ensures forall k :: k in b ==> (a + b + c)[k] == b[k]
    ensures forall k :: k in c ==> (a + b + c)[k] == c[k]
    ensures (a + b + c).Keys == a.Keys + b.Keys + c.Keys
  {
    SuffixesDiffer(name);
    KeysDiffer(stack, name, name + "-published");
    KeysDiffer(stack, name, name + "-random-ports");
    KeysDiffer(stack, name + "-published", name + "-random-ports");
  }

  lemma ThreeServices(strategy: Services.Strategy, stack: C.Stack, srv: C.Service, original: map<string, Service>,
                      internal: Service, b: map<string, Service>, c: map<string, Service>)
    requires ServiceFor(strategy, stack, srv, original, srv.name, internal)
    requires ExposedMap(strategy, stack, srv, original, true, b)
    requires ExposedMap(strategy, stack, srv, original, false, c)
    ensures ServicesFor(strategy, stack, srv, original, map[ObjKey(stack.namespace, srv.name) := internal] + b + c)
  {
    var a := map[ObjKey(stack.namespace, srv.name) := internal];
    var published, random := srv.name + "-published", srv.name + "-random-ports";
    MergeThree(stack, srv.name, a, b, c);
    forall name | Generates(srv, name) ensures HoldsService(strategy, stack, srv, original, name, a + b + c) {
      var k := ObjKey(stack.namespace, name);
      assert k in a || k in b || k in c;
    }
    forall k | k in a + b + c ensures exists name :: Generates(srv, name) && k == ObjKey(stack.namespace, name) {
      assert Generates(srv, srv.name);
      assert k in b ==> Generates(srv, published) && k == ObjKey(stack.namespace, published);
      assert k in c ==> Generates(srv, random) && k == ObjKey(stack.namespace, random);
    }
  }

  lemma ToServicesMean(ctx: Convert.Context, stack: C.Stack, srv: C.Service, original: map<string, Service>)
    requires ctx.stackName == stack.name && ctx.namespace == stack.namespace
    ensures ServicesFor(ctx.strategy, stack, srv, original, Convert.ToServices(ctx, srv, original))
  {
    var ki, kp, kr := ObjKey(stack.namespace, srv.name), ObjKey(stack.namespace, srv.name + "-published"),
        ObjKey(stack.namespace, srv.name + "-random-ports");
    InternalServiceMeans(ctx, stack, srv, original);
    ExposedServiceMeans(ctx, stack, srv, original, true);
    ExposedServiceMeans(ctx, stack, srv, original, false);
    ThreeServices(ctx.strategy, stack, srv, original,
                  Convert.InternalService(ctx, srv, Lookup(original, ki, ZERO_SERVICE)),
                  Convert.ExposedService(ctx, srv, true, Lookup(original, kp, ZERO_SERVICE)),
                  Convert.ExposedService(ctx, srv, false, Lookup(original, kr, ZERO_SERVICE)));
  }

  ghost predicate HasServices(strategy: Services.Strategy, stack: C.Stack, srv: C.Service,
                              original: map<string, Service>, result: Result<StackState>) {
    result.Ok? && ServicesFor(strategy, stack, srv, original, result.value.services)
  }

  /** The results for the services, each with its Kubernetes services. */
  ghost predicate HaveServices(strategy: Services.Strategy, stack: C.Stack, services: seq<C.Service>,
                               original: map<string, Service>, results: seq<Result<StackState>>) {
    && |results| == |services|
    && forall j :: 0 <= j < |services| ==> HasServices(strategy, stack, services[j], original, results[j])
  }

  lemma MergedService(strategy: Services.Strategy, stack: C.Stack, services: seq<C.Service>,
                      original: map<string, Service>, results: seq<Result<StackState>>, s: StackState, i: nat,
                      name: string)
    requires HaveServices(strategy, stack, services, original, results)
    requires Convert.Merge(results) == Ok(s) && i < |services|
    requires Generates(services[i], name) && forall j :: i < j < |services| ==> !Generates(services[j], name)
    ensures HoldsService(strategy, stack, services[i], original, name, s.services)
  {
    var k := ObjKey(stack.namespace, name);
    assert HoldsService(strategy, stack, services[i], original, name, results[i].value.services);
    forall j | i < j < |results| ensures k !in results[j].value.services {
      if k in results[j].value.services {
        var other :| Generates(services[j], other) && k == ObjKey(stack.namespace, other);
        KeysDiffer(stack, name, other);
      }
    }
    Projections();
    MergedAt(SERVICES_OF, results, i, k);
  }

  lemma ServicesUnfold(ctx: Convert.Context, srv: C.Service, original: StackState, r: StackState)
    requires Convert.ToStackResources(ctx, srv, original) == Ok(r)
    ensures r.services == Convert.ToServices(ctx, srv, original.services)
  {
  }

  lemma ServiceResult(p: P.Platform, strategy: Services.Strategy, stack: C.Stack, srv: C.Service,
                      original: StackState, r: StackState)
    requires stack.spec.Some?
    requires Convert.ToStackResources(Convert.ContextOf(p, strategy, stack), srv, original) == Ok(r)
    ensures ServicesFor(strategy, stack, srv, original.services, r.services)
  {
    ServicesUnfold(Convert.ContextOf(p, strategy, stack), srv, original, r);
    ToServicesMean(Convert.ContextOf(p, strategy, stack), stack, srv, original.services);
  }

  lemma ServiceResults(p: P.Platform, strategy: Services.Strategy, stack: C.Stack, services: seq<C.Service>,
                       original: StackState, results: seq<Result<StackState>>)
    requires stack.spec.Some? && Convert.Merge(results).Ok?
    requires results == Convert.Map(Convert.ResourcesOf(Convert.ContextOf(p, strategy, stack), original), services)
    ensures HaveServices(strategy, stack, services, original.services, results)
  {
    Convert.MergeOkIff(results);
    forall j | 0 <= j < |services| ensures HasServices(strategy, stack, services[j], original.services, results[j]) {
      ServiceResult(p, strategy, stack, services[j], original, results[j].value);
    }
  }

  ghost predicate OnlyGenerator(services: seq<C.Service>, i: nat, name: string) {
    && i < |services| && Generates(services[i], name)
    && forall j :: 0 <= j < |services| && j != i ==> !Generates(services[j], name)
  }

  /**
  Dirty or not, a stack that converts desires for each service an internal service, a published
  one if it publishes ports and a random-ports one if it leaves ports open, each as the service says
  unless another service generates the name too; and no others.
  */
  lemma ServicesMean(p: P.Platform, strategy: Services.Strategy, stack: C.Stack, original: StackState, s: StackState)
    requires Convert.StackToStack(p, strategy, stack, original) == Ok(s)
    ensures forall i: nat, name :: OnlyGenerator(stack.spec.value.services, i, name) ==>
              HoldsService(strategy, stack, stack.spec.value.services[i], original.services, name, s.services)
    ensures forall k :: k in s.services ==>
              exists srv, name :: && srv in stack.spec.value.services && Generates(srv, name)
                                  && k == ObjKey(stack.namespace, name)
  {
    var services := stack.spec.value.services;
    var sorted := Convert.SortByName(services);
    var results := Convert.Map(Convert.ResourcesOf(Convert.ContextOf(p, strategy, stack), original), sorted);
    ServiceResults(p, strategy, stack, sorted, original, results);
    forall i: nat, name | OnlyGenerator(services, i, name)
      ensures HoldsService(strategy, stack, services[i], original.services, name, s.services)
    {
      var k := OnlyInSorted(services, sorted, i, (srv: C.Service) => Generates(srv, name));
      MergedService(strategy, stack, sorted, original.services, results, s, k, name);
    }
    Projections();
    Convert.SortKeepsServices(services);
    forall k | k in s.services
      ensures exists srv, name :: srv in services && Generates(srv, name) && k == ObjKey(stack.namespace, name)
    {
      var j := MergedFrom(SERVICES_OF, results, k);
      assert sorted[j] in services;
    }
  }
}
