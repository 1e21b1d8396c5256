/** Pod templates (internal/convert/pod.go). */
module Pods {
  import opened Wrappers
  import opened Text
  import opened Platform
  import C = Compose
  import K = Kube
  import HostAliases
  import Placement
  import Volumes

  const ALWAYS := "Always"

  function ToImagePullPolicy(image: string, specified: string): Result<string> {
    if specified == "" then Ok(if HasSuffix(image, ":latest") then "Always" else "IfNotPresent")
    else if specified == "Always" || specified == "IfNotPresent" || specified == "Never" then Ok(specified)
    else Err("invalid pull policy " + specified)
  }

  /** Environment variables, sorted by name; a variable without a value is an error. */
  function ToEnv(env: map<string, Option<string>>): Result<seq<K.EnvVar>> {
    if exists k :: k in env && env[k].None? then Err("unsetting an environment variable is not supported")
    else
      var names := Sorted(env.Keys);
      Ok(seq(|names|, i requires 0 <= i < |names| => K.EnvVar(names[i], env[names[i]].GetOr(""))))
  }

  function ToProtocol(value: string): string {
    if value == "udp" then "UDP" else "TCP"
  }

  /** None when the service does not say, so that the stored policy is kept. */
  function ToRestartPolicy(srv: C.Service): (r: Result<Option<string>>)
    ensures r.Ok? ==> r.value != Some("")
  {
    match srv.deploy.restartCondition
    case None => Ok(None)
    case Some(condition) =>
      if condition == "any" then Ok(Some(ALWAYS))
      else if condition == "none" then Ok(Some("Never"))
      else if condition == "on-failure" then Ok(Some("OnFailure"))
      else Err("unsupported restart policy " + condition)
  }

  function ToResource(p: Platform, res: Option<C.Resource>): Result<map<string, string>> {
    match res
    case None => Ok(map[])
    case Some(r) =>
      var cpu := if r.nanoCPUs == "" then Some(map[]) else Named("cpu", p.parseQuantity(r.nanoCPUs));
      var memory := if r.memoryBytes == 0 then Some(map[]) else Named("memory",
                                                                      p.parseQuantity(FormatInt(r.memoryBytes)));
      if cpu.None? || memory.None? then Err("invalid quantity") else Ok(cpu.value + memory.value)
  }

  function Named(name: string, quantity: Option<string>): Option<map<string, string>> {
    match quantity case None => None case Some(q) => Some(map[name := q])
  }

  /** int64(duration.Seconds()): truncation towards zero. */
  function Seconds(nanoseconds: int): int {
    if nanoseconds >= 0 then nanoseconds / 1_000_000_000 else -(-nanoseconds / 1_000_000_000)
  }

  function SecondsOr(duration: Option<C.int64>, default: int): int {
    match duration case None => default case Some(d) => C.ToInt32(Seconds(d))
  }

  function ToLivenessProbe(hc: Option<C.HealthCheck>): Option<K.Probe> {
    if hc.None? || hc.value.test == [] || hc.value.test[0] == "NONE" then None
    else
      var h := hc.value;
      var command := if h.test[0] == "CMD-SHELL" then ["sh", "-c"] + h.test[1..] else h.test[1..];
      Some(K.Probe(command, SecondsOr(h.timeout, 1), SecondsOr(h.interval, 1),
                   match h.retries case None => 3 case Some(r) => C.ToInt32(r)))
  }

  function ToSecurityContext(srv: C.Service): Option<K.SecurityContext> {
    if !srv.privileged && !srv.readOnly && srv.capAdd == [] && srv.capDrop == [] && srv.user.None? then None
    else Some(K.SecurityContext(match srv.user case None => None case Some(u) => Some(u as int),
                                srv.privileged, srv.readOnly, srv.capAdd, srv.capDrop))
  }

  function ToPorts(ports: seq<C.Port>): seq<K.ContainerPort> {
    seq(|ports|, i requires 0 <= i < |ports| => K.ContainerPort(C.ToInt32(ports[i].target),
                                                                ToProtocol(ports[i].protocol)))
  }

  // ----- The template -----

  /** What toPodTemplate computes from the service alone. */
  datatype Parts = Parts(
    affinity: seq<K.Requirement>,
    hostAliases: seq<K.HostAlias>,
    env: seq<K.EnvVar>,
    restartPolicy: Option<string>,
    limits: map<string, string>,
    requests: map<string, string>,
    volumes: seq<K.Volume>,
    volumeMounts: seq<K.VolumeMount>,
    imagePullPolicy: string)

  /** The first error among the parts, in the order they are computed, or the parts. */
  function Assemble(affinity: Result<seq<K.Requirement>>, hostAliases: Result<seq<K.HostAlias>>,
                    env: Result<seq<K.EnvVar>>, restartPolicy: Result<Option<string>>,
                    limits: Result<map<string, string>>, requests: Result<map<string, string>>,
                    specs: Result<seq<Volumes.VolumeSpec>>, imagePullPolicy: Result<string>): Result<Parts> {
    var affinity :- affinity;
    var hostAliases :- hostAliases;
    var env :- env;
    var restartPolicy :- restartPolicy;
    var limits :- limits;
    var requests :- requests;
    var specs :- specs;
    var imagePullPolicy :- imagePullPolicy;
    Ok(Parts(affinity, hostAliases, env, restartPolicy, limits, requests,
             Volumes.VolumesOf(specs), Volumes.MountsOf(specs), imagePullPolicy))
  }

  function PartsOf(p: Platform, srv: C.Service, spec: C.StackSpec): Result<Parts> {
    Assemble(Placement.ToNodeAffinity(p, srv.deploy.constraints), HostAliases.ToHostAliases(srv.extraHosts),
             ToEnv(srv.environment),
             ToRestartPolicy(srv), ToResource(p, srv.deploy.limits), ToResource(p, srv.deploy.reservations),
             Volumes.ToVolumeSpecs(p, srv, spec), ToImagePullPolicy(srv.image, srv.pullPolicy))
  }

  // ----- When the parts are computed -----

  /** The quantities that are given parse. */
  predicate Measurable(p: Platform, res: Option<C.Resource>) {
    res.Some? ==>
      && (res.value.nanoCPUs != "" ==> p.parseQuantity(res.value.nanoCPUs).Some?)
      && (res.value.memoryBytes != 0 ==> p.parseQuantity(FormatInt(res.value.memoryBytes)).Some?)
  }

  predicate KnownCondition(condition: string) { condition in ["any", "none", "on-failure"] }

  predicate KnownPullPolicy(policy: string) { policy in ["", "Always", "IfNotPresent", "Never"] }

  /** What toPodTemplate demands of a service. */
  predicate Acceptable(p: Platform, srv: C.Service) {
    && (srv.deploy.constraints.Some? ==> Placement.Supported(srv.deploy.constraints.value))
    && (forall i :: 0 <= i < |srv.extraHosts| ==> ':' in srv.extraHosts[i])
    && (forall k :: k in srv.environment ==> srv.environment[k].Some?)
    && (srv.deploy.restartCondition.Some? ==> KnownCondition(srv.deploy.restartCondition.value))
    && Measurable(p, srv.deploy.limits) && Measurable(p, srv.deploy.reservations)
    && (forall i :: 0 <= i < |srv.volumes| ==> Volumes.Mountable(srv.volumes[i]))
    && KnownPullPolicy(srv.pullPolicy)
  }

  lemma AffinityOkIff(p: Platform, constraints: Option<C.Constraints>)
    requires Valid(p)
    ensures Placement.ToNodeAffinity(p, constraints).Ok? <==>
            (constraints.Some? ==> Placement.Supported(constraints.value))
  {
    var c := constraints.GetOr(C.Constraints(None, None, None, map[]));
    Placement.FailsOnUnsupported(c, p.labelOrder(c.matchLabels));
  }

  lemma ResourceOkIff(p: Platform, res: Option<C.Resource>)
    ensures ToResource(p, res).Ok? <==> Measurable(p, res)
  {
  }

  lemma PoliciesOkIff(srv: C.Service)
    ensures ToRestartPolicy(srv).Ok? <==>
            (srv.deploy.restartCondition.Some? ==> KnownCondition(srv.deploy.restartCondition.value))
    ensures ToImagePullPolicy(srv.image, srv.pullPolicy).Ok? <==> KnownPullPolicy(srv.pullPolicy)
  {
  }

  lemma VolumesOkIff(p: Platform, srv: C.Service, spec: C.StackSpec)
    ensures Volumes.ToVolumeSpecs(p, srv, spec).Ok? <==>
            forall i :: 0 <= i < |srv.volumes| ==> Volumes.Mountable(srv.volumes[i])
  {
    Volumes.MountSpecsOkIff(srv.volumes);
  }

  lemma AssembleOkIff(affinity: Result<seq<K.Requirement>>, hostAliases: Result<seq<K.HostAlias>>,
                      env: Result<seq<K.EnvVar>>, restartPolicy: Result<Option<string>>,
                      limits: Result<map<string, string>>, requests: Result<map<string, string>>,
                      specs: Result<seq<Volumes.VolumeSpec>>, imagePullPolicy: Result<string>)
    ensures Assemble(affinity, hostAliases, env, restartPolicy, limits, requests, specs, imagePullPolicy).Ok? <==>
            && affinity.Ok? && hostAliases.Ok? && env.Ok? && restartPolicy.Ok? && limits.Ok? && requests.Ok?
            && specs.Ok? && imagePullPolicy.Ok?
  {
  }

  /** The parts are computed exactly for the services the converter accepts, whatever the walk of the labels. */
  lemma PartsOkIff(p: Platform, srv: C.Service, spec: C.StackSpec)
    requires Valid(p)
    ensures PartsOf(p, srv, spec).Ok? <==> Acceptable(p, srv)
  {
    AffinityOkIff(p, srv.deploy.constraints);
    ResourceOkIff(p, srv.deploy.limits);
    ResourceOkIff(p, srv.deploy.reservations);
    PoliciesOkIff(srv);
    VolumesOkIff(p, srv, spec);
    AssembleOkIff(Placement.ToNodeAffinity(p, srv.deploy.constraints), HostAliases.ToHostAliases(srv.extraHosts),
                  ToEnv(srv.environment), ToRestartPolicy(srv),
                  ToResource(p, srv.deploy.limits), ToResource(p, srv.deploy.reservations),
                  Volumes.ToVolumeSpecs(p, srv, spec), ToImagePullPolicy(srv.image, srv.pullPolicy));
  }

  /** The first container with that name, or the number of containers. */
  function IndexOf(containers: seq<K.Container>, name: string): (i: nat)
    ensures i <= |containers|
    ensures i < |containers| ==> containers[i].name == name
    ensures forall j :: 0 <= j < i ==> containers[j].name != name
  {
    if containers == [] || containers[0].name == name then 0 else 1 + IndexOf(containers[1..], name)
  }

  /** The container the service owns: the first that bears its name, else the first of all. */
  function MainIndex(containers: seq<K.Container>, name: string): (i: nat)
    requires containers != []
    ensures i < |containers|
  {
    var i := IndexOf(containers, name);
    if i < |containers| then i else 0
  }

  function FillContainer(parts: Parts, srv: C.Service, c: K.Container): K.Container {
    c.(name := srv.name,
       image := srv.image,
       imagePullPolicy := parts.imagePullPolicy,
       command := srv.entrypoint,
       args := srv.command,
       workingDir := srv.workingDir,
       tty := srv.tty,
       stdin := srv.stdinOpen,
       ports := ToPorts(srv.ports),
       livenessProbe := ToLivenessProbe(srv.healthCheck),
       env := parts.env,
       volumeMounts := parts.volumeMounts,
       securityContext := ToSecurityContext(srv),
       limits := parts.limits,
       requests := parts.requests)
  }

  function FillContainers(parts: Parts, srv: C.Service, original: seq<K.Container>): seq<K.Container> {
    var containers := if original == [] then [K.ZERO_CONTAINER] else original;
    var ix := MainIndex(containers, srv.name);
    containers[ix := FillContainer(parts, srv, containers[ix])]
  }

  function WithPullSecret(secrets: seq<string>, name: string): seq<string> {
    if name != "" && name !in secrets then secrets + [name] else secrets
  }

  function Fill(parts: Parts, srv: C.Service, labels: map<string, string>, original: K.PodTemplate): K.PodTemplate {
    original.(
      labels := labels,
      annotations := srv.labels,
      restartPolicy := parts.restartPolicy.GetOr(original.restartPolicy),
      volumes := parts.volumes,
      hostPID := srv.pid == "host",
      hostIPC := srv.ipc == "host",
      hostname := srv.hostname,
      terminationGracePeriod :=
        match srv.stopGracePeriod { case None => original.terminationGracePeriod case Some(d) => Some(Seconds(d)) },
      hostAliases := parts.hostAliases,
      affinity := parts.affinity,
      containers := FillContainers(parts, srv, original.containers),
      imagePullSecrets := WithPullSecret(original.imagePullSecrets, srv.pullSecret))
  }

  /** forceRestartPolicy, as Deployments and StatefulSets use it. */
  function ForceRestartPolicy(t: K.PodTemplate): K.PodTemplate {
    if t.restartPolicy != "" then t.(restartPolicy := ALWAYS) else t
  }

  // ----- What the server may do to a submitted template -----

  predicate Pinned(image: string, stored: string) {
    stored == image || HasPrefix(stored, image + "@")
  }

  /** The image may be pinned to a digest and fields the converter never writes may be set. */
  predicate AdmitsContainer(c: K.Container, stored: K.Container) {
    Pinned(c.image, stored.image) && stored == c.(image := stored.image, rest := stored.rest)
  }

  /**
  Defaulting and admission: an empty restart policy becomes Always, an absent grace period is
  set, images are pinned, containers are appended, pull secrets added; init containers,
  tolerations and the fields the converter never writes are changed at will.
  */
  ghost predicate AdmitsTemplate(t: K.PodTemplate, stored: K.PodTemplate) {
    && stored == t.(restartPolicy := stored.restartPolicy,
                    terminationGracePeriod := stored.terminationGracePeriod,
                    initContainers := stored.initContainers,
                    containers := stored.containers,
                    tolerations := stored.tolerations,
                    imagePullSecrets := stored.imagePullSecrets,
                    rest := stored.rest)
    && (stored.restartPolicy == t.restartPolicy || (t.restartPolicy == "" && stored.restartPolicy == ALWAYS))
    && (stored.terminationGracePeriod == t.terminationGracePeriod || t.terminationGracePeriod.None?)
    && |t.containers| <= |stored.containers|
    && (forall i :: 0 <= i < |t.containers| ==> AdmitsContainer(t.containers[i], stored.containers[i]))
    && (forall s :: s in t.imagePullSecrets ==> s in stored.imagePullSecrets)
  }

  // ----- Converting what the server stored changes nothing but a pinned image -----

  lemma IndexOfUnique(containers: seq<K.Container>, name: string, i: nat)
    requires i < |containers| && containers[i].name == name
    requires forall j :: 0 <= j < i ==> containers[j].name != name
    ensures IndexOf(containers, name) == i
  {
    var k := IndexOf(containers, name);
    assert k == i;
  }

  lemma MainIndexKept(parts: Parts, srv: C.Service, original: seq<K.Container>, stored: seq<K.Container>)
    requires var c := FillContainers(parts, srv, original);
             |c| <= |stored| && forall i :: 0 <= i < |c| ==> AdmitsContainer(c[i], stored[i])
    ensures stored != []
    ensures var c := FillContainers(parts, srv, original);
            var ix := MainIndex(stored, srv.name);
            ix < |c| && c[ix] == FillContainer(parts, srv, c[ix])
  {
    var before := if original == [] then [K.ZERO_CONTAINER] else original;
    var ix := MainIndex(before, srv.name);
    var c := FillContainers(parts, srv, original);
    assert forall j :: 0 <= j < ix ==> c[j].name != srv.name;
    IndexOfUnique(stored, srv.name, ix);
  }

  lemma FillContainersSettles(parts: Parts, srv: C.Service, original: seq<K.Container>, stored: seq<K.Container>)
    requires var c := FillContainers(parts, srv, original);
             |c| <= |stored| && forall i :: 0 <= i < |c| ==> AdmitsContainer(c[i], stored[i])
    ensures stored != []
    ensures var ix := MainIndex(stored, srv.name);
            && FillContainers(parts, srv, stored) == stored[ix := stored[ix].(image := srv.image)]
            && Pinned(srv.image, stored[ix].image)
  {
    MainIndexKept(parts, srv, original, stored);
    var c := FillContainers(parts, srv, original);
    var ix := MainIndex(stored, srv.name);
    assert AdmitsContainer(c[ix], stored[ix]);
  }

  /** A template equal to `t` except for the image of the service's own container. */
  function Unpinned(srv: C.Service, t: K.PodTemplate): K.PodTemplate
    requires t.containers != []
  {
    var ix := MainIndex(t.containers, srv.name);
    t.(containers := t.containers[ix := t.containers[ix].(image := srv.image)])
  }

  ghost predicate OnlyPinned(srv: C.Service, stored: K.PodTemplate) {
    stored.containers != [] && Pinned(srv.image, stored.containers[MainIndex(stored.containers, srv.name)].image)
  }

  /** All but the restart policy, whatever policy was submitted. */
  lemma FillSettlesButPolicy(parts: Parts, srv: C.Service, labels: map<string, string>, original: K.PodTemplate,
                             policy: string, stored: K.PodTemplate)
    requires AdmitsTemplate(Fill(parts, srv, labels, original).(restartPolicy := policy), stored)
    ensures OnlyPinned(srv, stored)
    ensures var policy := parts.restartPolicy.GetOr(stored.restartPolicy);
            Fill(parts, srv, labels, stored) == Unpinned(srv, stored).(restartPolicy := policy)
  {
    var t := Fill(parts, srv, labels, original).(restartPolicy := policy);
    FillContainersSettles(parts, srv, original.containers, stored.containers);
    assert srv.pullSecret != "" ==> srv.pullSecret in t.imagePullSecrets;
  }

  lemma ForcedPolicy(policy: Option<string>, original: string, stored: string)
    requires policy != Some("")
    requires var submitted := if policy.GetOr(original) != "" then ALWAYS else "";
             stored == submitted || (submitted == "" && stored == ALWAYS)
    ensures (if policy.GetOr(stored) != "" then ALWAYS else "") == stored
  {
  }

  /** DaemonSet templates: converting the stored template gives it back, up to a pinned image. */
  lemma FillSettles(parts: Parts, srv: C.Service, labels: map<string, string>, original: K.PodTemplate,
                    stored: K.PodTemplate)
    requires parts.restartPolicy != Some("")
    requires AdmitsTemplate(Fill(parts, srv, labels, original), stored)
    ensures OnlyPinned(srv, stored) && Fill(parts, srv, labels, stored) == Unpinned(srv, stored)
  {
    var t := Fill(parts, srv, labels, original);
    assert t == t.(restartPolicy := t.restartPolicy);
    FillSettlesButPolicy(parts, srv, labels, original, t.restartPolicy, stored);
  }

  /** Deployment and StatefulSet templates: the same, through the forced restart policy. */
  lemma ForcedFillSettles(parts: Parts, srv: C.Service, labels: map<string, string>, original: K.PodTemplate,
                          stored: K.PodTemplate)
    requires parts.restartPolicy != Some("")
    requires AdmitsTemplate(ForceRestartPolicy(Fill(parts, srv, labels, original)), stored)
    ensures OnlyPinned(srv, stored) && ForceRestartPolicy(Fill(parts, srv, labels, stored)) == Unpinned(srv, stored)
  {
    var t := Fill(parts, srv, labels, original);
    var policy := if t.restartPolicy != "" then ALWAYS else "";
    assert ForceRestartPolicy(t) == t.(restartPolicy := policy);
    FillSettlesButPolicy(parts, srv, labels, original, policy, stored);
    ForcedPolicy(parts.restartPolicy, original.restartPolicy, stored.restartPolicy);
  }

  lemma PartsRestartPolicy(p: Platform, srv: C.Service, spec: C.StackSpec)
    requires PartsOf(p, srv, spec).Ok?
    ensures PartsOf(p, srv, spec).value.restartPolicy != Some("")
  {
    assert ToRestartPolicy(srv) == Ok(PartsOf(p, srv, spec).value.restartPolicy);
  }

  lemma AffinityIgnoresOrder(p: Platform, q: Platform, constraints: Option<C.Constraints>)
    requires Valid(p) && Valid(q) && (constraints.Some? ==> |constraints.value.matchLabels| <= 1)
    ensures Placement.ToNodeAffinity(p, constraints) == Placement.ToNodeAffinity(q, constraints)
  {
    var c := constraints.GetOr(C.Constraints(None, None, None, map[]));
    Placement.SingleOrder(c.matchLabels, p.labelOrder(c.matchLabels), q.labelOrder(c.matchLabels));
  }

  lemma VolumesSameLibraries(p: Platform, q: Platform, srv: C.Service, spec: C.StackSpec)
    requires SameLibraries(p, q)
    ensures Volumes.ToVolumeSpecs(p, srv, spec) == Volumes.ToVolumeSpecs(q, srv, spec)
  {
    assert Volumes.SecretSpecs(p, srv, spec) == Volumes.SecretSpecs(q, srv, spec);
    assert Volumes.ConfigSpecs(p, srv, spec) == Volumes.ConfigSpecs(q, srv, spec);
  }

  lemma ResourcesSameLibraries(p: Platform, q: Platform, res: Option<C.Resource>)
    requires SameLibraries(p, q)
    ensures ToResource(p, res) == ToResource(q, res)
  {
  }

  /** The parts do not depend on the walk of MatchLabels when there is at most one label. */
  lemma PartsIgnoreOrder(p: Platform, q: Platform, srv: C.Service, spec: C.StackSpec)
    requires Valid(p) && Valid(q) && SameLibraries(p, q)
    requires srv.deploy.constraints.Some? ==> |srv.deploy.constraints.value.matchLabels| <= 1
    ensures PartsOf(p, srv, spec) == PartsOf(q, srv, spec)
  {
    AffinityIgnoresOrder(p, q, srv.deploy.constraints);
    VolumesSameLibraries(p, q, srv, spec);
    ResourcesSameLibraries(p, q, srv.deploy.limits);
    ResourcesSameLibraries(p, q, srv.deploy.reservations);
  }
}
