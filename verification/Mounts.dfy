/** Mounts, volumes and claims of the generated workloads (internal/convert/stack.go:78-126). */
module Mounts {
  import opened Wrappers
  import opened Kube
  import C = Compose
  import Convert
  import HostAliases
  import Labels
  import P = Platform
  import Placement
  import Pods
  import Volumes

  function MainContainer(t: PodTemplate, srv: C.Service): Container
    requires t.containers != []
  {
    t.containers[Pods.MainIndex(t.containers, srv.name)]
  }

  /** Each mount of the service's container names exactly one of a pod volume and a claim template. */
  ghost predicate Resolved(t: PodTemplate, srv: C.Service, claims: seq<Claim>) {
    t.containers != [] && forall m :: m in MainContainer(t, srv).volumeMounts ==> Volumes.Resolves(t.volumes, claims, m)
  }

  /** The template the service's parts are filled into has exactly these volumes and mounts. */
  lemma FilledVolumes(parts: Pods.Parts, srv: C.Service, labels: Labels.LabelMap, original: PodTemplate)
    ensures var t := Pods.Fill(parts, srv, labels, original);
            t.volumes == parts.volumes && t.containers != [] && MainContainer(t, srv).volumeMounts == parts.volumeMounts
  {
    var c := Pods.FillContainers(parts, srv, original.containers);
    forall i | 0 <= i < |c| ensures Pods.AdmitsContainer(c[i], c[i]) {
      assert c[i] == c[i].(image := c[i].image, rest := c[i].rest);
    }
    Pods.MainIndexKept(parts, srv, original.containers, c);
  }

  lemma AssembledVolumes(affinity: Result<seq<Requirement>>, hostAliases: Result<seq<HostAlias>>,
                         env: Result<seq<EnvVar>>, restartPolicy: Result<Option<string>>,
                         limits: Result<map<string, string>>, requests: Result<map<string, string>>,
                         specs: Result<seq<Volumes.VolumeSpec>>, imagePullPolicy: Result<string>)
    ensures var r := Pods.Assemble(affinity, hostAliases, env, restartPolicy, limits, requests, specs, imagePullPolicy);
            r.Ok? ==>
              && specs.Ok? && r.value.volumes == Volumes.VolumesOf(specs.value)
              && r.value.volumeMounts == Volumes.MountsOf(specs.value)
  {
  }

  lemma PartsVolumes(p: P.Platform, srv: C.Service, spec: C.StackSpec)
    requires Pods.PartsOf(p, srv, spec).Ok?
    ensures Volumes.ToVolumeSpecs(p, srv, spec).Ok?
    ensures var parts, specs := Pods.PartsOf(p, srv, spec).value, Volumes.ToVolumeSpecs(p, srv, spec).value;
            parts.volumes == Volumes.VolumesOf(specs) && parts.volumeMounts == Volumes.MountsOf(specs)
  {
    AssembledVolumes(Placement.ToNodeAffinity(p, srv.deploy.constraints), HostAliases.ToHostAliases(srv.extraHosts),
                     Pods.ToEnv(srv.environment),
                     Pods.ToRestartPolicy(srv), Pods.ToResource(p, srv.deploy.limits),
                         Pods.ToResource(p, srv.deploy.reservations),
                     Volumes.ToVolumeSpecs(p, srv, spec), Pods.ToImagePullPolicy(srv.image, srv.pullPolicy));
  }

  lemma {:induction false} NoClaims(srv: C.Service, original: seq<Claim>, n: nat)
    requires n <= |srv.volumes| && !Volumes.HasPersistentVolumes(srv)
    ensures Volumes.ClaimsUpTo(srv, original, n) == []
  {
    if n > 0 {
      NoClaims(srv, original, n - 1);
    }
  }

  lemma NoClash(srv: C.Service)
    requires !Volumes.HasPersistentVolumes(srv)
    ensures !Volumes.Clashes(srv)
  {
  }

  /**
  In a generated StatefulSet pod volumes have distinct names, and every mount names exactly one of
  a pod volume and a claim template if and only if no named volume bears a generated pod volume's name.
  */
  lemma StatefulSetMountsResolve(p: P.Platform, srv: C.Service, spec: C.StackSpec, labels: Labels.LabelMap,
                                 selector: Labels.LabelMap, original: StatefulSetSpec)
    requires Pods.PartsOf(p, srv, spec).Ok?
    ensures Volumes.ToVolumeSpecs(p, srv, spec).Ok?
    ensures var s := Convert.ToStatefulSetSpec(Pods.PartsOf(p, srv, spec).value, srv, labels, selector, original);
            && Volumes.DistinctNames(s.template.volumes)
            && (Resolved(s.template, srv, s.claims) <==> !Volumes.Clashes(srv))
  {
    PartsVolumes(p, srv, spec);
    FilledVolumes(Pods.PartsOf(p, srv, spec).value, srv, labels, original.template);
    Volumes.VolumeNamesDistinct(p, srv, spec);
    Volumes.MountsResolve(p, srv, spec, original.claims);
  }

  /** A service without named volumes, as Deployments and DaemonSets are made from, always resolves to pod volumes. */
  lemma StatelessMountsResolve(p: P.Platform, srv: C.Service, spec: C.StackSpec, labels: Labels.LabelMap,
                               original: PodTemplate)
    requires Pods.PartsOf(p, srv, spec).Ok? && !Volumes.HasPersistentVolumes(srv)
    ensures var t := Pods.Fill(Pods.PartsOf(p, srv, spec).value, srv, labels, original);
            Volumes.DistinctNames(t.volumes) && Resolved(t, srv, []) && Resolved(Pods.ForceRestartPolicy(t), srv, [])
  {
    PartsVolumes(p, srv, spec);
    FilledVolumes(Pods.PartsOf(p, srv, spec).value, srv, labels, original);
    Volumes.VolumeNamesDistinct(p, srv, spec);
    Volumes.MountsResolve(p, srv, spec, []);
    NoClaims(srv, [], |srv.volumes|);
    NoClash(srv);
  }
}
