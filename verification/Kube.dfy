/**
The Kubernetes objects a stack is made of, and the state of a stack
(internal/stackresources/stackstate.go).  Fields the converter never writes are kept together
in `rest`.  Nil and empty collections are the same value.
*/
module Kube {
  import opened Wrappers

  datatype Meta = Meta(
    name: string,
    namespace: string,
    labels: map<string, string>,
    annotations: map<string, string>,
    generation: int,
    resourceVersion: nat,
    ownerUid: string)

  datatype Object<S> = Object(meta: Meta, spec: S)

  datatype ContainerPort = ContainerPort(port: int, protocol: string)
  datatype EnvVar = EnvVar(name: string, value: string)
  datatype HostAlias = HostAlias(ip: string, hostnames: seq<string>)
  datatype Probe = Probe(command: seq<string>, timeoutSeconds: int, periodSeconds: int, failureThreshold: int)
  datatype Requirement = Requirement(key: string, operator: string, value: string)
  datatype SecurityContext = SecurityContext(
    runAsUser: Option<int>, privileged: bool, readOnlyRoot: bool, capAdd: seq<string>, capDrop: seq<string>)
  datatype Toleration = Toleration(key: string, rest: string)
  datatype VolumeMount = VolumeMount(name: string, path: string, readOnly: bool, subPath: string)
  datatype VolumeSource =
    | HostPath(path: string)
    | GitRepo(repository: string)
    | MemoryDir
    | SecretFile(name: string, key: string, subPath: string, mode: Option<int>)
    | ConfigMapFile(name: string, key: string, subPath: string, mode: Option<int>)
  datatype Volume = Volume(name: string, source: VolumeSource)

  datatype Container = Container(
    name: string,
    image: string,
    imagePullPolicy: string,
    command: seq<string>,
    args: seq<string>,
    workingDir: string,
    tty: bool,
    stdin: bool,
    ports: seq<ContainerPort>,
    livenessProbe: Option<Probe>,
    env: seq<EnvVar>,
    volumeMounts: seq<VolumeMount>,
    securityContext: Option<SecurityContext>,
    limits: map<string, string>,
    requests: map<string, string>,
    rest: string)

  datatype PodTemplate = PodTemplate(
    labels: map<string, string>,
    annotations: map<string, string>,
    restartPolicy: string,
    volumes: seq<Volume>,
    hostPID: bool,
    hostIPC: bool,
    hostname: string,
    terminationGracePeriod: Option<int>,
    hostAliases: seq<HostAlias>,
    affinity: seq<Requirement>,
    initContainers: seq<Container>,
    containers: seq<Container>,
    tolerations: seq<Toleration>,
    imagePullSecrets: seq<string>,
    rest: string)

  /** `kind` is the strategy's type; `amount` is maxUnavailable of a Deployment, partition of a StatefulSet. */
  datatype Strategy = Strategy(kind: string, amount: Option<int>, rest: string)

  datatype Claim = Claim(name: string, annotations: map<string, string>, accessModes: seq<string>,
                         requests: map<string, string>, rest: string)

  datatype DeploymentSpec = DeploymentSpec(
    replicas: Option<int>,
    revisionHistoryLimit: Option<int>,
    template: PodTemplate,
    strategy: Strategy,
    selector: map<string, string>,
    rest: string)

  datatype StatefulSetSpec = StatefulSetSpec(
    replicas: Option<int>,
    revisionHistoryLimit: Option<int>,
    template: PodTemplate,
    updateStrategy: Strategy,
    claims: seq<Claim>,
    selector: map<string, string>,
    rest: string)

  datatype DaemonSetSpec = DaemonSetSpec(template: PodTemplate, selector: map<string, string>, rest: string)

  datatype ServicePort = ServicePort(name: string, port: int, targetPort: int, nodePort: int, protocol: string)

  datatype ServiceSpec = ServiceSpec(
    kind: string,
    clusterIP: string,
    selector: map<string, string>,
    ports: seq<ServicePort>,
    rest: string)

  type Deployment = Object<DeploymentSpec>
  type StatefulSet = Object<StatefulSetSpec>
  type DaemonSet = Object<DaemonSetSpec>
  type Service = Object<ServiceSpec>

  const CLUSTER_IP_NONE := "None"
  const EXTERNAL_NAME := "ExternalName"
  const LOAD_BALANCER := "LoadBalancer"
  const NODE_PORT := "NodePort"

  // ----- Go's zero values, read when a map has no entry -----

  const ZERO_META := Meta("", "", map[], map[], 0, 0, "")
  const ZERO_CONTAINER := Container("", "", "", [], [], "", false, false, [], None, [], [], None, map[], map[], "")
  const ZERO_TEMPLATE := PodTemplate(map[], map[], "", [], false, false, "", None, [], [], [], [], [], [], "")
  const ZERO_DEPLOYMENT: Deployment :=
    Object(ZERO_META, DeploymentSpec(None, None, ZERO_TEMPLATE, Strategy("", None, ""), map[], ""))
  const ZERO_STATEFULSET: StatefulSet :=
    Object(ZERO_META, StatefulSetSpec(None, None, ZERO_TEMPLATE, Strategy("", None, ""), [], map[], ""))
  const ZERO_DAEMONSET: DaemonSet := Object(ZERO_META, DaemonSetSpec(ZERO_TEMPLATE, map[], ""))
  const ZERO_SERVICE: Service := Object(ZERO_META, ServiceSpec("", "", map[], [], ""))

  function Lookup<S>(objects: map<string, Object<S>>, key: string, zero: Object<S>): Object<S> {
    if key in objects then objects[key] else zero
  }

  // ----- Keys and stack states -----

  /** stackresources.ObjKey. */
  function ObjKey(namespace: string, name: string): string {
    if namespace == "" then name else namespace + "/" + name
  }

  function KeyOf(meta: Meta): string { ObjKey(meta.namespace, meta.name) }

  datatype StackState = StackState(
    deployments: map<string, Deployment>,
    statefulsets: map<string, StatefulSet>,
    daemonsets: map<string, DaemonSet>,
    services: map<string, Service>)
  {
    /** Adding resources one after the other: a later object replaces an earlier one with its key. */
    function Add(other: StackState): StackState {
      StackState(deployments + other.deployments, statefulsets + other.statefulsets,
                 daemonsets + other.daemonsets, services + other.services)
    }
  }

  const EMPTY_STATE := StackState(map[], map[], map[], map[])

  /** Kubernetes names and label values hold no '/', so a key identifies namespace and name. */
  lemma ObjKeyInjective(ns1: string, n1: string, ns2: string, n2: string)
    requires '/' !in ns1 && '/' !in n1 && '/' !in ns2 && '/' !in n2
    requires ObjKey(ns1, n1) == ObjKey(ns2, n2)
    ensures ns1 == ns2 && n1 == n2
  {
    var k1, k2 := ObjKey(ns1, n1), ObjKey(ns2, n2);
    if ns1 != "" { assert k1[|ns1|] == '/'; }
    if ns2 != "" { assert k2[|ns2|] == '/'; }
    if ns1 == "" {
      assert ns2 == "";
    } else {
      assert ns2 != "";
      assert forall i :: 0 <= i < |ns1| ==> k1[i] == ns1[i] && k1[i] != '/';
      assert forall i :: 0 <= i < |ns2| ==> k2[i] == ns2[i] && k2[i] != '/';
      assert |ns1| == |ns2|;
      assert k1[..|ns1|] == ns1 && k2[..|ns2|] == ns2;
      assert k1[|ns1| + 1..] == n1 && k2[|ns2| + 1..] == n2;
    }
  }
}
