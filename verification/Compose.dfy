/** The structured stack (api/compose/v1alpha3/stack.go) and the integer widths it uses. */
module Compose {
  import opened Wrappers

  type uint32 = n: int | 0 <= n < 0x1_0000_0000
  type uint64 = n: int | 0 <= n < 0x1_0000_0000_0000_0000
  type int32 = n: int | -0x8000_0000 <= n < 0x8000_0000
  type int64 = n: int | -0x8000_0000_0000_0000 <= n < 0x8000_0000_0000_0000

  /** Go's int32(n): keep the low 32 bits. */
  function ToInt32(n: int): (r: int32)
    ensures (r - n) % 0x1_0000_0000 == 0
  {
    var low := n % 0x1_0000_0000;
    if low < 0x8000_0000 then low else low - 0x1_0000_0000
  }

  /** Go's int(n) of a uint64, on a 64-bit platform. */
  function ToInt64(n: uint64): (r: int64)
    ensures (r - n) % 0x1_0000_0000_0000_0000 == 0
  {
    if n < 0x8000_0000_0000_0000 then n else n - 0x1_0000_0000_0000_0000
  }

  /** Go's uint64(n) of an int, on a 64-bit platform. */
  function ToUint64(n: int64): (r: uint64)
    ensures (r - n) % 0x1_0000_0000_0000_0000 == 0
  {
    if n >= 0 then n else n + 0x1_0000_0000_0000_0000
  }

  datatype Port = Port(mode: string, target: uint32, published: uint32, protocol: string)

  datatype InternalPort = InternalPort(port: int32, protocol: string)

  datatype Volume = Volume(kind: string, source: string, target: string, readOnly: bool)

  /** A service's reference to a secret or a config. */
  datatype FileReference = FileReference(source: string, target: string, mode: Option<uint32>)

  /** A top-level secret or config. */
  datatype FileObject = FileObject(name: string, file: string, external: bool)

  datatype Constraint = Constraint(value: string, operator: string)

  datatype Constraints = Constraints(
    operatingSystem: Option<Constraint>,
    architecture: Option<Constraint>,
    hostname: Option<Constraint>,
    matchLabels: map<string, Constraint>)

  datatype Resource = Resource(nanoCPUs: string, memoryBytes: int64)

  datatype UpdateConfig = UpdateConfig(parallelism: Option<uint64>)

  datatype Deploy = Deploy(
    mode: string,
    replicas: Option<uint64>,
    labels: map<string, string>,
    updateConfig: Option<UpdateConfig>,
    limits: Option<Resource>,
    reservations: Option<Resource>,
    restartCondition: Option<string>,
    constraints: Option<Constraints>)

  /** Durations are in nanoseconds. */
  datatype HealthCheck = HealthCheck(test: seq<string>, timeout: Option<int64>, interval: Option<int64>,
                                     retries: Option<uint64>)

  datatype Service = Service(
    name: string,
    capAdd: seq<string>,
    capDrop: seq<string>,
    command: seq<string>,
    configs: seq<FileReference>,
    deploy: Deploy,
    entrypoint: seq<string>,
    environment: map<string, Option<string>>,
    extraHosts: seq<string>,
    hostname: string,
    healthCheck: Option<HealthCheck>,
    image: string,
    ipc: string,
    labels: map<string, string>,
    pid: string,
    ports: seq<Port>,
    privileged: bool,
    readOnly: bool,
    secrets: seq<FileReference>,
    stdinOpen: bool,
    stopGracePeriod: Option<int64>,
    tmpfs: seq<string>,
    tty: bool,
    user: Option<int64>,
    volumes: seq<Volume>,
    workingDir: string,
    pullSecret: string,
    pullPolicy: string,
    internalPorts: seq<InternalPort>,
    internalServiceType: string)

  datatype StackSpec = StackSpec(
    services: seq<Service>,
    secrets: map<string, FileObject>,
    configs: map<string, FileObject>)

  datatype Phase = Available | Progressing | Failure | ReconciliationPending | OtherPhase(name: string)

  datatype Status = Status(phase: Phase, message: string)

  /** The stack as the controller sees it. */
  datatype Stack = Stack(name: string, namespace: string, uid: string, spec: Option<StackSpec>, status: Option<Status>)

  /** convert.IsStackDirty. */
  predicate IsDirty(status: Option<Status>) {
    status.None? || status.value.phase.ReconciliationPending? || status.value.phase.Failure?
  }
}
