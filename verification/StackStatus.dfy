/** The status derived from a stack's workloads (internal/controller/stackstatereconciler.go:44-94). */
module StackStatus {
  import opened Wrappers
  import C = Compose

  /** An object of the stack, as far as its status matters. */
  datatype Resource =
    | Replicated(name: string, replicas: Option<int>, readyReplicas: int)     // a Deployment or a StatefulSet
    | PerNode(name: string, unavailable: int)                                 // a DaemonSet
    | Network(name: string)                                                   // a Service

  predicate Ready(r: Resource) {
    match r
    case Replicated(_, replicas, ready) => replicas.GetOr(1) == ready
    case PerNode(_, unavailable) => unavailable == 0
    case Network(_) => false
  }

  /** Some workload of that name is ready. */
  predicate Up(resources: seq<Resource>, name: string) {
    exists i :: 0 <= i < |resources| && Ready(resources[i]) && resources[i].name == name
  }

  predicate IsName(services: seq<C.Service>, name: string) {
    exists i :: 0 <= i < |services| && services[i].name == name
  }

  method ServiceNames(services: seq<C.Service>) returns (names: set<string>)
    ensures forall n :: n in names <==> IsName(services, n)
  {
    names := {};
    for i := 0 to |services|
      invariant forall n :: n in names <==> exists j :: 0 <= j < i && services[j].name == n
    {
      names := names + {services[i].name};
    }
  }

  /**
  Some Deployment or StatefulSet of that name has as many ready replicas as it asks for, one if it
  does not say, or some DaemonSet of that name has no unavailable pod.
  */
  predicate HasReadyWorkload(resources: seq<Resource>, name: string) {
    exists i :: 0 <= i < |resources| && resources[i].name == name &&
                match resources[i]
                case Replicated(_, Some(n), ready) => ready == n
                case Replicated(_, None, ready) => ready == 1
                case PerNode(_, unavailable) => unavailable == 0
                case Network(_) => false
  }

  lemma UpIff(resources: seq<Resource>, name: string)
    ensures Up(resources, name) <==> HasReadyWorkload(resources, name)
  {
  }

  /** generateStatus: available exactly when every service of the stack has a ready workload. */
  method GenerateStatus(services: seq<C.Service>, resources: seq<Resource>) returns (status: C.Status)
    ensures status == if forall i :: 0 <= i < |services| ==> HasReadyWorkload(resources, services[i].name)
                      then C.Status(C.Available, "Stack is started")
                      else C.Status(C.Progressing, "Stack is starting")
  {
    forall n ensures Up(resources, n) <==> HasReadyWorkload(resources, n) {
      UpIff(resources, n);
    }
    var remaining := ServiceNames(services);
    for i := 0 to |resources|
      invariant forall n :: n in remaining <==> IsName(services, n) && !Up(resources[..i], n)
    {
      UpGrows(resources, i);
      if Ready(resources[i]) {
        remaining := remaining - {resources[i].name};
      }
    }
    assert resources[..|resources|] == resources;
    if remaining != {} {
      var n :| n in remaining;
      assert IsName(services, n) && !Up(resources, n);
      var i :| 0 <= i < |services| && services[i].name == n;
      assert !HasReadyWorkload(resources, services[i].name);
      return C.Status(C.Progressing, "Stack is starting");
    }
    forall i | 0 <= i < |services| ensures HasReadyWorkload(resources, services[i].name) {
      assert IsName(services, services[i].name) && services[i].name !in remaining;
    }
    return C.Status(C.Available, "Stack is started");
  }

  lemma UpGrows(resources: seq<Resource>, i: nat)
    requires i < |resources|
    ensures forall n :: Up(resources[..i + 1], n) <==>
                        Up(resources[..i], n) || (Ready(resources[i]) && resources[i].name == n)
  {
    forall n
      ensures Up(resources[..i + 1], n) <==> Up(resources[..i], n) || (Ready(resources[i]) && resources[i].name == n)
    {
      if Up(resources[..i], n) {
        var j :| 0 <= j < i && Ready(resources[..i][j]) && resources[..i][j].name == n;
        assert resources[..i + 1][j] == resources[..i][j];
      }
      if Ready(resources[i]) && resources[i].name == n {
        assert resources[..i + 1][i] == resources[i];
      }
      if Up(resources[..i + 1], n) {
        var j :| 0 <= j < i + 1 && Ready(resources[..i + 1][j]) && resources[..i + 1][j].name == n;
        assert j < i ==> resources[..i][j] == resources[..i + 1][j];
      }
    }
  }
}
