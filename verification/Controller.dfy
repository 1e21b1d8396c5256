/** Reconciling and deleting the children of a stack (internal/controller/stackreconciler.go:108-159). */
module Controller {
  import opened Wrappers
  import opened Kube
  import opened Diff
  import C = Compose
  import Cluster
  import Convert
  import Fixpoint
  import P = Platform
  import Services

  class StackReconciler {
    const updater: Cluster.ResourceUpdater
    const strategy: Services.Strategy

    constructor (updater: Cluster.ResourceUpdater, strategy: Services.Strategy)
      ensures this.updater == updater && this.strategy == strategy
    {
      this.updater := updater;
      this.strategy := strategy;
    }

    /**
    reconcileChildren.  It fails without touching the cluster exactly when the stack cannot be
    converted; otherwise a difference between the current and the desired state is applied.
    */
    method ReconcileChildren(p: P.Platform,
                             stack: C.Stack) returns (r: Result<Option<Cluster.ApiError>>, ghost d: StackDiff)
      requires Fixpoint.KeyedStores(updater.Reached())
      modifies updater.deployments, updater.statefulsets, updater.daemonsets, updater.services
      ensures var was, key := old(updater.Reached()), ObjKey(stack.namespace, stack.name);
              var desired := Fixpoint.Desired(p, strategy, stack, Cluster.CurrentState(was, key));
              && (r.Err? <==> desired.Err?)
              && (r.Err? ==> updater.Reached() == was)
              && (r.Ok? ==> IsDiff(Cluster.CurrentState(was, key), desired.value, d)
                            && (updater.Reached(), r.value) == Cluster.ApplyDiff(updater.ServersOf(), was, d))
    {
      var key := ObjKey(stack.namespace, stack.name);
      var current := Cluster.CurrentState(updater.Reached(), key);
      Fixpoint.CurrentProper(updater.Reached(), key);
      d := StackDiff(KindDiff([], [], []), KindDiff([], [], []), KindDiff([], [], []), KindDiff([], [], []));
      var desired := Fixpoint.Desired(p, strategy, stack, current);
      if desired.Err? {
        return Err(desired.message), d;
      }
      Fixpoint.DesiredProper(p, strategy, stack, current, false);
      var diff := ComputeDiff(current, desired.value);
      d := diff;
      var error := updater.ApplyStackDiff(diff);
      r := Ok(error);
    }

    /** deleteStackChildren, up to the secrets and config maps. */
    method DeleteStackChildren(stack: C.Stack) returns (error: Option<Cluster.ApiError>)
      requires Fixpoint.KeyedStores(updater.Reached())
      modifies updater.deployments, updater.statefulsets, updater.daemonsets, updater.services
      ensures error == None ==> Cluster.CurrentState(updater.Reached(),
                                                     ObjKey(stack.namespace, stack.name)) == EMPTY_STATE
    {
      var key := ObjKey(stack.namespace, stack.name);
      ghost var was := updater.Reached();
      var current := Cluster.CurrentState(updater.Reached(), key);
      Fixpoint.CurrentProper(was, key);
      var diff := ComputeDiff(current, EMPTY_STATE);
      error := updater.ApplyStackDiff(diff);
      if error == None {
        Cluster.DeletionLeavesNothing(updater.ServersOf(), was, key, diff);
      }
    }
  }

  /** Reconciling twice in a row makes no call the second time. */
  lemma SecondReconcileIsIdle(servers: Cluster.Servers, p: P.Platform, q: P.Platform, strategy: Services.Strategy,
                              stack: C.Stack, later: C.Stack, c: Cluster.State, d: StackDiff, after: Cluster.State,
                              d': StackDiff, current: StackState, next: StackState)
    requires Fixpoint.Admissible(servers) && Fixpoint.KeyedStores(c) && P.Valid(p) && P.Valid(q)
             && P.SameLibraries(p, q)
    requires later == stack.(status := later.status) && (C.IsDirty(stack.status) || !C.IsDirty(later.status))
    requires Fixpoint.Reconciled(servers, p, strategy, stack, c, d, after)
    requires current == Cluster.CurrentState(c, ObjKey(stack.namespace, stack.name))
    requires next == Cluster.CurrentState(after, ObjKey(stack.namespace, stack.name))
    requires Fixpoint.Fits(Convert.ContextOf(p, strategy, stack), stack.spec.value.services, current)
    requires Fixpoint.Desired(q, strategy, later, next).Ok? ==>
               IsDiff(next, Fixpoint.Desired(q, strategy, later, next).value, d')
    ensures Fixpoint.Reconciled(servers, q, strategy, later, after, d', after)
  {
    Fixpoint.ReconcileFixpoint(servers, p, q, strategy, stack, later, c, d, after, current, next);
    Cluster.EmptyDiffIsIdle(servers, after, d');
  }
}
