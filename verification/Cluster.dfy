/**
Applying a difference to the cluster (internal/controller/resourceupdater.go:58-148) and
reading a stack's objects back (byStackIndexer in internal/controller/stackstatereconciler.go,
getCurrentStackState in internal/controller/childrenstore.go).

The API server keeps one store per kind.  Every call takes one tick of the store's clock; what
the server makes of a submitted spec and which calls fail for reasons of its own are functions
of the clock, so they are arbitrary.
*/
module Cluster {
  import opened Wrappers
  import opened Kube
  import opened Diff
  import Labels

  datatype ApiError = NotFound | AlreadyExists | Conflict | Unavailable

  datatype Store<S> = Store(objects: Objects<S>, clock: nat)

  datatype Server<!S> = Server(
    admit: (nat, S) -> S,                           // defaulting and admission
    bumps: (Object<S>, Object<S>) -> bool,          // does this update of the stored object bump its generation
    fails: nat -> bool)                             // calls refused for other reasons

  datatype Outcome<S> = Outcome(store: Store<S>, error: Option<ApiError>)

  function Tick<S>(s: Store<S>): Store<S> { s.(clock := s.clock + 1) }

  function Stored<S>(server: Server<S>, s: Store<S>, o: Object<S>, generation: int): Object<S> {
    Object(o.meta.(resourceVersion := s.clock + 1, generation := generation), server.admit(s.clock, o.spec))
  }

  function Put<S>(s: Store<S>, k: string, o: Object<S>): Store<S> { Tick(s).(objects := s.objects[k := o]) }

  function Create<S>(server: Server<S>, s: Store<S>, o: Object<S>): Outcome<S> {
    var k := KeyOf(o.meta);
    if server.fails(s.clock) then Outcome(Tick(s), Some(Unavailable))
    else if k in s.objects then Outcome(Tick(s), Some(AlreadyExists))
    else Outcome(Put(s, k, Stored(server, s, o, 1)), None)
  }

  function Update<S>(server: Server<S>, s: Store<S>, o: Object<S>): Outcome<S> {
    var k := KeyOf(o.meta);
    if server.fails(s.clock) then Outcome(Tick(s), Some(Unavailable))
    else if k !in s.objects then Outcome(Tick(s), Some(NotFound))
    else if o.meta.resourceVersion != s.objects[k].meta.resourceVersion then Outcome(Tick(s), Some(Conflict))
    else
      var was := s.objects[k];
      var generation := was.meta.generation + if server.bumps(was, o) then 1 else 0;
      Outcome(Put(s, k, Stored(server, s, o, generation)), None)
  }

  /** Deleting by name: no version is checked, and a missing object is no error to the caller. */
  function Delete<S>(server: Server<S>, s: Store<S>, o: Object<S>): Outcome<S> {
    if server.fails(s.clock) then Outcome(Tick(s), Some(Unavailable))
    else Outcome(Tick(s).(objects := s.objects - {KeyOf(o.meta)}), None)
  }

  function DeleteAll<S>(server: Server<S>, s: Store<S>, objects: seq<Object<S>>): Outcome<S> {
    if objects == [] then Outcome(s, None)
    else
      var before := DeleteAll(server, s, objects[..|objects| - 1]);
      if before.error.Some? then before else Delete(server, before.store, objects[|objects| - 1])
  }

  function CreateAll<S>(server: Server<S>, s: Store<S>, objects: seq<Object<S>>): Outcome<S> {
    if objects == [] then Outcome(s, None)
    else
      var before := CreateAll(server, s, objects[..|objects| - 1]);
      if before.error.Some? then before else Create(server, before.store, objects[|objects| - 1])
  }

  function UpdateAll<S>(server: Server<S>, s: Store<S>, objects: seq<Object<S>>): Outcome<S> {
    if objects == [] then Outcome(s, None)
    else
      var before := UpdateAll(server, s, objects[..|objects| - 1]);
      if before.error.Some? then before else Update(server, before.store, objects[|objects| - 1])
  }

  /** One of the four apply* functions: deletions, then additions, then updates. */
  function ApplyKind<S>(server: Server<S>, s: Store<S>, d: KindDiff<S>): Outcome<S> {
    var deleted := DeleteAll(server, s, d.toDelete);
    if deleted.error.Some? then deleted
    else
      var created := CreateAll(server, deleted.store, d.toAdd);
      if created.error.Some? then created else UpdateAll(server, created.store, d.toUpdate)
  }

  // ----- The updater of the source -----

  /** A typed client: the store of one kind behind the API. */
  class KindClient<S> {
    const server: Server<S>
    var store: Store<S>

    constructor (server: Server<S>, store: Store<S>)
      ensures this.server == server && this.store == store
    {
      this.server := server;
      this.store := store;
    }

    method Call(o: Outcome<S>) returns (error: Option<ApiError>)
      modifies this
      ensures Outcome(store, error) == o
    {
      store := o.store;
      error := o.error;
    }

    /** applyDaemonsets, applyDeployments, applyStatefulsets and applyServices. */
    method Apply(toAdd: seq<Object<S>>, toUpdate: seq<Object<S>>,
                 toDelete: seq<Object<S>>) returns (error: Option<ApiError>)
      modifies this
      ensures Outcome(store, error) == ApplyKind(server, old(store), KindDiff(toAdd, toUpdate, toDelete))
    {
      for i := 0 to |toDelete|
        invariant Outcome(store, None) == DeleteAll(server, old(store), toDelete[..i])
      {
        assert toDelete[..i + 1][..i] == toDelete[..i];
        error := Call(Delete(server, store, toDelete[i]));
        if error.Some? {
          DeleteAllStops(server, old(store), toDelete, i + 1);
          return;
        }
      }
      assert toDelete[..|toDelete|] == toDelete;
      ghost var deleted := store;
      for i := 0 to |toAdd|
        invariant Outcome(store, None) == CreateAll(server, deleted, toAdd[..i])
      {
        assert toAdd[..i + 1][..i] == toAdd[..i];
        error := Call(Create(server, store, toAdd[i]));
        if error.Some? {
          CreateAllStops(server, deleted, toAdd, i + 1);
          return;
        }
      }
      assert toAdd[..|toAdd|] == toAdd;
      ghost var created := store;
      for i := 0 to |toUpdate|
        invariant Outcome(store, None) == UpdateAll(server, created, toUpdate[..i])
      {
        assert toUpdate[..i + 1][..i] == toUpdate[..i];
        error := Call(Update(server, store, toUpdate[i]));
        if error.Some? {
          UpdateAllStops(server, created, toUpdate, i + 1);
          return;
        }
      }
      assert toUpdate[..|toUpdate|] == toUpdate;
      error := None;
    }
  }

  lemma {:induction false} DeleteAllStops<S>(server: Server<S>, s: Store<S>, objects: seq<Object<S>>, n: nat)
    requires n <= |objects| && DeleteAll(server, s, objects[..n]).error.Some?
    ensures DeleteAll(server, s, objects) == DeleteAll(server, s, objects[..n])
  {
    if n == |objects| {
      assert objects[..n] == objects;
    } else {
      var m := |objects| - 1;
      assert objects[..m][..n] == objects[..n];
      DeleteAllStops(server, s, objects[..m], n);
    }
  }

  lemma {:induction false} CreateAllStops<S>(server: Server<S>, s: Store<S>, objects: seq<Object<S>>, n: nat)
    requires n <= |objects| && CreateAll(server, s, objects[..n]).error.Some?
    ensures CreateAll(server, s, objects) == CreateAll(server, s, objects[..n])
  {
    if n == |objects| {
      assert objects[..n] == objects;
    } else {
      var m := |objects| - 1;
      assert objects[..m][..n] == objects[..n];
      CreateAllStops(server, s, objects[..m], n);
    }
  }

  lemma {:induction false} UpdateAllStops<S>(server: Server<S>, s: Store<S>, objects: seq<Object<S>>, n: nat)
    requires n <= |objects| && UpdateAll(server, s, objects[..n]).error.Some?
    ensures UpdateAll(server, s, objects) == UpdateAll(server, s, objects[..n])
  {
    if n == |objects| {
      assert objects[..n] == objects;
    } else {
      var m := |objects| - 1;
      assert objects[..m][..n] == objects[..n];
      UpdateAllStops(server, s, objects[..m], n);
    }
  }

  // ----- The whole cluster -----

  datatype State = State(
    deployments: Store<DeploymentSpec>,
    statefulsets: Store<StatefulSetSpec>,
    daemonsets: Store<DaemonSetSpec>,
    services: Store<ServiceSpec>)

  datatype Servers = Servers(
    deployments: Server<DeploymentSpec>,
    statefulsets: Server<StatefulSetSpec>,
    daemonsets: Server<DaemonSetSpec>,
    services: Server<ServiceSpec>)

  /** applyStackDiff: one kind after the other, up to the first error. */
  function ApplyDiff(servers: Servers, c: State, d: StackDiff): (State, Option<ApiError>) {
    var daemonsets := ApplyKind(servers.daemonsets, c.daemonsets, d.daemonsets);
    var c1 := c.(daemonsets := daemonsets.store);
    if daemonsets.error.Some? then (c1, daemonsets.error) else
    var deployments := ApplyKind(servers.deployments, c.deployments, d.deployments);
    var c2 := c1.(deployments := deployments.store);
    if deployments.error.Some? then (c2, deployments.error) else
    var statefulsets := ApplyKind(servers.statefulsets, c.statefulsets, d.statefulsets);
    var c3 := c2.(statefulsets := statefulsets.store);
    if statefulsets.error.Some? then (c3, statefulsets.error) else
    var services := ApplyKind(servers.services, c.services, d.services);
    (c3.(services := services.store), services.error)
  }

  /** k8sResourceUpdater: one typed client per kind. */
  class ResourceUpdater {
    const deployments: KindClient<DeploymentSpec>
    const statefulsets: KindClient<StatefulSetSpec>
    const daemonsets: KindClient<DaemonSetSpec>
    const services: KindClient<ServiceSpec>

    constructor (servers: Servers, c: State)
      ensures fresh(deployments) && fresh(statefulsets) && fresh(daemonsets) && fresh(services)
      ensures Reached() == c && ServersOf() == servers
    {
      deployments := new KindClient(servers.deployments, c.deployments);
      statefulsets := new KindClient(servers.statefulsets, c.statefulsets);
      daemonsets := new KindClient(servers.daemonsets, c.daemonsets);
      services := new KindClient(servers.services, c.services);
    }

    function Reached(): State
      reads deployments, statefulsets, daemonsets, services
    {
      State(deployments.store, statefulsets.store, daemonsets.store, services.store)
    }

    function ServersOf(): Servers {
      Servers(deployments.server, statefulsets.server, daemonsets.server, services.server)
    }

    method ApplyStackDiff(d: StackDiff) returns (error: Option<ApiError>)
      modifies deployments, statefulsets, daemonsets, services
      ensures (Reached(), error) == ApplyDiff(ServersOf(), old(Reached()), d)
    {
      error := daemonsets.Apply(d.daemonsets.toAdd, d.daemonsets.toUpdate, d.daemonsets.toDelete);
      if error.Some? { return; }
      error := deployments.Apply(d.deployments.toAdd, d.deployments.toUpdate, d.deployments.toDelete);
      if error.Some? { return; }
      error := statefulsets.Apply(d.statefulsets.toAdd, d.statefulsets.toUpdate, d.statefulsets.toDelete);
      if error.Some? { return; }
      error := services.Apply(d.services.toAdd, d.services.toUpdate, d.services.toDelete);
    }
  }

  // ----- The calls an apply makes -----

  datatype ApiCall<S> = Deletes(o: Object<S>) | Creates(o: Object<S>) | Updates(o: Object<S>)

  /** All deletions, then all additions, then all updates. */
  function CallsOf<S>(d: KindDiff<S>): seq<ApiCall<S>> {
    seq(|d.toDelete|, i requires 0 <= i < |d.toDelete| => Deletes(d.toDelete[i]))
    + seq(|d.toAdd|, i requires 0 <= i < |d.toAdd| => Creates(d.toAdd[i]))
    + seq(|d.toUpdate|, i requires 0 <= i < |d.toUpdate| => Updates(d.toUpdate[i]))
  }

  function Perform<S>(server: Server<S>, s: Store<S>, call: ApiCall<S>): Outcome<S> {
    match call
    case Deletes(o) => Delete(server, s, o)
    case Creates(o) => Create(server, s, o)
    case Updates(o) => Update(server, s, o)
  }

  /** One call after the other, up to the first error. */
  function PerformAll<S>(server: Server<S>, s: Store<S>, calls: seq<ApiCall<S>>): Outcome<S>
    decreases |calls|
  {
    if calls == [] then Outcome(s, None)
    else
      var first := Perform(server, s, calls[0]);
      if first.error.Some? then first else PerformAll(server, first.store, calls[1..])
  }

  lemma {:induction false} PerformConcat<S>(server: Server<S>, s: Store<S>, a: seq<ApiCall<S>>, b: seq<ApiCall<S>>)
    ensures var r := PerformAll(server, s, a);
            PerformAll(server, s, a + b) == if r.error.Some? then r else PerformAll(server, r.store, b)
    decreases |a|
  {
    if a == [] {
      assert a + b == b;
    } else {
      assert (a + b)[0] == a[0] && (a + b)[1..] == a[1..] + b;
      var first := Perform(server, s, a[0]);
      if first.error.None? {
        PerformConcat(server, first.store, a[1..], b);
      }
    }
  }

  lemma PerformLast<S>(server: Server<S>, s: Store<S>, calls: seq<ApiCall<S>>, call: ApiCall<S>)
    ensures var r := PerformAll(server, s, calls);
            PerformAll(server, s, calls + [call]) == if r.error.Some? then r else Perform(server, r.store, call)
  {
    PerformConcat(server, s, calls, [call]);
  }

  lemma {:induction false} PerformDeletes<S>(server: Server<S>, s: Store<S>, objects: seq<Object<S>>,
                                             calls: seq<ApiCall<S>>)
    requires |calls| == |objects| && forall i :: 0 <= i < |objects| ==> calls[i] == Deletes(objects[i])
    ensures PerformAll(server, s, calls) == DeleteAll(server, s, objects)
  {
    if objects != [] {
      var n := |objects| - 1;
      PerformDeletes(server, s, objects[..n], calls[..n]);
      PerformLast(server, s, calls[..n], calls[n]);
      assert calls == calls[..n] + [calls[n]];
    }
  }

  lemma {:induction false} PerformCreates<S>(server: Server<S>, s: Store<S>, objects: seq<Object<S>>,
                                             calls: seq<ApiCall<S>>)
    requires |calls| == |objects| && forall i :: 0 <= i < |objects| ==> calls[i] == Creates(objects[i])
    ensures PerformAll(server, s, calls) == CreateAll(server, s, objects)
  {
    if objects != [] {
      var n := |objects| - 1;
      PerformCreates(server, s, objects[..n], calls[..n]);
      PerformLast(server, s, calls[..n], calls[n]);
      assert calls == calls[..n] + [calls[n]];
    }
  }

  lemma {:induction false} PerformUpdates<S>(server: Server<S>, s: Store<S>, objects: seq<Object<S>>,
                                             calls: seq<ApiCall<S>>)
    requires |calls| == |objects| && forall i :: 0 <= i < |objects| ==> calls[i] == Updates(objects[i])
    ensures PerformAll(server, s, calls) == UpdateAll(server, s, objects)
  {
    if objects != [] {
      var n := |objects| - 1;
      PerformUpdates(server, s, objects[..n], calls[..n]);
      PerformLast(server, s, calls[..n], calls[n]);
      assert calls == calls[..n] + [calls[n]];
    }
  }

  /** Applying the difference of a kind makes these calls, in this order, up to the first that fails. */
  lemma ApplyMakesCalls<S>(server: Server<S>, s: Store<S>, d: KindDiff<S>)
    ensures ApplyKind(server, s, d) == PerformAll(server, s, CallsOf(d))
  {
    var deletes := seq(|d.toDelete|, i requires 0 <= i < |d.toDelete| => Deletes(d.toDelete[i]));
    var creates := seq(|d.toAdd|, i requires 0 <= i < |d.toAdd| => Creates(d.toAdd[i]));
    var updates := seq(|d.toUpdate|, i requires 0 <= i < |d.toUpdate| => Updates(d.toUpdate[i]));
    assert CallsOf(d) == deletes + creates + updates;
    PerformConcat(server, s, deletes + creates, updates);
    PerformConcat(server, s, deletes, creates);
    PerformDeletes(server, s, d.toDelete, deletes);
    var deleted := DeleteAll(server, s, d.toDelete).store;
    PerformCreates(server, deleted, d.toAdd, creates);
    PerformUpdates(server, CreateAll(server, deleted, d.toAdd).store, d.toUpdate, updates);
  }

  /**
  DaemonSets come first, then Deployments, StatefulSets and services; the first failing call is the
  last one made, so nothing of a later kind is touched.
  */
  lemma KindsInOrder(servers: Servers, c: State, d: StackDiff)
    ensures var r := ApplyDiff(servers, c, d);
            var g := PerformAll(servers.daemonsets, c.daemonsets, CallsOf(d.daemonsets));
            var p := PerformAll(servers.deployments, c.deployments, CallsOf(d.deployments));
            var s := PerformAll(servers.statefulsets, c.statefulsets, CallsOf(d.statefulsets));
            var v := PerformAll(servers.services, c.services, CallsOf(d.services));
            if g.error.Some? then r == (c.(daemonsets := g.store), g.error)
            else if p.error.Some? then
              r == (c.(daemonsets := g.store, deployments := p.store), p.error)
            else if s.error.Some? then
              r == (State(p.store, s.store, g.store, c.services), s.error)
            else r == (State(p.store, s.store, g.store, v.store), v.error)
  {
    ApplyMakesCalls(servers.daemonsets, c.daemonsets, d.daemonsets);
    ApplyMakesCalls(servers.deployments, c.deployments, d.deployments);
    ApplyMakesCalls(servers.statefulsets, c.statefulsets, d.statefulsets);
    ApplyMakesCalls(servers.services, c.services, d.services);
  }

  // ----- What an apply leaves behind -----

  /** No call is refused for reasons of the server's own. */
  ghost predicate Quiet<S>(server: Server<S>) { forall t: nat :: !server.fails(t) }

  /** `stored` is what the server made of the submitted object `o`. */
  ghost predicate Admitted<S>(server: Server<S>, o: Object<S>, stored: Object<S>) {
    && stored.meta == o.meta.(resourceVersion := stored.meta.resourceVersion, generation := stored.meta.generation)
    && exists t: nat :: stored.spec == server.admit(t, o.spec)
  }

  ghost predicate SameAt<S>(a: Objects<S>, b: Objects<S>, k: string) {
    (k in a <==> k in b) && (k in a ==> a[k] == b[k])
  }

  /** The stored objects are the versions the updates were computed from. */
  ghost predicate Current<S>(s: Objects<S>, m: Objects<S>) {
    forall k :: k in m ==> k in s && s[k].meta.resourceVersion == m[k].meta.resourceVersion
  }

  lemma {:induction false} DeleteAllEffect<S>(server: Server<S>, s: Store<S>, objects: seq<Object<S>>, m: Objects<S>)
    requires Lists(objects, m)
    ensures var r := DeleteAll(server, s, objects);
            && (Quiet(server) ==> r.error == None)
            && (r.error == None ==> r.store.objects == s.objects - m.Keys)
            && forall k :: k !in m ==> SameAt(r.store.objects, s.objects, k)
  {
    if objects == [] {
      assert s.objects - m.Keys == s.objects;
    } else {
      var n := |objects| - 1;
      var key := KeyOf(objects[n].meta);
      DeleteAllEffect(server, s, objects[..n], m - {key});
      assert m.Keys == (m - {key}).Keys + {key};
    }
  }

  lemma {:induction false} CreateAllEffect<S>(server: Server<S>, s: Store<S>, objects: seq<Object<S>>, m: Objects<S>)
    requires Lists(objects, m)
    ensures var r := CreateAll(server, s, objects);
            && (r.error == None ==> m.Keys !! s.objects.Keys)
            && (Quiet(server) && m.Keys !! s.objects.Keys ==> r.error == None)
            && (r.error == None ==>
                  forall k :: k in m ==> k in r.store.objects && Admitted(server, m[k], r.store.objects[k]))
            && forall k :: k !in m || k in s.objects ==> SameAt(r.store.objects, s.objects, k)
  {
    if objects != [] {
      var n := |objects| - 1;
      var key := KeyOf(objects[n].meta);
      CreateAllEffect(server, s, objects[..n], m - {key});
      assert m.Keys == (m - {key}).Keys + {key};
    }
  }

  lemma {:induction false} UpdateAllEffect<S>(server: Server<S>, s: Store<S>, objects: seq<Object<S>>, m: Objects<S>)
    requires Lists(objects, m)
    ensures var r := UpdateAll(server, s, objects);
            && (r.error == None ==> Current(s.objects, m))
            && (Quiet(server) && Current(s.objects, m) ==> r.error == None)
            && (r.error == None ==>
                  forall k :: k in m ==> k in r.store.objects && Admitted(server, m[k], r.store.objects[k]))
            && forall k ::
                 (k in m && k in s.objects ==> s.objects[k].meta.resourceVersion != m[k].meta.resourceVersion) ==>
                 SameAt(r.store.objects, s.objects, k)
  {
    if objects != [] {
      var n := |objects| - 1;
      var key := KeyOf(objects[n].meta);
      UpdateAllEffect(server, s, objects[..n], m - {key});
      assert m.Keys == (m - {key}).Keys + {key};
    }
  }

  /** The maps a difference lists: what it adds, updates and deletes. */
  ghost predicate ListsAll<S>(d: KindDiff<S>, added: Objects<S>, updated: Objects<S>, deleted: Objects<S>) {
    && Lists(d.toAdd, added) && Lists(d.toUpdate, updated) && Lists(d.toDelete, deleted)
    && updated.Keys !! added.Keys && updated.Keys !! deleted.Keys
  }

  /** When every call goes through: no added key is taken, unless deleted before, and no update is stale. */
  ghost predicate Applicable<S>(s: Objects<S>, added: Objects<S>, updated: Objects<S>, deleted: Objects<S>) {
    (forall k :: k in added && k in s ==> k in deleted) && Current(s, updated)
  }

  /** The three stages of an apply that goes through, put together. */
  lemma StagesLeave<S>(server: Server<S>, s: Objects<S>, a: Objects<S>, b: Objects<S>, c: Objects<S>, added: Objects<S>,
                       updated: Objects<S>, deleted: Objects<S>)
    requires updated.Keys !! added.Keys && updated.Keys !! deleted.Keys && a == s - deleted.Keys && added.Keys !! a.Keys
    requires forall k :: k in added ==> k in b && Admitted(server, added[k], b[k])
    requires forall k :: k !in added ==> SameAt(b, a, k)
    requires forall k :: k in updated ==> k in c && Admitted(server, updated[k], c[k])
    requires forall k :: k !in updated ==> SameAt(c, b, k)
    ensures Left(server, s, c, added, updated, deleted)
  {
  }

  /** What a successful apply leaves. */
  ghost predicate Left<S>(server: Server<S>, s: Objects<S>, r: Objects<S>, added: Objects<S>, updated: Objects<S>,
                          deleted: Objects<S>) {
    && (forall k :: k in added ==> k in r && Admitted(server, added[k], r[k]))
    && (forall k :: k in updated ==> k in r && Admitted(server, updated[k], r[k]))
    && (forall k :: k in deleted && k !in added ==> k !in r)
    && (forall k :: k !in added && k !in updated && k !in deleted ==> SameAt(r, s, k))
  }

  /** Until the updates, the stored versions of the objects to update are as they were. */
  lemma StillCurrent<S>(s: Objects<S>, a: Objects<S>, b: Objects<S>, added: Objects<S>, updated: Objects<S>,
                        deleted: Objects<S>)
    requires updated.Keys !! added.Keys && updated.Keys !! deleted.Keys && a == s - deleted.Keys
    requires forall k :: k !in added ==> SameAt(b, a, k)
    ensures Current(b, updated) <==> Current(s, updated)
  {
    forall k | k in updated ensures SameAt(b, s, k) {
      assert SameAt(b, a, k);
    }
  }

  /** Exactly when an apply succeeds, and what it then leaves. */
  lemma ApplyKindEffect<S>(server: Server<S>, s: Store<S>, d: KindDiff<S>, added: Objects<S>, updated: Objects<S>,
                           deleted: Objects<S>)
    requires ListsAll(d, added, updated, deleted)
    ensures var r := ApplyKind(server, s, d);
            && (r.error == None ==> Applicable(s.objects, added, updated, deleted))
            && (Quiet(server) && Applicable(s.objects, added, updated, deleted) ==> r.error == None)
            && (r.error == None ==> Left(server, s.objects, r.store.objects, added, updated, deleted))
  {
    var deletion := DeleteAll(server, s, d.toDelete);
    DeleteAllEffect(server, s, d.toDelete, deleted);
    if deletion.error == None {
      var creation := CreateAll(server, deletion.store, d.toAdd);
      CreateAllEffect(server, deletion.store, d.toAdd, added);
      if creation.error == None {
        UpdateAllEffect(server, creation.store, d.toUpdate, updated);
        var a, b := deletion.store.objects, creation.store.objects;
        StillCurrent(s.objects, a, b, added, updated, deleted);
        var update := UpdateAll(server, creation.store, d.toUpdate);
        if update.error == None {
          StagesLeave(server, s.objects, a, b, update.store.objects, added, updated, deleted);
        }
      }
    }
  }

  /**
  Whatever fails on the way and however stale the difference is, an object that it does not
  delete by name and whose version it does not know is left alone.
  */
  lemma ForeignObjectsKept<S>(server: Server<S>, s: Store<S>, d: KindDiff<S>, added: Objects<S>, updated: Objects<S>,
                              deleted: Objects<S>, k: string)
    requires ListsAll(d, added, updated, deleted)
    requires k in s.objects && k !in deleted
    requires k in updated ==> updated[k].meta.resourceVersion != s.objects[k].meta.resourceVersion
    ensures SameAt(ApplyKind(server, s, d).store.objects, s.objects, k)
  {
    var deletion := DeleteAll(server, s, d.toDelete);
    DeleteAllEffect(server, s, d.toDelete, deleted);
    if deletion.error == None {
      var creation := CreateAll(server, deletion.store, d.toAdd);
      CreateAllEffect(server, deletion.store, d.toAdd, added);
      assert SameAt(creation.store.objects, deletion.store.objects, k);
      if creation.error == None {
        UpdateAllEffect(server, creation.store, d.toUpdate, updated);
      }
    }
  }

  /** ... but whatever a deletion names is removed, since no version is compared. */
  lemma NamedObjectsDeleted<S>(server: Server<S>, s: Store<S>, d: KindDiff<S>, added: Objects<S>, updated: Objects<S>,
                               deleted: Objects<S>, k: string)
    requires ListsAll(d, added, updated, deleted)
    requires k in deleted && k !in added && DeleteAll(server, s, d.toDelete).error == None
    ensures k !in ApplyKind(server, s, d).store.objects
  {
    var deletion := DeleteAll(server, s, d.toDelete);
    DeleteAllEffect(server, s, d.toDelete, deleted);
    var creation := CreateAll(server, deletion.store, d.toAdd);
    CreateAllEffect(server, deletion.store, d.toAdd, added);
    assert SameAt(creation.store.objects, deletion.store.objects, k);
    if creation.error == None {
      UpdateAllEffect(server, creation.store, d.toUpdate, updated);
    }
  }

  // ----- Versions -----

  /** Every stored version was issued by the store's clock. */
  ghost predicate Issued<S>(s: Store<S>) {
    forall k :: k in s.objects ==> s.objects[k].meta.resourceVersion <= s.clock
  }

  lemma {:induction false} DeleteAllIssued<S>(server: Server<S>, s: Store<S>, objects: seq<Object<S>>)
    requires Issued(s)
    ensures var r := DeleteAll(server, s, objects).store; Issued(r) && s.clock <= r.clock
  {
    if objects != [] { DeleteAllIssued(server, s, objects[..|objects| - 1]); }
  }

  lemma {:induction false} CreateAllIssued<S>(server: Server<S>, s: Store<S>, objects: seq<Object<S>>)
    requires Issued(s)
    ensures var r := CreateAll(server, s, objects).store;
            && Issued(r) && s.clock <= r.clock
            && forall k :: k in r.objects && k !in s.objects ==> s.clock < r.objects[k].meta.resourceVersion
  {
    if objects != [] { CreateAllIssued(server, s, objects[..|objects| - 1]); }
  }

  lemma {:induction false} UpdateAllIssued<S>(server: Server<S>, s: Store<S>, objects: seq<Object<S>>)
    requires Issued(s)
    ensures var r := UpdateAll(server, s, objects).store; Issued(r) && s.clock <= r.clock
  {
    if objects != [] { UpdateAllIssued(server, s, objects[..|objects| - 1]); }
  }

  /** An apply keeps that, so it holds of every store that began empty. */
  lemma ApplyKeepsIssued<S>(server: Server<S>, s: Store<S>, d: KindDiff<S>)
    requires Issued(s)
    ensures Issued(ApplyKind(server, s, d).store)
  {
    DeleteAllIssued(server, s, d.toDelete);
    var deletion := DeleteAll(server, s, d.toDelete);
    CreateAllIssued(server, deletion.store, d.toAdd);
    UpdateAllIssued(server, CreateAll(server, deletion.store, d.toAdd).store, d.toUpdate);
  }

  lemma NamedObjectGone<S>(server: Server<S>, s: Store<S>, d: KindDiff<S>, added: Objects<S>, updated: Objects<S>,
                           deleted: Objects<S>, k: string)
    requires ListsAll(d, added, updated, deleted) && Issued(s)
    requires k in s.objects && k in deleted && DeleteAll(server, s, d.toDelete).error == None
    ensures !SameAt(ApplyKind(server, s, d).store.objects, s.objects, k)
  {
    var deletion := DeleteAll(server, s, d.toDelete);
    DeleteAllEffect(server, s, d.toDelete, deleted);
    DeleteAllIssued(server, s, d.toDelete);
    var creation := CreateAll(server, deletion.store, d.toAdd);
    CreateAllIssued(server, deletion.store, d.toAdd);
    assert !SameAt(creation.store.objects, s.objects, k);
    if creation.error == None {
      UpdateAllEffect(server, creation.store, d.toUpdate, updated);
      assert SameAt(ApplyKind(server, s, d).store.objects, creation.store.objects, k);
    }
  }

  /**
  Once the deletions went through, an object whose version the difference does not know, such as
  one another stack created since, is still there exactly if the difference does not name it for
  deletion; a re-created service replaces it as well.
  */
  lemma ForeignObjectKeptIff<S>(server: Server<S>, s: Store<S>, d: KindDiff<S>, added: Objects<S>, updated: Objects<S>,
                                deleted: Objects<S>, k: string)
    requires ListsAll(d, added, updated, deleted) && Issued(s) && k in s.objects
    requires k in updated ==> updated[k].meta.resourceVersion != s.objects[k].meta.resourceVersion
    requires DeleteAll(server, s, d.toDelete).error == None
    ensures SameAt(ApplyKind(server, s, d).store.objects, s.objects, k) <==> k !in deleted
  {
    if k in deleted {
      NamedObjectGone(server, s, d, added, updated, deleted, k);
    } else {
      ForeignObjectsKept(server, s, d, added, updated, deleted, k);
    }
  }

  // ----- Which objects belong to a stack -----

  /** byStackIndexer. */
  function IndexKey(meta: Meta): Option<string> {
    if Labels.FOR_STACK_NAME in meta.labels then Some(ObjKey(meta.namespace, meta.labels[Labels.FOR_STACK_NAME]))
    else None
  }

  function ByStack<S>(objects: Objects<S>, stackKey: string): Objects<S> {
    map k | k in objects && IndexKey(objects[k].meta) == Some(stackKey) :: objects[k]
  }

  /** getCurrentStackState, when the informers' caches are up to date. */
  function CurrentState(c: State, stackKey: string): StackState {
    StackState(ByStack(c.deployments.objects, stackKey), ByStack(c.statefulsets.objects, stackKey),
               ByStack(c.daemonsets.objects, stackKey), ByStack(c.services.objects, stackKey))
  }

  /** For names without '/', the index lists exactly the objects in the stack's namespace that carry its label. */
  lemma IndexIsExact(meta: Meta, namespace: string, stackName: string)
    requires '/' !in namespace && '/' !in stackName && '/' !in meta.namespace
    requires Labels.FOR_STACK_NAME in meta.labels ==> '/' !in meta.labels[Labels.FOR_STACK_NAME]
    ensures IndexKey(meta) == Some(ObjKey(namespace, stackName)) <==>
            meta.namespace == namespace && Labels.FOR_STACK_NAME in meta.labels
                && meta.labels[Labels.FOR_STACK_NAME] == stackName
  {
    if IndexKey(meta) == Some(ObjKey(namespace, stackName)) {
      ObjKeyInjective(meta.namespace, meta.labels[Labels.FOR_STACK_NAME], namespace, stackName);
    }
  }

  // ----- Applying the difference to the state it was computed from -----

  /** An object already as desired is still there; any other is what the server made of the desired one. */
  ghost predicate Settled<S>(server: Server<S>, cmp: Compare<S>, current: Objects<S>, wanted: Object<S>, k: string,
                             stored: Object<S>) {
    if k in current && cmp.same(current[k], wanted) then stored == current[k] else Admitted(server, wanted, stored)
  }

  /** The stack's objects of one kind after a successful apply. */
  ghost predicate KindReached<S>(server: Server<S>, cmp: Compare<S>, current: Objects<S>, desired: Objects<S>,
                                 next: Objects<S>) {
    next.Keys == desired.Keys
    && forall k {:trigger Settled(server, cmp, current, desired[k], k, next[k])} :: k in desired ==>
        Settled(server, cmp, current, desired[k], k, next[k])
  }

  /** Every object carries the label that lists it under the stack. */
  ghost predicate Indexed<S>(m: Objects<S>, stackKey: string) {
    forall k :: k in m ==> IndexKey(m[k].meta) == Some(stackKey)
  }

  lemma DiffLists<S>(cmp: Compare<S>, current: Objects<S>, desired: Objects<S>, d: KindDiff<S>)
    requires IsKindDiff(cmp, current, desired, d)
    ensures ListsAll(d, Added(cmp, current, desired), Updated(cmp, current, desired), Deleted(cmp, current, desired))
  {
  }

  /**
  Against the state it was computed from, a difference applies exactly when no added key is taken by
  another stack.
  */
  lemma InSyncApplies<S>(s: Objects<S>, cmp: Compare<S>, desired: Objects<S>, stackKey: string)
    ensures var current := ByStack(s, stackKey);
            Applicable(s, Added(cmp, current, desired), Updated(cmp, current, desired),
                       Deleted(cmp, current, desired)) <==>
            forall k :: k in desired && k in s ==> k in current
  {
    var current := ByStack(s, stackKey);
    var added, deleted := Added(cmp, current, desired), Deleted(cmp, current, desired);
    if forall k :: k in added && k in s ==> k in deleted {
      forall k | k in desired && k in s ensures k in current {
        assert k in added || k in current;
      }
    }
  }

  lemma DesiredSettled<S>(server: Server<S>, s: Store<S>, cmp: Compare<S>, desired: Objects<S>, d: KindDiff<S>,
                          stackKey: string, k: string)
    requires IsKindDiff(cmp, ByStack(s.objects, stackKey), desired, d)
    requires ApplyKind(server, s, d).error == None && k in desired
    ensures var after := ApplyKind(server, s, d).store.objects;
            k in after && Settled(server, cmp, ByStack(s.objects, stackKey), desired[k], k, after[k])
  {
    var current, after := ByStack(s.objects, stackKey), ApplyKind(server, s, d).store.objects;
    var added, updated, deleted := Added(cmp, current, desired), Updated(cmp, current, desired),
        Deleted(cmp, current, desired);
    DiffLists(cmp, current, desired, d);
    ApplyKindEffect(server, s, d, added, updated, deleted);
    if k !in added && k !in updated {
      assert SameAt(after, s.objects, k);
    }
  }

  lemma NothingElseListed<S>(server: Server<S>, s: Store<S>, cmp: Compare<S>, desired: Objects<S>, d: KindDiff<S>,
                             stackKey: string, k: string)
    requires IsKindDiff(cmp, ByStack(s.objects, stackKey), desired, d)
    requires ApplyKind(server, s, d).error == None && k !in desired
    ensures k !in ByStack(ApplyKind(server, s, d).store.objects, stackKey)
  {
    var current, after := ByStack(s.objects, stackKey), ApplyKind(server, s, d).store.objects;
    var added, updated, deleted := Added(cmp, current, desired), Updated(cmp, current, desired),
        Deleted(cmp, current, desired);
    DiffLists(cmp, current, desired, d);
    ApplyKindEffect(server, s, d, added, updated, deleted);
    assert k in deleted || SameAt(after, s.objects, k);
  }

  lemma SettledIndexed<S>(server: Server<S>, cmp: Compare<S>, current: Objects<S>, wanted: Object<S>, k: string,
                          stored: Object<S>, stackKey: string)
    requires Settled(server, cmp, current, wanted, k, stored)
    requires Indexed(current, stackKey) && IndexKey(wanted.meta) == Some(stackKey)
    ensures IndexKey(stored.meta) == Some(stackKey)
  {
  }

  /** From the stored objects to those listed under the stack. */
  lemma ListedReached<S>(server: Server<S>, cmp: Compare<S>, current: Objects<S>, desired: Objects<S>,
                         after: Objects<S>, stackKey: string)
    requires Indexed(current, stackKey) && Indexed(desired, stackKey)
    requires forall k :: k in desired ==> k in after && Settled(server, cmp, current, desired[k], k, after[k])
    requires forall k :: k !in desired ==> k !in ByStack(after, stackKey)
    ensures KindReached(server, cmp, current, desired, ByStack(after, stackKey))
  {
    var next := ByStack(after, stackKey);
    forall k | k in desired ensures k in next && next[k] == after[k] {
      SettledIndexed(server, cmp, current, desired[k], k, after[k], stackKey);
    }
    assert next.Keys == desired.Keys;
  }

  lemma KindConverges<S>(server: Server<S>, s: Store<S>, cmp: Compare<S>, desired: Objects<S>, d: KindDiff<S>,
                         stackKey: string)
    requires IsKindDiff(cmp, ByStack(s.objects, stackKey), desired, d) && Indexed(desired, stackKey)
    requires ApplyKind(server, s, d).error == None
    ensures KindReached(server, cmp, ByStack(s.objects, stackKey), desired,
                        ByStack(ApplyKind(server, s, d).store.objects, stackKey))
  {
    var current, after := ByStack(s.objects, stackKey), ApplyKind(server, s, d).store.objects;
    forall k | k in desired ensures k in after && Settled(server, cmp, current, desired[k], k, after[k]) {
      DesiredSettled(server, s, cmp, desired, d, stackKey, k);
    }
    forall k | k !in desired ensures k !in ByStack(after, stackKey) {
      NothingElseListed(server, s, cmp, desired, d, stackKey, k);
    }
    ListedReached(server, cmp, current, desired, after, stackKey);
  }

  ghost predicate StateIndexed(s: StackState, stackKey: string) {
    && Indexed(s.deployments, stackKey) && Indexed(s.statefulsets, stackKey)
    && Indexed(s.daemonsets, stackKey) && Indexed(s.services, stackKey)
  }

  ghost predicate Reached(servers: Servers, current: StackState, desired: StackState, next: StackState) {
    && KindReached(servers.deployments, DEPLOYMENTS, current.deployments, desired.deployments, next.deployments)
    && KindReached(servers.statefulsets, STATEFULSETS, current.statefulsets, desired.statefulsets, next.statefulsets)
    && KindReached(servers.daemonsets, DAEMONSETS, current.daemonsets, desired.daemonsets, next.daemonsets)
    && KindReached(servers.services, SERVICES, current.services, desired.services, next.services)
  }

  lemma ApplyDiffParts(servers: Servers, c: State, d: StackDiff)
    ensures var (next, error) := ApplyDiff(servers, c, d);
            var deployments, statefulsets := ApplyKind(servers.deployments, c.deployments, d.deployments),
                ApplyKind(servers.statefulsets, c.statefulsets, d.statefulsets);
            var daemonsets, services := ApplyKind(servers.daemonsets, c.daemonsets, d.daemonsets),
                ApplyKind(servers.services, c.services, d.services);
            && (error == None <==>
                  && deployments.error == None && statefulsets.error == None
                  && daemonsets.error == None && services.error == None)
            && (error == None ==> next == State(deployments.store, statefulsets.store, daemonsets.store,
                                                services.store))
  {
  }

  /** An apply that reports no error has brought the whole stack to its desired state. */
  lemma ApplyReaches(servers: Servers, c: State, stackKey: string, desired: StackState, d: StackDiff)
    requires IsDiff(CurrentState(c, stackKey), desired, d) && StateIndexed(desired, stackKey)
    requires ApplyDiff(servers, c, d).1 == None
    ensures Reached(servers, CurrentState(c, stackKey), desired, CurrentState(ApplyDiff(servers, c, d).0, stackKey))
  {
    ApplyDiffParts(servers, c, d);
    var current, next := CurrentState(c, stackKey), CurrentState(ApplyDiff(servers, c, d).0, stackKey);
    assert KindReached(servers.daemonsets, DAEMONSETS, current.daemonsets, desired.daemonsets, next.daemonsets) by {
      KindConverges(servers.daemonsets, c.daemonsets, DAEMONSETS, desired.daemonsets, d.daemonsets, stackKey);
    }
    assert KindReached(servers.deployments, DEPLOYMENTS, current.deployments, desired.deployments,
                       next.deployments) by {
      KindConverges(servers.deployments, c.deployments, DEPLOYMENTS, desired.deployments, d.deployments, stackKey);
    }
    assert KindReached(servers.statefulsets, STATEFULSETS, current.statefulsets, desired.statefulsets,
                       next.statefulsets) by {
      KindConverges(servers.statefulsets, c.statefulsets, STATEFULSETS, desired.statefulsets, d.statefulsets, stackKey);
    }
    assert KindReached(servers.services, SERVICES, current.services, desired.services, next.services) by {
      KindConverges(servers.services, c.services, SERVICES, desired.services, d.services, stackKey);
    }
  }

  ghost predicate NotTaken<S>(s: Objects<S>, desired: Objects<S>, stackKey: string) {
    forall k :: k in desired && k in s ==> k in ByStack(s, stackKey)
  }

  lemma KindSucceedsIff<S>(server: Server<S>, s: Store<S>, cmp: Compare<S>, desired: Objects<S>, d: KindDiff<S>,
                           stackKey: string)
    requires IsKindDiff(cmp, ByStack(s.objects, stackKey), desired, d) && Quiet(server)
    ensures ApplyKind(server, s, d).error == None <==> NotTaken(s.objects, desired, stackKey)
  {
    var current := ByStack(s.objects, stackKey);
    DiffLists(cmp, current, desired, d);
    InSyncApplies(s.objects, cmp, desired, stackKey);
    ApplyKindEffect(server, s, d, Added(cmp, current, desired), Updated(cmp, current, desired),
                    Deleted(cmp, current, desired));
  }

  ghost predicate Willing(servers: Servers) {
    Quiet(servers.deployments) && Quiet(servers.statefulsets) && Quiet(servers.daemonsets) && Quiet(servers.services)
  }

  /** No name the stack wants is taken by an object that is not listed under it. */
  ghost predicate NamesFree(c: State, desired: StackState, stackKey: string) {
    && NotTaken(c.deployments.objects, desired.deployments, stackKey)
    && NotTaken(c.statefulsets.objects, desired.statefulsets, stackKey)
    && NotTaken(c.daemonsets.objects, desired.daemonsets, stackKey)
    && NotTaken(c.services.objects, desired.services, stackKey)
  }

  /** With an up-to-date cache and a willing server, an apply succeeds exactly when no desired name is taken. */
  lemma ApplySucceedsIff(servers: Servers, c: State, stackKey: string, desired: StackState, d: StackDiff)
    requires IsDiff(CurrentState(c, stackKey), desired, d)
    requires Willing(servers)
    ensures ApplyDiff(servers, c, d).1 == None <==> NamesFree(c, desired, stackKey)
  {
    ApplyDiffParts(servers, c, d);
    KindSucceedsIff(servers.daemonsets, c.daemonsets, DAEMONSETS, desired.daemonsets, d.daemonsets, stackKey);
    KindSucceedsIff(servers.deployments, c.deployments, DEPLOYMENTS, desired.deployments, d.deployments, stackKey);
    KindSucceedsIff(servers.statefulsets, c.statefulsets, STATEFULSETS, desired.statefulsets, d.statefulsets, stackKey);
    KindSucceedsIff(servers.services, c.services, SERVICES, desired.services, d.services, stackKey);
  }

  /** The difference `d` to the desired state is applied without error. */
  ghost predicate Applies(servers: Servers, c: State, stackKey: string, desired: StackState, d: StackDiff) {
    IsDiff(CurrentState(c, stackKey), desired, d) && ApplyDiff(servers, c, d).1 == None
  }

  lemma SomeDiffAppliesIff(servers: Servers, c: State, stackKey: string, desired: StackState)
    requires KeyedState(CurrentState(c, stackKey)) && KeyedState(desired) && Willing(servers)
    ensures (exists d :: Applies(servers, c, stackKey, desired, d)) <==> NamesFree(c, desired, stackKey)
  {
    if d :| Applies(servers, c, stackKey, desired, d) {
      ApplySucceedsIff(servers, c, stackKey, desired, d);
    }
    if NamesFree(c, desired, stackKey) {
      var d := DiffExists(CurrentState(c, stackKey), desired);
      ApplySucceedsIff(servers, c, stackKey, desired, d);
      assert Applies(servers, c, stackKey, desired, d);
    }
  }

  // ----- Other stacks -----

  /** Everything stored that is not listed under the stack is still there, unchanged. */
  ghost predicate OthersKept<S>(before: Objects<S>, after: Objects<S>, stackKey: string) {
    forall k :: k in before && k !in ByStack(before, stackKey) ==> SameAt(after, before, k)
  }

  lemma KindKeepsOthers<S>(server: Server<S>, s: Store<S>, cmp: Compare<S>, desired: Objects<S>, d: KindDiff<S>,
                           stackKey: string)
    requires IsKindDiff(cmp, ByStack(s.objects, stackKey), desired, d)
    ensures OthersKept(s.objects, ApplyKind(server, s, d).store.objects, stackKey)
  {
    var current := ByStack(s.objects, stackKey);
    DiffLists(cmp, current, desired, d);
    forall k | k in s.objects && k !in current ensures SameAt(ApplyKind(server, s, d).store.objects, s.objects, k) {
      ForeignObjectsKept(server, s, d, Added(cmp, current, desired), Updated(cmp, current, desired),
                         Deleted(cmp, current, desired), k);
    }
  }

  /** Where an apply stops, the later kinds are as they were. */
  lemma ApplyDiffEach(servers: Servers, c: State, d: StackDiff)
    ensures var after := ApplyDiff(servers, c, d).0;
            && after.daemonsets == ApplyKind(servers.daemonsets, c.daemonsets, d.daemonsets).store
            && (after.deployments == c.deployments || after.deployments == ApplyKind(servers.deployments,
                c.deployments, d.deployments).store)
            && (after.statefulsets == c.statefulsets || after.statefulsets == ApplyKind(servers.statefulsets,
                c.statefulsets, d.statefulsets).store)
            && (after.services == c.services || after.services == ApplyKind(servers.services, c.services,
                d.services).store)
  {
  }

  lemma EitherKeepsOthers<S>(server: Server<S>, s: Store<S>, cmp: Compare<S>, desired: Objects<S>, d: KindDiff<S>,
                             stackKey: string, after: Store<S>)
    requires IsKindDiff(cmp, ByStack(s.objects, stackKey), desired, d)
    requires after == s || after == ApplyKind(server, s, d).store
    ensures OthersKept(s.objects, after.objects, stackKey)
  {
    KindKeepsOthers(server, s, cmp, desired, d, stackKey);
  }

  /** Whether or not the apply succeeds, the objects of other stacks are untouched. */
  lemma OtherStacksUntouched(servers: Servers, c: State, stackKey: string, desired: StackState, d: StackDiff)
    requires IsDiff(CurrentState(c, stackKey), desired, d)
    ensures var after := ApplyDiff(servers, c, d).0;
            && OthersKept(c.deployments.objects, after.deployments.objects, stackKey)
            && OthersKept(c.statefulsets.objects, after.statefulsets.objects, stackKey)
            && OthersKept(c.daemonsets.objects, after.daemonsets.objects, stackKey)
            && OthersKept(c.services.objects, after.services.objects, stackKey)
  {
    var after := ApplyDiff(servers, c, d).0;
    ApplyDiffEach(servers, c, d);
    assert OthersKept(c.daemonsets.objects, after.daemonsets.objects, stackKey) by {
      EitherKeepsOthers(servers.daemonsets, c.daemonsets, DAEMONSETS, desired.daemonsets, d.daemonsets, stackKey,
                        after.daemonsets);
    }
    assert OthersKept(c.deployments.objects, after.deployments.objects, stackKey) by {
      EitherKeepsOthers(servers.deployments, c.deployments, DEPLOYMENTS, desired.deployments, d.deployments, stackKey,
                        after.deployments);
    }
    assert OthersKept(c.statefulsets.objects, after.statefulsets.objects, stackKey) by {
      EitherKeepsOthers(servers.statefulsets, c.statefulsets, STATEFULSETS, desired.statefulsets, d.statefulsets,
                        stackKey, after.statefulsets);
    }
    assert OthersKept(c.services.objects, after.services.objects, stackKey) by {
      EitherKeepsOthers(servers.services, c.services, SERVICES, desired.services, d.services, stackKey, after.services);
    }
  }

  /**
  It happens: the cache still holds a stack's service that is no longer desired, the cluster holds
  another stack's service of that name, and the difference computed from the cache removes it.
  */
  lemma StaleCacheDeletesOtherStack(server: Server<ServiceSpec>, cached: Service, stored: Service, mine: string,
                                    theirs: string, clock: nat)
    requires KeyOf(cached.meta) == KeyOf(stored.meta) && mine != theirs && !server.fails(clock)
    requires IndexKey(cached.meta) == Some(mine) && IndexKey(stored.meta) == Some(theirs)
    ensures var key := KeyOf(cached.meta);
            var d: KindDiff<ServiceSpec> := KindDiff([], [], [cached]);
            var s := Store(map[key := stored], clock);
            && IsKindDiff(SERVICES, ByStack(map[key := cached], mine), map[], d)
            && key in ByStack(s.objects, theirs)
            && ApplyKind(server, s, d).error == None && key !in ApplyKind(server, s, d).store.objects
  {
    var key := KeyOf(cached.meta);
    var current: Objects<ServiceSpec> := ByStack(map[key := cached], mine);
    var d: KindDiff<ServiceSpec> := KindDiff([], [], [cached]);
    assert current == map[key := cached];
    assert Deleted(SERVICES, current, map[]) == map[key := cached];
    assert Added(SERVICES, current, map[]) == map[] && Updated(SERVICES, current, map[]) == map[];
    assert [cached][..0] == [] && map[key := cached] - {key} == map[];
    assert Lists(d.toDelete, map[key := cached]);
    var s := Store(map[key := stored], clock);
    assert DeleteAll(server, s, [cached][..0]) == Outcome(s, None);
    assert DeleteAll(server, s, [cached]) == Delete(server, s, cached);
    assert ApplyKind(server, s, d) == Delete(server, s, cached);
  }

  /** An empty difference makes no call. */
  lemma EmptyDiffIsIdle(servers: Servers, c: State, d: StackDiff)
    requires d.Empty()
    ensures ApplyDiff(servers, c, d) == (c, None)
  {
  }

  lemma ReachedNothing<S>(server: Server<S>, cmp: Compare<S>, current: Objects<S>, next: Objects<S>)
    requires KindReached(server, cmp, current, map[], next)
    ensures next == map[]
  {
    assert next.Keys == {};
  }

  /** Applying the difference to the empty state removes every object of the stack. */
  lemma DeletionLeavesNothing(servers: Servers, c: State, stackKey: string, d: StackDiff)
    requires IsDiff(CurrentState(c, stackKey), EMPTY_STATE, d) && ApplyDiff(servers, c, d).1 == None
    ensures CurrentState(ApplyDiff(servers, c, d).0, stackKey) == EMPTY_STATE
  {
    ApplyReaches(servers, c, stackKey, EMPTY_STATE, d);
    var current, next := CurrentState(c, stackKey), CurrentState(ApplyDiff(servers, c, d).0, stackKey);
    ReachedNothing(servers.deployments, DEPLOYMENTS, current.deployments, next.deployments);
    ReachedNothing(servers.statefulsets, STATEFULSETS, current.statefulsets, next.statefulsets);
    ReachedNothing(servers.daemonsets, DAEMONSETS, current.daemonsets, next.daemonsets);
    ReachedNothing(servers.services, SERVICES, current.services, next.services);
  }
}
