/** The difference between a current and a desired state (internal/stackresources/diff/stackstatediff.go:17-208). */
module Diff {
  import opened Kube
  import C = Compose
  import Equality
  import Services

  datatype KindDiff<S> = KindDiff(toAdd: seq<Object<S>>, toUpdate: seq<Object<S>>, toDelete: seq<Object<S>>) {
    predicate Empty() { toAdd == [] && toUpdate == [] && toDelete == [] }
  }

  datatype StackDiff = StackDiff(
    deployments: KindDiff<DeploymentSpec>,
    statefulsets: KindDiff<StatefulSetSpec>,
    daemonsets: KindDiff<DaemonSetSpec>,
    services: KindDiff<ServiceSpec>)
  {
    predicate Empty() { deployments.Empty() && statefulsets.Empty() && daemonsets.Empty() && services.Empty() }
  }

  /** How a kind of object compares: equality, and whether a change needs the object re-created. */
  datatype Compare<!S> = Compare(same: (Object<S>, Object<S>) -> bool, reCreate: (Object<S>, Object<S>) -> bool)

  predicate RequiresReCreate(current: Service, desired: Service) {
    && current.spec.kind != EXTERNAL_NAME
    && desired.spec.kind != EXTERNAL_NAME
    && current.spec.clusterIP != ""
    && current.spec.clusterIP != desired.spec.clusterIP
  }

  const DEPLOYMENTS := Compare((c: Deployment, d: Deployment) => Equality.EqualDeployment(c, d),
                               (c: Deployment, d: Deployment) => false)
  const STATEFULSETS := Compare((c: StatefulSet, d: StatefulSet) => Equality.EqualStatefulSet(c, d),
                                (c: StatefulSet, d: StatefulSet) => false)
  const DAEMONSETS := Compare((c: DaemonSet, d: DaemonSet) => Equality.EqualDaemonSet(c, d),
                              (c: DaemonSet, d: DaemonSet) => false)
  const SERVICES := Compare((c: Service, d: Service) => Equality.EqualService(c, d),
                            (c: Service, d: Service) => RequiresReCreate(c, d))

  // ----- The difference as maps -----

  type Objects<S> = map<string, Object<S>>

  /** Objects are stored under their own key. */
  ghost predicate Keyed<S>(m: Objects<S>) {
    forall k :: k in m ==> KeyOf(m[k].meta) == k
  }

  predicate Changed<S>(cmp: Compare<S>, current: Objects<S>, desired: Objects<S>, k: string) {
    k in current && k in desired && !cmp.same(current[k], desired[k])
  }

  predicate Replaced<S>(cmp: Compare<S>, current: Objects<S>, desired: Objects<S>, k: string) {
    Changed(cmp, current, desired, k) && cmp.reCreate(current[k], desired[k])
  }

  function WithVersion<S>(o: Object<S>, version: nat): Object<S> {
    o.(meta := o.meta.(resourceVersion := version))
  }

  function Added<S>(cmp: Compare<S>, current: Objects<S>, desired: Objects<S>): Objects<S> {
    map k | k in desired && (k !in current || Replaced(cmp, current, desired, k)) :: desired[k]
  }

  function Updated<S>(cmp: Compare<S>, current: Objects<S>, desired: Objects<S>): Objects<S> {
    map k | k in desired && Changed(cmp, current, desired, k) && !Replaced(cmp, current, desired, k) ::
      WithVersion(desired[k], current[k].meta.resourceVersion)
  }

  function Deleted<S>(cmp: Compare<S>, current: Objects<S>, desired: Objects<S>): Objects<S> {
    map k | k in current && (k !in desired || Replaced(cmp, current, desired, k)) :: current[k]
  }

  /** `objects` holds every object of the map once, in some order. */
  ghost predicate Lists<S>(objects: seq<Object<S>>, m: Objects<S>)
    decreases |objects|
  {
    if objects == [] then m == map[]
    else
      var n := |objects| - 1;
      var k := KeyOf(objects[n].meta);
      k in m && m[k] == objects[n] && Lists(objects[..n], m - {k})
  }

  ghost predicate IsKindDiff<S>(cmp: Compare<S>, current: Objects<S>, desired: Objects<S>, d: KindDiff<S>) {
    && Lists(d.toAdd, Added(cmp, current, desired))
    && Lists(d.toUpdate, Updated(cmp, current, desired))
    && Lists(d.toDelete, Deleted(cmp, current, desired))
  }

  ghost predicate IsDiff(current: StackState, desired: StackState, d: StackDiff) {
    && IsKindDiff(DEPLOYMENTS, current.deployments, desired.deployments, d.deployments)
    && IsKindDiff(STATEFULSETS, current.statefulsets, desired.statefulsets, d.statefulsets)
    && IsKindDiff(DAEMONSETS, current.daemonsets, desired.daemonsets, d.daemonsets)
    && IsKindDiff(SERVICES, current.services, desired.services, d.services)
  }

  // ----- The loops of the source -----

  lemma ListsGrow<S>(objects: seq<Object<S>>, m: Objects<S>, o: Object<S>)
    requires Lists(objects, m) && KeyOf(o.meta) !in m
    ensures Lists(objects + [o], m[KeyOf(o.meta) := o])
  {
    assert (objects + [o])[..|objects|] == objects;
    assert m[KeyOf(o.meta) := o] - {KeyOf(o.meta)} == m;
  }

  /** `objects` lists the part of the map whose keys have been walked. */
  ghost predicate Listed<S>(objects: seq<Object<S>>, m: Objects<S>, seen: set<string>) {
    Lists(objects, map k | k in m && k in seen :: m[k])
  }

  lemma ListedGrows<S>(objects: seq<Object<S>>, m: Objects<S>, seen: set<string>, k: string)
    requires Keyed(m) && k !in seen && Listed(objects, m, seen)
    ensures k in m ==> Listed(objects + [m[k]], m, seen + {k})
    ensures k !in m ==> Listed(objects, m, seen + {k})
  {
    var part := map k | k in m && k in seen :: m[k];
    if k in m {
      ListsGrow(objects, part, m[k]);
      assert (map k' | k' in m && k' in seen + {k} :: m[k']) == part[k := m[k]];
    } else {
      assert (map k' | k' in m && k' in seen + {k} :: m[k']) == part;
    }
  }

  lemma ListedAll<S>(objects: seq<Object<S>>, m: Objects<S>, seen: set<string>)
    requires m.Keys <= seen && Listed(objects, m, seen)
    ensures Lists(objects, m)
  {
    assert (map k | k in m && k in seen :: m[k]) == m;
  }

  /** The difference restricted to the keys already walked. */
  ghost predicate Walked<S>(cmp: Compare<S>, current: Objects<S>, desired: Objects<S>, d: KindDiff<S>,
                            seen: set<string>) {
    && Listed(d.toAdd, Added(cmp, current, desired), seen)
    && Listed(d.toUpdate, Updated(cmp, current, desired), seen)
    && Listed(d.toDelete, Deleted(cmp, current, desired), seen)
  }

  /** What the first loop does with one desired object. */
  function DesiredStep<S>(cmp: Compare<S>, current: Objects<S>, desired: Objects<S>, d: KindDiff<S>,
                          k: string): KindDiff<S>
    requires k in desired
  {
    if k !in current then d.(toAdd := d.toAdd + [desired[k]])
    else if cmp.same(current[k], desired[k]) then d
    else if cmp.reCreate(current[k], desired[k]) then d.(toDelete := d.toDelete + [current[k]],
                                                         toAdd := d.toAdd + [desired[k]])
    else d.(toUpdate := d.toUpdate + [WithVersion(desired[k], current[k].meta.resourceVersion)])
  }

  lemma DesiredStepWalks<S>(cmp: Compare<S>, current: Objects<S>, desired: Objects<S>, d: KindDiff<S>,
                            seen: set<string>, k: string)
    requires Keyed(current) && Keyed(desired) && k in desired && k !in seen && Walked(cmp, current, desired, d, seen)
    ensures Walked(cmp, current, desired, DesiredStep(cmp, current, desired, d, k), seen + {k})
  {
    ListedGrows(d.toAdd, Added(cmp, current, desired), seen, k);
    ListedGrows(d.toUpdate, Updated(cmp, current, desired), seen, k);
    ListedGrows(d.toDelete, Deleted(cmp, current, desired), seen, k);
  }

  lemma CurrentStepWalks<S>(cmp: Compare<S>, current: Objects<S>, desired: Objects<S>, d: KindDiff<S>,
                            seen: set<string>, k: string)
    requires Keyed(current) && Keyed(desired) && k in current && k !in desired && k !in seen
             && Walked(cmp, current, desired, d, seen)
    ensures Walked(cmp, current, desired, d.(toDelete := d.toDelete + [current[k]]), seen + {k})
  {
    ListedGrows(d.toAdd, Added(cmp, current, desired), seen, k);
    ListedGrows(d.toUpdate, Updated(cmp, current, desired), seen, k);
    ListedGrows(d.toDelete, Deleted(cmp, current, desired), seen, k);
  }

  lemma WalkedAll<S>(cmp: Compare<S>, current: Objects<S>, desired: Objects<S>, d: KindDiff<S>, seen: set<string>)
    requires current.Keys + desired.Keys <= seen && Walked(cmp, current, desired, d, seen)
    ensures IsKindDiff(cmp, current, desired, d)
  {
    ListedAll(d.toAdd, Added(cmp, current, desired), seen);
    ListedAll(d.toUpdate, Updated(cmp, current, desired), seen);
    ListedAll(d.toDelete, Deleted(cmp, current, desired), seen);
  }

  lemma NothingWalked<S>(cmp: Compare<S>, current: Objects<S>, desired: Objects<S>)
    ensures Walked(cmp, current, desired, KindDiff([], [], []), {})
  {
  }

  /** The body of the first loop. */
  method WalkOne<S>(cmp: Compare<S>, current: Objects<S>, desired: Objects<S>, before: KindDiff<S>,
                    ghost seen: set<string>, k: string)
    returns (d: KindDiff<S>)
    requires Keyed(current) && Keyed(desired) && k in desired && k !in seen
             && Walked(cmp, current, desired, before, seen)
    ensures Walked(cmp, current, desired, d, seen + {k})
  {
    DesiredStepWalks(cmp, current, desired, before, seen, k);
    d := before;
    if k in current {
      if !cmp.same(current[k], desired[k]) {
        if cmp.reCreate(current[k], desired[k]) {
          d := d.(toDelete := d.toDelete + [current[k]], toAdd := d.toAdd + [desired[k]]);
        } else {
          d := d.(toUpdate := d.toUpdate + [WithVersion(desired[k], current[k].meta.resourceVersion)]);
        }
      }
    } else {
      d := d.(toAdd := d.toAdd + [desired[k]]);
    }
  }

  /** The first loop of a compute*Diff function, over the desired objects in any order. */
  method WalkDesired<S>(cmp: Compare<S>, current: Objects<S>, desired: Objects<S>) returns (d: KindDiff<S>)
    requires Keyed(current) && Keyed(desired)
    ensures Walked(cmp, current, desired, d, desired.Keys)
  {
    d := KindDiff([], [], []);
    var todo := desired.Keys;
    ghost var seen: set<string> := {};
    NothingWalked(cmp, current, desired);
    while todo != {}
      invariant seen !! todo && seen + todo == desired.Keys
      invariant Walked(cmp, current, desired, d, seen)
      decreases todo
    {
      var k :| k in todo;
      d := WalkOne(cmp, current, desired, d, seen, k);
      todo := todo - {k};
      seen := seen + {k};
    }
    assert seen == desired.Keys;
  }

  /** One of the four compute*Diff functions: the first loop, then the current objects that are not desired. */
  method ComputeKindDiff<S>(cmp: Compare<S>, current: Objects<S>, desired: Objects<S>) returns (d: KindDiff<S>)
    requires Keyed(current) && Keyed(desired)
    ensures IsKindDiff(cmp, current, desired, d)
  {
    d := WalkDesired(cmp, current, desired);
    var todo, seen := current.Keys - desired.Keys, desired.Keys;
    while todo != {}
      invariant seen !! todo && todo <= current.Keys - desired.Keys && current.Keys + desired.Keys <= seen + todo
      invariant Walked(cmp, current, desired, d, seen)
      decreases todo
    {
      var k :| k in todo;
      CurrentStepWalks(cmp, current, desired, d, seen, k);
      d := d.(toDelete := d.toDelete + [current[k]]);
      todo, seen := todo - {k}, seen + {k};
    }
    WalkedAll(cmp, current, desired, d, seen);
  }

  ghost predicate KeyedState(s: StackState) {
    Keyed(s.deployments) && Keyed(s.statefulsets) && Keyed(s.daemonsets) && Keyed(s.services)
  }

  // ----- What a difference lists, on the fields of the objects -----

  /**
  An object is to be added if it is desired under a key nothing is stored under, to be deleted if
  it is stored under a key nothing is desired under.  Under a common key nothing is listed if the
  two are the same; else the desired object, with the stored version, is to be updated, or if the
  change needs it the stored one is deleted and the desired one added.  No key is listed twice.
  */
  ghost predicate Differs<S(!new)>(same: (Object<S>, Object<S>) -> bool, reCreate: (Object<S>, Object<S>) -> bool,
                                   current: Objects<S>, desired: Objects<S>, d: KindDiff<S>) {
    && OneEach(d.toAdd) && (forall o :: o in d.toAdd <==> IsAdded(same, reCreate, current, desired, o))
    && OneEach(d.toUpdate) && (forall o :: o in d.toUpdate <==> IsUpdated(same, reCreate, current, desired, o))
    && OneEach(d.toDelete) && (forall o :: o in d.toDelete <==> IsDeleted(same, reCreate, current, desired, o))
  }

  predicate IsAdded<S(==)>(same: (Object<S>, Object<S>) -> bool, reCreate: (Object<S>, Object<S>) -> bool,
                           current: Objects<S>, desired: Objects<S>, o: Object<S>) {
    var k := KeyOf(o.meta);
    k in desired && o == desired[k] && (k in current ==> !same(current[k], o) && reCreate(current[k], o))
  }

  predicate IsDeleted<S(==)>(same: (Object<S>, Object<S>) -> bool, reCreate: (Object<S>, Object<S>) -> bool,
                             current: Objects<S>, desired: Objects<S>, o: Object<S>) {
    var k := KeyOf(o.meta);
    k in current && o == current[k] && (k in desired ==> !same(o, desired[k]) && reCreate(o, desired[k]))
  }

  predicate IsUpdated<S(==)>(same: (Object<S>, Object<S>) -> bool, reCreate: (Object<S>, Object<S>) -> bool,
                             current: Objects<S>, desired: Objects<S>, o: Object<S>) {
    var k := KeyOf(o.meta);
    && k in current && k in desired && !same(current[k], desired[k]) && !reCreate(current[k], desired[k])
    && o.spec == desired[k].spec
    && o.meta == desired[k].meta.(resourceVersion := current[k].meta.resourceVersion)
  }

  ghost predicate OneEach<S>(objects: seq<Object<S>>) {
    forall i, j :: 0 <= i < j < |objects| ==> KeyOf(objects[i].meta) != KeyOf(objects[j].meta)
  }

  lemma {:induction false} ListsMembers<S(!new)>(objects: seq<Object<S>>, m: Objects<S>)
    requires Lists(objects, m)
    ensures OneEach(objects)
    ensures forall o :: o in objects <==> KeyOf(o.meta) in m && m[KeyOf(o.meta)] == o
    decreases |objects|
  {
    if objects != [] {
      var n := |objects| - 1;
      var k := KeyOf(objects[n].meta);
      ListsMembers(objects[..n], m - {k});
      assert objects == objects[..n] + [objects[n]];
      forall i | 0 <= i < n ensures KeyOf(objects[i].meta) != k {
        assert objects[i] in objects[..n];
      }
    }
  }

  /** The comparison is this one. */
  ghost predicate Compares<S(!new)>(cmp: Compare<S>, same: (Object<S>, Object<S>) -> bool,
                                    reCreate: (Object<S>, Object<S>) -> bool) {
    forall a, b :: (cmp.same(a, b) <==> same(a, b)) && (cmp.reCreate(a, b) <==> reCreate(a, b))
  }

  lemma AddedMeans<S(!new)>(cmp: Compare<S>, same: (Object<S>, Object<S>) -> bool,
                            reCreate: (Object<S>, Object<S>) -> bool, current: Objects<S>, desired: Objects<S>,
                            o: Object<S>)
    requires Compares(cmp, same, reCreate)
    ensures var m, k := Added(cmp, current, desired), KeyOf(o.meta);
            k in m && m[k] == o <==> IsAdded(same, reCreate, current, desired, o)
  {
  }

  lemma DeletedMeans<S(!new)>(cmp: Compare<S>, same: (Object<S>, Object<S>) -> bool,
                              reCreate: (Object<S>, Object<S>) -> bool, current: Objects<S>, desired: Objects<S>,
                              o: Object<S>)
    requires Compares(cmp, same, reCreate)
    ensures var m, k := Deleted(cmp, current, desired), KeyOf(o.meta);
            k in m && m[k] == o <==> IsDeleted(same, reCreate, current, desired, o)
  {
  }

  lemma UpdatedMeans<S(!new)>(cmp: Compare<S>, same: (Object<S>, Object<S>) -> bool,
                              reCreate: (Object<S>, Object<S>) -> bool, current: Objects<S>, desired: Objects<S>,
                              o: Object<S>)
    requires Compares(cmp, same, reCreate)
    ensures var m, k := Updated(cmp, current, desired), KeyOf(o.meta);
            k in m && m[k] == o <==> IsUpdated(same, reCreate, current, desired, o)
  {
  }

  lemma KindDiffers<S(!new)>(cmp: Compare<S>, same: (Object<S>, Object<S>) -> bool,
                             reCreate: (Object<S>, Object<S>) -> bool, current: Objects<S>, desired: Objects<S>,
                             d: KindDiff<S>)
    requires IsKindDiff(cmp, current, desired, d) && Compares(cmp, same, reCreate)
    ensures Differs(same, reCreate, current, desired, d)
  {
    ListsMembers(d.toAdd, Added(cmp, current, desired));
    forall o ensures o in d.toAdd <==> IsAdded(same, reCreate, current, desired, o) {
      AddedMeans(cmp, same, reCreate, current, desired, o);
    }
    ListsMembers(d.toUpdate, Updated(cmp, current, desired));
    forall o ensures o in d.toUpdate <==> IsUpdated(same, reCreate, current, desired, o) {
      UpdatedMeans(cmp, same, reCreate, current, desired, o);
    }
    ListsMembers(d.toDelete, Deleted(cmp, current, desired));
    forall o ensures o in d.toDelete <==> IsDeleted(same, reCreate, current, desired, o) {
      DeletedMeans(cmp, same, reCreate, current, desired, o);
    }
  }

  ghost const SAME_DEPLOYMENT := (c: Deployment, d: Deployment) => Equality.SameDeployment(c, d)
  ghost const SAME_STATEFULSET := (c: StatefulSet, d: StatefulSet) => Equality.SameStatefulSet(c, d)
  ghost const SAME_DAEMONSET := (c: DaemonSet, d: DaemonSet) => Equality.SameDaemonSet(c, d)
  ghost const SAME_SERVICE := (c: Service, d: Service) => Equality.SameService(c, d)

  /** An assigned cluster IP cannot be changed, unless the type changes from or to ExternalName. */
  ghost const MOVES_CLUSTER_IP := (c: Service, d: Service) =>
    && c.spec.clusterIP != "" && c.spec.clusterIP != d.spec.clusterIP
    && c.spec.kind != "ExternalName" && d.spec.kind != "ExternalName"

  ghost function Never<S>(): (Object<S>, Object<S>) -> bool { (c: Object<S>, d: Object<S>) => false }

  /** A difference between two states, without reference to how objects are compared. */
  ghost predicate DiffersOnFields(current: StackState, desired: StackState, d: StackDiff) {
    && Differs(SAME_DEPLOYMENT, Never(), current.deployments, desired.deployments, d.deployments)
    && Differs(SAME_STATEFULSET, Never(), current.statefulsets, desired.statefulsets, d.statefulsets)
    && Differs(SAME_DAEMONSET, Never(), current.daemonsets, desired.daemonsets, d.daemonsets)
    && Differs(SAME_SERVICE, MOVES_CLUSTER_IP, current.services, desired.services, d.services)
  }

  lemma ComparisonsOnFields()
    ensures Compares(DEPLOYMENTS, SAME_DEPLOYMENT, Never())
    ensures Compares(STATEFULSETS, SAME_STATEFULSET, Never())
    ensures Compares(DAEMONSETS, SAME_DAEMONSET, Never())
    ensures Compares(SERVICES, SAME_SERVICE, MOVES_CLUSTER_IP)
  {
    forall a, b ensures DEPLOYMENTS.same(a, b) <==> SAME_DEPLOYMENT(a, b) {
      Equality.EqualObjectsIff(a, b, ZERO_STATEFULSET, ZERO_STATEFULSET, ZERO_DAEMONSET, ZERO_DAEMONSET,
                               ZERO_SERVICE, ZERO_SERVICE);
    }
    forall a, b ensures STATEFULSETS.same(a, b) <==> SAME_STATEFULSET(a, b) {
      Equality.EqualObjectsIff(ZERO_DEPLOYMENT, ZERO_DEPLOYMENT, a, b, ZERO_DAEMONSET, ZERO_DAEMONSET,
                               ZERO_SERVICE, ZERO_SERVICE);
    }
    forall a, b ensures DAEMONSETS.same(a, b) <==> SAME_DAEMONSET(a, b) {
      Equality.EqualObjectsIff(ZERO_DEPLOYMENT, ZERO_DEPLOYMENT, ZERO_STATEFULSET, ZERO_STATEFULSET, a, b,
                               ZERO_SERVICE, ZERO_SERVICE);
    }
    forall a, b ensures SERVICES.same(a, b) <==> SAME_SERVICE(a, b) {
      Equality.EqualObjectsIff(ZERO_DEPLOYMENT, ZERO_DEPLOYMENT, ZERO_STATEFULSET, ZERO_STATEFULSET,
                               ZERO_DAEMONSET, ZERO_DAEMONSET, a, b);
    }
  }

  /** Every difference between two states lists what it should, judged by labels and fields of the spec. */
  lemma DiffOnFields(current: StackState, desired: StackState, d: StackDiff)
    requires IsDiff(current, desired, d)
    ensures DiffersOnFields(current, desired, d)
  {
    ComparisonsOnFields();
    KindDiffers(DEPLOYMENTS, SAME_DEPLOYMENT, Never(), current.deployments, desired.deployments, d.deployments);
    KindDiffers(STATEFULSETS, SAME_STATEFULSET, Never(), current.statefulsets, desired.statefulsets, d.statefulsets);
    KindDiffers(DAEMONSETS, SAME_DAEMONSET, Never(), current.daemonsets, desired.daemonsets, d.daemonsets);
    KindDiffers(SERVICES, SAME_SERVICE, MOVES_CLUSTER_IP, current.services, desired.services, d.services);
  }

  ghost predicate Mentions<S(!new)>(d: KindDiff<S>, k: string) {
    exists o :: (o in d.toAdd || o in d.toUpdate || o in d.toDelete) && KeyOf(o.meta) == k
  }

  /** Stored and desired under the same key, it is listed nowhere if and only if the two are the same. */
  ghost predicate LeftAloneIff<S(!new)>(same: (Object<S>, Object<S>) -> bool, current: Objects<S>,
                                        desired: Objects<S>, d: KindDiff<S>, k: string) {
    k in current && k in desired ==> (!Mentions(d, k) <==> same(current[k], desired[k]))
  }

  lemma MentionedIff<S(!new)>(cmp: Compare<S>, same: (Object<S>, Object<S>) -> bool,
                              reCreate: (Object<S>, Object<S>) -> bool, current: Objects<S>, desired: Objects<S>,
                              d: KindDiff<S>, k: string)
    requires Keyed(current) && Keyed(desired) && IsKindDiff(cmp, current, desired, d) && Compares(cmp, same, reCreate)
    ensures LeftAloneIff(same, current, desired, d, k)
  {
    KindDiffers(cmp, same, reCreate, current, desired, d);
    if k in current && k in desired && !same(current[k], desired[k]) {
      var update := desired[k].(meta := desired[k].meta.(resourceVersion := current[k].meta.resourceVersion));
      if reCreate(current[k], desired[k]) {
        assert IsDeleted(same, reCreate, current, desired, current[k]);
      } else {
        assert KeyOf(update.meta) == k && IsUpdated(same, reCreate, current, desired, update);
      }
    }
  }

  /**
  An object present on both sides is left alone if and only if its labels, every field of its spec
  and its template, up to admission, agree.
  */
  lemma UntouchedIff(current: StackState, desired: StackState, d: StackDiff, k: string)
    requires KeyedState(current) && KeyedState(desired) && IsDiff(current, desired, d)
    ensures LeftAloneIff(SAME_DEPLOYMENT, current.deployments, desired.deployments, d.deployments, k)
    ensures LeftAloneIff(SAME_STATEFULSET, current.statefulsets, desired.statefulsets, d.statefulsets, k)
    ensures LeftAloneIff(SAME_DAEMONSET, current.daemonsets, desired.daemonsets, d.daemonsets, k)
    ensures LeftAloneIff(SAME_SERVICE, current.services, desired.services, d.services, k)
  {
    ComparisonsOnFields();
    MentionedIff(DEPLOYMENTS, SAME_DEPLOYMENT, Never(), current.deployments, desired.deployments, d.deployments, k);
    MentionedIff(STATEFULSETS, SAME_STATEFULSET, Never(), current.statefulsets, desired.statefulsets, d.statefulsets,
                 k);
    MentionedIff(DAEMONSETS, SAME_DAEMONSET, Never(), current.daemonsets, desired.daemonsets, d.daemonsets, k);
    MentionedIff(SERVICES, SAME_SERVICE, MOVES_CLUSTER_IP, current.services, desired.services, d.services, k);
  }

  method ComputeDiff(current: StackState, desired: StackState) returns (d: StackDiff)
    requires KeyedState(current) && KeyedState(desired)
    ensures IsDiff(current, desired, d)
    ensures DiffersOnFields(current, desired, d)
  {
    var deployments := ComputeKindDiff(DEPLOYMENTS, current.deployments, desired.deployments);
    var statefulsets := ComputeKindDiff(STATEFULSETS, current.statefulsets, desired.statefulsets);
    var daemonsets := ComputeKindDiff(DAEMONSETS, current.daemonsets, desired.daemonsets);
    var services := ComputeKindDiff(SERVICES, current.services, desired.services);
    d := StackDiff(deployments, statefulsets, daemonsets, services);
    DiffOnFields(current, desired, d);
  }

  // ----- A difference exists -----

  lemma {:induction false} ListsExist<S>(m: Objects<S>) returns (objects: seq<Object<S>>)
    requires Keyed(m)
    ensures Lists(objects, m)
    decreases |m|
  {
    if m == map[] {
      objects := [];
    } else {
      var k :| k in m;
      var rest := ListsExist(m - {k});
      ListsGrow(rest, m - {k}, m[k]);
      objects := rest + [m[k]];
      assert (m - {k})[k := m[k]] == m;
    }
  }

  lemma KindDiffExists<S>(cmp: Compare<S>, current: Objects<S>, desired: Objects<S>) returns (d: KindDiff<S>)
    requires Keyed(current) && Keyed(desired)
    ensures IsKindDiff(cmp, current, desired, d)
  {
    var toAdd := ListsExist(Added(cmp, current, desired));
    var toUpdate := ListsExist(Updated(cmp, current, desired));
    var toDelete := ListsExist(Deleted(cmp, current, desired));
    d := KindDiff(toAdd, toUpdate, toDelete);
  }

  lemma DiffExists(current: StackState, desired: StackState) returns (d: StackDiff)
    requires KeyedState(current) && KeyedState(desired)
    ensures IsDiff(current, desired, d)
  {
    var deployments := KindDiffExists(DEPLOYMENTS, current.deployments, desired.deployments);
    var statefulsets := KindDiffExists(STATEFULSETS, current.statefulsets, desired.statefulsets);
    var daemonsets := KindDiffExists(DAEMONSETS, current.daemonsets, desired.daemonsets);
    var services := KindDiffExists(SERVICES, current.services, desired.services);
    d := StackDiff(deployments, statefulsets, daemonsets, services);
  }

  // ----- An empty difference -----

  /** The same keys, and equal objects under each. */
  ghost predicate InSync<S>(cmp: Compare<S>, current: Objects<S>, desired: Objects<S>) {
    current.Keys == desired.Keys && forall k :: k in current ==> cmp.same(current[k], desired[k])
  }

  lemma ListsEmpty<S>(objects: seq<Object<S>>, m: Objects<S>)
    requires Lists(objects, m)
    ensures objects == [] <==> m == map[]
  {
  }

  lemma EmptyKindIff<S>(cmp: Compare<S>, current: Objects<S>, desired: Objects<S>, d: KindDiff<S>)
    requires IsKindDiff(cmp, current, desired, d)
    ensures d.Empty() <==> InSync(cmp, current, desired)
  {
    var added, updated, deleted := Added(cmp, current, desired), Updated(cmp, current, desired),
        Deleted(cmp, current, desired);
    ListsEmpty(d.toAdd, added);
    ListsEmpty(d.toUpdate, updated);
    ListsEmpty(d.toDelete, deleted);
    if d.Empty() {
      forall k | k in current ensures k in desired && cmp.same(current[k], desired[k]) {
        assert k !in deleted && k !in updated;
      }
      forall k | k in desired ensures k in current {
        assert k !in added;
      }
    }
  }

  ghost predicate StatesInSync(current: StackState, desired: StackState) {
    && InSync(DEPLOYMENTS, current.deployments, desired.deployments)
    && InSync(STATEFULSETS, current.statefulsets, desired.statefulsets)
    && InSync(DAEMONSETS, current.daemonsets, desired.daemonsets)
    && InSync(SERVICES, current.services, desired.services)
  }

  /** The same keys, and under each the same labels, fields and template up to admission. */
  ghost predicate AgreeOn<S(!new)>(same: (Object<S>, Object<S>) -> bool, current: Objects<S>, desired: Objects<S>) {
    current.Keys == desired.Keys && forall k :: k in current ==> same(current[k], desired[k])
  }

  lemma InSyncIff<S(!new)>(cmp: Compare<S>, same: (Object<S>, Object<S>) -> bool,
                           reCreate: (Object<S>, Object<S>) -> bool, current: Objects<S>, desired: Objects<S>)
    requires Compares(cmp, same, reCreate)
    ensures InSync(cmp, current, desired) <==> AgreeOn(same, current, desired)
  {
  }

  ghost predicate StatesAgree(current: StackState, desired: StackState) {
    && AgreeOn(SAME_DEPLOYMENT, current.deployments, desired.deployments)
    && AgreeOn(SAME_STATEFULSET, current.statefulsets, desired.statefulsets)
    && AgreeOn(SAME_DAEMONSET, current.daemonsets, desired.daemonsets)
    && AgreeOn(SAME_SERVICE, current.services, desired.services)
  }

  lemma StatesInSyncIff(current: StackState, desired: StackState)
    ensures StatesInSync(current, desired) <==> StatesAgree(current, desired)
  {
    ComparisonsOnFields();
    InSyncIff(DEPLOYMENTS, SAME_DEPLOYMENT, Never(), current.deployments, desired.deployments);
    InSyncIff(STATEFULSETS, SAME_STATEFULSET, Never(), current.statefulsets, desired.statefulsets);
    InSyncIff(DAEMONSETS, SAME_DAEMONSET, Never(), current.daemonsets, desired.daemonsets);
    InSyncIff(SERVICES, SAME_SERVICE, MOVES_CLUSTER_IP, current.services, desired.services);
  }

  /** A difference, in whatever order it lists objects, is empty exactly when the states agree. */
  lemma EmptyIff(current: StackState, desired: StackState, d: StackDiff)
    requires IsDiff(current, desired, d)
    ensures d.Empty() <==> StatesInSync(current, desired)
    ensures d.Empty() <==> StatesAgree(current, desired)
  {
    StatesInSyncIff(current, desired);
    EmptyKindIff(DEPLOYMENTS, current.deployments, desired.deployments, d.deployments);
    EmptyKindIff(STATEFULSETS, current.statefulsets, desired.statefulsets, d.statefulsets);
    EmptyKindIff(DAEMONSETS, current.daemonsets, desired.daemonsets, d.daemonsets);
    EmptyKindIff(SERVICES, current.services, desired.services, d.services);
  }

  // ----- Re-creation of services -----

  /** Published and random-port services keep their cluster IP, so they are never deleted and re-added. */
  lemma ExposedNeverReCreated(strategy: Services.Strategy, srv: C.Service, published: bool,
                              selector: map<string, string>, current: Service, meta: Meta)
    ensures var spec := Services.ToExposed(strategy, srv, published, selector, current.spec);
            spec.Some? ==> !RequiresReCreate(current, Object(meta, spec.value))
  {
  }

  /**
  An internal service that is not ExternalName and has a cluster IP is re-created exactly when
  its headless choice flips, and then it is listed under both toDelete and toAdd.
  */
  lemma InternalReCreatedIff(srv: C.Service, selector: map<string, string>, current: Objects<ServiceSpec>,
                             desired: Objects<ServiceSpec>, k: string)
    requires k in current && k in desired
    requires desired[k].spec == Services.ToInternalSpec(srv, selector, current[k].spec)
    requires current[k].spec.kind != EXTERNAL_NAME && current[k].spec.clusterIP != ""
    ensures var flips := Services.UseHeadless(srv) != (current[k].spec.clusterIP == CLUSTER_IP_NONE);
            && (k in Deleted(SERVICES, current, desired) <==> flips)
            && (k in Added(SERVICES, current, desired) <==> flips)
  {
  }

  /**
  An in-place update of an internal service changes an assigned cluster IP exactly when the
  service is of type ExternalName and its headless choice flips.
  */
  lemma InPlaceUpdateKeepsClusterIP(srv: C.Service, selector: map<string, string>, current: Objects<ServiceSpec>,
                                    desired: Objects<ServiceSpec>, k: string)
    requires k in current && k in desired
    requires desired[k].spec == Services.ToInternalSpec(srv, selector, current[k].spec)
    requires current[k].spec.clusterIP != ""
    ensures var updated := Updated(SERVICES, current, desired);
            k in updated && updated[k].spec.clusterIP != current[k].spec.clusterIP <==>
            && current[k].spec.kind == EXTERNAL_NAME
            && Services.UseHeadless(srv) != (current[k].spec.clusterIP == CLUSTER_IP_NONE)
  {
  }
}
