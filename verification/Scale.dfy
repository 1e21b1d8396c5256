/** The scale subresource (internal/registry/scale.go:45-59, 121-140). */
module Scale {
  import opened Wrappers
  import C = Compose
  import Convert
  import K = Kube
  import P = Platform
  import Pods
  import Services
  import Text
  import Volumes

  type Counts = map<string, C.int64>

  /** -1 for a global service. */
  function CountOf(srv: C.Service): C.int64 {
    if Convert.IsGlobal(srv) then -1
    else match srv.deploy.replicas case None => 1 case Some(n) => C.ToInt64(n)
  }

  /** A later service of the same name overrides an earlier one. */
  function CountsOf(services: seq<C.Service>): Counts {
    if services == [] then map[]
    else
      var n := |services| - 1;
      CountsOf(services[..n])[services[n].name := CountOf(services[n])]
  }

  predicate Named(services: seq<C.Service>, name: string) {
    exists i :: 0 <= i < |services| && services[i].name == name
  }

  /** Go's conversions between int and uint64 keep a number modulo 2^64. */
  predicate Congruent(a: int, b: int) { (a - b) % 0x1_0000_0000_0000_0000 == 0 }

  predicate Last(services: seq<C.Service>, i: nat)
    requires i < |services|
  {
    forall j :: i < j < |services| ==> services[j].name != services[i].name
  }

  /** The count of a service: -1 if it is global, 1 if it asks for none. */
  predicate Counted(srv: C.Service, count: C.int64) {
    if srv.deploy.mode == "global" then count == -1
    else if srv.deploy.replicas.None? then count == 1
    else Congruent(count, srv.deploy.replicas.value)
  }

  /** A count for each name and no other, that of the last service of the name. */
  ghost predicate Reports(services: seq<C.Service>, counts: Counts) {
    && (forall name :: name in counts <==> Named(services, name))
    && forall i :: 0 <= i < |services| && Last(services, i) ==>
        services[i].name in counts && Counted(services[i], counts[services[i].name])
  }

  lemma NamedGrows(services: seq<C.Service>, n: nat, name: string)
    requires n + 1 == |services|
    ensures Named(services, name) <==> Named(services[..n], name) || name == services[n].name
  {
    var before := services[..n];
    if Named(services, name) && name != services[n].name {
      var i :| 0 <= i < |services| && services[i].name == name;
      assert before[i].name == name;
    }
    if Named(before, name) {
      var i :| 0 <= i < n && before[i].name == name;
      assert services[i].name == name;
    }
  }

  lemma LastBefore(services: seq<C.Service>, n: nat, i: nat)
    requires n + 1 == |services| && i < n && Last(services, i)
    ensures Last(services[..n], i) && services[i].name != services[n].name
  {
  }

  lemma {:induction false} CountsNamed(services: seq<C.Service>, name: string)
    ensures name in CountsOf(services) <==> Named(services, name)
  {
    if services != [] {
      var n := |services| - 1;
      CountsNamed(services[..n], name);
      NamedGrows(services, n, name);
    }
  }

  lemma {:induction false} CountsLast(services: seq<C.Service>, i: nat)
    requires i < |services| && Last(services, i)
    ensures services[i].name in CountsOf(services) && Counted(services[i], CountsOf(services)[services[i].name])
  {
    var n := |services| - 1;
    if i < n {
      LastBefore(services, n, i);
      CountsLast(services[..n], i);
    }
  }

  lemma CountsReport(services: seq<C.Service>)
    ensures Reports(services, CountsOf(services))
  {
    forall name ensures name in CountsOf(services) <==> Named(services, name) {
      CountsNamed(services, name);
    }
    forall i | 0 <= i < |services| && Last(services, i)
      ensures services[i].name in CountsOf(services) && Counted(services[i], CountsOf(services)[services[i].name])
    {
      CountsLast(services, i);
    }
  }

  /** The spec part of Get. */
  method Get(services: seq<C.Service>) returns (counts: Counts)
    ensures counts == CountsOf(services)
    ensures Reports(services, counts)
  {
    CountsReport(services);
    counts := map[];
    for i := 0 to |services|
      invariant counts == CountsOf(services[..i])
    {
      assert services[..i + 1][..i] == services[..i];
      var s := services[i];
      var count: C.int64 := 1;
      if s.deploy.mode == "global" {
        count := -1;
      } else if s.deploy.replicas.Some? {
        count := C.ToInt64(s.deploy.replicas.value);
      }
      counts := counts[s.name := count];
    }
    assert services[..|services|] == services;
  }

  function WithReplicas(srv: C.Service, count: C.int64): C.Service {
    srv.(deploy := srv.deploy.(replicas := Some(C.ToUint64(count))))
  }

  predicate First(services: seq<C.Service>, i: nat)
    requires i < |services|
  {
    forall j :: 0 <= j < i ==> services[j].name != services[i].name
  }

  /** The first service of each given name gets its count. */
  function Scaled(services: seq<C.Service>, counts: Counts): (r: seq<C.Service>) {
    seq(|services|, i requires 0 <= i < |services| =>
      var name := services[i].name;
      if name in counts && First(services, i) then WithReplicas(services[i], counts[name]) else services[i])
  }

  /** The first service of each target has its count, everything else is as it was. */
  predicate Wrote(services: seq<C.Service>, counts: Counts, r: seq<C.Service>) {
    && |r| == |services|
    && forall i :: 0 <= i < |services| ==>
        if services[i].name in counts && First(services, i) then
          && r[i].deploy.replicas.Some? && Congruent(r[i].deploy.replicas.value, counts[services[i].name])
          && r[i] == services[i].(deploy := services[i].deploy.(replicas := r[i].deploy.replicas))
        else r[i] == services[i]
  }

  lemma ScaledWrote(services: seq<C.Service>, counts: Counts)
    ensures Wrote(services, counts, Scaled(services, counts))
  {
  }

  /** The loop over the services, for one target. */
  method SetReplicas(services: seq<C.Service>, target: string, count: C.int64) returns (r: seq<C.Service>, hit: bool)
    ensures hit <==> Named(services, target)
    ensures r == Scaled(services, map[target := count])
  {
    for i := 0 to |services|
      invariant forall j :: 0 <= j < i ==> services[j].name != target
    {
      if services[i].name == target {
        r := services[i := WithReplicas(services[i], count)];
        return r, true;
      }
    }
    return services, false;
  }

  function Restrict(counts: Counts, names: set<string>): Counts {
    map k | k in counts && k in names :: counts[k]
  }

  lemma ScaledNames(services: seq<C.Service>, counts: Counts)
    ensures forall i :: 0 <= i < |services| ==> Scaled(services, counts)[i].name == services[i].name
  {
  }

  lemma ScaledNamed(services: seq<C.Service>, counts: Counts, name: string)
    ensures Named(Scaled(services, counts), name) <==> Named(services, name)
  {
    var r := Scaled(services, counts);
    ScaledNames(services, counts);
    if Named(services, name) {
      var i :| 0 <= i < |services| && services[i].name == name;
      assert r[i].name == name;
    }
  }

  lemma ScaledFirst(services: seq<C.Service>, counts: Counts, i: nat)
    requires i < |services|
    ensures First(Scaled(services, counts), i) <==> First(services, i)
  {
    var r := Scaled(services, counts);
    ScaledNames(services, counts);
    forall j | 0 <= j < i ensures r[j].name != r[i].name <==> services[j].name != services[i].name {
    }
  }

  /** Setting one more target after others is setting them together. */
  lemma ScaledOneMore(services: seq<C.Service>, counts: Counts, target: string, count: C.int64)
    requires target !in counts
    ensures Scaled(Scaled(services, counts), map[target := count]) == Scaled(services, counts[target := count])
  {
    var one := Scaled(services, counts);
    ScaledNames(services, counts);
    forall i | 0 <= i < |services|
      ensures Scaled(one, map[target := count])[i] == Scaled(services, counts[target := count])[i]
    {
      ScaledFirst(services, counts, i);
    }
  }

  /** The transformation of Update: targets are walked in any order. */
  method Update(services: seq<C.Service>, counts: Counts) returns (r: Result<seq<C.Service>>)
    ensures r.Ok? <==> forall k :: k in counts ==> Named(services, k)
    ensures r.Ok? ==> r.value == Scaled(services, counts) && Wrote(services, counts, r.value)
  {
    ScaledWrote(services, counts);
    var now, todo, done := services, counts.Keys, {};
    assert now == Scaled(services, Restrict(counts, {}));
    while todo != {}
      invariant done !! todo && done + todo == counts.Keys
      invariant now == Scaled(services, Restrict(counts, done))
      invariant forall k :: k in done ==> Named(services, k)
      decreases todo
    {
      var target :| target in todo;
      ScaledNamed(services, Restrict(counts, done), target);
      ScaledOneMore(services, Restrict(counts, done), target, counts[target]);
      assert Restrict(counts, done)[target := counts[target]] == Restrict(counts, done + {target});
      var hit: bool;
      now, hit := SetReplicas(now, target, counts[target]);
      if !hit {
        return Err("service not found in stack");
      }
      todo, done := todo - {target}, done + {target};
    }
    assert Restrict(counts, done) == counts;
    return Ok(now);
  }

  lemma WroteNames(services: seq<C.Service>, counts: Counts, r: seq<C.Service>)
    requires Wrote(services, counts, r)
    ensures forall i :: 0 <= i < |services| ==>
              r[i].name == services[i].name && r[i].deploy.mode == services[i].deploy.mode
  {
  }

  lemma SameNames(a: seq<C.Service>, b: seq<C.Service>, name: string)
    requires |a| == |b| && forall i :: 0 <= i < |a| ==> a[i].name == b[i].name
    ensures Named(a, name) ==> Named(b, name)
  {
    if Named(a, name) {
      var i :| 0 <= i < |a| && a[i].name == name;
      assert b[i].name == name;
    }
  }

  lemma CountedOnce(srv: C.Service, a: C.int64, b: C.int64)
    requires Counted(srv, a) && Counted(srv, b)
    ensures a == b
  {
  }

  /** One service, its count before and after, and what was written if anything. */
  lemma ReportedOne(srv: C.Service, r: C.Service, before: C.int64, after: C.int64, written: Option<C.int64>)
    requires Counted(srv, before) && Counted(r, after) && r.deploy.mode == srv.deploy.mode
    requires if written.Some? then r.deploy.replicas.Some? && Congruent(r.deploy.replicas.value, written.value)
             else r == srv
    ensures after == if written.Some? && srv.deploy.mode != "global" then written.value else before
  {
    if written.None? {
      CountedOnce(srv, before, after);
    }
  }

  lemma WroteKeys(services: seq<C.Service>, counts: Counts, before: Counts, r: seq<C.Service>, after: Counts)
    requires Reports(services, before) && Wrote(services, counts, r) && Reports(r, after)
    ensures after.Keys == before.Keys
  {
    WroteNames(services, counts, r);
    forall name ensures name in after.Keys <==> name in before.Keys {
      SameNames(services, r, name);
      SameNames(r, services, name);
    }
  }

  lemma WroteLast(services: seq<C.Service>, counts: Counts, r: seq<C.Service>, i: nat)
    requires Wrote(services, counts, r) && i < |services| && Last(services, i)
    ensures Last(r, i)
  {
    WroteNames(services, counts, r);
    forall j | i < j < |r| ensures r[j].name != r[i].name {
      assert services[j].name != services[i].name;
    }
  }

  function Written(services: seq<C.Service>, counts: Counts, i: nat): Option<C.int64>
    requires i < |services|
  {
    if services[i].name in counts && First(services, i) then Some(counts[services[i].name]) else None
  }

  /**
  What Get reports after an Update: the written count for a target, unless its service is global or
  the last of its name but not the first; everything else as before.
  */
  lemma ReportedAfterUpdate(services: seq<C.Service>, counts: Counts, before: Counts, r: seq<C.Service>,
                            after: Counts, i: nat)
    requires Reports(services, before) && Wrote(services, counts, r) && Reports(r, after)
    requires i < |services| && Last(services, i)
    ensures after.Keys == before.Keys && services[i].name in after
    ensures var name, global := services[i].name, services[i].deploy.mode == "global";
            after[name] == if name in counts && First(services, i) && !global then counts[name] else before[name]
  {
    WroteKeys(services, counts, before, r, after);
    WroteLast(services, counts, r, i);
    var srv, s, written := services[i], r[i], Written(services, counts, i);
    assert s.name == srv.name && s.deploy.mode == srv.deploy.mode by { WroteNames(services, counts, r); }
    assert if written.Some? then s.deploy.replicas.Some? && Congruent(s.deploy.replicas.value, written.value)
           else s == srv;
    ReportedOne(srv, s, before[srv.name], after[srv.name], written);
  }

  // ----- The round trip -----

  predicate Distinct(services: seq<C.Service>) {
    forall i, j :: 0 <= i < j < |services| ==> services[i].name != services[j].name
  }

  /** The same service but for a replica count that generates the same workload. */
  predicate Similar(a: C.Service, b: C.Service) {
    && b == a.(deploy := a.deploy.(replicas := b.deploy.replicas))
    && (Convert.IsGlobal(a) || Convert.ToReplicas(a.deploy.replicas) == Convert.ToReplicas(b.deploy.replicas))
    && CountOf(a) == CountOf(b)
  }

  predicate AllSimilar(a: seq<C.Service>, b: seq<C.Service>) {
    |a| == |b| && forall i :: 0 <= i < |a| ==> Similar(a[i], b[i])
  }

  lemma OwnCountSimilar(srv: C.Service)
    ensures Similar(srv, WithReplicas(srv, CountOf(srv)))
  {
  }

  lemma {:induction false} CountsAt(services: seq<C.Service>, i: nat)
    requires Distinct(services) && i < |services|
    ensures services[i].name in CountsOf(services) && CountsOf(services)[services[i].name] == CountOf(services[i])
  {
    var n := |services| - 1;
    if i < n {
      CountsAt(services[..n], i);
    }
  }

  lemma {:induction false} CountsSimilar(a: seq<C.Service>, b: seq<C.Service>)
    requires AllSimilar(a, b)
    ensures CountsOf(a) == CountsOf(b)
  {
    if a != [] {
      var n := |a| - 1;
      CountsSimilar(a[..n], b[..n]);
    }
  }

  /** Writing back the counts Get reports gives similar services. */
  lemma WrittenBackSimilar(services: seq<C.Service>)
    requires Distinct(services)
    ensures AllSimilar(services, Scaled(services, CountsOf(services)))
  {
    forall i | 0 <= i < |services| ensures Similar(services[i], Scaled(services, CountsOf(services))[i]) {
      CountsAt(services, i);
      OwnCountSimilar(services[i]);
    }
  }

  lemma SimilarCons(x: C.Service, y: C.Service, a: seq<C.Service>, b: seq<C.Service>)
    requires Similar(x, y) && AllSimilar(a, b)
    ensures AllSimilar([x] + a, [y] + b)
  {
  }

  lemma {:induction false} InsertSimilar(a: seq<C.Service>, b: seq<C.Service>, x: C.Service, y: C.Service)
    requires AllSimilar(a, b) && Similar(x, y)
    ensures AllSimilar(Convert.InsertByName(a, x), Convert.InsertByName(b, y))
  {
    if a == [] {
    } else if Text.Less(x.name, a[0].name) {
      SimilarCons(x, y, a, b);
    } else {
      InsertSimilar(a[1..], b[1..], x, y);
      SimilarCons(a[0], b[0], Convert.InsertByName(a[1..], x), Convert.InsertByName(b[1..], y));
    }
  }

  lemma {:induction false} SortSimilar(a: seq<C.Service>, b: seq<C.Service>)
    requires AllSimilar(a, b)
    ensures AllSimilar(Convert.SortByName(a), Convert.SortByName(b))
  {
    if a != [] {
      var n := |a| - 1;
      SortSimilar(a[..n], b[..n]);
      InsertSimilar(Convert.SortByName(a[..n]), Convert.SortByName(b[..n]), a[n], b[n]);
    }
  }

  lemma PartsSimilar(p: P.Platform, a: C.Service, b: C.Service, spec: C.StackSpec, services: seq<C.Service>)
    requires Similar(a, b)
    ensures Pods.PartsOf(p, b, spec.(services := services)) == Pods.PartsOf(p, a, spec)
  {
    var scaled := spec.(services := services);
    assert Volumes.ToVolumeSpecs(p, b, scaled) == Volumes.ToVolumeSpecs(p, a, spec) by {
      assert Volumes.SecretSpecs(p, b, scaled) == Volumes.SecretSpecs(p, a, spec);
      assert Volumes.ConfigSpecs(p, b, scaled) == Volumes.ConfigSpecs(p, a, spec);
      assert Volumes.TmpSpecs(b) == Volumes.TmpSpecs(a);
    }
    assert Pods.ToRestartPolicy(b) == Pods.ToRestartPolicy(a);
  }

  lemma FillSimilar(parts: Pods.Parts, a: C.Service, b: C.Service, labels: map<string, string>, original: K.PodTemplate)
    requires Similar(a, b)
    ensures Pods.Fill(parts, b, labels, original) == Pods.Fill(parts, a, labels, original)
  {
  }

  /** The contexts differ in the services of the spec only. */
  ghost predicate SameButServices(ctx: Convert.Context, scaled: Convert.Context) {
    scaled == ctx.(spec := ctx.spec.(services := scaled.spec.services))
  }

  lemma DaemonSetSimilar(ctx: Convert.Context, scaled: Convert.Context, parts: Result<Pods.Parts>, a: C.Service,
                         b: C.Service, original: K.DaemonSet)
    requires SameButServices(ctx, scaled) && Similar(a, b)
    ensures Convert.DaemonSetFor(scaled, parts, b, original) == Convert.DaemonSetFor(ctx, parts, a, original)
  {
    if parts.Ok? {
      FillSimilar(parts.value, a, b, Convert.ObjectMeta(ctx, a, a.name).labels, original.spec.template);
    }
  }

  lemma StatefulSetSimilar(ctx: Convert.Context, scaled: Convert.Context, parts: Result<Pods.Parts>, a: C.Service,
                           b: C.Service, original: K.StatefulSet)
    requires SameButServices(ctx, scaled) && Similar(a, b) && !Convert.IsGlobal(a)
    ensures Convert.StatefulSetFor(scaled, parts, b, original) == Convert.StatefulSetFor(ctx, parts, a, original)
  {
    if parts.Ok? {
      FillSimilar(parts.value, a, b, Convert.ObjectMeta(ctx, a, a.name).labels, original.spec.template);
      ClaimsSimilar(a, b, original.spec.claims, |a.volumes|);
    }
  }

  lemma {:induction false} ClaimsSimilar(a: C.Service, b: C.Service, original: seq<K.Claim>, n: nat)
    requires Similar(a, b) && n <= |a.volumes|
    ensures Volumes.ClaimsUpTo(b, original, n) == Volumes.ClaimsUpTo(a, original, n)
  {
    if n > 0 {
      ClaimsSimilar(a, b, original, n - 1);
    }
  }

  lemma DeploymentSimilar(ctx: Convert.Context, scaled: Convert.Context, parts: Result<Pods.Parts>, a: C.Service,
                          b: C.Service, original: K.Deployment)
    requires SameButServices(ctx, scaled) && Similar(a, b) && !Convert.IsGlobal(a)
    ensures Convert.DeploymentFor(scaled, parts, b, original) == Convert.DeploymentFor(ctx, parts, a, original)
  {
    if parts.Ok? {
      FillSimilar(parts.value, a, b, Convert.ObjectMeta(ctx, a, a.name).labels, original.spec.template);
    }
  }

  lemma InternalSimilar(ctx: Convert.Context, scaled: Convert.Context, a: C.Service, b: C.Service, original: K.Service)
    requires SameButServices(ctx, scaled) && Similar(a, b)
    ensures Convert.InternalService(scaled, b, original) == Convert.InternalService(ctx, a, original)
  {
    assert Services.InternalPorts(b) == Services.InternalPorts(a);
  }

  lemma ExposedSimilar(ctx: Convert.Context, scaled: Convert.Context, a: C.Service, b: C.Service, published: bool,
                       original: K.Service)
    requires SameButServices(ctx, scaled) && Similar(a, b)
    ensures Convert.ExposedService(scaled, b, published, original) == Convert.ExposedService(ctx, a, published,
            original)
  {
  }

  lemma ServicesSimilar(ctx: Convert.Context, scaled: Convert.Context, a: C.Service, b: C.Service,
                        original: map<string, K.Service>)
    requires SameButServices(ctx, scaled) && Similar(a, b)
    ensures Convert.ToServices(scaled, b, original) == Convert.ToServices(ctx, a, original)
  {
    InternalSimilar(ctx, scaled, a, b, K.Lookup(original, Convert.Key(ctx, a.name), K.ZERO_SERVICE));
    ExposedSimilar(ctx, scaled, a, b, true, K.Lookup(original, Convert.Key(ctx, Convert.PublishedName(a)),
                                                     K.ZERO_SERVICE));
    ExposedSimilar(ctx, scaled, a, b, false, K.Lookup(original, Convert.Key(ctx, Convert.RandomPortsName(a)),
                                                      K.ZERO_SERVICE));
  }

  lemma WorkloadSimilar(ctx: Convert.Context, scaled: Convert.Context, parts: Result<Pods.Parts>, a: C.Service,
                        b: C.Service, original: K.StackState)
    requires SameButServices(ctx, scaled) && Similar(a, b)
    ensures Convert.WorkloadFor(scaled, parts, b, original) == Convert.WorkloadFor(ctx, parts, a, original)
  {
    var key := Convert.Key(ctx, a.name);
    assert Volumes.HasPersistentVolumes(b) == Volumes.HasPersistentVolumes(a);
    if Convert.IsGlobal(a) {
      DaemonSetSimilar(ctx, scaled, parts, a, b, K.Lookup(original.daemonsets, key, K.ZERO_DAEMONSET));
    } else if Volumes.HasPersistentVolumes(a) {
      StatefulSetSimilar(ctx, scaled, parts, a, b, K.Lookup(original.statefulsets, key, K.ZERO_STATEFULSET));
    } else {
      DeploymentSimilar(ctx, scaled, parts, a, b, K.Lookup(original.deployments, key, K.ZERO_DEPLOYMENT));
    }
  }

  lemma ResourcesSimilar(ctx: Convert.Context, scaled: Convert.Context, a: C.Service, b: C.Service,
                         original: K.StackState)
    requires SameButServices(ctx, scaled) && Similar(a, b)
    ensures Convert.ToStackResources(scaled, b, original) == Convert.ToStackResources(ctx, a, original)
  {
    PartsSimilar(ctx.platform, a, b, ctx.spec, scaled.spec.services);
    WorkloadSimilar(ctx, scaled, Pods.PartsOf(ctx.platform, a, ctx.spec), a, b, original);
    ServicesSimilar(ctx, scaled, a, b, original.services);
  }

  lemma MapSimilar(ctx: Convert.Context, scaled: Convert.Context, a: seq<C.Service>, b: seq<C.Service>,
                   original: K.StackState)
    requires SameButServices(ctx, scaled) && AllSimilar(a, b)
    ensures Convert.Map(Convert.ResourcesOf(scaled, original), b) == Convert.Map(Convert.ResourcesOf(ctx, original), a)
  {
    forall i | 0 <= i < |a|
      ensures Convert.Map(Convert.ResourcesOf(scaled, original),
                          b)[i] == Convert.Map(Convert.ResourcesOf(ctx, original), a)[i]
    {
      ResourcesSimilar(ctx, scaled, a[i], b[i], original);
    }
  }

  function ScaledStack(stack: C.Stack, counts: Counts): C.Stack
    requires stack.spec.Some?
  {
    stack.(spec := Some(stack.spec.value.(services := Scaled(stack.spec.value.services, counts))))
  }

  /**
  Writing back exactly the counts that Get reported, -1 for global services included, leaves
  everything the stack generates unchanged, whatever is stored and whether or not the stack is
  dirty, and Get reports the same counts again.
  */
  lemma ScaleRoundTrip(p: P.Platform, strategy: Services.Strategy, stack: C.Stack, original: K.StackState)
    requires stack.spec.Some? && Distinct(stack.spec.value.services)
    ensures var counts := CountsOf(stack.spec.value.services);
            var written := ScaledStack(stack, counts);
            && Convert.StackToStack(p, strategy, written, original) == Convert.StackToStack(p, strategy, stack,
                original)
            && CountsOf(written.spec.value.services) == counts
  {
    var services := stack.spec.value.services;
    var written := ScaledStack(stack, CountsOf(services));
    WrittenBackSimilar(services);
    CountsSimilar(services, written.spec.value.services);
    SortSimilar(services, written.spec.value.services);
    MapSimilar(Convert.ContextOf(p, strategy, stack), Convert.ContextOf(p, strategy, written),
               Convert.SortByName(services), Convert.SortByName(written.spec.value.services), original);
  }
}
