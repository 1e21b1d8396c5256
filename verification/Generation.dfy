/**
The expected-generation protocol between controller and API server, for one object
(internal/convert/stack.go:82-125, 149-165, 178-188).

The server keeps every version it ever stored; the resource version of an object is its place in
that history, so an update converted from an old version is recognised and refused.  `touched`
records whether anybody else changed what the generation counts since the controller's last write.
*/
module Generation {
  import opened Wrappers
  import opened Text
  import opened Kube
  import C = Compose
  import Convert
  import Labels
  import Pods

  /** A kind of workload: its zero value, and whether annotation changes bump the generation, as for Deployments. */
  datatype Kind<S> = Kind(zero: Object<S>, annotated: bool)

  datatype Version<S> = Version(obj: Object<S>, touched: bool)

  datatype State<S> = State(history: seq<Version<S>>, live: bool)

  datatype Step<S> =
    | Create(spec: S, meta: Meta)                 // the controller converts from nothing and creates
    | Update(from: nat, spec: S, meta: Meta)      // the controller converts from a version it read and updates
    | ForeignCreate(obj: Object<S>)
    | ForeignUpdate(obj: Object<S>)
    | Delete

  /** What makes the server bump the generation of the stored object. */
  predicate Bumps<S(==)>(kind: Kind<S>, stored: Object<S>, submitted: Object<S>) {
    stored.spec != submitted.spec || (kind.annotated && stored.meta.annotations != submitted.meta.annotations)
  }

  /** The object the controller submits, converted from `original`. */
  function Converted<S(==)>(kind: Kind<S>, original: Object<S>, spec: S, meta: Meta): Object<S> {
    var first := Convert.SetExpectedGeneration(original.meta, meta, original.spec != spec);
    var second := Convert.SetExpectedGeneration(original.meta, first, original.meta.annotations != first.annotations);
    Object(if kind.annotated then second else first, spec)
  }

  function Stored<S>(s: State<S>): Object<S>
    requires s.live && s.history != []
  {
    s.history[|s.history| - 1].obj
  }

  function Append<S>(s: State<S>, o: Object<S>, generation: int, touched: bool): State<S> {
    State(s.history + [Version(o.(meta := o.meta.(generation := generation, resourceVersion := |s.history|)),
                               touched)], true)
  }

  predicate Init<S>(s: State<S>) { s == State([], false) }

  predicate WellFormed<S>(s: State<S>) { s.live ==> s.history != [] }

  /** The annotation is the same before and after. */
  predicate LeavesAnnotation(before: Meta, after: Meta) {
    var key := Convert.EXPECTED_GENERATION;
    (key in before.annotations <==> key in after.annotations)
    && (key in before.annotations ==> before.annotations[key] == after.annotations[key])
  }

  predicate Enabled<S(==)>(kind: Kind<S>, s: State<S>, step: Step<S>) {
    && WellFormed(s)
    && match step
       case Create(spec, meta) => spec != kind.zero.spec && meta.annotations == map[]
       case Update(from, spec, meta) =>
         from < |s.history| && meta.annotations == map[] && s.history[from].obj.meta.generation < INT64_MAX
       case ForeignCreate(o) => Convert.EXPECTED_GENERATION !in o.meta.annotations
       case ForeignUpdate(o) => s.live && LeavesAnnotation(Stored(s).meta, o.meta)
           && Stored(s).meta.generation < INT64_MAX
       case Delete => true
  }

  function Apply<S(==)>(kind: Kind<S>, s: State<S>, step: Step<S>): State<S>
    requires Enabled(kind, s, step)
  {
    match step
    case Create(spec, meta) => if s.live then s else Append(s, Converted(kind, kind.zero, spec, meta), 1, false)
    case Update(from, spec, meta) =>
      var o := Converted(kind, s.history[from].obj, spec, meta);
      if !s.live || s.history[from].obj.meta.resourceVersion != Stored(s).meta.resourceVersion then s
      else Append(s, o, Stored(s).meta.generation + (if Bumps(kind, Stored(s), o) then 1 else 0), false)
    case ForeignCreate(o) => if s.live then s else Append(s, o, 1, true)
    case ForeignUpdate(o) =>
      var bump := Bumps(kind, Stored(s), o);
      Append(s, o, Stored(s).meta.generation + (if bump then 1 else 0), s.history[|s.history| - 1].touched || bump)
    case Delete => s.(live := false)
  }

  predicate IsRun<S(==)>(kind: Kind<S>, s: State<S>, steps: seq<Step<S>>)
    decreases |steps|
  {
    steps == [] || (Enabled(kind, s, steps[0]) && IsRun(kind, Apply(kind, s, steps[0]), steps[1..]))
  }

  function Final<S(==)>(kind: Kind<S>, s: State<S>, steps: seq<Step<S>>): State<S>
    requires IsRun(kind, s, steps)
    decreases |steps|
  {
    if steps == [] then s else Final(kind, Apply(kind, s, steps[0]), steps[1..])
  }

  // ----- The invariant -----

  function Expected(meta: Meta): Option<int> {
    var key := Convert.EXPECTED_GENERATION;
    if key in meta.annotations then ParseInt(meta.annotations[key]) else None
  }

  /** The annotation never exceeds the generation, and equals it exactly on untouched objects. */
  predicate Sound<S>(v: Version<S>) {
    var meta := v.obj.meta;
    && 1 <= meta.generation <= INT64_MAX
    && (Convert.EXPECTED_GENERATION in meta.annotations ==>
          && Expected(meta).Some?
          && Expected(meta).value <= meta.generation
          && (Expected(meta).value == meta.generation <==> !v.touched))
    && (Convert.EXPECTED_GENERATION !in meta.annotations ==> v.touched)
  }

  predicate Inv<S>(s: State<S>) {
    && WellFormed(s)
    && forall i :: 0 <= i < |s.history| ==> Sound(s.history[i]) && s.history[i].obj.meta.resourceVersion == i
  }

  predicate ZeroKind<S>(kind: Kind<S>) { kind.zero.meta == ZERO_META }

  /** The annotation the conversion writes is the generation the server will give the object. */
  lemma ConvertedExpects<S>(kind: Kind<S>, stored: Object<S>, touched: bool, spec: S, meta: Meta)
    requires Sound(Version(stored, touched)) && stored.meta.generation < INT64_MAX && meta.annotations == map[]
    ensures var o := Converted(kind, stored, spec, meta);
            Expected(o.meta) == Some(stored.meta.generation + if Bumps(kind, stored, o) then 1 else 0)
            && Convert.EXPECTED_GENERATION in o.meta.annotations
  {
    ParseFormatInt(stored.meta.generation);
    ParseFormatInt(stored.meta.generation + 1);
    var o := Converted(kind, stored, spec, meta);
    if kind.annotated {
      var first := Convert.SetExpectedGeneration(stored.meta, meta, stored.spec != spec);
      var plain := map[Convert.EXPECTED_GENERATION := FormatInt(stored.meta.generation)];
      var bumped := map[Convert.EXPECTED_GENERATION := FormatInt(stored.meta.generation + 1)];
      assert first.annotations == if stored.spec != spec then bumped else plain;
      assert o.meta.annotations == if stored.meta.annotations != first.annotations then bumped else plain;
      assert Convert.EXPECTED_GENERATION in stored.meta.annotations ==>
        Expected(stored.meta) != ParseInt(bumped[Convert.EXPECTED_GENERATION]);
    }
  }

  lemma CreatedExpects<S>(kind: Kind<S>, spec: S, meta: Meta)
    requires ZeroKind(kind) && spec != kind.zero.spec && meta.annotations == map[]
    ensures var o := Converted(kind, kind.zero, spec, meta);
            Expected(o.meta) == Some(1) && Convert.EXPECTED_GENERATION in o.meta.annotations
  {
    ParseFormatInt(1);
    var first := Convert.SetExpectedGeneration(kind.zero.meta, meta, true);
    assert Convert.EXPECTED_GENERATION in first.annotations && Convert.EXPECTED_GENERATION !in ZERO_META.annotations;
  }

  lemma AppendInv<S>(s: State<S>, o: Object<S>, generation: int, touched: bool)
    requires Inv(s)
    requires Sound(Version(o.(meta := o.meta.(generation := generation, resourceVersion := |s.history|)), touched))
    ensures Inv(Append(s, o, generation, touched))
  {
  }

  lemma InvStep<S>(kind: Kind<S>, s: State<S>, step: Step<S>)
    requires ZeroKind(kind) && Inv(s) && Enabled(kind, s, step)
    ensures Inv(Apply(kind, s, step))
  {
    match step
    case Create(spec, meta) =>
      if !s.live {
        CreatedExpects(kind, spec, meta);
        AppendInv(s, Converted(kind, kind.zero, spec, meta), 1, false);
      }
    case Update(from, spec, meta) =>
      if Apply(kind, s, step) != s {
        var stored := Stored(s);
        assert s.history[from].obj == stored;
        ConvertedExpects(kind, stored, s.history[from].touched, spec, meta);
        var o := Converted(kind, stored, spec, meta);
        AppendInv(s, o, stored.meta.generation + (if Bumps(kind, stored, o) then 1 else 0), false);
      }
    case ForeignCreate(o) =>
      if !s.live { AppendInv(s, o, 1, true); }
    case ForeignUpdate(o) =>
      var n := |s.history| - 1;
      var bump := Bumps(kind, Stored(s), o);
      assert Sound(s.history[n]);
      AppendInv(s, o, Stored(s).meta.generation + (if bump then 1 else 0), s.history[n].touched || bump);
    case Delete =>
  }

  lemma {:induction false} InvRun<S>(kind: Kind<S>, s: State<S>, steps: seq<Step<S>>)
    requires ZeroKind(kind) && Inv(s) && IsRun(kind, s, steps)
    ensures Inv(Final(kind, s, steps))
    decreases |steps|
  {
    if steps != [] {
      InvStep(kind, s, steps[0]);
      InvRun(kind, Apply(kind, s, steps[0]), steps[1..]);
    }
  }

  /**
  In every run, on every version the controller may have read: the annotation does not exceed the
  generation, and the fast path is taken exactly on objects nobody else changed since the
  controller's last write.
  */
  lemma FastPathExactlyOnUntouched<S>(kind: Kind<S>, s: State<S>, steps: seq<Step<S>>, i: nat)
    requires ZeroKind(kind) && Init(s) && IsRun(kind, s, steps) && i < |Final(kind, s, steps).history|
    ensures var v := Final(kind, s, steps).history[i];
            && (Expected(v.obj.meta).Some? ==> Expected(v.obj.meta).value <= v.obj.meta.generation)
            && (Convert.GenerationMatchesExpected(v.obj.meta) <==> !v.touched)
  {
    InvRun(kind, s, steps);
    assert Sound(Final(kind, s, steps).history[i]);
  }

  // ----- The conversions of the three kinds -----

  const DEPLOYMENT := Kind(ZERO_DEPLOYMENT, true)
  const STATEFULSET := Kind(ZERO_STATEFULSET, false)
  const DAEMONSET := Kind(ZERO_DAEMONSET, false)

  /** What the converter submits is what this protocol's controller submits, and it is never the zero value. */
  lemma ConversionsFollowProtocol(parts: Pods.Parts, srv: C.Service, meta: Meta, selector: Labels.LabelMap,
                                  d: Deployment, s: StatefulSet, g: DaemonSet)
    ensures var spec := Convert.ToDeploymentSpec(parts, srv, meta.labels, selector, d.spec);
            Convert.ToDeployment(parts, srv, meta, selector, d) == Converted(DEPLOYMENT, d, spec, meta)
                && spec != DEPLOYMENT.zero.spec
    ensures var spec := Convert.ToStatefulSetSpec(parts, srv, meta.labels, selector, s.spec);
            Convert.ToStatefulSet(parts, srv, meta, selector, s) == Converted(STATEFULSET, s, spec, meta)
                && spec != STATEFULSET.zero.spec
    ensures var spec := Convert.ToDaemonSetSpec(parts, srv, meta.labels, selector, g.spec);
            Convert.ToDaemonSet(parts, srv, meta, selector, g) == Converted(DAEMONSET, g, spec, meta)
                && spec != DAEMONSET.zero.spec
  {
    assert Convert.ToDaemonSetSpec(parts, srv, meta.labels, selector, g.spec).template.containers != [];
  }
}
