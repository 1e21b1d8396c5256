/** The equality that tolerates admission rewrites (internal/stackresources/diff/stackstatediff.go:49-109). */
module Equality {
  import opened Text
  import opened Kube
  import Pods

  const IGNORED_TOLERATION_PREFIX := "com.docker.ucp."

  predicate Ignored(t: Toleration) { HasPrefix(t.key, IGNORED_TOLERATION_PREFIX) }

  function Tolerations(ts: seq<Toleration>): (r: seq<Toleration>) {
    if ts == [] then []
    else
      var n := |ts| - 1;
      var before := Tolerations(ts[..n]);
      if Ignored(ts[n]) then before else before + [ts[n]]
  }

  /** A desired image takes the current one when that only adds a digest. */
  function Patched(current: Container, desired: Container): Container {
    if HasPrefix(current.image, desired.image + "@") then desired.(image := current.image) else desired
  }

  function PatchedAll(current: seq<Container>, desired: seq<Container>): (r: seq<Container>)
    requires |current| == |desired|
  {
    seq(|desired|, i requires 0 <= i < |desired| => Patched(current[i], desired[i]))
  }

  predicate SameShape(current: PodTemplate, desired: PodTemplate) {
    |desired.initContainers| == |current.initContainers| && |desired.containers| == |current.containers|
  }

  function NormalCurrent(current: PodTemplate): PodTemplate {
    current.(tolerations := Tolerations(current.tolerations))
  }

  function NormalDesired(current: PodTemplate, desired: PodTemplate): PodTemplate {
    var d := desired.(tolerations := Tolerations(desired.tolerations));
    if SameShape(current, desired)
    then d.(initContainers := PatchedAll(current.initContainers, desired.initContainers),
            containers := PatchedAll(current.containers, desired.containers))
    else d
  }

  // ----- The loops of the source -----

  method NormalizeTolerations(ts: seq<Toleration>) returns (r: seq<Toleration>)
    ensures r == Tolerations(ts)
  {
    r := [];
    for i := 0 to |ts|
      invariant r == Tolerations(ts[..i])
    {
      assert ts[..i + 1][..i] == ts[..i];
      if !HasPrefix(ts[i].key, IGNORED_TOLERATION_PREFIX) {
        r := r + [ts[i]];
      }
    }
    assert ts[..|ts|] == ts;
  }

  method PatchImages(current: seq<Container>, desired: seq<Container>) returns (r: seq<Container>)
    requires |current| == |desired|
    ensures r == PatchedAll(current, desired)
  {
    r := desired;
    for ix := 0 to |desired|
      invariant |r| == |desired|
      invariant forall j :: 0 <= j < ix ==> r[j] == Patched(current[j], desired[j])
      invariant forall j :: ix <= j < |desired| ==> r[j] == desired[j]
    {
      if HasPrefix(current[ix].image, r[ix].image + "@") {
        r := r[ix := r[ix].(image := current[ix].image)];
      }
    }
  }

  /** normalizePodSpecForEquality, on copies. */
  method NormalizePodSpec(current: PodTemplate, desired: PodTemplate) returns (c: PodTemplate, d: PodTemplate)
    ensures c == NormalCurrent(current) && d == NormalDesired(current, desired)
  {
    var ct := NormalizeTolerations(current.tolerations);
    var dt := NormalizeTolerations(desired.tolerations);
    c := current.(tolerations := ct);
    d := desired.(tolerations := dt);
    if |d.initContainers| == |c.initContainers| && |d.containers| == |c.containers| {
      var init := PatchImages(c.initContainers, d.initContainers);
      var main := PatchImages(c.containers, d.containers);
      d := d.(initContainers := init, containers := main);
    }
  }

  predicate EqualTemplate(current: PodTemplate, desired: PodTemplate) {
    NormalCurrent(current) == NormalDesired(current, desired)
  }

  predicate EqualDeployment(current: Deployment, desired: Deployment) {
    && EqualTemplate(current.spec.template, desired.spec.template)
    && current.spec == desired.spec.(template := current.spec.template)
    && current.meta.labels == desired.meta.labels
  }

  predicate EqualStatefulSet(current: StatefulSet, desired: StatefulSet) {
    && EqualTemplate(current.spec.template, desired.spec.template)
    && current.spec == desired.spec.(template := current.spec.template)
    && current.meta.labels == desired.meta.labels
  }

  predicate EqualDaemonSet(current: DaemonSet, desired: DaemonSet) {
    && EqualTemplate(current.spec.template, desired.spec.template)
    && current.spec == desired.spec.(template := current.spec.template)
    && current.meta.labels == desired.meta.labels
  }

  predicate EqualService(current: Service, desired: Service) {
    current.spec == desired.spec && current.meta.labels == desired.meta.labels
  }

  // ----- What the equality means -----

  predicate SameButImage(current: Container, desired: Container) {
    Pods.Pinned(desired.image, current.image) && current == desired.(image := current.image)
  }

  predicate SameButImages(current: seq<Container>, desired: seq<Container>) {
    |current| == |desired| && forall i :: 0 <= i < |current| ==> SameButImage(current[i], desired[i])
  }

  /** `after` is `before` with tolerations of the ignored prefix inserted at any positions. */
  predicate InsertsIgnored(before: seq<Toleration>, after: seq<Toleration>) {
    if after == [] then before == []
    else
      var n, m := |after| - 1, |before| - 1;
      (Ignored(after[n]) && InsertsIgnored(before, after[..n]))
      || (before != [] && before[m] == after[n] && InsertsIgnored(before[..m], after[..n]))
  }

  /** Both are the same tolerations, none of them ignored, with ignored ones inserted. */
  ghost predicate SameTolerations(a: seq<Toleration>, b: seq<Toleration>) {
    exists common :: (forall t :: t in common ==> !Ignored(t)) && InsertsIgnored(common, a) && InsertsIgnored(common, b)
  }

  lemma {:induction false} InsertedIsIgnored(before: seq<Toleration>, after: seq<Toleration>)
    requires InsertsIgnored(before, after)
    ensures Tolerations(after) == Tolerations(before)
    decreases |after|
  {
    if after != [] {
      var n, m := |after| - 1, |before| - 1;
      if Ignored(after[n]) && InsertsIgnored(before, after[..n]) {
        InsertedIsIgnored(before, after[..n]);
      } else {
        InsertedIsIgnored(before[..m], after[..n]);
      }
    }
  }

  lemma {:induction false} TolerationsKept(ts: seq<Toleration>)
    ensures InsertsIgnored(Tolerations(ts), ts) && forall t :: t in Tolerations(ts) ==> !Ignored(t)
  {
    if ts != [] {
      var n := |ts| - 1;
      TolerationsKept(ts[..n]);
      if !Ignored(ts[n]) {
        assert (Tolerations(ts[..n]) + [ts[n]])[..|Tolerations(ts[..n])|] == Tolerations(ts[..n]);
      }
    }
  }

  lemma TolerationsIff(a: seq<Toleration>, b: seq<Toleration>)
    ensures Tolerations(a) == Tolerations(b) <==> SameTolerations(a, b)
  {
    TolerationsKept(a);
    TolerationsKept(b);
    if SameTolerations(a, b) {
      var common :|
        (forall t :: t in common ==> !Ignored(t)) && InsertsIgnored(common, a) && InsertsIgnored(common, b);
      InsertedIsIgnored(common, a);
      InsertedIsIgnored(common, b);
    }
  }

  /** Equal but for tolerations of the ignored prefix, anywhere, and for digests added to images. */
  ghost predicate SameButAdmission(current: PodTemplate, desired: PodTemplate) {
    && SameTolerations(current.tolerations, desired.tolerations)
    && SameButImages(current.initContainers, desired.initContainers)
    && SameButImages(current.containers, desired.containers)
    && current == desired.(tolerations := current.tolerations, initContainers := current.initContainers,
                           containers := current.containers)
  }

  lemma PatchedIff(current: Container, desired: Container)
    ensures Patched(current, desired) == current <==> SameButImage(current, desired)
  {
  }

  lemma PatchedAllIff(current: seq<Container>, desired: seq<Container>)
    requires |current| == |desired|
    ensures PatchedAll(current, desired) == current <==> SameButImages(current, desired)
  {
    var r := PatchedAll(current, desired);
    forall i | 0 <= i < |current| ensures r[i] == current[i] <==> SameButImage(current[i], desired[i]) {
      PatchedIff(current[i], desired[i]);
    }
  }

  /** The normalising comparison accepts exactly the admission rewrites. */
  lemma EqualTemplateIff(current: PodTemplate, desired: PodTemplate)
    ensures EqualTemplate(current, desired) <==> SameButAdmission(current, desired)
  {
    TolerationsIff(current.tolerations, desired.tolerations);
    if SameShape(current, desired) {
      PatchedAllIff(current.initContainers, desired.initContainers);
      PatchedAllIff(current.containers, desired.containers);
    }
  }

  // ----- Whole objects -----

  ghost predicate SameDeployment(c: Deployment, d: Deployment) {
    && c.meta.labels == d.meta.labels
    && c.spec.replicas == d.spec.replicas
    && c.spec.revisionHistoryLimit == d.spec.revisionHistoryLimit
    && c.spec.strategy == d.spec.strategy
    && c.spec.selector == d.spec.selector
    && c.spec.rest == d.spec.rest
    && SameButAdmission(c.spec.template, d.spec.template)
  }

  ghost predicate SameStatefulSet(c: StatefulSet, d: StatefulSet) {
    && c.meta.labels == d.meta.labels
    && c.spec.replicas == d.spec.replicas
    && c.spec.revisionHistoryLimit == d.spec.revisionHistoryLimit
    && c.spec.updateStrategy == d.spec.updateStrategy
    && c.spec.claims == d.spec.claims
    && c.spec.selector == d.spec.selector
    && c.spec.rest == d.spec.rest
    && SameButAdmission(c.spec.template, d.spec.template)
  }

  ghost predicate SameDaemonSet(c: DaemonSet, d: DaemonSet) {
    && c.meta.labels == d.meta.labels
    && c.spec.selector == d.spec.selector
    && c.spec.rest == d.spec.rest
    && SameButAdmission(c.spec.template, d.spec.template)
  }

  predicate SameService(c: Service, d: Service) {
    && c.meta.labels == d.meta.labels
    && c.spec.kind == d.spec.kind
    && c.spec.clusterIP == d.spec.clusterIP
    && c.spec.selector == d.spec.selector
    && c.spec.ports == d.spec.ports
    && c.spec.rest == d.spec.rest
  }

  /** The four comparisons look at the labels and every field of the spec, the template up to admission. */
  lemma EqualObjectsIff(d: Deployment, d': Deployment, s: StatefulSet, s': StatefulSet, g: DaemonSet, g': DaemonSet,
                        v: Service, v': Service)
    ensures EqualDeployment(d, d') <==> SameDeployment(d, d')
    ensures EqualStatefulSet(s, s') <==> SameStatefulSet(s, s')
    ensures EqualDaemonSet(g, g') <==> SameDaemonSet(g, g')
    ensures EqualService(v, v') <==> SameService(v, v')
  {
    EqualTemplateIff(d.spec.template, d'.spec.template);
    EqualTemplateIff(s.spec.template, s'.spec.template);
    EqualTemplateIff(g.spec.template, g'.spec.template);
  }

  // ----- Admission -----

  /** The server inserted ignored tolerations and pinned images, nothing else. */
  ghost predicate AdmissionRewrites(desired: PodTemplate, stored: PodTemplate) {
    && InsertsIgnored(desired.tolerations, stored.tolerations)
    && SameButImages(stored.initContainers, desired.initContainers)
    && SameButImages(stored.containers, desired.containers)
    && stored == desired.(tolerations := stored.tolerations, initContainers := stored.initContainers,
                          containers := stored.containers)
  }

  lemma AdmissionComparesEqual(desired: PodTemplate, stored: PodTemplate)
    requires AdmissionRewrites(desired, stored)
    ensures EqualTemplate(stored, desired)
  {
    InsertedIsIgnored(desired.tolerations, stored.tolerations);
    TolerationsIff(stored.tolerations, desired.tolerations);
    EqualTemplateIff(stored, desired);
  }

  /** Whatever admission does to a workload of any kind, the stored object compares equal to the desired one. */
  lemma AdmittedWorkloadsCompareEqual(d: Deployment, d': Deployment, s: StatefulSet, s': StatefulSet, g: DaemonSet,
                                      g': DaemonSet)
    requires d'.meta.labels == d.meta.labels && d'.spec == d.spec.(template := d'.spec.template)
    requires s'.meta.labels == s.meta.labels && s'.spec == s.spec.(template := s'.spec.template)
    requires g'.meta.labels == g.meta.labels && g'.spec == g.spec.(template := g'.spec.template)
    requires AdmissionRewrites(d.spec.template, d'.spec.template)
    requires AdmissionRewrites(s.spec.template, s'.spec.template)
    requires AdmissionRewrites(g.spec.template, g'.spec.template)
    ensures EqualDeployment(d', d) && EqualStatefulSet(s', s) && EqualDaemonSet(g', g)
  {
    AdmissionComparesEqual(d.spec.template, d'.spec.template);
    AdmissionComparesEqual(s.spec.template, s'.spec.template);
    AdmissionComparesEqual(g.spec.template, g'.spec.template);
  }

  /** The comparison is reflexive. */
  lemma EqualReflexive(t: PodTemplate)
    ensures EqualTemplate(t, t)
  {
    EqualTemplateIff(t, t);
  }
}
