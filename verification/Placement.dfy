/** Placement constraints (toNodeAffinity, internal/convert/placement.go). */
module Placement {
  import opened Wrappers
  import opened Text
  import opened Platform
  import C = Compose
  import K = Kube

  const KUBERNETES_OS := "beta.kubernetes.io/os"
  const KUBERNETES_ARCH := "beta.kubernetes.io/arch"
  const KUBERNETES_HOSTNAME := "kubernetes.io/hostname"

  function ToRequirementOperator(sign: string): Result<string> {
    if sign == "==" then Ok("In")
    else if sign == "!=" then Ok("NotIn")
    else if sign == ">" then Ok("Gt")
    else if sign == "<" then Ok("Lt")
    else Err("operator " + sign + " not supported")
  }

  function ToRequirement(key: string, c: C.Constraint): Result<K.Requirement> {
    var operator :- ToRequirementOperator(c.operator);
    Ok(K.Requirement(key, operator, c.value))
  }

  function OptionalRequirement(key: string, c: Option<C.Constraint>): Result<seq<K.Requirement>> {
    match c
    case None => Ok([])
    case Some(c) =>
      var r :- ToRequirement(key, c);
      Ok([r])
  }

  /** The loop over MatchLabels, in the given order of keys. */
  function LabelRequirements(m: map<string, C.Constraint>, order: seq<string>): Result<seq<K.Requirement>> {
    if order == [] then Ok([])
    else
      var n := |order| - 1;
      var before :- LabelRequirements(m, order[..n]);
      if order[n] !in m then Ok(before) else
        var r :- ToRequirement(order[n], m[order[n]]);
        Ok(before + [r])
  }

  predicate HasRequirement(requirements: seq<K.Requirement>, key: string) {
    exists i :: 0 <= i < |requirements| && requirements[i].key == key
  }

  function WithDefault(requirements: seq<K.Requirement>, key: string, value: string): seq<K.Requirement> {
    if HasRequirement(requirements, key) then requirements else requirements + [K.Requirement(key, "In", value)]
  }

  function Requirements(c: C.Constraints, order: seq<string>): Result<seq<K.Requirement>> {
    var os :- OptionalRequirement(KUBERNETES_OS, c.operatingSystem);
    var arch :- OptionalRequirement(KUBERNETES_ARCH, c.architecture);
    var host :- OptionalRequirement(KUBERNETES_HOSTNAME, c.hostname);
    var labels :- LabelRequirements(c.matchLabels, order);
    Ok(WithDefault(WithDefault(os + arch + host + labels, KUBERNETES_OS, "linux"), KUBERNETES_ARCH, "amd64"))
  }

  function ToNodeAffinity(p: Platform, constraints: Option<C.Constraints>): Result<seq<K.Requirement>> {
    var c := constraints.GetOr(C.Constraints(None, None, None, map[]));
    Requirements(c, p.labelOrder(c.matchLabels))
  }

  // ----- When the walk's order does not matter -----

  lemma {:induction false} LabelRequirementsKeys(m: map<string, C.Constraint>, order: seq<string>)
    requires (forall k :: k in order ==> k in m) && LabelRequirements(m, order).Ok?
    ensures var r := LabelRequirements(m, order).value;
            |r| == |order| && forall i :: 0 <= i < |r| ==> r[i].key == order[i]
  {
    if order != [] {
      LabelRequirementsKeys(m, order[..|order| - 1]);
    }
  }

  /** Whether the conversion fails does not depend on the order. */
  lemma {:induction false} LabelRequirementsFail(m: map<string, C.Constraint>, order: seq<string>)
    requires forall k :: k in order ==> k in m
    ensures LabelRequirements(m, order).Ok? <==> forall k :: k in order ==> ToRequirement(k, m[k]).Ok?
  {
    if order != [] {
      var n := |order| - 1;
      LabelRequirementsFail(m, order[..n]);
      assert forall k :: k in order <==> k in order[..n] || k == order[n];
    }
  }

  predicate SupportedSign(sign: string) { sign in ["==", "!=", ">", "<"] }

  predicate SupportedIf(c: Option<C.Constraint>) { c.Some? ==> SupportedSign(c.value.operator) }

  /** Every constraint uses one of the four operators. */
  predicate Supported(c: C.Constraints) {
    && SupportedIf(c.operatingSystem) && SupportedIf(c.architecture) && SupportedIf(c.hostname)
    && forall k :: k in c.matchLabels ==> SupportedSign(c.matchLabels[k].operator)
  }

  lemma SignSupported(key: string, c: C.Constraint)
    ensures ToRequirement(key, c).Ok? <==> SupportedSign(c.operator)
  {
  }

  lemma OptionalOkIff(key: string, c: Option<C.Constraint>)
    ensures OptionalRequirement(key, c).Ok? <==> SupportedIf(c)
  {
    if c.Some? { SignSupported(key, c.value); }
  }

  lemma LabelsOkIff(m: map<string, C.Constraint>, order: seq<string>)
    requires Enumerates(order, m)
    ensures LabelRequirements(m, order).Ok? <==> forall k :: k in m ==> SupportedSign(m[k].operator)
  {
    LabelRequirementsFail(m, order);
    forall k | k in m ensures ToRequirement(k, m[k]).Ok? <==> SupportedSign(m[k].operator) {
      SignSupported(k, m[k]);
    }
  }

  /** The conversion fails exactly on an unsupported operator, whatever the order. */
  lemma FailsOnUnsupported(c: C.Constraints, order: seq<string>)
    requires Enumerates(order, c.matchLabels)
    ensures Requirements(c, order).Ok? <==> Supported(c)
  {
    OptionalOkIff(KUBERNETES_OS, c.operatingSystem);
    OptionalOkIff(KUBERNETES_ARCH, c.architecture);
    OptionalOkIff(KUBERNETES_HOSTNAME, c.hostname);
    LabelsOkIff(c.matchLabels, order);
  }

  lemma {:induction false} EnumerationLength(p: seq<string>, keys: set<string>)
    requires (forall k :: k in p <==> k in keys) && forall i, j :: 0 <= i < j < |p| ==> p[i] != p[j]
    ensures |p| == |keys|
  {
    if p == [] {
      assert keys == {};
    } else {
      var n := |p| - 1;
      assert p[n] in p;
      forall k ensures k in p[..n] <==> k in keys - {p[n]} {
        assert k in p[..n] ==> k in p;
      }
      EnumerationLength(p[..n], keys - {p[n]});
    }
  }

  // ----- What the requirements are -----

  predicate SignMeans(sign: string, operator: string) {
    || (sign == "==" && operator == "In") || (sign == "!=" && operator == "NotIn")
    || (sign == ">" && operator == "Gt") || (sign == "<" && operator == "Lt")
  }

  /** The requirement of one constraint. */
  predicate Demands(key: string, c: C.Constraint, r: K.Requirement) {
    r.key == key && r.value == c.value && SignMeans(c.operator, r.operator)
  }

  predicate DemandsIf(key: string, c: Option<C.Constraint>, r: K.Requirement) { c.Some? && Demands(key, c.value, r) }

  /** The requirement of some constraint. */
  predicate Demanded(c: C.Constraints, r: K.Requirement) {
    || DemandsIf("beta.kubernetes.io/os", c.operatingSystem, r)
    || DemandsIf("beta.kubernetes.io/arch", c.architecture, r)
    || DemandsIf("kubernetes.io/hostname", c.hostname, r)
    || (r.key in c.matchLabels && Demands(r.key, c.matchLabels[r.key], r))
  }

  /** Linux and amd64, where no constraint speaks of the operating system or the architecture. */
  predicate Assumed(c: C.Constraints, r: K.Requirement) {
    || (r == K.Requirement("beta.kubernetes.io/os", "In", "linux")
        && c.operatingSystem.None? && "beta.kubernetes.io/os" !in c.matchLabels)
    || (r == K.Requirement("beta.kubernetes.io/arch", "In", "amd64")
        && c.architecture.None? && "beta.kubernetes.io/arch" !in c.matchLabels)
  }

  ghost predicate AffinityFor(c: C.Constraints, requirements: seq<K.Requirement>) {
    forall r :: r in requirements <==> Demanded(c, r) || Assumed(c, r)
  }

  lemma OptionalMeans(key: string, c: Option<C.Constraint>, r: K.Requirement)
    requires OptionalRequirement(key, c).Ok?
    ensures r in OptionalRequirement(key, c).value <==> DemandsIf(key, c, r)
  {
  }

  lemma {:induction false} LabelsMean(m: map<string, C.Constraint>, order: seq<string>, r: K.Requirement)
    requires (forall k :: k in order ==> k in m) && LabelRequirements(m, order).Ok?
    ensures r in LabelRequirements(m, order).value <==> r.key in order && Demands(r.key, m[r.key], r)
  {
    if order != [] {
      var n := |order| - 1;
      LabelsMean(m, order[..n], r);
      assert r.key in order <==> r.key in order[..n] || r.key == order[n];
    }
  }

  lemma DefaultMeans(requirements: seq<K.Requirement>, key: string, value: string, r: K.Requirement)
    ensures r in WithDefault(requirements, key, value) <==>
            r in requirements || (r == K.Requirement(key, "In", value) && !HasRequirement(requirements, key))
  {
  }

  /** A key is spoken of exactly if some constraint is about it. */
  lemma SpokenOf(c: C.Constraints, requirements: seq<K.Requirement>, key: string)
    requires Supported(c) && forall r :: r in requirements <==> Demanded(c, r)
    ensures HasRequirement(requirements, key) <==>
            || (key == KUBERNETES_OS && c.operatingSystem.Some?) || (key == KUBERNETES_ARCH && c.architecture.Some?)
            || (key == KUBERNETES_HOSTNAME && c.hostname.Some?) || key in c.matchLabels
  {
    if HasRequirement(requirements, key) {
      var i :| 0 <= i < |requirements| && requirements[i].key == key;
      assert Demanded(c, requirements[i]);
    }
    if key == KUBERNETES_OS && c.operatingSystem.Some? {
      Stated(c, requirements, key, c.operatingSystem.value);
    } else if key == KUBERNETES_ARCH && c.architecture.Some? {
      Stated(c, requirements, key, c.architecture.value);
    } else if key == KUBERNETES_HOSTNAME && c.hostname.Some? {
      Stated(c, requirements, key, c.hostname.value);
    } else if key in c.matchLabels {
      Stated(c, requirements, key, c.matchLabels[key]);
    }
  }

  lemma Stated(c: C.Constraints, requirements: seq<K.Requirement>, key: string, constraint: C.Constraint)
    requires SupportedSign(constraint.operator)
    requires forall r :: Demands(key, constraint, r) ==> r in requirements
    ensures HasRequirement(requirements, key)
  {
    var operator := ToRequirementOperator(constraint.operator).value;
    var r := K.Requirement(key, operator, constraint.value);
    assert Demands(key, constraint, r);
    var i :| 0 <= i < |requirements| && requirements[i] == r;
    assert requirements[i].key == key;
  }

  lemma GivenMeans(c: C.Constraints, order: seq<string>, given: seq<K.Requirement>, r: K.Requirement)
    requires Enumerates(order, c.matchLabels) && Supported(c)
    requires OptionalRequirement(KUBERNETES_OS, c.operatingSystem).Ok?
    requires OptionalRequirement(KUBERNETES_ARCH, c.architecture).Ok?
    requires OptionalRequirement(KUBERNETES_HOSTNAME, c.hostname).Ok? && LabelRequirements(c.matchLabels, order).Ok?
    requires given == OptionalRequirement(KUBERNETES_OS, c.operatingSystem).value
                      + OptionalRequirement(KUBERNETES_ARCH, c.architecture).value
                      + OptionalRequirement(KUBERNETES_HOSTNAME, c.hostname).value
                      + LabelRequirements(c.matchLabels, order).value
    ensures r in given <==> Demanded(c, r)
  {
    OptionalMeans(KUBERNETES_OS, c.operatingSystem, r);
    OptionalMeans(KUBERNETES_ARCH, c.architecture, r);
    OptionalMeans(KUBERNETES_HOSTNAME, c.hostname, r);
    LabelsMean(c.matchLabels, order, r);
  }

  lemma DefaultsMean(c: C.Constraints, given: seq<K.Requirement>, r: K.Requirement)
    requires Supported(c) && forall r :: r in given <==> Demanded(c, r)
    ensures r in WithDefault(WithDefault(given, KUBERNETES_OS, "linux"), KUBERNETES_ARCH, "amd64") <==>
            Demanded(c, r) || Assumed(c, r)
  {
    var once := WithDefault(given, KUBERNETES_OS, "linux");
    DefaultMeans(given, KUBERNETES_OS, "linux", r);
    DefaultMeans(once, KUBERNETES_ARCH, "amd64", r);
    SpokenOf(c, given, KUBERNETES_OS);
    SpokenOf(c, given, KUBERNETES_ARCH);
    assert HasRequirement(once, KUBERNETES_ARCH) <==> HasRequirement(given, KUBERNETES_ARCH) by {
      if HasRequirement(given, KUBERNETES_ARCH) {
        var i :| 0 <= i < |given| && given[i].key == KUBERNETES_ARCH;
        assert once[i].key == KUBERNETES_ARCH;
      }
      if HasRequirement(once, KUBERNETES_ARCH) {
        var i :| 0 <= i < |once| && once[i].key == KUBERNETES_ARCH;
        assert i < |given| && given[i].key == KUBERNETES_ARCH;
      }
    }
  }

  /** Every constraint becomes its requirement, and nothing else is required but the defaults. */
  lemma RequirementsMean(c: C.Constraints, order: seq<string>)
    requires Enumerates(order, c.matchLabels) && Requirements(c, order).Ok?
    ensures AffinityFor(c, Requirements(c, order).value)
  {
    FailsOnUnsupported(c, order);
    var given := OptionalRequirement(KUBERNETES_OS, c.operatingSystem).value
                 + OptionalRequirement(KUBERNETES_ARCH, c.architecture).value
                 + OptionalRequirement(KUBERNETES_HOSTNAME, c.hostname).value
                 + LabelRequirements(c.matchLabels, order).value;
    forall r ensures r in given <==> Demanded(c, r) {
      GivenMeans(c, order, given, r);
    }
    forall r ensures r in Requirements(c, order).value <==> Demanded(c, r) || Assumed(c, r) {
      DefaultsMean(c, given, r);
    }
  }

  lemma SingleOrder(m: map<string, C.Constraint>, p: seq<string>, q: seq<string>)
    requires |m| <= 1 && Enumerates(p, m) && Enumerates(q, m)
    ensures p == q
  {
    EnumerationLength(p, m.Keys);
    EnumerationLength(q, m.Keys);
    assert |m| == |m.Keys|;
    if |p| == 1 {
      assert p[0] in p && p[0] in q;
    }
  }

  lemma Subset(a: set<string>, b: set<string>)
    requires a <= b
    ensures |a| <= |b|
  {
    assert b == a + (b - a);
    assert |b| == |a| + |b - a|;
  }

  function Reversed(q: seq<string>): (r: seq<string>)
    ensures |r| == |q| && forall i :: 0 <= i < |q| ==> r[i] == q[|q| - 1 - i]
  {
    seq(|q|, i requires 0 <= i < |q| => q[|q| - 1 - i])
  }

  lemma {:induction false} IncreasingDistinct(q: seq<string>)
    requires Increasing(q)
    ensures forall i, j :: 0 <= i < j < |q| ==> q[i] != q[j]
  {
    forall i, j | 0 <= i < j < |q| ensures q[i] != q[j] {
      LessIrreflexive(q[i]);
    }
  }

  lemma TwoOrders(m: map<string, C.Constraint>) returns (p: seq<string>, q: seq<string>)
    requires |m| >= 2
    ensures Enumerates(p, m) && Enumerates(q, m) && p != [] && q != [] && p[0] != q[0]
  {
    p := Sorted(m.Keys);
    q := Reversed(p);
    IncreasingDistinct(p);
    forall k ensures k in q <==> k in m {
      if k in m {
        assert k in p;
        var i :| 0 <= i < |p| && p[i] == k;
        assert q[|p| - 1 - i] == k;
      }
      if k in q {
        var i :| 0 <= i < |q| && q[i] == k;
        assert p[|q| - 1 - i] == k && k in p;
      }
    }
    assert |p| >= 2 by {
      if |p| < 2 {
        assert m.Keys <= (if |p| == 1 then {p[0]} else {});
        Subset(m.Keys, if |p| == 1 then {p[0]} else {});
      }
    }
  }

  /**
  The generated requirements are the same for every order in which MatchLabels is walked
  exactly when there is at most one label or the constraints cannot be converted at all.
  */
  lemma OrderMattersFromTwoLabels(c: C.Constraints)
    ensures (forall p, q :: Enumerates(p, c.matchLabels) && Enumerates(q, c.matchLabels) ==>
               Requirements(c, p).Err? || Requirements(c, p) == Requirements(c, q))
            <==> |c.matchLabels| <= 1 || !Supported(c)
  {
    var m := c.matchLabels;
    forall p | Enumerates(p, m) ensures Requirements(c, p).Ok? <==> Supported(c) {
      FailsOnUnsupported(c, p);
    }
    if |m| <= 1 {
      forall p, q | Enumerates(p, m) && Enumerates(q, m) ensures Requirements(c, p) == Requirements(c, q) {
        SingleOrder(m, p, q);
      }
    } else if Supported(c) {
      var p, q := TwoOrders(m);
      DifferentHeads(c, p, q);
    }
  }

  lemma DifferentHeads(c: C.Constraints, p: seq<string>, q: seq<string>)
    requires Enumerates(p, c.matchLabels) && Enumerates(q, c.matchLabels) && p != [] && q != [] && p[0] != q[0]
    requires Requirements(c, p).Ok? && Requirements(c, q).Ok?
    ensures Requirements(c, p) != Requirements(c, q)
  {
    LabelRequirementsKeys(c.matchLabels, p);
    LabelRequirementsKeys(c.matchLabels, q);
    var base: seq<K.Requirement> := OptionalRequirement(KUBERNETES_OS, c.operatingSystem).value
                + OptionalRequirement(KUBERNETES_ARCH, c.architecture).value
                + OptionalRequirement(KUBERNETES_HOSTNAME, c.hostname).value;
    var lp: seq<K.Requirement> := LabelRequirements(c.matchLabels, p).value;
    var lq: seq<K.Requirement> := LabelRequirements(c.matchLabels, q).value;
    assert (base + lp)[|base|].key == p[0] && (base + lq)[|base|].key == q[0];
    assert Requirements(c, p).value[|base|].key == p[0];
    assert Requirements(c, q).value[|base|].key == q[0];
  }
}
