/** Volumes, mounts and claim templates (internal/convert/volumes.go, internal/convert/pvc.go). */
module Volumes {
  import opened Wrappers
  import opened Text
  import opened Platform
  import C = Compose
  import K = Kube

  const DOCKER_SOCK := "/var/run/docker.sock"

  datatype VolumeSpec = VolumeSpec(mount: K.VolumeMount, source: Option<K.VolumeSource>)

  predicate HasPersistentVolumes(srv: C.Service) {
    exists i :: 0 <= i < |srv.volumes| && srv.volumes[i].kind == "volume"
  }

  /** "mount-0", "tmp-3" and so on. */
  function Generated(kind: string, i: nat): string { kind + "-" + FormatNat(i) }

  function Or(v: string, default: string): string {
    if v != "" && v != "." then v else default
  }

  function DefaultMode(mode: Option<C.uint32>): Option<int> {
    match mode case None => None case Some(m) => Some(C.ToInt32(m))
  }

  function ToKey(p: Platform, file: string): string {
    if file != "" then p.baseName(file) else "file"
  }

  /** The part of an absolute path before its last element, and that element (filepath.Split). */
  function LastSlash(path: string): (i: nat)
    requires path != [] && path[0] == '/'
    ensures i < |path| && path[i] == '/' && '/' !in path[i + 1..]
  {
    if path[|path| - 1] == '/' then |path| - 1
    else
      var i := LastSlash(path[..|path| - 1]);
      assert path[i + 1..] == path[..|path| - 1][i + 1..] + [path[|path| - 1]];
      i
  }

  function BindMount(source: string): Result<(K.VolumeSource, string)> {
    if source == "" || source[0] != '/' then Err(source + ": only absolute paths can be specified in mount source")
    else if source == "/" then Ok((K.HostPath("/"), ""))
    else
      var cut := LastSlash(source);
      Ok((K.HostPath(if cut == 0 then "/" else source[..cut]), source[cut + 1..]))
  }

  /** The body of the first loop of toVolumeSpecs. */
  function MountSpec(i: nat, m: C.Volume): Result<VolumeSpec> {
    var name := Generated("mount", i);
    if m.source == DOCKER_SOCK && m.target == DOCKER_SOCK then
      Ok(VolumeSpec(K.VolumeMount(name, m.target, m.readOnly, "docker.sock"), Some(K.HostPath("/var/run"))))
    else if HasSuffix(m.source, ".git") then
      Ok(VolumeSpec(K.VolumeMount(name, m.target, m.readOnly, ""), Some(K.GitRepo(m.source))))
    else if m.kind == "volume" then
      Ok(VolumeSpec(K.VolumeMount(if m.source != "" then m.source else name, m.target, m.readOnly, ""), None))
    else
      var bind :- BindMount(m.source);
      Ok(VolumeSpec(K.VolumeMount(name, m.target, m.readOnly, bind.1), Some(bind.0)))
  }

  function MountSpecs(volumes: seq<C.Volume>): Result<seq<VolumeSpec>> {
    if volumes == [] then Ok([])
    else
      var n := |volumes| - 1;
      var before :- MountSpecs(volumes[..n]);
      var spec :- MountSpec(n, volumes[n]);
      Ok(before + [spec])
  }

  function TmpSpec(i: nat, target: string): VolumeSpec {
    VolumeSpec(K.VolumeMount(Generated("tmp", i), target, false, ""), Some(K.MemoryDir))
  }

  function SecretSpec(p: Platform, spec: C.StackSpec, i: nat, s: C.FileReference): VolumeSpec {
    var name := Generated("secret", i);
    var file := if s.source in spec.secrets then spec.secrets[s.source].file else "";
    VolumeSpec(K.VolumeMount(name, p.joinPath("/run/secrets", Or(s.target, s.source)), true, name),
               Some(K.SecretFile(s.source, ToKey(p, file), name, DefaultMode(s.mode))))
  }

  function ConfigSpec(p: Platform, spec: C.StackSpec, i: nat, c: C.FileReference): VolumeSpec {
    var name := Generated("config", i);
    var file := if c.source in spec.configs then spec.configs[c.source].file else "";
    VolumeSpec(K.VolumeMount(name, Or(c.target, "/" + c.source), true, name),
               Some(K.ConfigMapFile(c.source, ToKey(p, file), name, DefaultMode(c.mode))))
  }

  function TmpSpecs(srv: C.Service): seq<VolumeSpec> {
    seq(|srv.tmpfs|, i requires 0 <= i < |srv.tmpfs| => TmpSpec(i, srv.tmpfs[i]))
  }

  function SecretSpecs(p: Platform, srv: C.Service, spec: C.StackSpec): seq<VolumeSpec> {
    seq(|srv.secrets|, i requires 0 <= i < |srv.secrets| => SecretSpec(p, spec, i, srv.secrets[i]))
  }

  function ConfigSpecs(p: Platform, srv: C.Service, spec: C.StackSpec): seq<VolumeSpec> {
    seq(|srv.configs|, i requires 0 <= i < |srv.configs| => ConfigSpec(p, spec, i, srv.configs[i]))
  }

  function ToVolumeSpecs(p: Platform, srv: C.Service, spec: C.StackSpec): Result<seq<VolumeSpec>> {
    var mounts :- MountSpecs(srv.volumes);
    Ok(mounts + TmpSpecs(srv) + SecretSpecs(p, srv, spec) + ConfigSpecs(p, srv, spec))
  }

  function MountsOf(specs: seq<VolumeSpec>): (r: seq<K.VolumeMount>) {
    seq(|specs|, i requires 0 <= i < |specs| => specs[i].mount)
  }

  function VolumesOf(specs: seq<VolumeSpec>): (r: seq<K.Volume>) {
    if specs == [] then []
    else
      var last := specs[|specs| - 1];
      var before := VolumesOf(specs[..|specs| - 1]);
      if last.source.Some? then before + [K.Volume(last.mount.name, last.source.value)] else before
  }

  // ----- Claim templates -----

  function ClaimName(i: nat, v: C.Volume): string {
    if v.source != "" then v.source else Generated("mount", i)
  }

  /** The claim of that name the stored object has: the last one. */
  function OriginalClaim(original: seq<K.Claim>, name: string): K.Claim {
    if original == [] then K.Claim("", map[], [], map[], "")
    else if original[|original| - 1].name == name then original[|original| - 1]
    else OriginalClaim(original[..|original| - 1], name)
  }

  function ToClaim(srv: C.Service, original: seq<K.Claim>, name: string): K.Claim {
    OriginalClaim(original, name).(
      name := name, annotations := srv.deploy.labels, accessModes := ["ReadWriteOnce"],
          requests := map["storage" := "100Mi"])
  }

  function ClaimsUpTo(srv: C.Service, original: seq<K.Claim>, n: nat): seq<K.Claim>
    requires n <= |srv.volumes|
  {
    if n == 0 then []
    else
      var before := ClaimsUpTo(srv, original, n - 1);
      if srv.volumes[n - 1].kind == "volume"
      then before + [ToClaim(srv, original, ClaimName(n - 1, srv.volumes[n - 1]))] else before
  }

  function ToPersistentVolumeClaims(srv: C.Service, original: seq<K.Claim>): seq<K.Claim> {
    ClaimsUpTo(srv, original, |srv.volumes|)
  }

  // ----- The loops of the source -----

  method ConvertMounts(srv: C.Service) returns (r: Result<seq<VolumeSpec>>)
    ensures r.Ok? <==> MountSpecs(srv.volumes).Ok?
    ensures r.Ok? ==> r == MountSpecs(srv.volumes)
  {
    var specs: seq<VolumeSpec> := [];
    for i := 0 to |srv.volumes|
      invariant MountSpecs(srv.volumes[..i]) == Ok(specs)
    {
      assert srv.volumes[..i + 1][..i] == srv.volumes[..i];
      var next := MountSpec(i, srv.volumes[i]);
      if next.Err? {
        MountSpecsPrefix(srv.volumes, i + 1);
        return Err(next.message);
      }
      specs := specs + [next.value];
    }
    assert srv.volumes[..|srv.volumes|] == srv.volumes;
    return Ok(specs);
  }

  method ConvertTmpfs(srv: C.Service) returns (specs: seq<VolumeSpec>)
    ensures specs == TmpSpecs(srv)
  {
    specs := [];
    for i := 0 to |srv.tmpfs|
      invariant specs == TmpSpecs(srv)[..i]
    {
      specs := specs + [TmpSpec(i, srv.tmpfs[i])];
    }
  }

  method ConvertSecrets(p: Platform, srv: C.Service, spec: C.StackSpec) returns (specs: seq<VolumeSpec>)
    ensures specs == SecretSpecs(p, srv, spec)
  {
    specs := [];
    for i := 0 to |srv.secrets|
      invariant specs == SecretSpecs(p, srv, spec)[..i]
    {
      specs := specs + [SecretSpec(p, spec, i, srv.secrets[i])];
    }
  }

  method ConvertConfigs(p: Platform, srv: C.Service, spec: C.StackSpec) returns (specs: seq<VolumeSpec>)
    ensures specs == ConfigSpecs(p, srv, spec)
  {
    specs := [];
    for i := 0 to |srv.configs|
      invariant specs == ConfigSpecs(p, srv, spec)[..i]
    {
      specs := specs + [ConfigSpec(p, spec, i, srv.configs[i])];
    }
  }

  /** toVolumeSpecs as written: one loop per list. */
  method ConvertVolumeSpecs(p: Platform, srv: C.Service, spec: C.StackSpec) returns (r: Result<seq<VolumeSpec>>)
    ensures r.Ok? <==> ToVolumeSpecs(p, srv, spec).Ok?
    ensures r.Ok? ==> r == ToVolumeSpecs(p, srv, spec)
  {
    var mounts :- ConvertMounts(srv);
    var tmpfs := ConvertTmpfs(srv);
    var secrets := ConvertSecrets(p, srv, spec);
    var configs := ConvertConfigs(p, srv, spec);
    return Ok(mounts + tmpfs + secrets + configs);
  }

  lemma {:induction false} MountSpecsPrefix(volumes: seq<C.Volume>, n: nat)
    requires n <= |volumes| && MountSpecs(volumes[..n]).Err?
    ensures MountSpecs(volumes).Err?
  {
    if n == |volumes| {
      assert volumes[..n] == volumes;
    } else {
      var init := volumes[..|volumes| - 1];
      assert init[..n] == volumes[..n];
      MountSpecsPrefix(init, n);
    }
  }

  /** toPersistentVolumeClaims as written, through a map of the original claims. */
  method ConvertClaims(srv: C.Service, original: seq<K.Claim>) returns (claims: seq<K.Claim>)
    ensures claims == ToPersistentVolumeClaims(srv, original)
  {
    var originals: map<string, K.Claim> := map[];
    for i := 0 to |original|
      invariant forall name ::
                  (if name in originals then originals[name] else K.Claim("", map[], [], map[],
                      "")) == OriginalClaim(original[..i], name)
    {
      assert original[..i + 1][..i] == original[..i];
      originals := originals[original[i].name := original[i]];
    }
    assert original[..|original|] == original;
    claims := [];
    for i := 0 to |srv.volumes|
      invariant claims == ClaimsUpTo(srv, original, i)
    {
      var volume := srv.volumes[i];
      if volume.kind == "volume" {
        var name := Generated("mount", i);
        if volume.source != "" {
          name := volume.source;
        }
        var v := if name in originals then originals[name] else K.Claim("", map[], [], map[], "");
        v := v.(name := name, annotations := srv.deploy.labels, accessModes := ["ReadWriteOnce"],
                requests := map["storage" := "100Mi"]);
        claims := claims + [v];
      }
    }
  }

  // ----- Generated names do not collide -----

  predicate Kind(kind: string) {
    kind == "mount" || kind == "tmp" || kind == "secret" || kind == "config"
  }

  lemma GeneratedInjective(k1: string, i1: nat, k2: string, i2: nat)
    requires Kind(k1) && Kind(k2) && Generated(k1, i1) == Generated(k2, i2)
    ensures k1 == k2 && i1 == i2
  {
    var g1, g2 := Generated(k1, i1), Generated(k2, i2);
    assert g1[|k1|] == '-' && g2[|k2|] == '-';
    assert forall i :: 0 <= i < |k1| ==> g1[i] == k1[i] && g1[i] != '-';
    assert forall i :: 0 <= i < |k2| ==> g2[i] == k2[i] && g2[i] != '-';
    assert |k1| == |k2|;
    assert g1[..|k1|] == k1 && g2[..|k2|] == k2;
    assert g1[|k1| + 1..] == FormatNat(i1) && g2[|k2| + 1..] == FormatNat(i2);
    FormatNatInjective(i1, i2);
  }

  /** Which list, and which place in it, spec number `k` comes from. */
  function Origin(srv: C.Service, k: nat): (o: (string, nat))
    ensures Kind(o.0)
  {
    var v, t, s := |srv.volumes|, |srv.tmpfs|, |srv.secrets|;
    if k < v then ("mount", k)
    else if k < v + t then ("tmp", k - v)
    else if k < v + t + s then ("secret", k - v - t)
    else ("config", k - v - t - s)
  }

  lemma {:induction false} MountSpecsAt(volumes: seq<C.Volume>, k: nat)
    requires MountSpecs(volumes).Ok? && k < |volumes|
    ensures |MountSpecs(volumes).value| == |volumes| && MountSpec(k, volumes[k]) == Ok(MountSpecs(volumes).value[k])
  {
    var n := |volumes| - 1;
    if n > 0 {
      MountSpecsAt(volumes[..n], if k < n then k else 0);
    }
  }

  /** A git repository, a volume or an absolute path. */
  predicate Mountable(m: C.Volume) {
    HasSuffix(m.source, ".git") || m.kind == "volume" || (m.source != "" && m.source[0] == '/')
  }

  lemma MountableIff(i: nat, m: C.Volume)
    ensures MountSpec(i, m).Ok? <==> Mountable(m)
  {
  }

  lemma {:induction false} MountSpecsOkIff(volumes: seq<C.Volume>)
    ensures MountSpecs(volumes).Ok? <==> forall i :: 0 <= i < |volumes| ==> Mountable(volumes[i])
  {
    if volumes != [] {
      var n := |volumes| - 1;
      MountSpecsOkIff(volumes[..n]);
      assert forall i :: 0 <= i < n ==> volumes[..n][i] == volumes[i];
      MountableIff(n, volumes[n]);
    }
  }

  lemma MountSpecsLength(volumes: seq<C.Volume>)
    requires MountSpecs(volumes).Ok?
    ensures |MountSpecs(volumes).value| == |volumes|
  {
    if volumes != [] {
      MountSpecsAt(volumes, 0);
    }
  }

  /** A spec with a source carries the generated name of its origin; one without is a named or anonymous volume. */
  lemma SpecAt(p: Platform, srv: C.Service, spec: C.StackSpec, k: nat)
    requires ToVolumeSpecs(p, srv, spec).Ok? && k < |ToVolumeSpecs(p, srv, spec).value|
    ensures var s := ToVolumeSpecs(p, srv, spec).value[k];
            var o := Origin(srv, k);
            if s.source.Some? then s.mount.name == Generated(o.0, o.1)
            else k < |srv.volumes| && srv.volumes[k].kind == "volume" && s.mount.name == ClaimName(k, srv.volumes[k])
  {
    MountSpecsLength(srv.volumes);
    if k < |srv.volumes| {
      MountSpecsAt(srv.volumes, k);
    }
  }

  /** A volume-typed entry without a source is never a pod volume. */
  lemma AnonymousHasNoSource(p: Platform, srv: C.Service, spec: C.StackSpec, k: nat)
    requires ToVolumeSpecs(p, srv, spec).Ok? && k < |srv.volumes|
    requires srv.volumes[k].kind == "volume" && srv.volumes[k].source == ""
    ensures k < |ToVolumeSpecs(p, srv, spec).value| && ToVolumeSpecs(p, srv, spec).value[k].source.None?
  {
    MountSpecsAt(srv.volumes, k);
  }

  ghost predicate IsPodVolume(specs: seq<VolumeSpec>, name: string) {
    exists k :: 0 <= k < |specs| && specs[k].source.Some? && specs[k].mount.name == name
  }

  lemma {:induction false} VolumesOfNames(specs: seq<VolumeSpec>, name: string)
    ensures (exists v :: v in VolumesOf(specs) && v.name == name) <==> IsPodVolume(specs, name)
  {
    if specs != [] {
      var n := |specs| - 1;
      var before := specs[..n];
      VolumesOfNames(before, name);
      if IsPodVolume(specs, name) {
        var k :| 0 <= k < |specs| && specs[k].source.Some? && specs[k].mount.name == name;
        if k < n {
          assert before[k] == specs[k];
          var v :| v in VolumesOf(before) && v.name == name;
          assert v in VolumesOf(specs);
        } else {
          assert K.Volume(name, specs[n].source.value) in VolumesOf(specs);
        }
      }
      if v :| v in VolumesOf(specs) && v.name == name {
        if v in VolumesOf(before) {
          var k :| 0 <= k < n && before[k].source.Some? && before[k].mount.name == name;
          assert specs[k] == before[k];
        } else {
          assert specs[n].source.Some? && specs[n].mount.name == name;
        }
      }
    }
  }

  predicate DistinctNames(volumes: seq<K.Volume>) {
    forall i, j :: 0 <= i < j < |volumes| ==> volumes[i].name != volumes[j].name
  }

  predicate DistinctMounts(specs: seq<VolumeSpec>) {
    forall i, j :: 0 <= i < j < |specs| && specs[i].source.Some? && specs[j].source.Some? ==>
        specs[i].mount.name != specs[j].mount.name
  }

  /** Pod volume names are pairwise distinct in every generated template. */
  lemma VolumeNamesDistinct(p: Platform, srv: C.Service, spec: C.StackSpec)
    requires ToVolumeSpecs(p, srv, spec).Ok?
    ensures DistinctNames(VolumesOf(ToVolumeSpecs(p, srv, spec).value))
  {
    var specs := ToVolumeSpecs(p, srv, spec).value;
    forall i, j | 0 <= i < j < |specs| && specs[i].source.Some? && specs[j].source.Some?
      ensures specs[i].mount.name != specs[j].mount.name
    {
      SpecAt(p, srv, spec, i);
      SpecAt(p, srv, spec, j);
      var a, b := Origin(srv, i), Origin(srv, j);
      if specs[i].mount.name == specs[j].mount.name {
        GeneratedInjective(a.0, a.1, b.0, b.1);
      }
    }
    DistinctVolumes(specs);
  }

  lemma DistinctGrows(volumes: seq<K.Volume>, v: K.Volume)
    requires DistinctNames(volumes) && forall i :: 0 <= i < |volumes| ==> volumes[i].name != v.name
    ensures DistinctNames(volumes + [v])
  {
  }

  lemma LastMountIsNew(specs: seq<VolumeSpec>, n: nat, i: nat)
    requires DistinctMounts(specs) && n + 1 == |specs| && specs[n].source.Some? && i < |VolumesOf(specs[..n])|
    ensures VolumesOf(specs[..n])[i].name != specs[n].mount.name
  {
    var before := specs[..n];
    var v := VolumesOf(before)[i];
    assert v in VolumesOf(before);
    VolumesOfNames(before, v.name);
    var k :| 0 <= k < n && before[k].source.Some? && before[k].mount.name == v.name;
    assert specs[k] == before[k];
  }

  lemma {:induction false} DistinctVolumes(specs: seq<VolumeSpec>)
    requires DistinctMounts(specs)
    ensures DistinctNames(VolumesOf(specs))
  {
    if specs != [] {
      var n := |specs| - 1;
      DistinctVolumes(specs[..n]);
      if specs[n].source.Some? {
        var volumes := VolumesOf(specs[..n]);
        forall i | 0 <= i < |volumes| ensures volumes[i].name != specs[n].mount.name {
          LastMountIsNew(specs, n, i);
        }
        DistinctGrows(volumes, K.Volume(specs[n].mount.name, specs[n].source.value));
      }
    }
  }

  ghost predicate HasClaim(claims: seq<K.Claim>, name: string) {
    exists c :: c in claims && c.name == name
  }

  lemma {:induction false} ClaimNames(srv: C.Service, original: seq<K.Claim>, n: nat, name: string)
    requires n <= |srv.volumes|
    ensures HasClaim(ClaimsUpTo(srv, original, n), name) <==>
            exists k :: 0 <= k < n && srv.volumes[k].kind == "volume" && ClaimName(k, srv.volumes[k]) == name
  {
    if n > 0 {
      ClaimNames(srv, original, n - 1, name);
      var before, all := ClaimsUpTo(srv, original, n - 1), ClaimsUpTo(srv, original, n);
      var v := srv.volumes[n - 1];
      if HasClaim(before, name) {
        var c :| c in before && c.name == name;
        assert c in all;
      }
      if v.kind == "volume" {
        assert all[|before|] == ToClaim(srv, original, ClaimName(n - 1, v)) && all[|before|] in all;
      }
      if HasClaim(all, name) {
        var c :| c in all && c.name == name;
        assert c in before || (v.kind == "volume" && ClaimName(n - 1, v) == name);
      }
    }
  }

  // ----- Resolution of mounts -----

  /** The mount names a pod volume or a claim template, and not both. */
  ghost predicate Resolves(volumes: seq<K.Volume>, claims: seq<K.Claim>, mount: K.VolumeMount) {
    (exists v :: v in volumes && v.name == mount.name) != HasClaim(claims, mount.name)
  }

  /** A volume-typed entry whose source is the name generated for a pod volume of the same service. */
  ghost predicate SpecsClash(specs: seq<VolumeSpec>, srv: C.Service) {
    exists k :: 0 <= k < |srv.volumes| && srv.volumes[k].kind == "volume" && srv.volumes[k].source != "" &&
                IsPodVolume(specs, srv.volumes[k].source)
  }

  lemma ClaimIsPodVolume(p: Platform, srv: C.Service, spec: C.StackSpec, original: seq<K.Claim>, name: string)
    requires ToVolumeSpecs(p, srv, spec).Ok?
    requires HasClaim(ToPersistentVolumeClaims(srv, original), name)
    requires IsPodVolume(ToVolumeSpecs(p, srv, spec).value, name)
    ensures SpecsClash(ToVolumeSpecs(p, srv, spec).value, srv)
  {
    var specs := ToVolumeSpecs(p, srv, spec).value;
    ClaimNames(srv, original, |srv.volumes|, name);
    var k :| 0 <= k < |srv.volumes| && srv.volumes[k].kind == "volume" && ClaimName(k, srv.volumes[k]) == name;
    if srv.volumes[k].source == "" {
      var j :| 0 <= j < |specs| && specs[j].source.Some? && specs[j].mount.name == name;
      SpecAt(p, srv, spec, j);
      var o := Origin(srv, j);
      GeneratedInjective("mount", k, o.0, o.1);
      AnonymousHasNoSource(p, srv, spec, k);
    }
  }

  lemma MountIsSomewhere(p: Platform, srv: C.Service, spec: C.StackSpec, original: seq<K.Claim>, k: nat)
    requires ToVolumeSpecs(p, srv, spec).Ok? && k < |ToVolumeSpecs(p, srv, spec).value|
    ensures var specs := ToVolumeSpecs(p, srv, spec).value;
            IsPodVolume(specs, specs[k].mount.name) || HasClaim(ToPersistentVolumeClaims(srv, original),
                                                                specs[k].mount.name)
  {
    var specs := ToVolumeSpecs(p, srv, spec).value;
    SpecAt(p, srv, spec, k);
    if specs[k].source.None? {
      ClaimNames(srv, original, |srv.volumes|, specs[k].mount.name);
    }
  }

  lemma MountsResolveUnlessSpecsClash(p: Platform, srv: C.Service, spec: C.StackSpec, original: seq<K.Claim>)
    requires ToVolumeSpecs(p, srv, spec).Ok?
    ensures var specs := ToVolumeSpecs(p, srv, spec).value;
            (forall m :: m in MountsOf(specs) ==> Resolves(VolumesOf(specs), ToPersistentVolumeClaims(srv, original),
                                                           m))
            <==> !SpecsClash(specs, srv)
  {
    var specs := ToVolumeSpecs(p, srv, spec).value;
    var volumes, claims, mounts := VolumesOf(specs), ToPersistentVolumeClaims(srv, original), MountsOf(specs);
    if SpecsClash(specs, srv) {
      var k :| 0 <= k < |srv.volumes| && srv.volumes[k].kind == "volume" && srv.volumes[k].source != "" &&
               IsPodVolume(specs, srv.volumes[k].source);
      var name := srv.volumes[k].source;
      var j :| 0 <= j < |specs| && specs[j].source.Some? && specs[j].mount.name == name;
      VolumesOfNames(specs, name);
      ClaimNames(srv, original, |srv.volumes|, name);
      assert mounts[j] in mounts && !Resolves(volumes, claims, mounts[j]);
    } else {
      forall m | m in mounts ensures Resolves(volumes, claims, m) {
        var k :| 0 <= k < |mounts| && mounts[k] == m;
        MountIsSomewhere(p, srv, spec, original, k);
        VolumesOfNames(specs, m.name);
        if HasClaim(claims, m.name) && IsPodVolume(specs, m.name) {
          ClaimIsPodVolume(p, srv, spec, original, m.name);
        }
      }
    }
  }

  // ----- The same, told from the service alone -----

  /** The entry becomes a pod volume, whatever its type: the Docker socket, a git repository or a bind mount. */
  predicate IsPodVolumeEntry(m: C.Volume) {
    (m.source == DOCKER_SOCK && m.target == DOCKER_SOCK) || HasSuffix(m.source, ".git") || m.kind != "volume"
  }

  /** The names generated for the pod volumes of a service. */
  ghost predicate NamesPodVolume(srv: C.Service, name: string) {
    || (exists i :: 0 <= i < |srv.volumes| && IsPodVolumeEntry(srv.volumes[i]) && name == Generated("mount", i))
    || (exists i :: 0 <= i < |srv.tmpfs| && name == Generated("tmp", i))
    || (exists i :: 0 <= i < |srv.secrets| && name == Generated("secret", i))
    || (exists i :: 0 <= i < |srv.configs| && name == Generated("config", i))
  }

  /** A volume-typed entry whose source is the name generated for a pod volume of the same service. */
  ghost predicate Clashes(srv: C.Service) {
    exists k :: 0 <= k < |srv.volumes| && srv.volumes[k].kind == "volume" && srv.volumes[k].source != "" &&
                NamesPodVolume(srv, srv.volumes[k].source)
  }

  lemma SpecSource(p: Platform, srv: C.Service, spec: C.StackSpec, k: nat)
    requires ToVolumeSpecs(p, srv, spec).Ok? && k < |ToVolumeSpecs(p, srv, spec).value|
    ensures ToVolumeSpecs(p, srv, spec).value[k].source.Some? <==>
            (k < |srv.volumes| ==> IsPodVolumeEntry(srv.volumes[k]))
    ensures |ToVolumeSpecs(p, srv, spec).value| == |srv.volumes| + |srv.tmpfs| + |srv.secrets| + |srv.configs|
  {
    MountSpecsLength(srv.volumes);
    if k < |srv.volumes| {
      MountSpecsAt(srv.volumes, k);
    }
  }

  /** The place of an entry of one of the four lists among the specs. */
  lemma NamedSpec(p: Platform, srv: C.Service, spec: C.StackSpec, k: nat, name: string)
    requires ToVolumeSpecs(p, srv, spec).Ok? && k < |srv.volumes| + |srv.tmpfs| + |srv.secrets| + |srv.configs|
    requires k < |srv.volumes| ==> IsPodVolumeEntry(srv.volumes[k])
    requires name == Generated(Origin(srv, k).0, Origin(srv, k).1)
    ensures IsPodVolume(ToVolumeSpecs(p, srv, spec).value, name)
  {
    MountSpecsLength(srv.volumes);
    SpecSource(p, srv, spec, k);
    SpecAt(p, srv, spec, k);
  }

  lemma PodVolumeNames(p: Platform, srv: C.Service, spec: C.StackSpec, name: string)
    requires ToVolumeSpecs(p, srv, spec).Ok?
    ensures IsPodVolume(ToVolumeSpecs(p, srv, spec).value, name) ==> NamesPodVolume(srv, name)
  {
    var specs := ToVolumeSpecs(p, srv, spec).value;
    if k :| 0 <= k < |specs| && specs[k].source.Some? && specs[k].mount.name == name {
      SpecSource(p, srv, spec, k);
      SpecAt(p, srv, spec, k);
      assert name == Generated(Origin(srv, k).0, Origin(srv, k).1);
    }
  }

  lemma NamedIsPodVolume(p: Platform, srv: C.Service, spec: C.StackSpec, name: string)
    requires ToVolumeSpecs(p, srv, spec).Ok?
    ensures NamesPodVolume(srv, name) ==> IsPodVolume(ToVolumeSpecs(p, srv, spec).value, name)
  {
    var v, t, s := |srv.volumes|, |srv.tmpfs|, |srv.secrets|;
    if i :| 0 <= i < v && IsPodVolumeEntry(srv.volumes[i]) && name == Generated("mount", i) {
      NamedSpec(p, srv, spec, i, name);
    } else if i :| 0 <= i < t && name == Generated("tmp", i) {
      NamedSpec(p, srv, spec, v + i, name);
    } else if i :| 0 <= i < s && name == Generated("secret", i) {
      NamedSpec(p, srv, spec, v + t + i, name);
    } else if i :| 0 <= i < |srv.configs| && name == Generated("config", i) {
      NamedSpec(p, srv, spec, v + t + s + i, name);
    }
  }

  /**
  Every mount of the generated workload names exactly one of a pod volume and a claim template,
  if and only if no volume-typed entry bears the name generated for a pod volume.
  */
  lemma MountsResolve(p: Platform, srv: C.Service, spec: C.StackSpec, original: seq<K.Claim>)
    requires ToVolumeSpecs(p, srv, spec).Ok?
    ensures var specs, claims := ToVolumeSpecs(p, srv, spec).value, ToPersistentVolumeClaims(srv, original);
            (forall m :: m in MountsOf(specs) ==> Resolves(VolumesOf(specs), claims, m)) <==> !Clashes(srv)
  {
    MountsResolveUnlessSpecsClash(p, srv, spec, original);
    forall k | 0 <= k < |srv.volumes|
      ensures IsPodVolume(ToVolumeSpecs(p, srv, spec).value, srv.volumes[k].source) <==>
              NamesPodVolume(srv, srv.volumes[k].source)
    {
      PodVolumeNames(p, srv, spec, srv.volumes[k].source);
      NamedIsPodVolume(p, srv, spec, srv.volumes[k].source);
    }
  }

  /** mount-N, tmp-N, secret-N or config-N. */
  ghost predicate LooksGenerated(name: string) {
    exists kind, i: nat :: Kind(kind) && name == Generated(kind, i)
  }

  /** In particular mounts resolve when no named volume looks like a generated name. */
  lemma OrdinaryNamesResolve(p: Platform, srv: C.Service, spec: C.StackSpec, original: seq<K.Claim>)
    requires ToVolumeSpecs(p, srv, spec).Ok?
    requires forall k :: 0 <= k < |srv.volumes| && srv.volumes[k].kind == "volume" ==>
               !LooksGenerated(srv.volumes[k].source)
    ensures var specs := ToVolumeSpecs(p, srv, spec).value;
            forall m :: m in MountsOf(specs) ==> Resolves(VolumesOf(specs), ToPersistentVolumeClaims(srv, original), m)
  {
    var specs := ToVolumeSpecs(p, srv, spec).value;
    MountsResolveUnlessSpecsClash(p, srv, spec, original);
    if SpecsClash(specs, srv) {
      var k :| 0 <= k < |srv.volumes| && srv.volumes[k].kind == "volume" && srv.volumes[k].source != "" &&
               IsPodVolume(specs, srv.volumes[k].source);
      var j :| 0 <= j < |specs| && specs[j].source.Some? && specs[j].mount.name == srv.volumes[k].source;
      SpecAt(p, srv, spec, j);
      assert LooksGenerated(srv.volumes[k].source);
    }
  }

  // ----- Converting the claims the server stored gives them back -----

  /** The server may set fields the converter never writes, the same way for equal claims. */
  ghost predicate AdmitsClaims(claims: seq<K.Claim>, stored: seq<K.Claim>) {
    && |stored| == |claims|
    && (forall i :: 0 <= i < |claims| ==> stored[i] == claims[i].(rest := stored[i].rest))
    && (forall i, j :: 0 <= i < |claims| && 0 <= j < |claims| && claims[i] == claims[j] ==> stored[i] == stored[j])
  }

  lemma {:induction false} OriginalClaimFound(claims: seq<K.Claim>, name: string, m: nat) returns (j: nat)
    requires m < |claims| && claims[m].name == name
    ensures j < |claims| && claims[j].name == name && OriginalClaim(claims, name) == claims[j]
  {
    var n := |claims| - 1;
    if claims[n].name == name {
      j := n;
    } else {
      j := OriginalClaimFound(claims[..n], name, m);
    }
  }

  lemma {:induction false} ClaimShape(srv: C.Service, original: seq<K.Claim>, n: nat)
    requires n <= |srv.volumes|
    ensures forall c :: c in ClaimsUpTo(srv, original, n) ==> c == ToClaim(srv, original, c.name)
  {
    if n > 0 {
      ClaimShape(srv, original, n - 1);
    }
  }

  lemma {:induction false} ClaimsPrefix(srv: C.Service, original: seq<K.Claim>, n: nat, m: nat)
    requires n <= m <= |srv.volumes|
    ensures ClaimsUpTo(srv, original, n) <= ClaimsUpTo(srv, original, m)
    decreases m
  {
    if n < m {
      ClaimsPrefix(srv, original, n, m - 1);
    }
  }

  lemma ClaimSettles(srv: C.Service, original: seq<K.Claim>, stored: seq<K.Claim>, m: nat)
    requires var claims := ToPersistentVolumeClaims(srv, original); AdmitsClaims(claims, stored) && m < |claims|
    ensures ToClaim(srv, stored, ToPersistentVolumeClaims(srv, original)[m].name) == stored[m]
  {
    var claims := ToPersistentVolumeClaims(srv, original);
    ClaimShape(srv, original, |srv.volumes|);
    var j := OriginalClaimFound(stored, claims[m].name, m);
    assert claims[j] in claims && claims[m] in claims;
  }

  lemma {:induction false} ClaimsSettleUpTo(srv: C.Service, original: seq<K.Claim>, stored: seq<K.Claim>, n: nat)
    requires AdmitsClaims(ToPersistentVolumeClaims(srv, original), stored) && n <= |srv.volumes|
    ensures var k := |ClaimsUpTo(srv, original, n)|; k <= |stored| && ClaimsUpTo(srv, stored, n) == stored[..k]
  {
    ClaimsPrefix(srv, original, n, |srv.volumes|);
    if n > 0 {
      ClaimsSettleUpTo(srv, original, stored, n - 1);
      if srv.volumes[n - 1].kind == "volume" {
        var m := |ClaimsUpTo(srv, original, n - 1)|;
        assert ClaimsUpTo(srv, original, n)[m] == ToPersistentVolumeClaims(srv, original)[m];
        ClaimSettles(srv, original, stored, m);
      }
    }
  }

  /** Claim templates settle, even when two volumes share a claim. */
  lemma ClaimsSettle(srv: C.Service, original: seq<K.Claim>, stored: seq<K.Claim>)
    requires AdmitsClaims(ToPersistentVolumeClaims(srv, original), stored)
    ensures ToPersistentVolumeClaims(srv, stored) == stored
  {
    ClaimsSettleUpTo(srv, original, stored, |srv.volumes|);
  }

  // ----- What mounts, volumes and claims are, field by field -----

  /** A bind mount mounts the last element of its path out of the directory it is in. */
  predicate BindFor(source: string, directory: string, subPath: string) {
    && '/' !in subPath && directory != ""
    && (source == directory + "/" + subPath || (directory == "/" && source == "/" + subPath))
  }

  predicate MountFor(i: nat, m: C.Volume, s: VolumeSpec) {
    var generated := "mount-" + FormatNat(i);
    && s.mount.path == m.target && s.mount.readOnly == m.readOnly
    && if m.source == "/var/run/docker.sock" && m.target == "/var/run/docker.sock" then
         s.mount.name == generated && s.mount.subPath == "docker.sock" && s.source == Some(K.HostPath("/var/run"))
       else if HasSuffix(m.source, ".git") then
         s.mount.name == generated && s.mount.subPath == "" && s.source == Some(K.GitRepo(m.source))
       else if m.kind == "volume" then
         s.mount.name == (if m.source == "" then generated else m.source) && s.mount.subPath == "" && s.source == None
       else
         && s.mount.name == generated && s.source.Some? && s.source.value.HostPath?
         && BindFor(m.source, s.source.value.path, s.mount.subPath)
  }

  predicate TmpFor(i: nat, target: string, s: VolumeSpec) {
    s.mount == K.VolumeMount("tmp-" + FormatNat(i), target, false, "") && s.source == Some(K.MemoryDir)
  }

  /** The key of a secret or config: the name of its file, or "file" when none is given. */
  predicate KeyFor(p: Platform, objects: map<string, C.FileObject>, source: string, key: string) {
    if source in objects && objects[source].file != "" then key == p.baseName(objects[source].file) else key == "file"
  }

  predicate ModeFor(mode: Option<C.uint32>, r: Option<int>) {
    if mode.None? then r == None else r == Some(C.ToInt32(mode.value))
  }

  predicate SecretFor(p: Platform, spec: C.StackSpec, i: nat, ref: C.FileReference, s: VolumeSpec) {
    var name, target := "secret-" + FormatNat(i), if ref.target in ["", "."] then ref.source else ref.target;
    && s.mount == K.VolumeMount(name, p.joinPath("/run/secrets", target), true, name)
    && s.source.Some? && s.source.value.SecretFile?
    && s.source.value.name == ref.source && s.source.value.subPath == name
    && KeyFor(p, spec.secrets, ref.source, s.source.value.key) && ModeFor(ref.mode, s.source.value.mode)
  }

  predicate ConfigFor(p: Platform, spec: C.StackSpec, i: nat, ref: C.FileReference, s: VolumeSpec) {
    var name, target := "config-" + FormatNat(i), if ref.target in ["", "."] then "/" + ref.source else ref.target;
    && s.mount == K.VolumeMount(name, target, true, name)
    && s.source.Some? && s.source.value.ConfigMapFile?
    && s.source.value.name == ref.source && s.source.value.subPath == name
    && KeyFor(p, spec.configs, ref.source, s.source.value.key) && ModeFor(ref.mode, s.source.value.mode)
  }

  /** One spec for each volume, tmpfs, secret and config of the service, in this order. */
  predicate SpecsFor(p: Platform, srv: C.Service, spec: C.StackSpec, specs: seq<VolumeSpec>) {
    var v, t, s, c := |srv.volumes|, |srv.tmpfs|, |srv.secrets|, |srv.configs|;
    && |specs| == v + t + s + c
    && (forall i :: 0 <= i < v ==> MountFor(i, srv.volumes[i], specs[i]))
    && (forall i :: 0 <= i < t ==> TmpFor(i, srv.tmpfs[i], specs[v + i]))
    && (forall i :: 0 <= i < s ==> SecretFor(p, spec, i, srv.secrets[i], specs[v + t + i]))
    && (forall i :: 0 <= i < c ==> ConfigFor(p, spec, i, srv.configs[i], specs[v + t + s + i]))
  }

  /** The mounts are those of the specs, the pod volumes those of the specs that have a source. */
  ghost predicate VolumesFor(p: Platform, srv: C.Service, spec: C.StackSpec, mounts: seq<K.VolumeMount>,
                             volumes: seq<K.Volume>) {
    exists specs :: SpecsFor(p, srv, spec, specs) && Projects(specs, mounts, volumes)
  }

  ghost predicate Projects(specs: seq<VolumeSpec>, mounts: seq<K.VolumeMount>, volumes: seq<K.Volume>) {
    && |mounts| == |specs| && (forall k :: 0 <= k < |specs| ==> mounts[k] == specs[k].mount)
    && forall v :: v in volumes <==> Sourced(specs, v)
  }

  ghost predicate Sourced(specs: seq<VolumeSpec>, v: K.Volume) {
    exists k :: 0 <= k < |specs| && specs[k].source == Some(v.source) && specs[k].mount.name == v.name
  }

  lemma BindMeans(source: string)
    requires BindMount(source).Ok?
    ensures BindMount(source).value.0.HostPath?
    ensures BindFor(source, BindMount(source).value.0.path, BindMount(source).value.1)
  {
    if source == "/" {
      assert source == "/" + "";
    } else {
      var cut := LastSlash(source);
      assert source == source[..cut] + "/" + source[cut + 1..];
      assert cut == 0 ==> source[..cut] == "" && source == "/" + source[cut + 1..];
    }
  }

  lemma MountMeans(i: nat, m: C.Volume)
    requires MountSpec(i, m).Ok?
    ensures MountFor(i, m, MountSpec(i, m).value)
  {
    assert Generated("mount", i) == "mount-" + FormatNat(i);
    if BindMount(m.source).Ok? {
      BindMeans(m.source);
    }
  }

  lemma SecretMeans(p: Platform, spec: C.StackSpec, i: nat, ref: C.FileReference)
    ensures SecretFor(p, spec, i, ref, SecretSpec(p, spec, i, ref))
  {
    assert Generated("secret", i) == "secret-" + FormatNat(i);
  }

  lemma ConfigMeans(p: Platform, spec: C.StackSpec, i: nat, ref: C.FileReference)
    ensures ConfigFor(p, spec, i, ref, ConfigSpec(p, spec, i, ref))
  {
    assert Generated("config", i) == "config-" + FormatNat(i);
  }

  lemma SpecsMean(p: Platform, srv: C.Service, spec: C.StackSpec)
    requires ToVolumeSpecs(p, srv, spec).Ok?
    ensures SpecsFor(p, srv, spec, ToVolumeSpecs(p, srv, spec).value)
  {
    MountSpecsLength(srv.volumes);
    forall i | 0 <= i < |srv.volumes| ensures MountFor(i, srv.volumes[i], MountSpecs(srv.volumes).value[i]) {
      MountSpecsAt(srv.volumes, i);
      MountMeans(i, srv.volumes[i]);
    }
    forall i | 0 <= i < |srv.tmpfs| ensures TmpFor(i, srv.tmpfs[i], TmpSpecs(srv)[i]) {
      assert Generated("tmp", i) == "tmp-" + FormatNat(i);
    }
    forall i | 0 <= i < |srv.secrets| ensures SecretFor(p, spec, i, srv.secrets[i], SecretSpecs(p, srv, spec)[i]) {
      SecretMeans(p, spec, i, srv.secrets[i]);
    }
    forall i | 0 <= i < |srv.configs| ensures ConfigFor(p, spec, i, srv.configs[i], ConfigSpecs(p, srv, spec)[i]) {
      ConfigMeans(p, spec, i, srv.configs[i]);
    }
  }

  lemma {:induction false} SourcedVolumes(specs: seq<VolumeSpec>, v: K.Volume)
    ensures v in VolumesOf(specs) <==> Sourced(specs, v)
  {
    if specs != [] {
      var n := |specs| - 1;
      SourcedVolumes(specs[..n], v);
      if Sourced(specs[..n], v) {
        var k :| 0 <= k < n && specs[..n][k].source == Some(v.source) && specs[..n][k].mount.name == v.name;
        assert specs[k] == specs[..n][k];
      }
      if Sourced(specs, v) {
        var k :| 0 <= k < |specs| && specs[k].source == Some(v.source) && specs[k].mount.name == v.name;
        if k < n {
          assert specs[..n][k] == specs[k];
        }
      }
    }
  }

  lemma Projected(specs: seq<VolumeSpec>)
    ensures Projects(specs, MountsOf(specs), VolumesOf(specs))
  {
    forall v ensures v in VolumesOf(specs) <==> Sourced(specs, v) {
      SourcedVolumes(specs, v);
    }
  }

  /** Path, flag, sub path, source and key of every mount and pod volume. */
  lemma VolumesMean(p: Platform, srv: C.Service, spec: C.StackSpec)
    requires ToVolumeSpecs(p, srv, spec).Ok?
    ensures var specs := ToVolumeSpecs(p, srv, spec).value;
            VolumesFor(p, srv, spec, MountsOf(specs), VolumesOf(specs))
  {
    SpecsMean(p, srv, spec);
    Projected(ToVolumeSpecs(p, srv, spec).value);
  }

  /** The positions, in order, of the entries that are volumes. */
  function NamedAt(volumes: seq<C.Volume>): (at: seq<nat>)
    ensures forall i, j :: 0 <= i < j < |at| ==> at[i] < at[j]
    ensures forall n: nat :: n in at <==> n < |volumes| && volumes[n].kind == "volume"
  {
    if volumes == [] then []
    else
      var n := |volumes| - 1;
      var before := NamedAt(volumes[..n]);
      assert forall i :: 0 <= i < |before| ==> before[i] in before;
      if volumes[n].kind == "volume" then before + [n] else before
  }

  predicate LastClaim(original: seq<K.Claim>, name: string, i: nat) {
    i < |original| && original[i].name == name && forall j :: i < j < |original| ==> original[j].name != name
  }

  /** A claim for entry `i`; what the converter does not write is kept from the last stored claim of its name. */
  ghost predicate ClaimFor(srv: C.Service, original: seq<K.Claim>, i: nat, claim: K.Claim)
    requires i < |srv.volumes|
  {
    && claim.name == (if srv.volumes[i].source == "" then "mount-" + FormatNat(i) else srv.volumes[i].source)
    && claim.annotations == srv.deploy.labels
    && claim.accessModes == ["ReadWriteOnce"] && claim.requests == map["storage" := "100Mi"]
    && (forall j: nat :: LastClaim(original, claim.name, j) ==> claim.rest == original[j].rest)
    && ((forall c :: c in original ==> c.name != claim.name) ==> claim.rest == "")
  }

  ghost predicate ClaimsFor(srv: C.Service, original: seq<K.Claim>, claims: seq<K.Claim>) {
    var at := NamedAt(srv.volumes);
    |claims| == |at| && forall k :: 0 <= k < |at| ==> at[k] < |srv.volumes| && ClaimFor(srv, original, at[k], claims[k])
  }

  lemma {:induction false} OriginalClaimLast(original: seq<K.Claim>, name: string, j: nat)
    requires LastClaim(original, name, j)
    ensures OriginalClaim(original, name) == original[j]
  {
    var n := |original| - 1;
    if j < n {
      assert original[n].name != name;
      OriginalClaimLast(original[..n], name, j);
    }
  }

  lemma {:induction false} OriginalClaimNone(original: seq<K.Claim>, name: string)
    requires forall c :: c in original ==> c.name != name
    ensures OriginalClaim(original, name).rest == ""
  {
    if original != [] {
      var n := |original| - 1;
      assert original[n] in original;
      OriginalClaimNone(original[..n], name);
    }
  }

  lemma ClaimMeans(srv: C.Service, original: seq<K.Claim>, i: nat)
    requires i < |srv.volumes|
    ensures ClaimFor(srv, original, i, ToClaim(srv, original, ClaimName(i, srv.volumes[i])))
  {
    var name := ClaimName(i, srv.volumes[i]);
    assert Generated("mount", i) == "mount-" + FormatNat(i);
    forall j: nat | LastClaim(original, name, j) ensures OriginalClaim(original, name).rest == original[j].rest {
      OriginalClaimLast(original, name, j);
    }
    if forall c :: c in original ==> c.name != name {
      OriginalClaimNone(original, name);
    }
  }

  lemma {:induction false} ClaimsUpToMean(srv: C.Service, original: seq<K.Claim>, n: nat)
    requires n <= |srv.volumes|
    ensures var at, claims := NamedAt(srv.volumes[..n]), ClaimsUpTo(srv, original, n);
            |claims| == |at| &&
            forall k :: 0 <= k < |at| ==> at[k] < n && ClaimFor(srv, original, at[k], claims[k])
  {
    if n > 0 {
      ClaimsUpToMean(srv, original, n - 1);
      assert srv.volumes[..n][..n - 1] == srv.volumes[..n - 1];
      ClaimMeans(srv, original, n - 1);
    }
  }

  lemma ClaimsMean(srv: C.Service, original: seq<K.Claim>)
    ensures ClaimsFor(srv, original, ToPersistentVolumeClaims(srv, original))
  {
    ClaimsUpToMean(srv, original, |srv.volumes|);
    assert srv.volumes[..|srv.volumes|] == srv.volumes;
  }
}
