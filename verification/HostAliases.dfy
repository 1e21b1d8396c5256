/** Host aliases (toHostAliases, internal/convert/pod.go:126-157). */
module HostAliases {
  import opened Wrappers
  import opened Text
  import opened Kube

  predicate WellFormed(host: string) { ':' in host }

  /** Where strings.SplitN(host, ":", 2) cuts. */
  function Colon(host: string): (i: nat)
    requires WellFormed(host)
    ensures i < |host| && host[i] == ':' && ':' !in host[..i]
  {
    if host[0] == ':' then 0 else
      assert host[1..][Colon(host[1..])] == ':';
      var j := Colon(host[1..]);
      assert host[..j + 1] == [host[0]] + host[1..][..j];
      j + 1
  }

  datatype Entry = Entry(name: string, ip: string)

  function Split(host: string): Entry
    requires WellFormed(host)
  {
    Entry(host[..Colon(host)], host[Colon(host) + 1..])
  }

  predicate AllWellFormed(hosts: seq<string>) {
    forall i :: 0 <= i < |hosts| ==> WellFormed(hosts[i])
  }

  function Entries(hosts: seq<string>): seq<Entry>
    requires AllWellFormed(hosts)
  {
    seq(|hosts|, i requires 0 <= i < |hosts| => Split(hosts[i]))
  }

  /** The entry for `name` that counts: the last one. */
  ghost predicate LastEntry(entries: seq<Entry>, name: string, ip: string) {
    exists i :: 0 <= i < |entries| && entries[i] == Entry(name, ip) &&
                forall j :: i < j < |entries| ==> entries[j].name != name
  }

  ghost predicate Listed(aliases: seq<HostAlias>, name: string, ip: string) {
    exists a :: a in aliases && a.ip == ip && name in a.hostnames
  }

  /** Addresses strictly increasing, names strictly increasing in each alias, no empty alias. */
  ghost predicate Ordered(aliases: seq<HostAlias>) {
    && (forall i, j :: 0 <= i < j < |aliases| ==> Less(aliases[i].ip, aliases[j].ip))
    && (forall i :: 0 <= i < |aliases| ==> aliases[i].hostnames != [] && Increasing(aliases[i].hostnames))
  }

  /** What toHostAliases promises: each name is listed under the address of its last entry and no other. */
  ghost predicate Canonical(hosts: seq<string>, aliases: seq<HostAlias>) {
    Ordered(aliases) && forall name, ip :: Listed(aliases, name, ip) <==> LastHost(hosts, name, ip)
  }

  /** The name is what stands before the first colon, the address what stands after it. */
  predicate IsEntry(host: string, name: string, ip: string) { host == name + ":" + ip && ':' !in name }

  /** The last of the hosts with that name gives that address. */
  ghost predicate LastHost(hosts: seq<string>, name: string, ip: string) {
    exists i :: 0 <= i < |hosts| && IsEntry(hosts[i], name, ip) &&
                forall j :: i < j < |hosts| ==> !HasPrefix(hosts[j], name + ":")
  }

  lemma SplitIff(host: string, name: string, ip: string)
    requires WellFormed(host)
    ensures IsEntry(host, name, ip) <==> Split(host) == Entry(name, ip)
    ensures ':' !in name ==> (HasPrefix(host, name + ":") <==> Split(host).name == name)
  {
    var i := Colon(host);
    assert host == host[..i] + [':'] + host[i + 1..];
    assert forall j :: 0 <= j < i ==> host[j] == host[..i][j];
    if ':' !in name && HasPrefix(host, name + ":") {
      assert host[|name|] == (name + ":")[|name|] == ':';
      assert forall j :: 0 <= j < |name| ==> host[j] == (name + ":")[j] == name[j];
      assert |name| == i;
      assert host[..|name|] == name;
    }
    if IsEntry(host, name, ip) {
      assert host[..|name| + 1] == name + ":" && host[|name| + 1..] == ip;
    }
    if Split(host).name == name {
      assert host[..i + 1] == name + ":";
    }
  }

  lemma LastHostIff(hosts: seq<string>, name: string, ip: string)
    requires AllWellFormed(hosts)
    ensures LastHost(hosts, name, ip) <==> LastEntry(Entries(hosts), name, ip)
  {
    var entries := Entries(hosts);
    forall i | 0 <= i < |hosts|
      ensures IsEntry(hosts[i], name, ip) <==> entries[i] == Entry(name, ip)
      ensures ':' !in name ==> (HasPrefix(hosts[i], name + ":") <==> entries[i].name == name)
    {
      SplitIff(hosts[i], name, ip);
    }
    if LastHost(hosts, name, ip) {
      var i :| 0 <= i < |hosts| && IsEntry(hosts[i], name, ip) &&
               forall j :: i < j < |hosts| ==> !HasPrefix(hosts[j], name + ":");
      assert entries[i] == Entry(name, ip);
    }
    if LastEntry(entries, name, ip) {
      var i :| 0 <= i < |entries| && entries[i] == Entry(name, ip) &&
               forall j :: i < j < |entries| ==> entries[j].name != name;
      assert IsEntry(hosts[i], name, ip);
    }
  }

  // ----- A direct definition -----

  function ByHostname(entries: seq<Entry>): (m: map<string, string>) {
    if entries == [] then map[]
    else
      var last := entries[|entries| - 1];
      ByHostname(entries[..|entries| - 1])[last.name := last.ip]
  }

  function Names(m: map<string, string>, ip: string): set<string> {
    set name | name in m && m[name] == ip
  }

  function Aliases(m: map<string, string>): (r: seq<HostAlias>) {
    var ips := Sorted(m.Values);
    seq(|ips|, i requires 0 <= i < |ips| => HostAlias(ips[i], Sorted(Names(m, ips[i]))))
  }

  function ToHostAliases(hosts: seq<string>): Result<seq<HostAlias>> {
    if AllWellFormed(hosts) then Ok(Aliases(ByHostname(Entries(hosts)))) else Err("malformed host")
  }

  lemma {:induction false} ByHostnameIsLast(entries: seq<Entry>, name: string, ip: string)
    ensures name in ByHostname(entries) && ByHostname(entries)[name] == ip <==> LastEntry(entries, name, ip)
  {
    if entries != [] {
      var n := |entries| - 1;
      var before := entries[..n];
      ByHostnameIsLast(before, name, ip);
      if entries[n].name != name {
        if LastEntry(before, name, ip) {
          var i :| 0 <= i < n && before[i] == Entry(name, ip) && forall j :: i < j < n ==> before[j].name != name;
          assert entries[i] == Entry(name, ip);
        }
        if LastEntry(entries, name, ip) {
          var i :| 0 <= i <= n && entries[i] == Entry(name, ip) && forall j :: i < j <= n ==> entries[j].name != name;
          assert before[i] == Entry(name, ip);
        }
      } else if entries[n].ip == ip {
        assert LastEntry(entries, name, ip);
      }
    }
  }

  lemma ListedInAliases(m: map<string, string>, name: string, ip: string)
    ensures Listed(Aliases(m), name, ip) <==> name in m && m[name] == ip
  {
    var ips, r := Sorted(m.Values), Aliases(m);
    if name in m && m[name] == ip {
      assert ip in ips;
      var k :| 0 <= k < |ips| && ips[k] == ip;
      assert r[k] in r && name in Names(m, ip) && r[k].ip == ip && name in r[k].hostnames;
    }
    if Listed(r, name, ip) {
      var a :| a in r && a.ip == ip && name in a.hostnames;
      var k :| 0 <= k < |r| && r[k] == a;
      assert name in Names(m, ips[k]);
    }
  }

  lemma AliasesOrdered(m: map<string, string>)
    ensures Ordered(Aliases(m))
  {
    var ips, r := Sorted(m.Values), Aliases(m);
    forall i | 0 <= i < |r| ensures r[i].hostnames != [] && Increasing(r[i].hostnames) {
      assert ips[i] in m.Values;
      var name :| name in m && m[name] == ips[i];
      assert name in Names(m, ips[i]) && name in r[i].hostnames;
    }
  }

  lemma ToHostAliasesCanonical(hosts: seq<string>)
    requires ToHostAliases(hosts).Ok?
    ensures Canonical(hosts, ToHostAliases(hosts).value)
  {
    var entries := Entries(hosts);
    var m := ByHostname(entries);
    AliasesOrdered(m);
    forall name, ip ensures Listed(Aliases(m), name, ip) <==> LastHost(hosts, name, ip) {
      LastHostIff(hosts, name, ip);
      ListedInAliases(m, name, ip);
      ByHostnameIsLast(entries, name, ip);
    }
  }

  function Addresses(a: seq<HostAlias>): seq<string> {
    seq(|a|, i requires 0 <= i < |a| => a[i].ip)
  }

  lemma OnlyAlias(a: seq<HostAlias>, k: nat, name: string)
    requires Ordered(a) && k < |a|
    ensures Listed(a, name, a[k].ip) <==> name in a[k].hostnames
  {
    if Listed(a, name, a[k].ip) {
      var x :| x in a && x.ip == a[k].ip && name in x.hostnames;
      var j :| 0 <= j < |a| && a[j] == x;
      if j != k { LessIrreflexive(a[k].ip); }
    }
  }

  lemma SameAddresses(a: seq<HostAlias>, b: seq<HostAlias>, ip: string)
    requires Ordered(a) && forall name :: Listed(a, name, ip) ==> Listed(b, name, ip)
    requires ip in Addresses(a)
    ensures ip in Addresses(b)
  {
    var i :| 0 <= i < |a| && Addresses(a)[i] == ip;
    assert Listed(a, a[i].hostnames[0], ip);
    var x :| x in b && x.ip == ip && a[i].hostnames[0] in x.hostnames;
    var j :| 0 <= j < |b| && b[j] == x;
    assert Addresses(b)[j] == ip;
  }

  /** Two ordered alias lists that list the same names are equal: canonical means one value. */
  lemma OrderedUnique(a: seq<HostAlias>, b: seq<HostAlias>)
    requires Ordered(a) && Ordered(b)
    requires forall name, ip :: Listed(a, name, ip) <==> Listed(b, name, ip)
    ensures a == b
  {
    var p, q := Addresses(a), Addresses(b);
    assert forall ip :: ip in p <==> ip in q by {
      forall ip | ip in p ensures ip in q { SameAddresses(a, b, ip); }
      forall ip | ip in q ensures ip in p { SameAddresses(b, a, ip); }
    }
    IncreasingUnique(p, q);
    assert |a| == |p| == |q| == |b|;
    forall k | 0 <= k < |a| ensures a[k] == b[k] {
      assert p[k] == a[k].ip && q[k] == b[k].ip;
      SameHostnames(a, b, k);
    }
  }

  lemma SameHostnames(a: seq<HostAlias>, b: seq<HostAlias>, k: nat)
    requires Ordered(a) && Ordered(b) && k < |a| && k < |b| && a[k].ip == b[k].ip
    requires forall name :: Listed(a, name, a[k].ip) <==> Listed(b, name, a[k].ip)
    ensures a[k].hostnames == b[k].hostnames
  {
    forall name ensures name in a[k].hostnames <==> name in b[k].hostnames {
      OnlyAlias(a, k, name);
      OnlyAlias(b, k, name);
    }
    IncreasingUnique(a[k].hostnames, b[k].hostnames);
  }

  // ----- The loops of the source -----

  function Inserted(sorted: seq<HostAlias>, a: HostAlias): (r: seq<HostAlias>) {
    if sorted == [] then [a]
    else if Less(a.ip, sorted[0].ip) then [a] + sorted
    else [sorted[0]] + Inserted(sorted[1..], a)
  }

  lemma {:induction false} InsertedElements(sorted: seq<HostAlias>, a: HostAlias, x: HostAlias)
    ensures x in Inserted(sorted, a) <==> x == a || x in sorted
  {
    if sorted != [] && !Less(a.ip, sorted[0].ip) {
      InsertedElements(sorted[1..], a, x);
    }
  }

  lemma {:induction false} InsertedOrdered(sorted: seq<HostAlias>, a: HostAlias)
    requires Ordered(sorted) && a.hostnames != [] && Increasing(a.hostnames)
    requires forall x :: x in sorted ==> x.ip != a.ip
    ensures Ordered(Inserted(sorted, a))
  {
    var r := Inserted(sorted, a);
    if sorted != [] {
      LessTotal(a.ip, sorted[0].ip);
      if Less(a.ip, sorted[0].ip) {
        forall j | 0 <= j < |sorted| ensures Less(a.ip, sorted[j].ip) {
          if j > 0 { LessTransitive(a.ip, sorted[0].ip, sorted[j].ip); }
        }
      } else {
        var rest := Inserted(sorted[1..], a);
        assert sorted[0] in sorted;
        assert forall x :: x in sorted[1..] ==> x in sorted;
        InsertedOrdered(sorted[1..], a);
        forall j | 0 <= j < |rest| ensures Less(sorted[0].ip, rest[j].ip) {
          InsertedElements(sorted[1..], a, rest[j]);
        }
      }
    }
  }

  /** The first loop: later entries for a name replace earlier ones. */
  method SplitHosts(extraHosts: seq<string>) returns (r: Result<map<string, string>>)
    ensures r.Ok? <==> AllWellFormed(extraHosts)
    ensures r.Ok? ==> r.value == ByHostname(Entries(extraHosts))
  {
    var byHostnames: map<string, string> := map[];
    for n := 0 to |extraHosts|
      invariant AllWellFormed(extraHosts[..n])
      invariant byHostnames == ByHostname(Entries(extraHosts[..n]))
    {
      var host := extraHosts[n];
      if ':' !in host {
        return Err("malformed host " + host);
      }
      assert extraHosts[..n + 1] == extraHosts[..n] + [host];
      var split := Split(host);
      assert Entries(extraHosts[..n + 1])[..n] == Entries(extraHosts[..n]);
      byHostnames := byHostnames[split.name := split.ip];
    }
    assert extraHosts[..|extraHosts|] == extraHosts;
    return Ok(byHostnames);
  }

  /** The second loop, over the first map in any order: group the names by address. */
  method GroupByAddress(byHostnames: map<string, string>) returns (byIPs: map<string, set<string>>)
    ensures byIPs.Keys == byHostnames.Values
    ensures forall ip :: ip in byIPs ==> byIPs[ip] == Names(byHostnames, ip)
  {
    byIPs := map[];
    var todo := byHostnames.Keys;
    while todo != {}
      invariant todo <= byHostnames.Keys
      invariant forall name :: name in byHostnames && name !in todo ==> byHostnames[name] in byIPs
      invariant forall ip :: ip in byIPs ==> ip in byHostnames.Values && byIPs[ip] == Names(byHostnames, ip) - todo
      invariant forall ip :: ip !in byIPs ==> Names(byHostnames, ip) <= todo
      decreases |todo|
    {
      var k :| k in todo;
      var v := byHostnames[k];
      byIPs := byIPs[v := (if v in byIPs then byIPs[v] else {}) + {k}];
      todo := todo - {k};
    }
  }

  /** The third loop, over the second map in any order, and the final sort. */
  method CollectAliases(byIPs: map<string, set<string>>) returns (aliases: seq<HostAlias>)
    requires forall ip :: ip in byIPs ==> byIPs[ip] != {}
    ensures Ordered(aliases)
    ensures forall name, ip :: Listed(aliases, name, ip) <==> ip in byIPs && name in byIPs[ip]
  {
    aliases := [];
    var ips := byIPs.Keys;
    while ips != {}
      invariant ips <= byIPs.Keys
      invariant Ordered(aliases)
      invariant forall a :: a in aliases ==> a.ip in byIPs.Keys - ips && a.hostnames == Sorted(byIPs[a.ip])
      invariant forall ip :: ip in byIPs.Keys - ips ==> HostAlias(ip, Sorted(byIPs[ip])) in aliases
      decreases |ips|
    {
      var key :| key in ips;
      var alias := HostAlias(key, Sorted(byIPs[key]));
      assert alias.hostnames != [] by {
        var name :| name in byIPs[key];
        assert name in alias.hostnames;
      }
      InsertedOrdered(aliases, alias);
      forall x ensures x in Inserted(aliases, alias) <==> x == alias || x in aliases {
        InsertedElements(aliases, alias, x);
      }
      aliases := Inserted(aliases, alias);
      ips := ips - {key};
    }
    forall name, ip | ip in byIPs && name in byIPs[ip] ensures Listed(aliases, name, ip) {
      assert HostAlias(ip, Sorted(byIPs[ip])) in aliases;
    }
  }

  /** toHostAliases as written.  The result does not depend on the order in which the maps are walked. */
  method ConvertHostAliases(extraHosts: seq<string>) returns (r: Result<seq<HostAlias>>)
    ensures r.Err? <==> exists i :: 0 <= i < |extraHosts| && ':' !in extraHosts[i]
    ensures r.Ok? ==> Canonical(extraHosts, r.value) && r == ToHostAliases(extraHosts)
  {
    var byHostnames :- SplitHosts(extraHosts);
    var byIPs := GroupByAddress(byHostnames);
    forall ip | ip in byIPs ensures byIPs[ip] != {} {
      var name :| name in byHostnames && byHostnames[name] == ip;
      assert name in byIPs[ip];
    }
    var aliases := CollectAliases(byIPs);
    AliasesOrdered(byHostnames);
    forall name, ip ensures Listed(aliases, name, ip) <==> Listed(Aliases(byHostnames), name, ip) {
      ListedInAliases(byHostnames, name, ip);
    }
    OrderedUnique(aliases, Aliases(byHostnames));
    ToHostAliasesCanonical(extraHosts);
    return Ok(aliases);
  }
}
