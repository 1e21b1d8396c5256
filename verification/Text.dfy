/** Strings as the Go code uses them: decimal numbers, byte order, prefixes and sorting. */
module Text {

  import opened Wrappers

  predicate HasPrefix(s: string, prefix: string) {
    |prefix| <= |s| && s[..|prefix|] == prefix
  }

  predicate HasSuffix(s: string, suffix: string) {
    |suffix| <= |s| && s[|s| - |suffix|..] == suffix
  }

  // ----- Decimal numbers -----

  predicate IsDigit(c: char) { '0' <= c <= '9' }

  function Digit(d: nat): (c: char)
    requires d < 10
    ensures IsDigit(c)
  {
    '0' + d as char
  }

  function DigitValue(c: char): (d: nat)
    requires IsDigit(c)
    ensures d < 10
  {
    (c - '0') as nat
  }

  /** fmt's %d and strconv.FormatInt of a number that is not negative. */
  function FormatNat(n: nat): (s: string)
    ensures s != [] && forall i :: 0 <= i < |s| ==> IsDigit(s[i])
  {
    if n < 10 then [Digit(n)] else FormatNat(n / 10) + [Digit(n % 10)]
  }

  function ParseNat(s: string): Option<nat> {
    if s == [] || !IsDigit(s[|s| - 1]) then None
    else if |s| == 1 then Some(DigitValue(s[0]))
    else match ParseNat(s[..|s| - 1])
    case None => None
    case Some(high) => Some(10 * high + DigitValue(s[|s| - 1]))
  }

  const INT64_MAX: int := 0x7fff_ffff_ffff_ffff

  /** strconv.FormatInt(n, 10). */
  function FormatInt(n: int): string {
    if n < 0 then "-" + FormatNat(-n) else FormatNat(n)
  }

  /** strconv.ParseInt(s, 10, 64). */
  function ParseInt(s: string): Option<int> {
    if s == [] then None
    else if s[0] == '-' then Bounded(ParseNat(s[1..]), -1)
    else if s[0] == '+' then Bounded(ParseNat(s[1..]), 1)
    else Bounded(ParseNat(s), 1)
  }

  function Bounded(n: Option<nat>, sign: int): Option<int> {
    match n
    case None => None
    case Some(v) => if -INT64_MAX - 1 <= sign * v <= INT64_MAX then Some(sign * v) else None
  }

  lemma {:induction false} ParseFormatNat(n: nat)
    ensures ParseNat(FormatNat(n)) == Some(n)
  {
    if n < 10 {
      assert DigitValue(Digit(n)) == n;
    } else {
      ParseFormatNat(n / 10);
      var high := FormatNat(n / 10);
      assert (high + [Digit(n % 10)])[..|high|] == high;
      assert DigitValue(Digit(n % 10)) == n % 10;
    }
  }

  lemma FormatNatInjective(m: nat, n: nat)
    requires FormatNat(m) == FormatNat(n)
    ensures m == n
  {
    ParseFormatNat(m);
    ParseFormatNat(n);
  }

  /** Every 64-bit number survives being written as an annotation and read back. */
  lemma ParseFormatInt(n: int)
    requires -INT64_MAX - 1 <= n <= INT64_MAX
    ensures ParseInt(FormatInt(n)) == Some(n)
  {
    if n < 0 {
      ParseFormatNat(-n);
      assert FormatInt(n)[1..] == FormatNat(-n);
    } else {
      ParseFormatNat(n);
      assert IsDigit(FormatNat(n)[0]);
    }
  }

  // ----- Byte order -----

  predicate Less(a: string, b: string) {
    b != [] && (a == [] || a[0] < b[0] || (a[0] == b[0] && Less(a[1..], b[1..])))
  }

  lemma {:induction false} LessIrreflexive(a: string)
    ensures !Less(a, a)
  {
    if a != [] {
      LessIrreflexive(a[1..]);
    }
  }

  lemma {:induction false} LessTransitive(a: string, b: string, c: string)
    requires Less(a, b) && Less(b, c)
    ensures Less(a, c)
  {
    if a != [] && a[0] == b[0] == c[0] {
      LessTransitive(a[1..], b[1..], c[1..]);
    }
  }

  lemma {:induction false} LessTotal(a: string, b: string)
    ensures a == b || Less(a, b) || Less(b, a)
  {
    if a != [] && b != [] && a[0] == b[0] {
      LessTotal(a[1..], b[1..]);
      assert a == [a[0]] + a[1..] && b == [b[0]] + b[1..];
    }
  }

  // ----- Sorted sequences -----

  predicate Increasing(q: seq<string>) {
    forall i, j :: 0 <= i < j < |q| ==> Less(q[i], q[j])
  }

  predicate Least(x: string, s: set<string>) {
    x in s && forall y :: y in s ==> x == y || Less(x, y)
  }

  lemma {:induction false} LeastExists(s: set<string>) returns (x: string)
    requires s != {}
    ensures Least(x, s)
    decreases |s|
  {
    var y :| y in s;
    if s == {y} {
      return y;
    }
    var rest := s - {y};
    assert s == rest + {y};
    x := LeastExists(rest);
    LessTotal(x, y);
    if Less(y, x) {
      forall z | z in rest ensures Less(y, z) {
        if z != x { LessTransitive(y, x, z); }
      }
      x := y;
    }
  }

  lemma LeastUnique(s: set<string>, x: string, y: string)
    requires Least(x, s) && Least(y, s)
    ensures x == y
  {
    if x != y {
      LessTransitive(x, y, x);
      LessIrreflexive(x);
    }
  }

  /** The elements of a set in increasing order: sort.Strings over the keys of a map. */
  function Sorted(s: set<string>): (q: seq<string>)
    ensures Increasing(q) && forall x :: x in q <==> x in s
    decreases |s|
  {
    if s == {} then []
    else
      assert exists x :: Least(x, s) by { var x := LeastExists(s); }
      assert forall x, y :: Least(x, s) && Least(y, s) ==> x == y by {
        forall x, y | Least(x, s) && Least(y, s) ensures x == y { LeastUnique(s, x, y); }
      }
      var x :| x in s && Least(x, s);
      var rest := Sorted(s - {x});
      assert forall j :: 0 <= j < |rest| ==> rest[j] in s - {x};
      [x] + rest
  }

  /** An increasing sequence is determined by its elements. */
  lemma {:induction false} IncreasingUnique(p: seq<string>, q: seq<string>)
    requires Increasing(p) && Increasing(q) && forall x :: x in p <==> x in q
    ensures p == q
  {
    assert p != [] ==> p[0] in q;
    assert q != [] ==> q[0] in p;
    if p != [] && q != [] {
      assert p[0] == q[0] by {
        assert p[0] in q && q[0] in p;
        if p[0] != q[0] {
          assert Less(q[0], p[0]) && Less(p[0], q[0]);
          LessTransitive(p[0], q[0], p[0]);
          LessIrreflexive(p[0]);
        }
      }
      LessIrreflexive(p[0]);
      forall x ensures x in p[1..] <==> x in q[1..] {
        if x in p[1..] { assert x in p && x != p[0]; assert x in q; }
        if x in q[1..] { assert x in q && x != q[0]; assert x in p; }
      }
      IncreasingUnique(p[1..], q[1..]);
      assert p == [p[0]] + p[1..] && q == [q[0]] + q[1..];
    }
  }
}
