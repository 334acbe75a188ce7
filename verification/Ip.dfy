/** IP literals as Rust's `IpAddr` reads and prints them. IPv4 is modelled in
    full; the IPv6 text forms are an arbitrary canonicaliser. */
module Ip {
  import opened Text

  datatype Family = Unresolved | Ipv4 | Ipv6

  // ----- IPv4 -----

  /** One to three digits without a leading zero, at most 255. */
  predicate Octet(s: string) {
    1 <= |s| <= 3
    && (forall i :: 0 <= i < |s| ==> IsDigit(s[i]))
    && (|s| > 1 ==> s[0] != '0')
    && DigitsValue(s) <= 255
  }

  function ParseIpv4(s: string): Option<seq<nat>> {
    var parts := SplitOn(s, '.');
    if |parts| == 4 && Octet(parts[0]) && Octet(parts[1]) && Octet(parts[2]) && Octet(parts[3])
    then Some([DigitsValue(parts[0]), DigitsValue(parts[1]), DigitsValue(parts[2]), DigitsValue(parts[3])])
    else None
  }

  function PrintIpv4(ip: seq<nat>): string
    requires |ip| == 4
  {
    Decimal(ip[0]) + "." + Decimal(ip[1]) + "." + Decimal(ip[2]) + "." + Decimal(ip[3])
  }

  lemma {:induction false} DecimalOfDigits(s: string)
    requires s != "" && forall i :: 0 <= i < |s| ==> IsDigit(s[i])
    requires |s| > 1 ==> s[0] != '0'
    ensures Decimal(DigitsValue(s)) == s
    ensures |s| > 1 ==> DigitsValue(s) >= 10
  {
    var d := s[|s| - 1];
    assert IsDigit(d);
    var front := s[..|s| - 1];
    if |s| == 1 {
      assert DigitsValue(front) == 0;
    } else {
      DecimalOfDigits(front);
      if |s| == 2 {
        assert front[..0] == "" && DigitsValue(front) == s[0] as int - '0' as int;
      }
      assert DigitsValue(front) >= 1;
      assert s == front + [d];
    }
  }

  lemma {:induction false} JoinOfSplit(s: string, sep: char)
    ensures Join(SplitOn(s, sep), sep) == s
    decreases |s|
  {
    var n := IndexOf(s, sep);
    if n < |s| {
      JoinOfSplit(s[n + 1..], sep);
      assert SplitOn(s, sep)[1..] == SplitOn(s[n + 1..], sep);
    }
  }

  lemma {:induction false} JoinDigits(items: seq<string>)
    requires forall k, i :: 0 <= k < |items| && 0 <= i < |items[k]| ==> IsDigit(items[k][i])
    ensures forall i :: 0 <= i < |Join(items, '.')| ==> IsDigit(Join(items, '.')[i]) || Join(items, '.')[i] == '.'
  {
    if |items| > 1 { JoinDigits(items[1..]); }
  }

  lemma JoinFour(p: seq<string>)
    requires |p| == 4
    ensures Join(p, '.') == p[0] + "." + p[1] + "." + p[2] + "." + p[3]
  {
    assert p[1..][1..] == p[2..] && p[2..][1..] == p[3..] && p[3..] == [p[3]];
    assert Join(p[2..], '.') == p[2] + "." + p[3];
    assert Join(p[1..], '.') == p[1] + "." + (p[2] + "." + p[3]);
    assert Join(p, '.') == p[0] + "." + (p[1] + "." + (p[2] + "." + p[3]));
  }

  /** The IPv4 text form is unique: printing what was parsed gives the same text. */
  lemma PrintOfParsedIpv4(s: string)
    requires ParseIpv4(s).Some?
    ensures PrintIpv4(ParseIpv4(s).value) == s
    ensures Token(s) && ':' !in s
  {
    var p := SplitOn(s, '.');
    JoinOfSplit(s, '.');
    JoinFour(p);
    JoinDigits(p);
    DecimalOfDigits(p[0]);
    DecimalOfDigits(p[1]);
    DecimalOfDigits(p[2]);
    DecimalOfDigits(p[3]);
  }

  // ----- IPv6, abstract -----

  /** What is assumed of reading an IPv6 literal and printing it back: the
      printed form is one token with a colon, and reading it again changes nothing. */
  ghost predicate Canonical(f: string -> Option<string>) {
    forall s :: f(s).Some? ==> Token(f(s).value) && ':' in f(s).value && f(f(s).value) == f(s)
  }

  /** Canonical text of an IPv6 literal, `None` for any other text. */
  type Ipv6Canon = f: string -> Option<string> | Canonical(f) ghost witness (s: string) => None

  // ----- resolution of a candidate's address -----

  datatype Resolution = Resolution(family: Family, address: string, port: nat)

  const UNRESOLVED := Resolution(Unresolved, "", 0)

  const U16_MAX := 65535
  const U32_MAX := 0xFFFF_FFFF

  function CanonAddress(v6: Ipv6Canon, node: string): Option<(Family, string)> {
    if ParseIpv4(node).Some? then Some((Ipv4, PrintIpv4(ParseIpv4(node).value)))
    else if v6(node).Some? then Some((Ipv6, v6(node).value))
    else None
  }

  /** The literal short-cut: both the address and the port must read. */
  function Resolve(v6: Ipv6Canon, node: string, service: string): Resolution {
    var a := CanonAddress(v6, node);
    var p := ParseUint(service, U16_MAX);
    if a.Some? && p.Some? then Resolution(a.value.0, a.value.1, p.value) else UNRESOLVED
  }

  /** Resolving the canonical text again gives the same resolution. */
  lemma ResolveFixed(v6: Ipv6Canon, node: string, service: string)
    requires Resolve(v6, node, service).family != Unresolved
    ensures var r := Resolve(v6, node, service);
      Token(r.address) && r.port <= U16_MAX && Resolve(v6, r.address, Decimal(r.port)) == r
  {
    var r := Resolve(v6, node, service);
    ParseUintOfDecimal(r.port, U16_MAX);
    if ParseIpv4(node).Some? {
      PrintOfParsedIpv4(node);
    } else {
      assert Canonical(v6);
      assert v6(r.address) == v6(node);
      if ParseIpv4(r.address).Some? { PrintOfParsedIpv4(r.address); }
    }
  }
}
