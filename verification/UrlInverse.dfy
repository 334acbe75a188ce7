/** Parsing an ICE server URL undoes writing one, and the servers that can be
    parsed are exactly the well-formed ones. */
module UrlInverse {
  import opened Fingerprints
  import opened Percent
  import opened Text
  import opened Url
  import opened Utf8
  import Ip

  /** The parts of a URL text, as its writer chose them. */
  datatype Pieces = Pieces(
    scheme: string,
    slashes: nat,
    userinfo: Option<(string, string)>,
    host: string,
    bracketed: bool,
    port: Option<string>,
    query: Option<string>)

  function Slashes(n: nat): string { if n == 0 then "" else "/" + Slashes(n - 1) }

  function HostText(p: Pieces): string { if p.bracketed then "[" + p.host + "]" else p.host }

  function PortText(p: Pieces): string { match p.port case Some(t) => ":" + t case None => "" }

  function HostPort(p: Pieces): string { HostText(p) + PortText(p) }

  function UserText(p: Pieces): string {
    match p.userinfo case Some((user, password)) => user + ":" + password + "@" case None => ""
  }

  function Authority(p: Pieces): string { UserText(p) + HostPort(p) }

  function QueryText(p: Pieces): string { match p.query case Some(q) => "?" + q case None => "" }

  function Rest(p: Pieces): string { Authority(p) + QueryText(p) }

  function Render(p: Pieces): string { p.scheme + ":" + (Slashes(p.slashes) + Rest(p)) }

  // ----- what a writer must keep out of each part -----

  predicate Free(s: string, c: char) { c !in s }

  predicate SchemeOk(p: Pieces) {
    p.scheme != "" && (forall i :: 0 <= i < |p.scheme| ==> !EndsScheme(p.scheme[i]))
    && !IsWs(p.scheme[0]) && !IsWs(Render(p)[|Render(p)| - 1])
    && p.slashes <= 2 && (p.slashes < 2 && Rest(p) != "" ==> Rest(p)[0] != '/')
  }

  predicate UserOk(p: Pieces) {
    match p.userinfo
    case Some((user, password)) =>
      Free(user, ':') && Free(user, '?') && Free(user, '#') && Free(password, '?') && Free(password, '#')
    case None => true
  }

  predicate HostOk(p: Pieces) {
    Free(p.host, '?') && Free(p.host, '#') && Free(p.host, '@')
    && if p.bracketed then Free(p.host, ']')
       else (p.host != "" ==> p.host[0] != '[') && (p.port == None ==> Free(p.host, ':'))
  }

  predicate PortOk(p: Pieces) {
    match p.port
    case Some(t) => Free(t, '?') && Free(t, '#') && Free(t, '@') && Free(t, ':')
    case None => true
  }

  predicate PiecesOk(p: Pieces) {
    SchemeOk(p) && UserOk(p) && HostOk(p) && PortOk(p)
    && match p.query case Some(q) => Free(q, '#') case None => true
  }

  // ----- taking the text apart again -----

  lemma SchemeEndUnique(s: string, n: nat)
    requires n <= |s| && (forall i :: 0 <= i < n ==> !EndsScheme(s[i])) && (n < |s| ==> EndsScheme(s[n]))
    ensures SchemeEnd(s) == n
  {}

  lemma AfterLastUnique(s: string, c: char, n: nat)
    requires n <= |s| && (forall i :: n <= i < |s| ==> s[i] != c) && (n > 0 ==> s[n - 1] == c)
    ensures AfterLast(s, c) == n
  {}

  /** The first `c` of `a + [c] + b`. */
  lemma FirstCut(a: string, c: char, b: string)
    requires Free(a, c)
    ensures var s := a + [c] + b; IndexOf(s, c) == |a| < |s| && s[..|a|] == a && s[|a| + 1..] == b
  {
    var s := a + [c] + b;
    assert forall i :: 0 <= i < |a| ==> s[i] == a[i];
    IndexOfUnique(s, c, |a|);
  }

  /** The last `c` of `a + [c] + b`. */
  lemma LastCut(a: string, c: char, b: string)
    requires Free(b, c)
    ensures var s := a + [c] + b; AfterLast(s, c) == |a| + 1 <= |s| && s[..|a|] == a && s[|a| + 1..] == b
  {
    var s := a + [c] + b;
    assert forall i :: |a| + 1 <= i < |s| ==> s[i] == b[i - |a| - 1];
    AfterLastUnique(s, c, |a| + 1);
  }

  lemma NoneFound(s: string, c: char)
    requires Free(s, c)
    ensures IndexOf(s, c) == |s| && AfterLast(s, c) == 0 && s[..|s|] == s
  {
    IndexOfUnique(s, c, |s|);
    AfterLastUnique(s, c, 0);
  }

  lemma FreeSum(a: string, b: string, c: char)
    ensures Free(a + b, c) <==> Free(a, c) && Free(b, c)
  {}

  lemma SlashesSkipped(n: nat, rest: string, seen: nat)
    requires n + seen <= 2 && (n + seen < 2 && rest != "" ==> rest[0] != '/')
    ensures SkipSlashes(Slashes(n) + rest, seen) == rest
    decreases n
  {
    if n == 0 {
      assert Slashes(0) + rest == rest;
    } else {
      var text := Slashes(n) + rest;
      assert text == "/" + (Slashes(n - 1) + rest);
      assert text[1..] == Slashes(n - 1) + rest;
      SlashesSkipped(n - 1, rest, seen + 1);
    }
  }

  /** Neither slashes nor the other parts carry a fragment or a second query. */
  lemma AuthorityFree(p: Pieces)
    requires UserOk(p) && HostOk(p) && PortOk(p)
    ensures Free(Authority(p), '?') && Free(Authority(p), '#') && Free(HostPort(p), '@')
  {}

  lemma RestTaken(p: Pieces)
    requires PiecesOk(p)
    ensures ParseRest(p.scheme, Slashes(p.slashes) + Rest(p)) == ParseAuthority(p.scheme, Authority(p), p.query)
  {
    AuthorityFree(p);
    SlashesSkipped(p.slashes, Rest(p), 0);
    FreeSum(Authority(p), QueryText(p), '#');
    assert Free(QueryText(p), '#');
    hide PiecesOk, SchemeOk, UserOk, HostOk, PortOk, Authority, ParseAuthority, Slashes, SkipSlashes, IndexOf;
    NoneFound(Rest(p), '#');
    match p.query
    case Some(q) =>
      assert Rest(p) == Authority(p) + "?" + q by { Assoc(Authority(p), "?", q); }
      FirstCut(Authority(p), '?', q);
    case None =>
      assert Rest(p) == Authority(p);
      NoneFound(Authority(p), '?');
  }

  lemma SchemeCut(scheme: string, rest: string)
    requires scheme != "" && forall i :: 0 <= i < |scheme| ==> !EndsScheme(scheme[i])
    ensures var url := scheme + ":" + rest;
      url[0] == scheme[0] && SchemeEnd(url) == |scheme| < |url| && url[|scheme|] == ':'
      && url[..|scheme|] == scheme && url[|scheme| + 1..] == rest
  {
    var url := scheme + ":" + rest;
    assert forall i :: 0 <= i < |scheme| ==> url[i] == scheme[i];
    SchemeEndUnique(url, |scheme|);
  }

  lemma UrlTaken(p: Pieces)
    requires PiecesOk(p)
    ensures ParseUrl(Render(p)) == ParseRest(p.scheme, Slashes(p.slashes) + Rest(p))
  {
    hide ParseRest, UserOk, HostOk, PortOk, Rest, Slashes, IsWs, EndsScheme, SchemeEnd, Trim;
    var url := Render(p);
    SchemeCut(p.scheme, Slashes(p.slashes) + Rest(p));
    TrimFixed(url);
  }

  /** Who the URL names, before the scheme is looked at. */
  datatype Names = Names(user: string, password: string, host: string)

  predicate Spelled(p: Pieces, n: Names) {
    (match p.userinfo
     case Some((user, password)) => PercentDecode(user) == Some(n.user) && PercentDecode(password) == Some(n.password)
     case None => n.user == "" && n.password == "")
    && (if p.bracketed then p.host == n.host else PercentDecode(p.host) == Some(n.host))
    && n.host != ""
  }

  lemma UserinfoTaken(user: string, password: string, n: Names)
    requires Free(user, ':') && PercentDecode(user) == Some(n.user) && PercentDecode(password) == Some(n.password)
    ensures SplitUserinfo(user + ":" + password) == Ok((if user == "" then None else Some(n.user), Some(n.password)))
  {
    FirstCut(user, ':', password);
    hide IndexOf, PercentDecode;
  }

  lemma BracketedTaken(p: Pieces)
    requires HostOk(p) && p.bracketed
    ensures SplitHostPort(HostPort(p)) == Ok((p.host, if p.port.Some? then NonEmpty(p.port.value) else None))
  {
    hide IndexOf, Decoded, AfterLast;
    var s := HostPort(p);
    assert s == "[" + (p.host + "]" + PortText(p));
    assert s[1..] == p.host + "]" + PortText(p);
    FirstCut(p.host, ']', PortText(p));
  }

  lemma PlainTaken(p: Pieces, host: string)
    requires HostOk(p) && PortOk(p) && !p.bracketed && PercentDecode(p.host) == Some(host)
    ensures SplitHostPort(HostPort(p)) == Ok((host, if p.port.Some? then NonEmpty(p.port.value) else None))
  {
    var s := HostPort(p);
    match p.port
    case Some(t) =>
      assert s == p.host + ":" + t by { Assoc(p.host, ":", t); }
      LastCut(p.host, ':', t);
      assert s[0] == if p.host == "" then ':' else p.host[0];
    case None =>
      assert s == p.host;
      NoneFound(s, ':');
    hide AfterLast, PercentDecode;
  }

  lemma AuthorityTaken(p: Pieces, n: Names)
    requires PiecesOk(p) && Spelled(p, n)
    ensures ParseAuthority(p.scheme, Authority(p), p.query)
      == Ok(ParsedUrl(p.scheme,
                      if p.userinfo.Some? && p.userinfo.value.0 != "" then Some(n.user) else None,
                      if p.userinfo.Some? then Some(n.password) else None,
                      n.host, if p.port.Some? then NonEmpty(p.port.value) else None, p.query))
  {
    AuthorityFree(p);
    if p.bracketed { BracketedTaken(p); } else { PlainTaken(p, n.host); }
    match p.userinfo
    case Some((user, password)) =>
      var info := user + ":" + password;
      assert Authority(p) == info + "@" + HostPort(p);
      LastCut(info, '@', HostPort(p));
      UserinfoTaken(user, password, n);
    case None =>
      assert Authority(p) == HostPort(p);
      NoneFound(Authority(p), '@');
    hide SplitUserinfo, SplitHostPort, AfterLast, HostPort, PercentDecode;
  }

  // ----- servers -----

  /** What any server that parses satisfies. */
  predicate WellFormed(s: Server) {
    s.hostname != "" && s.port <= Ip.U16_MAX
    && (s.typ == Stun ==> s.username == "" && s.password == "" && s.relay == TurnUdp)
  }

  /** The port that a port text stands for, given the scheme's default. */
  function PortMeans(port: Option<string>, default: nat): Option<nat> {
    match port
    case Some(t) => if t == "" then Some(default) else ParseUint(t, Ip.U16_MAX)
    case None => Some(default)
  }

  /** The pieces spell the server: percent-encoded user, password and host, or a host
      in brackets; a scheme in any case; a port text, or none for the default; a
      transport query where the scheme leaves the relay open. */
  predicate Spells(p: Pieces, s: Server) {
    PiecesOk(p) && Spelled(p, Names(s.username, s.password, s.hostname))
    && match SchemeMeans(Lower(p.scheme))
       case None => false
       case Some((typ, relay, default)) =>
         s.typ == typ && (p.userinfo.Some? <==> typ == Turn)
         && PortMeans(p.port, default) == Some(s.port)
         && ChooseRelay(typ, relay, p.query) == s.relay
  }

  lemma EmptyDecodes()
    ensures PercentDecode("") == Some("")
  {}

  /** Parsing gives back exactly the server that the URL was written for, whatever
      characters its user and password contain. */
  lemma ParseInvertsRender(p: Pieces, s: Server)
    requires Spells(p, s)
    ensures ParseServer(Render(p)) == Ok(s)
  {
    UrlRead(p, Names(s.username, s.password, s.hostname));
    ServerRead(p, s);
    hide Spells, Spelled, PiecesOk, ParseUrl, ServerOf, Render, NonEmpty;
  }

  lemma ServerRead(p: Pieces, s: Server)
    requires Spells(p, s)
    ensures ServerOf(ParsedUrl(p.scheme,
                               if p.userinfo.Some? && p.userinfo.value.0 != "" then Some(s.username) else None,
                               if p.userinfo.Some? then Some(s.password) else None,
                               s.hostname, if p.port.Some? then NonEmpty(p.port.value) else None, p.query))
      == Ok(s)
  {
    EmptyDecodes();
    hide PiecesOk, PercentDecode, SchemeMeans, ChooseRelay, ParseUint;
    match SchemeMeans(Lower(p.scheme))
    case Some((typ, relay, default)) =>
      assert PortMeans(p.port, default)
        == match (if p.port.Some? then NonEmpty(p.port.value) else None)
           case Some(text) => ParseUint(text, Ip.U16_MAX) case None => Some(default);
  }

  lemma UrlRead(p: Pieces, n: Names)
    requires PiecesOk(p) && Spelled(p, n)
    ensures ParseUrl(Render(p))
      == Ok(ParsedUrl(p.scheme,
                      if p.userinfo.Some? && p.userinfo.value.0 != "" then Some(n.user) else None,
                      if p.userinfo.Some? then Some(n.password) else None,
                      n.host, if p.port.Some? then NonEmpty(p.port.value) else None, p.query))
  {
    hide *;
    UrlTaken(p);
    RestTaken(p);
    AuthorityTaken(p, n);
  }

  /** The transport queries mean what they say, and `turns:` needs none. */
  lemma TransportQueries()
    ensures RelayOf("transport=udp") == Some(TurnUdp)
    ensures RelayOf("transport=tcp") == Some(TurnTcp)
    ensures RelayOf("transport=tls") == Some(TurnTls)
    ensures forall q :: ChooseRelay(Turn, TurnTls, q) == TurnTls
  {
    DifferentTransports("transport=udp", "transport=tcp");
    DifferentTransports("transport=udp", "transport=tls");
    DifferentTransports("transport=tcp", "transport=tls");
    ContainsItself("transport=udp");
    ContainsItself("transport=tcp");
    ContainsItself("transport=tls");
    hide Contains;
  }

  lemma ContainsItself(s: string)
    ensures Contains(s, s)
  {}

  lemma DifferentTransports(wanted: string, given: string)
    requires |wanted| == |given| == 13 && (wanted[10] != given[10] || wanted[11] != given[11])
    ensures !Contains(given, wanted)
  {
    ShorterLacks(given[1..], wanted);
  }

  lemma {:induction false} ShorterLacks(s: string, p: string)
    requires |s| < |p|
    ensures !Contains(s, p)
  {
    if s != "" { ShorterLacks(s[1..], p); }
  }

  // ----- one encoder -----

  function EscapeBytes(bytes: seq<Byte>): string {
    if bytes == [] then "" else "%" + HexPair(bytes[0]) + EscapeBytes(bytes[1..])
  }

  /** Every byte as an escape. */
  function EscapeAll(v: string): string { EscapeBytes(Encode(v)) }

  lemma AsciiBytes(c: char)
    requires c as int < 0x80
    ensures Encode([c]) == [c as int]
  {}

  lemma EscapedByte(b: Byte, rest: string)
    ensures Unescape(Encode("%" + HexPair(b) + rest)) == After([b], Unescape(Encode(rest)))
  {
    var hi, lo := HexUpper(b / 16), HexUpper(b % 16);
    var text := "%" + HexPair(b) + rest;
    assert text == ['%'] + ([hi] + ([lo] + rest));
    EncodeAppend(['%'], [hi] + ([lo] + rest));
    EncodeAppend([hi], [lo] + rest);
    EncodeAppend([lo], rest);
    AsciiBytes('%');
    AsciiBytes(hi);
    AsciiBytes(lo);
    var bytes := Encode(text);
    assert bytes == [PERCENT, hi as int, lo as int] + Encode(rest);
    assert bytes[3..] == Encode(rest);
    assert HexOf(hi as int) == Some(b / 16) && HexOf(lo as int) == Some(b % 16);
    hide Encode;
  }

  lemma {:induction false} EscapedBytes(bytes: seq<Byte>)
    ensures Unescape(Encode(EscapeBytes(bytes))) == Some(bytes)
    ensures forall c :: c in EscapeBytes(bytes) ==> c == '%' || IsHexDigit(c)
  {
    if bytes != [] {
      EscapedBytes(bytes[1..]);
      EscapedByte(bytes[0], EscapeBytes(bytes[1..]));
      hide Unescape, Encode, HexUpper;
      assert bytes == [bytes[0]] + bytes[1..];
    }
  }

  lemma EscapeAllDecodes(v: string)
    ensures PercentDecode(EscapeAll(v)) == Some(v)
    ensures forall c :: c in EscapeAll(v) ==> c == '%' || IsHexDigit(c)
    ensures EscapeAll(v) == "" <==> v == ""
  {
    EscapedBytes(Encode(v));
    PercentDecodeByBytes(EscapeAll(v), v);
  }

  function QueryFor(s: Server): Option<string> {
    if s.typ == Stun then None
    else match s.relay
      case TurnUdp => Some("transport=udp")
      case TurnTcp => Some("transport=tcp")
      case TurnTls => Some("transport=tls")
  }

  /** A URL for any server: everything escaped, the port and the transport spelled out. */
  function Standard(s: Server): Pieces {
    Pieces(if s.typ == Stun then "stun" else "turn", 0,
           if s.typ == Stun then None else Some((EscapeAll(s.username), EscapeAll(s.password))),
           EscapeAll(s.hostname), false, Some(Decimal(s.port)), QueryFor(s))
  }

  lemma NotWs(c: char)
    requires IsDigit(c) || 'a' <= c <= 'z'
    ensures !IsWs(c)
  {}

  lemma StandardEnds(s: Server)
    requires WellFormed(s)
    ensures var r := Render(Standard(s)); r[0] == (if s.typ == Stun then 's' else 't') && !IsWs(r[|r| - 1])
    ensures var r := Rest(Standard(s)); r != "" && r[0] != '/'
  {
    var p := Standard(s);
    EscapeAllDecodes(s.hostname);
    EscapeAllDecodes(s.username);
    hide EscapeAll, PercentDecode, Decimal, IsWs;
    assert HostPort(p) == EscapeAll(s.hostname) + (":" + Decimal(s.port));
    assert Authority(p)[0] == ':' || Authority(p)[0] == '%' || IsHexDigit(Authority(p)[0]);
    var port := Decimal(s.port);
    assert Authority(p)[|Authority(p)| - 1] == port[|port| - 1];
    if p.query.Some? {
      assert Rest(p)[|Rest(p)| - 1] == QueryText(p)[13];
    } else {
      assert Rest(p) == Authority(p);
    }
    var last := Render(p)[|Render(p)| - 1];
    assert last == Rest(p)[|Rest(p)| - 1];
    NotWs(last);
  }

  lemma EscapedFree(v: string)
    ensures var t := EscapeAll(v);
      Free(t, ':') && Free(t, '?') && Free(t, '#') && Free(t, '@') && Free(t, '[') && PercentDecode(t) == Some(v)
  {
    EscapeAllDecodes(v);
    hide EscapeAll, PercentDecode;
  }

  lemma DecimalFree(n: nat)
    ensures var t := Decimal(n); Free(t, ':') && Free(t, '?') && Free(t, '#') && Free(t, '@')
  {
    hide Decimal;
  }

  lemma StandardHost(s: Server)
    requires WellFormed(s)
    ensures HostOk(Standard(s)) && PortOk(Standard(s))
  {
    EscapedFree(s.hostname);
    DecimalFree(s.port);
    hide EscapeAll, PercentDecode, Decimal, QueryFor;
  }

  lemma StandardUser(s: Server)
    ensures UserOk(Standard(s)) && match Standard(s).query case Some(q) => Free(q, '#') case None => true
  {
    EscapedFree(s.username);
    EscapedFree(s.password);
    hide EscapeAll, PercentDecode, Decimal;
  }

  lemma StandardScheme(s: Server)
    ensures var scheme := Standard(s).scheme;
      scheme != "" && (forall i :: 0 <= i < |scheme| ==> !EndsScheme(scheme[i])) && !IsWs(scheme[0])
  {
    hide EscapeAll, Decimal, QueryFor;
  }

  lemma StandardPieces(s: Server)
    requires WellFormed(s)
    ensures PiecesOk(Standard(s))
  {
    hide EscapeAll, PercentDecode, Decimal, Render, Rest, HostOk, PortOk, UserOk, Free, QueryFor, IsWs, EndsScheme;
    StandardEnds(s);
    StandardHost(s);
    StandardUser(s);
    StandardScheme(s);
  }

  lemma SchemesMean()
    ensures SchemeMeans(Lower("stun")) == Some((Stun, TurnUdp, 3478))
    ensures SchemeMeans(Lower("turn")) == Some((Turn, TurnUdp, 3478))
  {
    assert Lower("stun") == "stun" && Lower("turn") == "turn";
  }

  lemma StandardSpelled(s: Server)
    requires WellFormed(s)
    ensures Spelled(Standard(s), Names(s.username, s.password, s.hostname))
  {
    EscapedFree(s.hostname);
    EscapedFree(s.username);
    EscapedFree(s.password);
    hide EscapeAll, PercentDecode, Decimal, QueryFor;
  }

  lemma StandardRelay(s: Server)
    requires WellFormed(s)
    ensures ChooseRelay(s.typ, TurnUdp, QueryFor(s)) == s.relay
  {
    TransportQueries();
    hide RelayOf;
  }

  lemma StandardSpells(s: Server)
    requires WellFormed(s)
    ensures Spells(Standard(s), s)
  {
    StandardPieces(s);
    StandardSpelled(s);
    StandardRelay(s);
    ParseUintOfDecimal(s.port, Ip.U16_MAX);
    SchemesMean();
    hide EscapeAll, PercentDecode, Decimal, PiecesOk, Spelled, ChooseRelay, QueryFor, SchemeMeans, ParseUint, Lower;
  }

  lemma ParsedHasHost(text: string, p: ParsedUrl)
    requires ParseUrl(text) == Ok(p)
    ensures p.host != ""
  {
    hide Trim, SchemeEnd, SkipSlashes, IndexOf, AfterLast, SplitUserinfo, SplitHostPort;
  }

  lemma ServerIsWellFormed(p: ParsedUrl, s: Server)
    requires ServerOf(p) == Ok(s) && p.host != ""
    ensures WellFormed(s)
  {
    hide RelayOf, Lower;
  }

  lemma ParsedIsWellFormed(text: string, s: Server)
    requires ParseServer(text) == Ok(s)
    ensures WellFormed(s)
  {
    hide ParseUrl, ServerOf, WellFormed;
    match ParseUrl(text)
    case Ok(p) =>
      ParsedHasHost(text, p);
      ServerIsWellFormed(p, s);
  }

  /** The servers that URLs name are exactly the well-formed ones. */
  lemma ParsesToExactly(s: Server)
    ensures (exists text :: ParseServer(text) == Ok(s)) <==> WellFormed(s)
  {
    if WellFormed(s) {
      StandardSpells(s);
      ParseInvertsRender(Standard(s), s);
      assert ParseServer(Render(Standard(s))) == Ok(s);
    } else {
      forall text | ParseServer(text) == Ok(s) ensures false {
        ParsedIsWellFormed(text, s);
      }
    }
  }
}
