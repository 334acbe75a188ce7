/** ICE server URLs (section 3.1 of RFC 7064 and of RFC 7065): the parser, and the
    URLs that it takes to a given server. */
module Url {
  import opened Fingerprints
  import Ip
  import opened Percent
  import opened Text
  import opened Utf8

  datatype ServerType = Stun | Turn

  datatype Relay = TurnUdp | TurnTcp | TurnTls

  datatype Server = Server(hostname: string, port: nat, typ: ServerType, username: string, password: string, relay: Relay)

  datatype UrlError =
    | Empty
    | UnknownScheme(scheme: string)
    | MissingHost
    | InvalidPort(port: string)
    | UnterminatedIpv6
    | TurnMissingCredentials
    | StunWithCredentials
    | BadPercentEncoding

  datatype ParsedUrl = ParsedUrl(scheme: string, user: Option<string>, password: Option<string>, host: string,
                                 port: Option<string>, query: Option<string>)

  // ----- searching -----

  predicate EndsScheme(c: char) { c == ':' || c == '/' || c == '?' || c == '#' || c == '@' }

  /** Position of the first character that can end the scheme, or the length. */
  function SchemeEnd(s: string): (n: nat)
    ensures n <= |s|
    ensures forall i :: 0 <= i < n ==> !EndsScheme(s[i])
    ensures n < |s| ==> EndsScheme(s[n])
  {
    if s == "" || EndsScheme(s[0]) then 0 else 1 + SchemeEnd(s[1..])
  }

  /** Position after the last `c`, or 0 when there is none. */
  function AfterLast(s: string, c: char): (n: nat)
    ensures n <= |s|
    ensures forall i :: n <= i < |s| ==> s[i] != c
    ensures n > 0 ==> s[n - 1] == c
  {
    if s == "" then 0 else if s[|s| - 1] == c then |s| else AfterLast(s[..|s| - 1], c)
  }

  predicate Contains(s: string, p: string) {
    p <= s || (s != "" && Contains(s[1..], p))
  }

  // ----- the parser -----

  function SkipSlashes(rest: string, slashes: nat): string
    requires slashes <= 2
    decreases 2 - slashes
  {
    if slashes < 2 && rest != "" && rest[0] == '/' then SkipSlashes(rest[1..], slashes + 1) else rest
  }

  function Decoded(s: string): Result<string, UrlError> {
    match PercentDecode(s) case Some(v) => Ok(v) case None => Err(BadPercentEncoding)
  }

  /** User and password out of what stands before the last `@`. */
  function SplitUserinfo(info: string): Result<(Option<string>, Option<string>), UrlError> {
    var colon := IndexOf(info, ':');
    var user := info[..colon];
    match (if user == "" then Ok(None) else match Decoded(user) case Ok(v) => Ok(Some(v)) case Err(e) => Err(e))
    case Err(e) => Err(e)
    case Ok(u) =>
      if colon == |info| then Ok((u, None))
      else match Decoded(info[colon + 1..]) case Ok(v) => Ok((u, Some(v))) case Err(e) => Err(e)
  }

  function NonEmpty(s: string): Option<string> { if s == "" then None else Some(s) }

  function SplitHostPort(s: string): Result<(string, Option<string>), UrlError> {
    if s != "" && s[0] == '[' then
      var rest := s[1..];
      var close := IndexOf(rest, ']');
      if close == |rest| then Err(UnterminatedIpv6)
      else
        var after := rest[close + 1..];
        if after == "" then Ok((rest[..close], None))
        else if after[0] != ':' then Err(InvalidPort(after))
        else Ok((rest[..close], NonEmpty(after[1..])))
    else
      var colon := AfterLast(s, ':');
      if colon == 0 then (match Decoded(s) case Ok(host) => Ok((host, None)) case Err(e) => Err(e))
      else match Decoded(s[..colon - 1]) case Ok(host) => Ok((host, NonEmpty(s[colon..]))) case Err(e) => Err(e)
  }

  /** From the authority on, with scheme and query known. */
  function ParseAuthority(scheme: string, authority: string, query: Option<string>): Result<ParsedUrl, UrlError> {
    var at := AfterLast(authority, '@');
    match (if at == 0 then Ok((None, None)) else SplitUserinfo(authority[..at - 1]))
    case Err(e) => Err(e)
    case Ok(info) =>
      match SplitHostPort(authority[at..])
      case Err(e) => Err(e)
      case Ok(hostport) =>
        if hostport.0 == "" then Err(MissingHost)
        else Ok(ParsedUrl(scheme, info.0, info.1, hostport.0, hostport.1, query))
  }

  /** What follows the scheme: slashes, authority, query, fragment. */
  function ParseRest(scheme: string, after: string): Result<ParsedUrl, UrlError> {
    var slashed := SkipSlashes(after, 0);
    var rest := slashed[..IndexOf(slashed, '#')];
    var mark := IndexOf(rest, '?');
    ParseAuthority(scheme, rest[..mark], if mark == |rest| then None else Some(rest[mark + 1..]))
  }

  function ParseUrl(text: string): Result<ParsedUrl, UrlError> {
    var url := Trim(text);
    if url == "" then Err(Empty)
    else
      var colon := SchemeEnd(url);
      if colon == |url| || url[colon] != ':' then Err(UnknownScheme(url))
      else if colon == 0 then Err(UnknownScheme(""))
      else ParseRest(url[..colon], url[colon + 1..])
  }

  /** Type, relay and default port of a scheme. */
  function SchemeMeans(scheme: string): Option<(ServerType, Relay, nat)> {
    if scheme == "stun" then Some((Stun, TurnUdp, 3478))
    else if scheme == "turn" then Some((Turn, TurnUdp, 3478))
    else if scheme == "turns" then Some((Turn, TurnTls, 5349))
    else None
  }

  function RelayOf(query: string): Option<Relay> {
    if Contains(query, "transport=udp") then Some(TurnUdp)
    else if Contains(query, "transport=tcp") then Some(TurnTcp)
    else if Contains(query, "transport=tls") then Some(TurnTls)
    else None
  }

  function ChooseRelay(typ: ServerType, relay: Relay, query: Option<string>): Relay {
    if typ == Turn && relay != TurnTls && query.Some? then
      match RelayOf(query.value) case Some(r) => r case None => relay
    else relay
  }

  function OrEmpty(s: Option<string>): string { match s case Some(v) => v case None => "" }

  function ServerOf(p: ParsedUrl): Result<Server, UrlError> {
    match SchemeMeans(Lower(p.scheme))
    case None => Err(UnknownScheme(Lower(p.scheme)))
    case Some((typ, relay, defaultPort)) =>
      var userinfo := p.user.Some? || p.password.Some?;
      if typ == Stun && userinfo then Err(StunWithCredentials)
      else if typ == Turn && !userinfo then Err(TurnMissingCredentials)
      else
        var port := match p.port case Some(text) => ParseUint(text, Ip.U16_MAX) case None => Some(defaultPort);
        match port
        case None => Err(InvalidPort(OrEmpty(p.port)))
        case Some(n) =>
          Ok(Server(p.host, n, typ, OrEmpty(p.user), OrEmpty(p.password), ChooseRelay(typ, relay, p.query)))
  }

  function ParseServer(text: string): Result<Server, UrlError> {
    match ParseUrl(text) case Ok(p) => ServerOf(p) case Err(e) => Err(e)
  }

  /** What the scheme decides: server type, TLS, and the port when none is given. */
  lemma SchemeDecides(text: string)
    requires ParseServer(text).Ok?
    ensures ParseUrl(text).Ok?
    ensures var s, scheme := ParseServer(text).value, Lower(ParseUrl(text).value.scheme);
      (s.typ == Stun <==> scheme == "stun") && (s.typ == Turn <==> scheme == "turn" || scheme == "turns")
      && (scheme == "turns" ==> s.relay == TurnTls) && (scheme == "stun" ==> s.relay == TurnUdp)
      && (ParseUrl(text).value.port.None? ==> s.port == if scheme == "turns" then 5349 else 3478)
  {
    hide ParseUrl, Lower, ParseUint, RelayOf;
  }

  predicate HasUserinfo(p: ParsedUrl) { p.user.Some? || p.password.Some? }

  /** A URL that splits names a server if and only if its scheme is known, it has
      credentials exactly when that is a TURN scheme, and its port, if given, is one. */
  lemma NamesServerExactly(p: ParsedUrl)
    ensures var scheme := Lower(p.scheme);
      var turn := scheme == "turn" || scheme == "turns";
      var known := turn || scheme == "stun";
      var port := p.port.None? || ParseUint(p.port.value, Ip.U16_MAX).Some?;
      (ServerOf(p).Ok? <==> known && HasUserinfo(p) == turn && port)
      && (!known ==> ServerOf(p) == Err(UnknownScheme(scheme)))
      && (known && turn && !HasUserinfo(p) ==> ServerOf(p) == Err(TurnMissingCredentials))
      && (known && !turn && HasUserinfo(p) ==> ServerOf(p) == Err(StunWithCredentials))
      && (known && HasUserinfo(p) == turn && !port ==> ServerOf(p) == Err(InvalidPort(p.port.value)))
  {
    hide Lower, ParseUint, ChooseRelay;
  }

  // ----- the parser, step by step -----

  method ParseUrlSteps(text: string) returns (r: Result<ParsedUrl, UrlError>)
    ensures r == ParseUrl(text)
  {
    hide SplitUserinfo, SplitHostPort, AfterLast, IndexOf, SchemeEnd, Trim;
    var url := Trim(text);
    if url == "" { return Err(Empty); }
    var colon := SchemeEnd(url);
    if colon == |url| || url[colon] != ':' { return Err(UnknownScheme(url)); }
    var scheme := url[..colon];
    if scheme == "" { return Err(UnknownScheme("")); }
    var rest := url[colon + 1..];
    var slashes := 0;
    while slashes < 2 && rest != "" && rest[0] == '/'
      invariant slashes <= 2
      invariant SkipSlashes(rest, slashes) == SkipSlashes(url[colon + 1..], 0)
    {
      rest := rest[1..];
      slashes := slashes + 1;
    }
    var hash := IndexOf(rest, '#');
    rest := rest[..hash];
    var mark := IndexOf(rest, '?');
    var authority, query := rest[..mark], if mark == |rest| then None else Some(rest[mark + 1..]);
    var at := AfterLast(authority, '@');
    var info := if at == 0 then Ok((None, None)) else SplitUserinfo(authority[..at - 1]);
    if info.Err? { return Err(info.error); }
    var hostport := SplitHostPort(authority[at..]);
    if hostport.Err? { return Err(hostport.error); }
    var (host, port) := hostport.value;
    if host == "" { return Err(MissingHost); }
    return Ok(ParsedUrl(scheme, info.value.0, info.value.1, host, port, query));
  }
}
