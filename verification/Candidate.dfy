/** The ICE candidate line (section 5.1 of RFC 8839): parser, printer, and the
    sense in which they are inverse to each other. */
module Candidates {
  import opened Text
  import opened Ip

  datatype CandidateType = UnknownType | Host | ServerReflexive | PeerReflexive | Relayed

  datatype TransportType = UnknownTransport | Udp | TcpActive | TcpPassive | TcpSo | TcpUnknown

  datatype ParseError = MissingField(field: string) | BadInteger(number: string) | MissingTypMarker

  /** A candidate is a value: the repository moves and clones it. */
  datatype Candidate = Candidate(
    foundation: string,
    component: nat,
    priority: nat,
    transportString: string,
    transportType: TransportType,
    node: string,
    service: string,
    typeString: string,
    candidateType: CandidateType,
    tail: string,
    mid: Option<string>,
    resolution: Resolution)
  {
    predicate IsResolved() { resolution.family != Unresolved }

    /** The mid of the media line, "0" when none was attached. */
    function Mid(): string { if mid.Some? then mid.value else "0" }

    function HintMid(m: string): Candidate {
      if mid.None? then this.(mid := Some(m)) else this
    }

    function RelatedAddress(): Option<string> { FindKv(SplitWs(tail), "raddr") }

    function RelatedPort(): Option<nat> {
      match FindKv(SplitWs(tail), "rport")
      case None => None
      case Some(s) => ParseUint(s, U16_MAX)
    }

    function TcpType(): Option<string> { FindKv(SplitWs(tail), "tcptype") }
  }

  const DEFAULT := Candidate(
    "none", 0, 0, "unknown", UnknownTransport, "0.0.0.0", "9", "unknown", UnknownType, "", None, UNRESOLVED)

  /** The repository's equality on candidates: foundation, node and service. */
  predicate Same(a: Candidate, b: Candidate) {
    a.foundation == b.foundation && a.node == b.node && a.service == b.service
  }

  function TypeFromSdp(s: string): CandidateType {
    if s == "host" then Host
    else if s == "prflx" then PeerReflexive
    else if s == "srflx" then ServerReflexive
    else if s == "relay" then Relayed
    else UnknownType
  }

  /** Value of the first pair (tokens at positions 2k, 2k+1) whose key matches;
      a matching key in last position has no value. */
  function FindKv(ts: seq<string>, key: string): Option<string> {
    if ts == [] then None
    else if EqIgnoreCase(ts[0], key) then (if |ts| > 1 then Some(ts[1]) else None)
    else if |ts| == 1 then None
    else FindKv(ts[2..], key)
  }

  function ClassifyTransport(transport: string, tail: string): TransportType {
    if EqIgnoreCase(transport, "udp") then Udp
    else if !EqIgnoreCase(transport, "tcp") then UnknownTransport
    else
      var t := FindKv(SplitWs(tail), "tcptype");
      if t == Some("active") then TcpActive
      else if t == Some("passive") then TcpPassive
      else if t == Some("so") then TcpSo
      else TcpUnknown
  }

  // ----- parsing -----

  function StripPrefixes(text: string): string {
    var s := if "a=" <= text then text[2..] else text;
    if "candidate:" <= s then s[10..] else s
  }

  /** The fields of a candidate body, in the order in which errors are reported. */
  function ParseBody(body: string): Result<Candidate, ParseError> {
    var ts := SplitWs(body);
    if |ts| < 1 then Err(MissingField("foundation"))
    else if |ts| < 2 then Err(MissingField("component"))
    else if ParseUint(ts[1], U32_MAX).None? then Err(BadInteger("component"))
    else if |ts| < 3 then Err(MissingField("transport"))
    else if |ts| < 4 then Err(MissingField("priority"))
    else if ParseUint(ts[3], U32_MAX).None? then Err(BadInteger("priority"))
    else if |ts| < 5 then Err(MissingField("address"))
    else if |ts| < 6 then Err(MissingField("port"))
    else if |ts| < 7 || ts[6] != "typ" then Err(MissingTypMarker)
    else if |ts| < 8 then Err(MissingField("candidate type"))
    else
      var tail := Join(ts[8..], ' ');
      Ok(Candidate(ts[0], ParseUint(ts[1], U32_MAX).value, ParseUint(ts[3], U32_MAX).value,
                   ts[2], ClassifyTransport(ts[2], tail), ts[4], ts[5],
                   ts[7], TypeFromSdp(ts[7]), tail, None, UNRESOLVED))
  }

  function Attach(v6: Ipv6Canon, c: Candidate, mid: string): Candidate {
    c.(mid := if mid == "" then None else Some(mid),
       resolution := Resolve(v6, c.node, c.service))
  }

  /** `Candidate::parse`: an empty text gives the default candidate. */
  function Parse(v6: Ipv6Canon, text: string, mid: string): Result<Candidate, ParseError> {
    if text == "" then Ok(Attach(v6, DEFAULT, mid))
    else
      match ParseBody(StripPrefixes(text))
      case Err(e) => Err(e)
      case Ok(c) => Ok(Attach(v6, c, mid))
  }

  // ----- printing -----

  function PrintedNode(c: Candidate): string {
    if c.IsResolved() then c.resolution.address else c.node
  }

  function PrintedService(c: Candidate): string {
    if c.IsResolved() then Decimal(c.resolution.port) else c.service
  }

  function SdpHead(c: Candidate): string {
    c.foundation + " " + Decimal(c.component) + " " + c.transportString + " "
  }

  function SdpMiddle(c: Candidate): string {
    Decimal(c.priority) + " " + PrintedNode(c) + " " + PrintedService(c) + " "
  }

  function SdpLast(c: Candidate): string {
    "typ" + " " + (c.typeString + (if c.tail == "" then "" else " " + c.tail))
  }

  function ToSdp(c: Candidate): string {
    "candidate:" + (SdpHead(c) + (SdpMiddle(c) + SdpLast(c)))
  }

  // ----- what can be printed and read back -----

  /** A candidate whose line reads back: its parts are tokens, the derived fields
      agree with the text they derive from, and it is resolved from its own node
      and service or not at all. */
  predicate Readable(v6: Ipv6Canon, c: Candidate) {
    Token(c.foundation) && c.component <= U32_MAX && c.priority <= U32_MAX
    && Token(c.transportString) && Token(c.node) && Token(c.service) && Token(c.typeString)
    && c.tail == Join(SplitWs(c.tail), ' ')
    && c.candidateType == TypeFromSdp(c.typeString)
    && c.transportType == ClassifyTransport(c.transportString, c.tail)
    && (c.resolution == Resolve(v6, c.node, c.service) || c.resolution == UNRESOLVED)
  }

  /** Every candidate the repository can hold: the parser resolves what it can, and
      the default candidate is not resolved. */
  predicate Printable(v6: Ipv6Canon, c: Candidate) {
    Readable(v6, c) && (c.resolution == Resolve(v6, c.node, c.service) || c.(mid := None) == DEFAULT)
  }

  /** The candidate that reading the printed line gives: the address and port
      in canonical text, everything else as it was. */
  function Canon(v6: Ipv6Canon, c: Candidate, mid: string): Candidate {
    Attach(v6, c.(node := PrintedNode(c), service := PrintedService(c)), mid)
  }

  function Tokens(c: Candidate): seq<string> {
    [c.foundation, Decimal(c.component), c.transportString, Decimal(c.priority), PrintedNode(c),
     PrintedService(c), "typ", c.typeString] + SplitWs(c.tail)
  }

  // ----- lemmas -----

  lemma PrintedAreTokens(v6: Ipv6Canon, c: Candidate)
    requires Readable(v6, c)
    ensures Token(PrintedNode(c)) && Token(PrintedService(c))
    ensures forall i :: 0 <= i < |Tokens(c)| ==> Token(Tokens(c)[i])
  {
    hide Decimal, SplitWs, Join, Resolve, TypeFromSdp, ClassifyTransport;
    if c.IsResolved() { ResolveFixed(v6, c.node, c.service); }
    assert Token("typ");
    hide Token, PrintedNode, PrintedService;
    assert forall i :: 8 <= i < |Tokens(c)| ==> Tokens(c)[i] == SplitWs(c.tail)[i - 8];
  }

  lemma JoinCons(a: string, ts: seq<string>)
    requires ts != []
    ensures Join([a] + ts, ' ') == a + " " + Join(ts, ' ')
  {
    assert ([a] + ts)[1..] == ts;
  }

  lemma {:induction false} JoinNonEmpty(ts: seq<string>)
    requires ts != [] && Token(ts[0])
    ensures Join(ts, ' ') != ""
  {}

  /** The tail is printed with a space in front exactly when it has tokens. */
  lemma TailJoin(typeString: string, tail: string)
    requires tail == Join(SplitWs(tail), ' ')
    ensures Join([typeString] + SplitWs(tail), ' ') == typeString + (if tail == "" then "" else " " + tail)
  {
    var ts := SplitWs(tail);
    if ts == [] {
      assert [typeString] + ts == [typeString];
    } else {
      JoinNonEmpty(ts);
      JoinCons(typeString, ts);
    }
  }

  lemma JoinThree(a: string, b: string, c: string, rest: seq<string>)
    requires rest != []
    ensures Join([a, b, c] + rest, ' ') == a + " " + b + " " + c + " " + Join(rest, ' ')
  {
    JoinCons(c, rest);
    JoinCons(b, [c] + rest);
    JoinCons(a, [b] + ([c] + rest));
    assert [a, b, c] + rest == [a] + ([b] + ([c] + rest));
  }

  lemma LastIsJoin(c: Candidate)
    requires c.tail == Join(SplitWs(c.tail), ' ')
    ensures Join(["typ"] + ([c.typeString] + SplitWs(c.tail)), ' ') == SdpLast(c)
  {
    TailJoin(c.typeString, c.tail);
    hide Join, SplitWs;
    JoinCons("typ", [c.typeString] + SplitWs(c.tail));
  }

  lemma BodyIsJoin(c: Candidate)
    requires c.tail == Join(SplitWs(c.tail), ' ')
    ensures ToSdp(c) == "candidate:" + Join(Tokens(c), ' ')
  {
    LastIsJoin(c);
    hide Join, SplitWs, Decimal, SdpLast, PrintedNode, PrintedService;
    var r2 := ["typ"] + ([c.typeString] + SplitWs(c.tail));
    var middle := [Decimal(c.priority), PrintedNode(c), PrintedService(c)];
    var r1 := middle + r2;
    JoinThree(middle[0], middle[1], middle[2], r2);
    JoinThree(c.foundation, Decimal(c.component), c.transportString, r1);
    assert Tokens(c) == [c.foundation, Decimal(c.component), c.transportString] + r1;
  }

  lemma BodySplits(v6: Ipv6Canon, c: Candidate)
    requires Readable(v6, c)
    ensures "candidate:" <= ToSdp(c) && SplitWs(ToSdp(c)[10..]) == Tokens(c)
  {
    BodyIsJoin(c);
    PrintedAreTokens(v6, c);
    SplitWsJoin(Tokens(c));
    assert ToSdp(c)[10..] == Join(Tokens(c), ' ');
  }

  lemma BodyParses(v6: Ipv6Canon, c: Candidate, body: string)
    requires Readable(v6, c) && SplitWs(body) == Tokens(c)
    ensures ParseBody(body)
      == Ok(c.(node := PrintedNode(c), service := PrintedService(c), mid := None, resolution := UNRESOLVED))
  {
    ParseUintOfDecimal(c.component, U32_MAX);
    ParseUintOfDecimal(c.priority, U32_MAX);
    assert Tokens(c)[8..] == SplitWs(c.tail);
    hide SplitWs, Join, Decimal, ParseUint, TypeFromSdp, ClassifyTransport, PrintedNode, PrintedService, Token, Resolve;
  }

  /** Printing a candidate and reading it back under any mid gives its canonical form. */
  lemma ParseOfPrint(v6: Ipv6Canon, c: Candidate, mid: string)
    requires Readable(v6, c)
    ensures Parse(v6, ToSdp(c), mid) == Ok(Canon(v6, c, mid))
  {
    BodySplits(v6, c);
    BodyParses(v6, c, ToSdp(c)[10..]);
    hide ToSdp, ParseBody, SplitWs, Tokens, Readable, PrintedNode, PrintedService, Resolve;
    assert ToSdp(c)[0] == "candidate:"[0];
    assert StripPrefixes(ToSdp(c)) == ToSdp(c)[10..];
  }

  /** What kind of candidate a line that parses gives, by its type, its transport and its
      `tcptype` extension. */
  lemma ParsedKinds(v6: Ipv6Canon, text: string, mid: string)
    requires Parse(v6, text, mid).Ok?
    ensures var c := Parse(v6, text, mid).value;
      (c.candidateType == Host <==> c.typeString == "host")
      && (c.candidateType == ServerReflexive <==> c.typeString == "srflx")
      && (c.candidateType == PeerReflexive <==> c.typeString == "prflx")
      && (c.candidateType == Relayed <==> c.typeString == "relay")
    ensures var c := Parse(v6, text, mid).value;
      var tcp := EqIgnoreCase(c.transportString, "tcp");
      (c.transportType == Udp <==> EqIgnoreCase(c.transportString, "udp"))
      && (c.transportType == TcpActive <==> tcp && c.TcpType() == Some("active"))
      && (c.transportType == TcpPassive <==> tcp && c.TcpType() == Some("passive"))
      && (c.transportType == TcpSo <==> tcp && c.TcpType() == Some("so"))
      && (c.transportType == UnknownTransport <==> !tcp && !EqIgnoreCase(c.transportString, "udp"))
  {
    ParsedIsPrintable(v6, text, mid);
    var c := Parse(v6, text, mid).value;
    hide Parse, Resolve, SplitWs, Join, Token;
    KindOfType(c.typeString);
    KindOfTransport(c.transportString, c.tail);
    hide EqIgnoreCase, TypeFromSdp, ClassifyTransport, FindKv;
  }

  lemma KindOfType(s: string)
    ensures TypeFromSdp(s) == Host <==> s == "host"
    ensures TypeFromSdp(s) == ServerReflexive <==> s == "srflx"
    ensures TypeFromSdp(s) == PeerReflexive <==> s == "prflx"
    ensures TypeFromSdp(s) == Relayed <==> s == "relay"
  {}

  lemma KindOfTransport(transport: string, tail: string)
    ensures var kind := ClassifyTransport(transport, tail);
      var tcp, t := EqIgnoreCase(transport, "tcp"), FindKv(SplitWs(tail), "tcptype");
      (kind == Udp <==> EqIgnoreCase(transport, "udp"))
      && (kind == TcpActive <==> tcp && t == Some("active")) && (kind == TcpPassive <==> tcp && t == Some("passive"))
      && (kind == TcpSo <==> tcp && t == Some("so"))
      && (kind == UnknownTransport <==> !tcp && !EqIgnoreCase(transport, "udp"))
  {
    assert Lower("udp")[0] == 'u' && Lower("tcp")[0] == 't';
    hide Lower, SplitWs, FindKv;
  }

  /** The fields of a line stand in the order of section 5.1 of RFC 8839: foundation,
      component, transport, priority, address, port, type, extensions. */
  lemma FieldsInOrder(v6: Ipv6Canon, ts: seq<string>, component: nat, priority: nat, mid: string)
    requires |ts| >= 8 && (forall i :: 0 <= i < |ts| ==> Token(ts[i]))
    requires ts[1] == Decimal(component) && component <= U32_MAX && ts[3] == Decimal(priority) && priority <= U32_MAX
    requires ts[6] == "typ"
    ensures var r := Parse(v6, "candidate:" + Join(ts, ' '), mid);
      r.Ok? && r.value.foundation == ts[0] && r.value.component == component && r.value.transportString == ts[2]
      && r.value.priority == priority && r.value.node == ts[4] && r.value.service == ts[5]
      && r.value.typeString == ts[7] && SplitWs(r.value.tail) == ts[8..]
  {
    var text := "candidate:" + Join(ts, ' ');
    SplitWsJoin(ts);
    SplitWsJoin(ts[8..]);
    ParseUintOfDecimal(component, U32_MAX);
    ParseUintOfDecimal(priority, U32_MAX);
    hide SplitWs, Join, Decimal, ParseUint, TypeFromSdp, ClassifyTransport, Token, Resolve;
    assert text[0] == "candidate:"[0];
    assert text[10..] == Join(ts, ' ');
    assert StripPrefixes(text) == text[10..];
  }

  lemma ZeroAddress()
    ensures ParseIpv4("0.0.0.0").Some?
  {
    var zeros := ["0", "0", "0", "0"];
    assert zeros[0] + "." + zeros[1] + "." + zeros[2] + "." + zeros[3] == "0.0.0.0";
    JoinFour(zeros);
    SplitOnJoin(zeros, '.');
    assert Octet("0") by { assert "0"[..0] == "" && DigitsValue("0") == 0; }
  }

  lemma NinePort()
    ensures ParseUint("9", U16_MAX) == Some(9)
  {
    assert "9"[..0] == "" && DigitsValue("9") == 9;
  }

  lemma DefaultResolution(v6: Ipv6Canon)
    ensures Resolve(v6, "0.0.0.0", "9") == Resolution(Ipv4, "0.0.0.0", 9)
  {
    hide ParseIpv4, PrintIpv4, ParseUint;
    ZeroAddress();
    PrintOfParsedIpv4("0.0.0.0");
    NinePort();
  }

  lemma DefaultClass()
    ensures ClassifyTransport("unknown", "") == UnknownTransport
  {
    assert |Lower("unknown")| == 7 && |Lower("udp")| == 3 && |Lower("tcp")| == 3;
  }

  lemma DefaultIsPrintable(v6: Ipv6Canon, mid: Option<string>)
    ensures Printable(v6, DEFAULT.(mid := mid))
  {
    DefaultClass();
    assert |"unknown"| == 7;
    assert Token("none") && Token("unknown") && Token("0.0.0.0") && Token("9");
  }

  /** Everything the parser returns can be printed. */
  lemma ParsedIsPrintable(v6: Ipv6Canon, text: string, mid: string)
    requires Parse(v6, text, mid).Ok?
    ensures Printable(v6, Parse(v6, text, mid).value)
    ensures var c := Parse(v6, text, mid).value; c.resolution == Resolve(v6, c.node, c.service)
    ensures Parse(v6, text, mid).value.mid == if mid == "" then None else Some(mid)
  {
    if text == "" {
      DefaultIsPrintable(v6, None);
    } else {
      SplitWsJoin(SplitWs(StripPrefixes(text))[8..]);
    }
  }

  /** The canonical form prints as the original did and is its own canonical form. */
  lemma CanonPrintsSame(v6: Ipv6Canon, c: Candidate, mid: string)
    requires Printable(v6, c)
    ensures var d := Canon(v6, c, mid);
      Printable(v6, d) && ToSdp(d) == ToSdp(c) && Canon(v6, d, mid) == d
  {
    PrintedAreTokens(v6, c);
    if c.IsResolved() {
      ResolveFixed(v6, c.node, c.service);
    } else if c.(mid := None) == DEFAULT {
      DefaultResolution(v6);
      assert Decimal(9) == "9";
    }
  }

  /** The candidate line round trip: whatever line was read, its printed form
      reads again, prints the same text, and keeps every field but the spelling
      of a resolved address and port. */
  lemma CandidateRoundTrip(v6: Ipv6Canon, text: string, mid: string)
    requires Parse(v6, text, mid).Ok?
    ensures var c := Parse(v6, text, mid).value;
      var again := Parse(v6, ToSdp(c), mid);
      && again == Ok(c.(node := PrintedNode(c), service := PrintedService(c)))
      && ToSdp(again.value) == ToSdp(c)
      && again.value.RelatedAddress() == c.RelatedAddress()
      && again.value.RelatedPort() == c.RelatedPort()
      && again.value.TcpType() == c.TcpType()
  {
    var c := Parse(v6, text, mid).value;
    ParsedIsPrintable(v6, text, mid);
    ParseOfPrint(v6, c, mid);
    CanonPrintsSame(v6, c, mid);
    if c.IsResolved() { ResolveFixed(v6, c.node, c.service); }
  }

  /** Both prefixes are optional in front of a non-empty body that itself
      starts with neither. */
  lemma PrefixesMakeNoDifference(v6: Ipv6Canon, body: string, mid: string)
    requires body != "" && !("a=" <= body) && !("candidate:" <= body)
    ensures Parse(v6, "candidate:" + body, mid) == Parse(v6, body, mid)
    ensures Parse(v6, "a=" + body, mid) == Parse(v6, body, mid)
    ensures Parse(v6, "a=candidate:" + body, mid) == Parse(v6, body, mid)
  {
    var full := "candidate:" + body;
    assert full[0] == 'c' && full[10..] == body;
    assert ("a=" + body)[2..] == body;
    assert "a=candidate:" + body == "a=" + full && ("a=" + full)[2..] == full;
  }

  /** The excluded bodies do differ: an empty text is the default candidate,
      but a bare prefix is an error; a doubled prefix is only stripped once. */
  lemma EmptyBodyDiffers(v6: Ipv6Canon, mid: string)
    ensures Parse(v6, "", mid).Ok? && Parse(v6, "candidate:", mid) == Err(MissingField("foundation"))
  {
    assert "candidate:"[0] == 'c' && "candidate:"[10..] == "";
  }

  /** What a lookup finds: the value after the first even position whose token
      matches the key, and nothing when there is no such position or no value. */
  lemma {:induction false} FindKvMeaning(ts: seq<string>, key: string, k: nat)
    requires 2 * k < |ts| && EqIgnoreCase(ts[2 * k], key)
    requires forall j :: 0 <= j < k ==> !EqIgnoreCase(ts[2 * j], key)
    ensures FindKv(ts, key) == if 2 * k + 1 < |ts| then Some(ts[2 * k + 1]) else None
  {
    if k > 0 {
      assert !EqIgnoreCase(ts[2 * 0], key);
      forall j | 0 <= j < k - 1 ensures !EqIgnoreCase(ts[2..][2 * j], key) {
        assert !EqIgnoreCase(ts[2 * (j + 1)], key);
      }
      FindKvMeaning(ts[2..], key, k - 1);
    }
  }

  lemma {:induction false} FindKvAbsent(ts: seq<string>, key: string)
    requires forall j :: 0 <= 2 * j < |ts| ==> !EqIgnoreCase(ts[2 * j], key)
    ensures FindKv(ts, key) == None
  {
    if ts != [] {
      assert !EqIgnoreCase(ts[2 * 0], key);
      if |ts| > 1 {
        forall j | 0 <= 2 * j < |ts[2..]| ensures !EqIgnoreCase(ts[2..][2 * j], key) {
          assert !EqIgnoreCase(ts[2 * (j + 1)], key);
        }
        FindKvAbsent(ts[2..], key);
      }
    }
  }

  // ----- the code that works by steps -----

  /** `find_kv`: an iterator loop that takes two tokens at a time. */
  method FindKvLoop(tail: string, key: string) returns (r: Option<string>)
    ensures r == FindKv(SplitWs(tail), key)
  {
    var it := SplitWs(tail);
    var i := 0;
    while i < |it|
      invariant 0 <= i
      invariant FindKv(it, key) == if i <= |it| then FindKv(it[i..], key) else None
    {
      var k := it[i];
      var v := if i + 1 < |it| then Some(it[i + 1]) else None;
      if EqIgnoreCase(k, key) { return v; }
      assert i + 2 <= |it| ==> it[i..][2..] == it[i + 2..];
      i := i + 2;
    }
    return None;
  }

  /** `to_sdp`: pushes the parts into a buffer. */
  method WriteSdp(c: Candidate) returns (out: string)
    ensures out == ToSdp(c)
  {
    var head := c.foundation + " " + Decimal(c.component) + " " + c.transportString + " ";
    out := "candidate:";
    out := out + head;
    var middle := Decimal(c.priority) + " ";
    if c.IsResolved() {
      middle := middle + c.resolution.address + " " + Decimal(c.resolution.port);
    } else {
      middle := middle + c.node + " " + c.service;
    }
    middle := middle + " ";
    out := out + middle;
    var last := c.typeString;
    if c.tail != "" {
      last := last + (" " + c.tail);
    }
    out := out + ("typ" + " " + last);
    assert middle == SdpMiddle(c);
    assert last == c.typeString + (if c.tail == "" then "" else " " + c.tail);
    Assoc("candidate:", SdpHead(c), SdpMiddle(c));
    Assoc("candidate:", SdpHead(c) + SdpMiddle(c), SdpLast(c));
    Assoc(SdpHead(c), SdpMiddle(c), SdpLast(c));
  }

  /** `parse` with `parse_in_place` and `try_resolve_numeric`, which fill the
      fields of a default candidate one after the other. */
  method ParseInPlace(v6: Ipv6Canon, text: string, mid: string) returns (r: Result<Candidate, ParseError>)
    ensures r == Parse(v6, text, mid)
  {
    var c := DEFAULT;
    if text != "" {
      var s := text;
      if "a=" <= s { s := s[2..]; }
      if "candidate:" <= s { s := s[10..]; }
      var ts := SplitWs(s);
      if |ts| < 1 { return Err(MissingField("foundation")); }
      if |ts| < 2 { return Err(MissingField("component")); }
      var component := ParseUint(ts[1], U32_MAX);
      if component.None? { return Err(BadInteger("component")); }
      if |ts| < 3 { return Err(MissingField("transport")); }
      if |ts| < 4 { return Err(MissingField("priority")); }
      var priority := ParseUint(ts[3], U32_MAX);
      if priority.None? { return Err(BadInteger("priority")); }
      if |ts| < 5 { return Err(MissingField("address")); }
      if |ts| < 6 { return Err(MissingField("port")); }
      if |ts| < 7 { return Err(MissingTypMarker); }
      if ts[6] != "typ" { return Err(MissingTypMarker); }
      if |ts| < 8 { return Err(MissingField("candidate type")); }
      var tail := Join(ts[8..], ' ');
      c := c.(foundation := ts[0], component := component.value, priority := priority.value);
      c := c.(node := ts[4], service := ts[5]);
      c := c.(typeString := ts[7], candidateType := TypeFromSdp(ts[7]));
      c := c.(transportString := ts[2], transportType := ClassifyTransport(ts[2], tail));
      c := c.(tail := tail);
    }
    if mid != "" {
      c := c.(mid := Some(mid));
    }
    var address := CanonAddress(v6, c.node);
    if address.Some? {
      var port := ParseUint(c.service, U16_MAX);
      if port.Some? {
        c := c.(resolution := Resolution(address.value.0, address.value.1, port.value));
      }
    }
    return Ok(c);
  }
}
