/** Two ICE transports that exchange an offer and an answer as SDP text
    (roles in section 4.1 of RFC 4145), and the fingerprint pinned through it. */
module OfferAnswer {
  import opened Text
  import opened Ip
  import opened Fingerprints
  import opened Candidates
  import opened Sdp
  import opened CandidateLists
  import opened RoundTrip
  import opened Overrides
  import Descriptions

  /** What the agent's local fragment says about the credentials. */
  datatype Creds = Creds(ufrag: Option<string>, pwd: Option<string>)

  function ReadCred(creds: Creds, raw: string): Creds {
    var line := TrimEol(raw);
    if "a=ice-ufrag:" <= line then creds.(ufrag := Some(Trim(line[12..])))
    else if "a=ice-pwd:" <= line then creds.(pwd := Some(Trim(line[10..])))
    else creds
  }

  /** Scans lines from the left; a later line replaces an earlier one. */
  function ReadCreds(creds: Creds, lines: seq<string>): Creds
    decreases |lines|
  {
    if lines == [] then creds else ReadCreds(ReadCred(creds, lines[0]), lines[1..])
  }

  function ExtractCreds(fragment: string): Creds {
    ReadCreds(Creds(None, None), Lines(fragment))
  }

  // ----- what a fragment holds -----

  /** The value on each line that starts with a prefix. */
  function Given(lines: seq<string>, prefix: string): (r: seq<Option<string>>)
    ensures |r| == |lines|
  {
    seq(|lines|, i requires 0 <= i < |lines| =>
      if prefix <= TrimEol(lines[i]) then Some(Trim(TrimEol(lines[i])[|prefix|..])) else None)
  }

  /** The fragment's user name fragment and password: what its last line about each says. */
  predicate Holds(fragment: string, creds: Creds) {
    LatestSays(Given(Lines(fragment), "a=ice-ufrag:"), creds.ufrag)
    && LatestSays(Given(Lines(fragment), "a=ice-pwd:"), creds.pwd)
  }

  lemma GivenSnoc(lines: seq<string>, x: string, prefix: string)
    ensures Given(lines + [x], prefix)
      == Given(lines, prefix)
         + [if prefix <= TrimEol(x) then Some(Trim(TrimEol(x)[|prefix|..])) else None]
  {
    hide TrimEol, Trim;
  }

  lemma {:induction false} ReadCredsSnoc(creds: Creds, lines: seq<string>, x: string)
    ensures ReadCreds(creds, lines + [x]) == ReadCred(ReadCreds(creds, lines), x)
    decreases |lines|
  {
    hide ReadCred;
    if lines == [] {
      assert lines + [x] == [x] && [x][1..] == [];
      assert ReadCreds(ReadCred(creds, x), []) == ReadCred(creds, x);
    } else {
      assert (lines + [x])[1..] == lines[1..] + [x];
      ReadCredsSnoc(ReadCred(creds, lines[0]), lines[1..], x);
    }
  }

  lemma OneAttribute(line: string)
    ensures !("a=ice-ufrag:" <= line && "a=ice-pwd:" <= line)
  {
    if "a=ice-ufrag:" <= line { assert line[6] == 'u'; }
  }

  lemma {:induction false} ReadCredsHold(lines: seq<string>)
    ensures LatestSays(Given(lines, "a=ice-ufrag:"), ReadCreds(Creds(None, None), lines).ufrag)
    ensures LatestSays(Given(lines, "a=ice-pwd:"), ReadCreds(Creds(None, None), lines).pwd)
  {
    if lines != [] {
      var before, x := lines[..|lines| - 1], lines[|lines| - 1];
      assert before + [x] == lines;
      ReadCredsHold(before);
      ReadCredsSnoc(Creds(None, None), before, x);
      hide ReadCreds, Given, LatestSays, TrimEol, Trim;
      OneAttribute(TrimEol(x));
      var was := ReadCreds(Creds(None, None), before);
      GivenSnoc(before, x, "a=ice-ufrag:");
      GivenSnoc(before, x, "a=ice-pwd:");
      LatestSnoc(Given(before, "a=ice-ufrag:"), was.ufrag,
                 if "a=ice-ufrag:" <= TrimEol(x) then Some(Trim(TrimEol(x)[12..])) else None);
      LatestSnoc(Given(before, "a=ice-pwd:"), was.pwd,
                 if "a=ice-pwd:" <= TrimEol(x) then Some(Trim(TrimEol(x)[10..])) else None);
    }
  }

  lemma LatestIsOne<T>(values: seq<Option<T>>, r: Option<T>, s: Option<T>)
    requires LatestSays(values, r) && LatestSays(values, s)
    ensures r == s
  {}

  /** Extraction finds what the fragment holds, and nothing else. */
  lemma ExtractsExactly(fragment: string, creds: Creds)
    ensures Holds(fragment, creds) <==> creds == ExtractCreds(fragment)
  {
    ReadCredsHold(Lines(fragment));
    hide LatestSays, Given, Lines, ReadCreds;
    if Holds(fragment, creds) {
      LatestIsOne(Given(Lines(fragment), "a=ice-ufrag:"), creds.ufrag, ExtractCreds(fragment).ufrag);
      LatestIsOne(Given(Lines(fragment), "a=ice-pwd:"), creds.pwd, ExtractCreds(fragment).pwd);
    }
  }

  // ----- the transport -----

  /** `get_local_description`, from the transport's role and mid and the agent's fragment. */
  function LocalDescription(typ: SdpType, role: Role, mid: string, fragment: string, sessionId: string): Desc {
    var creds := ExtractCreds(fragment);
    var d := NewDesc(typ, if typ == Offer then ActPass else role, sessionId);
    var withCreds := d.(iceUfrag := creds.ufrag, icePwd := creds.pwd);
    AddIceOption(SetApplication(withCreds, NewApplication(mid)), "trickle")
  }

  /** The local role after a remote description: fixed by the first one. */
  function ResolveRole(local: Role, remote: Role): Role {
    if local != ActPass then local else if remote == Active then Passive else Active
  }

  datatype IceError = TransportClosed | Juice

  /** The signalling side of the ICE transport. What libjuice answers is a parameter. */
  class IceTransport {
    var role: Role
    var mid: string
    var closed: bool
    /** The text most recently handed to the agent. */
    var handedOver: Option<string>

    constructor (role: Role)
      ensures this.role == role && mid == "0" && !closed && handedOver == None
    {
      this.role, mid, closed, handedOver := role, "0", false, None;
    }

    /** No fragment stands for the agent's error. */
    method GetLocalDescription(typ: SdpType, fragment: Option<string>, sessionId: string)
      returns (r: Result<Desc, IceError>)
      ensures r == match fragment
        case Some(f) => Ok(LocalDescription(typ, role, mid, f, sessionId))
        case None => Err(Juice)
      ensures r.Ok? ==>
        Holds(fragment.value, Creds(r.value.iceUfrag, r.value.icePwd))
        && r.value.typ == typ && r.value.role == (if typ == Offer then ActPass else role)
        && r.value.bundleMids == [mid] && r.value.application == Some(NewApplication(mid))
        && r.value.iceOptions == ["trickle"] && r.value.candidates == [] && !r.value.ended
    {
      var roleToUse := if typ == Offer then ActPass else role;
      if fragment.None? { return Err(Juice); }
      var creds := ExtractCredsLoop(fragment.value);
      var d := NewDesc(typ, roleToUse, sessionId);
      if creds.ufrag.Some? { d := d.(iceUfrag := creds.ufrag); }
      if creds.pwd.Some? { d := d.(icePwd := creds.pwd); }
      d := SetApplication(d, NewApplication(mid));
      d := AddIceOption(d, "trickle");
      LocalFields(typ, role, mid, fragment.value, sessionId);
      ExtractsExactly(fragment.value, creds);
      return Ok(d);
    }

    /** When the transport is closed nothing changes; when the agent rejects the text,
        role and mid have been set nevertheless. */
    method SetRemoteDescription(d: Desc, accepted: bool) returns (r: Result<(), IceError>)
      modifies this
      ensures closed == old(closed)
      ensures r == if old(closed) then Err(TransportClosed) else if accepted then Ok(()) else Err(Juice)
      ensures !closed ==> role == ResolveRole(old(role), d.role)
      ensures !closed ==> mid == BundleMid(d)
      ensures !closed && d.application.Some? ==> mid == d.application.value.mid
      ensures !closed && d.application.None? ==> mid == if d.bundleMids != [] then d.bundleMids[0] else "0"
      ensures !closed ==> handedOver == Some(Print(d, "\r\n"))
      ensures closed ==> role == old(role) && mid == old(mid) && handedOver == old(handedOver)
    {
      if closed { return Err(TransportClosed); }
      if role == ActPass {
        role := if d.role == Active then Passive else Active;
      }
      mid := BundleMid(d);
      handedOver := Some(Print(d, "\r\n"));
      return if accepted then Ok(()) else Err(Juice);
    }
  }

  method ExtractCredsLoop(fragment: string) returns (creds: Creds)
    ensures creds == ExtractCreds(fragment)
    ensures Holds(fragment, creds)
  {
    ExtractsExactly(fragment, ExtractCreds(fragment));
    creds := Creds(None, None);
    var lines := Lines(fragment);
    var i := 0;
    while i < |lines|
      invariant 0 <= i <= |lines|
      invariant ExtractCreds(fragment) == ReadCreds(creds, lines[i..])
    {
      ghost var before := creds;
      var line := TrimEol(lines[i]);
      if "a=ice-ufrag:" <= line {
        creds := creds.(ufrag := Some(Trim(line[12..])));
      } else if "a=ice-pwd:" <= line {
        creds := creds.(pwd := Some(Trim(line[10..])));
      }
      assert creds == ReadCred(before, lines[i]);
      i := i + 1;
    }
  }

  // ----- what the descriptions are like -----

  lemma TrimmedPart(line: string, k: nat)
    requires '\n' !in line && k <= |line|
    ensures LineSafe(Trim(line[k..]))
  {
    assert forall c :: c in Trim(line[k..]) ==> c in line[k..];
  }

  lemma {:induction false} CredsSafe(creds: Creds, lines: seq<string>)
    requires TextOk(creds.ufrag) && TextOk(creds.pwd)
    requires forall i :: 0 <= i < |lines| ==> '\n' !in lines[i]
    ensures TextOk(ReadCreds(creds, lines).ufrag) && TextOk(ReadCreds(creds, lines).pwd)
    decreases |lines|
  {
    if lines != [] {
      var line := TrimEol(lines[0]);
      assert '\n' !in line;
      if "a=ice-ufrag:" <= line {
        TrimmedPart(line, 12);
      } else if "a=ice-pwd:" <= line {
        TrimmedPart(line, 10);
      }
      CredsSafe(ReadCred(creds, lines[0]), lines[1..]);
    }
  }

  lemma TrickleOk()
    ensures OptionOk("trickle") && Token("rtc") && Token("0")
  {
    TrimFixed("trickle");
  }

  lemma LocalFields(typ: SdpType, role: Role, mid: string, fragment: string, sessionId: string)
    ensures var d := LocalDescription(typ, role, mid, fragment, sessionId);
      var creds := ExtractCreds(fragment);
      d == Desc(typ, if typ == Offer then ActPass else role, "rtc", sessionId, "0", [mid], creds.ufrag, creds.pwd,
                ["trickle"], None, false, [], Some(NewApplication(mid)), [], [], false)
  {
    hide ExtractCreds;
  }

  /** What a local description says on the wire, line by line. */
  lemma LocalText(typ: SdpType, role: Role, mid: string, fragment: string, sessionId: string, ufrag: string, pwd: string,
                  eol: string)
    requires Holds(fragment, Creds(Some(ufrag), Some(pwd)))
    ensures var setup := if typ == Offer || role == ActPass then "actpass"
                         else if role == Active then "active" else "passive";
      Print(LocalDescription(typ, role, mid, fragment, sessionId), eol) == JoinEol(
        ["v=0", "o=rtc " + sessionId + " 0 IN IP4 127.0.0.1", "s=-", "t=0 0"]
        + ["a=group:BUNDLE " + mid, "a=msid-semantic:WMS *", "a=ice-options:trickle"]
        + ["m=application" + " 9 UDP/DTLS/SCTP webrtc-datachannel", "c=IN IP4 0.0.0.0"]
        + ["a=mid:" + mid, "a=sendrecv", "a=setup:" + setup, "a=ice-ufrag:" + ufrag, "a=ice-pwd:" + pwd], eol)
  {
    ExtractsExactly(fragment, Creds(Some(ufrag), Some(pwd)));
    LocalFields(typ, role, mid, fragment, sessionId);
    var d := LocalDescription(typ, role, mid, fragment, sessionId);
    hide LocalDescription, ExtractCreds, Holds;
    LocalHeader(d, mid, sessionId);
    LocalSection(d, mid, ufrag, pwd);
    hide HeaderLines, AttrLines, SessionAttrs, ApplicationLines, JoinEol;
    assert d.otherSections == [] && Concat(d.otherSections) == "";
    assert PrintedLines(d) + [] == PrintedLines(d);
    assert Print(d, eol) == JoinEol(PrintedLines(d), eol);
    var setup := if d.role == Active then "active" else if d.role == Passive then "passive" else "actpass";
    var media := ["m=application" + " 9 UDP/DTLS/SCTP webrtc-datachannel", "c=IN IP4 0.0.0.0"];
    var section := ["a=mid:" + mid, "a=sendrecv", "a=setup:" + setup, "a=ice-ufrag:" + ufrag, "a=ice-pwd:" + pwd];
    assert PrintedLines(d) == HeaderLines(d) + AttrLines(SessionAttrs(d)) + media + section;
  }

  lemma OriginLine(sessionId: string)
    ensures "o=" + "rtc" + " " + sessionId + " " + "0" + " IN IP4 127.0.0.1" == "o=rtc " + sessionId + " 0 IN IP4 127.0.0.1"
  {
    assert "o=" + "rtc" + " " == "o=rtc ";
    assert "o=rtc " + sessionId + " " + "0" + " IN IP4 127.0.0.1"
      == "o=rtc " + sessionId + (" " + "0" + " IN IP4 127.0.0.1");
  }

  lemma GroupLine(mid: string)
    ensures "a=" + Attr("group", "BUNDLE" + Spaced([mid])) == "a=group:BUNDLE " + mid
  {
    assert [mid][1..] == [];
    assert Spaced([mid]) == " " + mid;
    assert "a=" + ("group" + ":" + ("BUNDLE" + (" " + mid))) == ("a=" + "group" + ":" + "BUNDLE" + " ") + mid;
  }

  lemma AttrLine(key: string, value: string)
    ensures "a=" + Attr(key, value) == ("a=" + key + ":") + value
  {}

  lemma LocalHeader(d: Desc, mid: string, sessionId: string)
    requires d.username == "rtc" && d.sessionId == sessionId && d.sessionVersion == "0" && d.bundleMids == [mid]
    requires d.iceOptions == ["trickle"] && !d.extmapAllowMixed && d.fingerprint == None && d.extraAttrs == []
    ensures HeaderLines(d) == ["v=0", "o=rtc " + sessionId + " 0 IN IP4 127.0.0.1", "s=-", "t=0 0"]
    ensures AttrLines(SessionAttrs(d)) == ["a=group:BUNDLE " + mid, "a=msid-semantic:WMS *", "a=ice-options:trickle"]
  {
    OriginLine(sessionId);
    GroupLine(mid);
    AttrLine("msid-semantic", "WMS *");
    AttrLine("ice-options", "trickle");
    assert Join(["trickle"], ',') == "trickle";
    hide Spaced, Attr, Join;
    var group, semantic, options := Attr("group", "BUNDLE" + Spaced([mid])), Attr("msid-semantic", "WMS *"), Attr("ice-options", "trickle");
    assert SessionAttrs(d) == [group, semantic, options];
    assert "a=" + "msid-semantic" + ":" == "a=msid-semantic:";
    assert "a=msid-semantic:" + "WMS *" == "a=msid-semantic:WMS *";
    assert "a=" + "ice-options" + ":" == "a=ice-options:";
    assert "a=ice-options:" + "trickle" == "a=ice-options:trickle";
  }

  lemma LocalSection(d: Desc, mid: string, ufrag: string, pwd: string)
    requires d.application == Some(NewApplication(mid)) && d.iceUfrag == Some(ufrag) && d.icePwd == Some(pwd)
    requires d.fingerprint == None && d.candidates == [] && !d.ended
    ensures ApplicationLines(d)
      == ["m=application" + " 9 UDP/DTLS/SCTP webrtc-datachannel", "c=IN IP4 0.0.0.0"]
         + ["a=mid:" + mid, "a=sendrecv",
            "a=setup:" + (if d.role == Active then "active" else if d.role == Passive then "passive" else "actpass"),
            "a=ice-ufrag:" + ufrag, "a=ice-pwd:" + pwd]
  {
    var app := NewApplication(mid);
    MediaLine();
    SectionLines(d, mid, ufrag, pwd);
    hide AttrLines, ApplicationAttrs;
  }

  lemma MediaLine()
    ensures MEDIA_LINE == "m=application" + " 9 UDP/DTLS/SCTP webrtc-datachannel"
  {
    var protocol := " 9 UDP/DTLS/SCTP webrtc-datachannel";
    assert "m=" + ("application" + protocol) == ("m=" + "application") + protocol;
    assert "m=" + "application" == "m=application";
  }

  lemma SectionLines(d: Desc, mid: string, ufrag: string, pwd: string)
    requires d.iceUfrag == Some(ufrag) && d.icePwd == Some(pwd)
    requires d.fingerprint == None && d.candidates == [] && !d.ended
    ensures AttrLines(ApplicationAttrs(d, NewApplication(mid)))
      == ["a=mid:" + mid, "a=sendrecv",
          "a=setup:" + (if d.role == Active then "active" else if d.role == Passive then "passive" else "actpass"),
          "a=ice-ufrag:" + ufrag, "a=ice-pwd:" + pwd]
  {
    var app := NewApplication(mid);
    AttrLine("mid", mid);
    AttrLine("setup", RoleToken(d.role));
    AttrLine("ice-ufrag", ufrag);
    AttrLine("ice-pwd", pwd);
    hide Attr;
    assert DataAttrs(d, app) == [];
    assert ApplicationAttrs(d, app)
      == [Attr("mid", mid), "sendrecv", Attr("setup", RoleToken(d.role)), Attr("ice-ufrag", ufrag), Attr("ice-pwd", pwd)];
    assert "a=" + "mid" + ":" == "a=mid:";
    assert "a=" + "setup" + ":" == "a=setup:";
    assert "a=" + "ice-ufrag" + ":" == "a=ice-ufrag:";
    assert "a=" + "ice-pwd" + ":" == "a=ice-pwd:";
    assert "a=" + "sendrecv" == "a=sendrecv";
  }

  lemma FreshIsWellFormed(v6: Ipv6Canon, d: Desc, mid: string)
    requires Token(d.username) && Token(d.sessionId) && Token(d.sessionVersion) && Token(mid)
    requires d.bundleMids == [mid] && d.application == Some(NewApplication(mid))
    requires d.iceOptions == ["trickle"] && OptionOk("trickle") && d.fingerprint == None
    requires d.extraAttrs == [] && d.otherSections == [] && d.candidates == []
    requires TextOk(d.iceUfrag) && TextOk(d.icePwd)
    ensures WellFormed(v6, d) && CandidatesPrintable(v6, d)
  {
    assert LineSafe(mid);
    hide OptionOk, LineSafe, Token, TextOk, MidsReturn;
    assert Matching(d.candidates, mid) == [];
    TokenMidsReturn(d);
  }

  lemma LocalIsWellFormed(v6: Ipv6Canon, typ: SdpType, role: Role, mid: string, fragment: string, sessionId: string)
    requires Token(mid) && Token(sessionId)
    ensures var d := LocalDescription(typ, role, mid, fragment, sessionId);
      WellFormed(v6, d) && CandidatesPrintable(v6, d)
  {
    hide ReadCreds, Lines, Token, OptionOk, LineSafe, LocalDescription, WellFormed;
    CredsSafe(Creds(None, None), Lines(fragment));
    TrickleOk();
    LocalFields(typ, role, mid, fragment, sessionId);
    FreshIsWellFormed(v6, LocalDescription(typ, role, mid, fragment, sessionId), mid);
  }

  /** Sending a local description as text delivers its role, mid and credentials. */
  lemma TextDelivers(v6: Ipv6Canon, typ: SdpType, role: Role, mid: string, fragment: string,
                     sessionId: string, otherId: string, eol: string)
    requires Token(mid) && Token(sessionId) && IsEol(eol)
    ensures var d := LocalDescription(typ, role, mid, fragment, sessionId);
      var got := Sdp.Parse(v6, otherId, Print(d, eol));
      && got.Ok?
      && got.value.role == (if typ == Offer then ActPass else role)
      && BundleMid(got.value) == mid
      && Holds(fragment, Creds(got.value.iceUfrag, got.value.icePwd))
  {
    ExtractsExactly(fragment, ExtractCreds(fragment));
    hide Holds;
    hide Sdp.Parse, Print, WellFormed, CandidatesPrintable, ExtractCreds;
    var d := LocalDescription(typ, role, mid, fragment, sessionId);
    LocalIsWellFormed(v6, typ, role, mid, fragment, sessionId);
    PrintThenParse(v6, otherId, d, eol);
  }

  lemma HeldOnce(fragment: string, creds: Creds)
    requires Holds(fragment, creds)
    ensures forall other :: Holds(fragment, other) ==> other == creds
  {
    hide Holds, ExtractCreds;
    ExtractsExactly(fragment, creds);
    forall other | Holds(fragment, other) ensures other == creds { ExtractsExactly(fragment, other); }
  }

  /** One negotiation: an offerer that has not chosen a role and an answerer in
      any role, each sending SDP text that the other parses. They end in
      opposite roles, with one mid, each with the credentials that the other's
      fragment holds, and no later remote description changes either role. */
  lemma Negotiation(v6: Ipv6Canon, answererRole: Role, offererMid: string,
                    offerFragment: string, answerFragment: string, offered: Creds, answered: Creds,
                    ids: seq<string>, eol: string)
    requires Holds(offerFragment, offered) && Holds(answerFragment, answered)
    requires Token(offererMid) && IsEol(eol) && |ids| == 4 && Token(ids[0]) && Token(ids[1])
    ensures var offer := LocalDescription(Offer, ActPass, offererMid, offerFragment, ids[0]);
      var seenOffer := Sdp.Parse(v6, ids[2], Print(offer, eol));
      seenOffer.Ok? &&
      var answerer := ResolveRole(answererRole, seenOffer.value.role);
      var answererMid := BundleMid(seenOffer.value);
      var answer := LocalDescription(Answer, answerer, answererMid, answerFragment, ids[1]);
      var seenAnswer := Sdp.Parse(v6, ids[3], Print(answer, eol));
      seenAnswer.Ok? &&
      var offerer := ResolveRole(ActPass, seenAnswer.value.role);
      && ((offerer == Active && answerer == Passive) || (offerer == Passive && answerer == Active))
      && (answererRole == Passive ==> answerer == Passive) && (answererRole != Passive ==> answerer == Active)
      && BundleMid(seenAnswer.value) == answererMid == offererMid
      && seenOffer.value.iceUfrag == offered.ufrag && seenOffer.value.icePwd == offered.pwd
      && seenAnswer.value.iceUfrag == answered.ufrag && seenAnswer.value.icePwd == answered.pwd
      && (forall later :: ResolveRole(offerer, later) == offerer && ResolveRole(answerer, later) == answerer)
  {
    hide Sdp.Parse, Print, LocalDescription, ExtractCreds, BundleMid;
    TextDelivers(v6, Offer, ActPass, offererMid, offerFragment, ids[0], ids[2], eol);
    var answerer := ResolveRole(answererRole, ActPass);
    TextDelivers(v6, Answer, answerer, offererMid, answerFragment, ids[1], ids[3], eol);
    HeldOnce(offerFragment, offered);
    HeldOnce(answerFragment, answered);
    hide Holds;
  }

  /** The negotiation carried out on two transports, through text. */
  method Exchange(v6: Ipv6Canon, offerer: IceTransport, answerer: IceTransport,
                  offerFragment: string, answerFragment: string, ghost offered: Creds, ghost answered: Creds,
                  ids: seq<string>, accepted: (bool, bool))
    returns (seenOffer: Descriptions.Description, seenAnswer: Descriptions.Description)
    requires offerer != answerer && !offerer.closed && !answerer.closed
    requires offerer.role == ActPass && Token(offerer.mid)
    requires Holds(offerFragment, offered) && Holds(answerFragment, answered)
    requires |ids| == 4 && Token(ids[0]) && Token(ids[1])
    modifies offerer, answerer
    ensures (offerer.role == Active && answerer.role == Passive) || (offerer.role == Passive && answerer.role == Active)
    ensures offerer.mid == answerer.mid == old(offerer.mid)
    ensures seenOffer.iceUfrag == offered.ufrag && seenOffer.icePwd == offered.pwd
    ensures seenAnswer.iceUfrag == answered.ufrag && seenAnswer.icePwd == answered.pwd
    ensures answerer.handedOver == Some(Print(seenOffer.Value(), "\r\n"))
    ensures offerer.handedOver == Some(Print(seenAnswer.Value(), "\r\n"))
  {
    hide Sdp.Parse, Print, LocalDescription, ExtractCreds, BundleMid, Token, Holds;
    Negotiation(v6, answerer.role, offerer.mid, offerFragment, answerFragment, offered, answered, ids, "\r\n");
    var offer := offerer.GetLocalDescription(Offer, Some(offerFragment), ids[0]);
    var error;
    seenOffer, error := Descriptions.Description.Parse(v6, ids[2], Print(offer.value, "\r\n"));
    assert error.None?;
    var r := answerer.SetRemoteDescription(seenOffer.Value(), accepted.0);
    var answer := answerer.GetLocalDescription(Answer, Some(answerFragment), ids[1]);
    seenAnswer, error := Descriptions.Description.Parse(v6, ids[3], Print(answer.value, "\r\n"));
    r := offerer.SetRemoteDescription(seenAnswer.Value(), accepted.1);
  }

  // ----- the pinned fingerprint -----

  lemma PinnedStaysWellFormed(v6: Ipv6Canon, d: Desc, fp: Fingerprint)
    requires WellFormed(v6, d) && FingerprintOk(Fingerprint(fp.algorithm, Upper(fp.value)))
    ensures WellFormed(v6, SetFingerprint(d, fp))
  {
    hide LineSafe, OptionOk, SessionAttrOk, SectionOk, ApplicationFieldsOk, Distinct, Matching, CanonAll, StoredMid;
    hide Blanks, AllTokens, NotedMids;
    var pinned := SetFingerprint(d, fp);
    assert FingerprintOk(pinned.fingerprint.value);
    assert Kept(v6, pinned) == Kept(v6, d) && OwnMids(pinned) == OwnMids(d) && Bundled(pinned) == Bundled(d);
    hide FingerprintOk, Token;
  }

  /** A certificate's fingerprint, in any spelling of its hex digits, set on a
      description, printed and parsed by the peer, accepts a certificate of the
      peer's exactly when its digest is the one that was pinned. */
  lemma PinThroughSdp(v6: Ipv6Canon, d: Desc, a: Algorithm, mine: seq<Byte>, spelled: string,
                      peer: seq<Byte>, sessionId: string, eol: string)
    requires WellFormed(v6, d) && CandidatesPrintable(v6, d) && IsEol(eol)
    requires |mine| == AlgorithmSize(a) == |peer| && EqIgnoreCase(spelled, Format(mine))
    ensures var got := Sdp.Parse(v6, sessionId, Print(SetFingerprint(d, Fingerprint(a, spelled)), eol));
      got.Ok? && (Accepts(got.value.fingerprint, peer) <==> peer == mine)
  {
    hide Sdp.Parse, Print, Accepts, Token, WellFormed, CandidatesPrintable, FingerprintOk, HexPairs;
    var fp := Fingerprint(a, spelled);
    PinAccepts(a, mine, spelled, peer);
    PinIsOk(a, mine);
    hide Format, Upper, EqIgnoreCase;
    var pinned := SetFingerprint(d, fp);
    PinnedStaysWellFormed(v6, d, fp);
    PinnedKeeps(v6, d, fp);
    PrintThenParse(v6, sessionId, pinned, eol);
    NormalPin(v6, pinned);
    hide Normal;
  }

  lemma PinIsOk(a: Algorithm, mine: seq<Byte>)
    requires |mine| == AlgorithmSize(a)
    ensures FingerprintOk(Fingerprint(a, Format(mine)))
  {
    FormatIsValid(a, mine);
    hide Format;
    ValidIsToken(a, Format(mine));
  }

  lemma NormalPin(v6: Ipv6Canon, d: Desc)
    ensures Normal(v6, d).fingerprint == d.fingerprint
  {}

  lemma PinnedKeeps(v6: Ipv6Canon, d: Desc, fp: Fingerprint)
    requires CandidatesPrintable(v6, d)
    ensures CandidatesPrintable(v6, SetFingerprint(d, fp))
  {}
}
