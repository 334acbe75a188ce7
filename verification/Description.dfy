/** The description object of the repository: fields updated in place, a
    printer that pushes into a buffer and a parser that loops over lines. */
module Descriptions {
  import opened Text
  import opened Ip
  import opened Fingerprints
  import opened Candidates
  import opened Sdp

  // ----- the printer's buffer -----

  /** The buffer holds these lines, then these attribute lines. */
  predicate Holds(out: string, head: seq<string>, attrs: seq<string>, eol: string) {
    out == JoinEol(head + AttrLines(attrs), eol)
  }

  lemma AttrLinesAppend(a: seq<string>, b: seq<string>)
    ensures AttrLines(a + b) == AttrLines(a) + AttrLines(b)
  {}

  lemma PushedAttr(out: string, head: seq<string>, attrs: seq<string>, attr: string, eol: string)
    requires Holds(out, head, attrs, eol)
    ensures Holds(out + ("a=" + attr + eol), head, attrs + [attr], eol)
  {
    AttrLinesAppend(attrs, [attr]);
    assert AttrLines([attr]) == ["a=" + attr];
    Assoc(head, AttrLines(attrs), ["a=" + attr]);
    JoinEolAppend(head + AttrLines(attrs), ["a=" + attr], eol);
    assert JoinEol(["a=" + attr], eol) == "a=" + attr + eol by { OneLine("a=" + attr, eol); }
  }

  lemma OneLine(line: string, eol: string)
    ensures JoinEol([line], eol) == line + eol
  {
    assert [line][1..] == [];
    assert line + eol + "" == line + eol;
  }

  method PushAttr(out: string, attr: string, eol: string, ghost head: seq<string>, ghost attrs: seq<string>)
    returns (r: string)
    requires Holds(out, head, attrs, eol)
    ensures Holds(r, head, attrs + [attr], eol)
  {
    hide Holds;
    r := out + ("a=" + attr + eol);
    PushedAttr(out, head, attrs, attr, eol);
  }

  method PushAll(out: string, more: seq<string>, eol: string, ghost head: seq<string>, ghost attrs: seq<string>)
    returns (r: string)
    requires Holds(out, head, attrs, eol)
    ensures Holds(r, head, attrs + more, eol)
  {
    hide Holds;
    r := out;
    assert attrs + more[..0] == attrs;
    for i := 0 to |more|
      invariant Holds(r, head, attrs + more[..i], eol)
    {
      assert (attrs + more[..i]) + [more[i]] == attrs + more[..i + 1];
      r := PushAttr(r, more[i], eol, head, attrs + more[..i]);
    }
    assert more[..|more|] == more;
  }

  lemma {:induction false} SpacedSnoc(mids: seq<string>, mid: string)
    ensures Spaced(mids + [mid]) == Spaced(mids) + " " + mid
  {
    if mids == [] {
      assert mids + [mid] == [mid] && [mid][1..] == [];
      assert " " + mid + "" == " " + mid;
    } else {
      TailOfSum(mids, [mid]);
      SpacedSnoc(mids[1..], mid);
      Assoc(" " + mids[0], Spaced(mids[1..]), " " + mid);
      Assoc(Spaced(mids[1..]), " ", mid);
      Assoc(Spaced(mids), " ", mid);
    }
  }

  lemma {:induction false} JoinSnoc(items: seq<string>, item: string, sep: char)
    requires items != []
    ensures Join(items + [item], sep) == Join(items, sep) + [sep] + item
  {
    if |items| == 1 {
      assert (items + [item])[1..] == [item];
    } else {
      TailOfSum(items, [item]);
      JoinSnoc(items[1..], item, sep);
      Assoc(items[0] + [sep], Join(items[1..], sep), [sep] + item);
      Assoc(Join(items[1..], sep), [sep], item);
      Assoc(Join(items, sep), [sep], item);
    }
  }

  lemma {:induction false} ConcatSnoc(parts: seq<string>, part: string)
    ensures Concat(parts + [part]) == Concat(parts) + part
  {
    if parts == [] {
      assert parts + [part] == [part] && [part][1..] == [];
    } else {
      TailOfSum(parts, [part]);
      ConcatSnoc(parts[1..], part);
      Assoc(parts[0], Concat(parts[1..]), part);
    }
  }

  lemma {:induction false} MatchingSnoc(cs: seq<Candidate>, c: Candidate, mid: string)
    ensures Matching(cs + [c], mid) == Matching(cs, mid) + (if c.Mid() == mid then [c] else [])
  {
    if cs == [] {
      assert cs + [c] == [c] && [c][1..] == [];
    } else {
      TailOfSum(cs, [c]);
      MatchingSnoc(cs[1..], c, mid);
      Assoc(if cs[0].Mid() == mid then [cs[0]] else [], Matching(cs[1..], mid), if c.Mid() == mid then [c] else []);
    }
  }

  class Description {
    var typ: SdpType
    var role: Role
    var username: string
    var sessionId: string
    var sessionVersion: string
    var bundleMids: seq<string>
    var iceUfrag: Option<string>
    var icePwd: Option<string>
    var iceOptions: seq<string>
    var fingerprint: Option<Fingerprint>
    var extmapAllowMixed: bool
    var extraAttrs: seq<string>
    var application: Option<Application>
    var otherSections: seq<string>
    var candidates: seq<Candidate>
    var ended: bool

    /** The description as a value. */
    function Value(): Desc
      reads this
    {
      Desc(typ, role, username, sessionId, sessionVersion, bundleMids, iceUfrag, icePwd, iceOptions,
           fingerprint, extmapAllowMixed, extraAttrs, application, otherSections, candidates, ended)
    }

    constructor (typ: SdpType, role: Role, sessionId: string)
      ensures Value() == NewDesc(typ, role, sessionId)
    {
      this.typ, this.role, this.username, this.sessionId, this.sessionVersion := typ, role, "rtc", sessionId, "0";
      bundleMids, iceUfrag, icePwd, iceOptions := [], None, None, [];
      fingerprint, extmapAllowMixed, extraAttrs := None, false, [];
      application, otherSections, candidates, ended := None, [], [], false;
    }

    // ----- building -----

    /** `retain` on the bundle group: keeps the other mids in their order. */
    method RetainOthers(mid: string)
      modifies this`bundleMids
      ensures bundleMids == Without(old(bundleMids), mid)
    {
      var kept: seq<string> := [];
      var i := 0;
      while i < |bundleMids|
        invariant 0 <= i <= |bundleMids|
        invariant bundleMids == old(bundleMids)
        invariant kept + Without(bundleMids[i..], mid) == Without(bundleMids, mid)
      {
        if bundleMids[i] != mid {
          Assoc(kept, [bundleMids[i]], Without(bundleMids[i + 1..], mid));
          kept := kept + [bundleMids[i]];
        }
        assert bundleMids[i..][1..] == bundleMids[i + 1..];
        i := i + 1;
      }
      assert kept + [] == kept;
      bundleMids := kept;
    }

    method SetApplication(app: Application)
      modifies this`bundleMids, this`application
      ensures Value() == Sdp.SetApplication(old(Value()), app)
    {
      if application.Some? {
        RetainOthers(application.value.mid);
      }
      if app.mid !in bundleMids {
        bundleMids := [app.mid] + bundleMids;
      }
      application := Some(app);
    }

    method ApplicationOrCreate(mid: string)
      modifies this`bundleMids, this`application
      ensures Value() == Sdp.ApplicationOrCreate(old(Value()), mid)
      ensures application.Some?
    {
      if application.None? {
        SetApplication(NewApplication(mid));
      }
    }

    /** The search and push shared by `add_candidate` and the parser. */
    method PushNew(c: Candidate)
      modifies this`candidates
      ensures candidates == Insert(old(candidates), c)
    {
      var i := 0;
      while i < |candidates|
        invariant 0 <= i <= |candidates|
        invariant forall j :: 0 <= j < i ==> !Same(candidates[j], c)
      {
        if Same(candidates[i], c) { return; }
        i := i + 1;
      }
      candidates := candidates + [c];
    }

    method AddCandidate(c: Candidate)
      modifies this`candidates
      ensures Value() == Sdp.AddCandidate(old(Value()), c)
    {
      var hinted := c.HintMid(BundleMid(Value()));
      PushNew(hinted);
    }

    method SetFingerprint(fp: Fingerprint)
      modifies this`fingerprint
      ensures Value() == Sdp.SetFingerprint(old(Value()), fp)
    {
      fingerprint := Some(fp.(value := Upper(fp.value)));
    }

    // ----- printing -----

    method WriteHeader(eol: string) returns (out: string)
      ensures Holds(out, HeaderLines(Value()), [], eol)
    {
      var origin := "o=" + username + " " + sessionId + " " + sessionVersion + " IN IP4 127.0.0.1";
      out := "v=0" + eol;
      out := out + (origin + eol);
      out := out + ("s=-" + eol);
      out := out + ("t=0 0" + eol);
      assert HeaderLines(Value()) == ["v=0"] + [origin] + ["s=-"] + ["t=0 0"];
      OneLine("v=0", eol);
      OneLine(origin, eol);
      OneLine("s=-", eol);
      OneLine("t=0 0", eol);
      JoinEolAppend(["v=0"], [origin], eol);
      JoinEolAppend(["v=0"] + [origin], ["s=-"], eol);
      JoinEolAppend(["v=0"] + [origin] + ["s=-"], ["t=0 0"], eol);
      assert HeaderLines(Value()) + AttrLines([]) == HeaderLines(Value());
    }

    method GroupText() returns (s: string)
      ensures s == "BUNDLE" + Spaced(bundleMids)
    {
      s := "BUNDLE";
      assert "BUNDLE" + "" == "BUNDLE" && bundleMids[..0] == [];
      for i := 0 to |bundleMids|
        invariant s == "BUNDLE" + Spaced(bundleMids[..i])
      {
        assert bundleMids[..i + 1] == bundleMids[..i] + [bundleMids[i]];
        SpacedSnoc(bundleMids[..i], bundleMids[i]);
        Assoc("BUNDLE", Spaced(bundleMids[..i]), " ");
        Assoc("BUNDLE", Spaced(bundleMids[..i]) + " ", bundleMids[i]);
        s := s + " " + bundleMids[i];
      }
      assert bundleMids[..|bundleMids|] == bundleMids;
    }

    method OptionsText() returns (s: string)
      ensures s == Join(iceOptions, ',')
    {
      s := "";
      for i := 0 to |iceOptions|
        invariant s == Join(iceOptions[..i], ',')
      {
        assert iceOptions[..i + 1] == iceOptions[..i] + [iceOptions[i]];
        if i > 0 {
          JoinSnoc(iceOptions[..i], iceOptions[i], ',');
          s := s + [','];
        }
        s := s + iceOptions[i];
      }
      assert iceOptions[..|iceOptions|] == iceOptions;
    }

    /** `generate_sdp` up to the media sections. */
    method WriteSession(eol: string) returns (out: string)
      ensures Holds(out, HeaderLines(Value()), SessionAttrs(Value()), eol)
    {
      hide Holds, HeaderLines, Attr;
      ghost var head := HeaderLines(Value());
      out := WriteHeader(eol);
      ghost var attrs: seq<string> := [];
      if bundleMids != [] {
        var group := GroupText();
        out := PushAttr(out, Attr("group", group), eol, head, attrs);
        attrs := attrs + [Attr("group", group)];
      }
      assert attrs == GroupAttrs(bundleMids);
      out := PushAttr(out, Attr("msid-semantic", "WMS *"), eol, head, attrs);
      attrs := attrs + [Attr("msid-semantic", "WMS *")];
      ghost var before := attrs;
      if iceOptions != [] {
        var options := OptionsText();
        out := PushAttr(out, Attr("ice-options", options), eol, head, attrs);
        attrs := attrs + [Attr("ice-options", options)];
      }
      assert attrs == before + OptionsAttrs(iceOptions);
      before := attrs;
      if extmapAllowMixed {
        out := PushAttr(out, "extmap-allow-mixed", eol, head, attrs);
        attrs := attrs + ["extmap-allow-mixed"];
      }
      assert attrs == before + FlagAttrs("extmap-allow-mixed", extmapAllowMixed);
      before := attrs;
      if fingerprint.Some? {
        var value := AlgorithmToken(fingerprint.value.algorithm) + " " + fingerprint.value.value;
        out := PushAttr(out, Attr("fingerprint", value), eol, head, attrs);
        attrs := attrs + [Attr("fingerprint", value)];
      }
      assert attrs == before + FingerprintAttrs(fingerprint);
      out := PushAll(out, extraAttrs, eol, head, attrs);
    }
  
    /** The attributes of `write_application` up to the ICE credentials. */
    method WriteTransport(app: Application, out0: string, eol: string, ghost head: seq<string>) returns (out: string)
      requires Holds(out0, head, [], eol)
      ensures Holds(out, head, TransportAttrs(Value(), app), eol)
    {
      hide Holds, Attr;
      out := PushAttr(out0, Attr("mid", app.mid), eol, head, []);
      ghost var attrs := [] + [Attr("mid", app.mid)];
      ghost var before := attrs;
      if app.direction != UnknownDirection {
        out := PushAttr(out, DirectionToken(app.direction), eol, head, attrs);
        attrs := attrs + [DirectionToken(app.direction)];
      }
      assert attrs == before + FlagAttrs(DirectionToken(app.direction), app.direction != UnknownDirection);
      out := PushAttr(out, Attr("setup", RoleToken(role)), eol, head, attrs);
      attrs := attrs + [Attr("setup", RoleToken(role))];
      before := attrs;
      if iceUfrag.Some? {
        out := PushAttr(out, Attr("ice-ufrag", iceUfrag.value), eol, head, attrs);
        attrs := attrs + [Attr("ice-ufrag", iceUfrag.value)];
      }
      assert attrs == before + OptionAttr("ice-ufrag", iceUfrag);
      before := attrs;
      if icePwd.Some? {
        out := PushAttr(out, Attr("ice-pwd", icePwd.value), eol, head, attrs);
        attrs := attrs + [Attr("ice-pwd", icePwd.value)];
      }
      assert attrs == before + OptionAttr("ice-pwd", icePwd);
      assert attrs == TransportAttrs(Value(), app);
    }

    /** The candidate lines of one media section. */
    method WriteCandidates(mid: string, out0: string, eol: string, ghost head: seq<string>, ghost attrs: seq<string>)
      returns (out: string)
      requires Holds(out0, head, attrs, eol)
      ensures Holds(out, head, attrs + CandidateAttrs(Matching(candidates, mid)), eol)
    {
      hide Holds, ToSdp;
      out := out0;
      ghost var done: seq<string> := [];
      assert CandidateAttrs(Matching(candidates[..0], mid)) == done;
      assert attrs + done == attrs;
      for i := 0 to |candidates|
        invariant done == CandidateAttrs(Matching(candidates[..i], mid))
        invariant Holds(out, head, attrs + done, eol)
      {
        assert candidates[..i + 1] == candidates[..i] + [candidates[i]];
        MatchingSnoc(candidates[..i], candidates[i], mid);
        if candidates[i].Mid() == mid {
          var line := WriteSdp(candidates[i]);
          out := PushAttr(out, line, eol, head, attrs + done);
          Assoc(attrs, done, [line]);
          done := done + [line];
        }
        assert done == CandidateAttrs(Matching(candidates[..i + 1], mid));
      }
      assert candidates[..|candidates|] == candidates;
    }

    /** The attributes of `write_application` from the fingerprint on. */
    method WriteData(app: Application, out0: string, eol: string, ghost head: seq<string>, ghost attrs0: seq<string>)
      returns (out: string)
      requires Holds(out0, head, attrs0, eol)
      ensures Holds(out, head, attrs0 + DataAttrs(Value(), app), eol)
    {
      hide Holds, Attr, Decimal, CandidateAttrs, Matching;
      out := out0;
      ghost var attrs: seq<string> := [];
      assert attrs0 + attrs == attrs0;
      if fingerprint.Some? {
        var value := AlgorithmToken(fingerprint.value.algorithm) + " " + fingerprint.value.value;
        out := PushAttr(out, Attr("fingerprint", value), eol, head, attrs0 + attrs);
        Assoc(attrs0, attrs, [Attr("fingerprint", value)]);
        attrs := attrs + [Attr("fingerprint", value)];
      }
      assert attrs == FingerprintAttrs(fingerprint);
      ghost var before := attrs;
      if app.sctpPort.Some? {
        out := PushAttr(out, Attr("sctp-port", Decimal(app.sctpPort.value)), eol, head, attrs0 + attrs);
        Assoc(attrs0, attrs, [Attr("sctp-port", Decimal(app.sctpPort.value))]);
        attrs := attrs + [Attr("sctp-port", Decimal(app.sctpPort.value))];
      }
      assert attrs == before + NumberAttr("sctp-port", app.sctpPort);
      before := attrs;
      if app.maxMessageSize.Some? {
        out := PushAttr(out, Attr("max-message-size", Decimal(app.maxMessageSize.value)), eol, head, attrs0 + attrs);
        Assoc(attrs0, attrs, [Attr("max-message-size", Decimal(app.maxMessageSize.value))]);
        attrs := attrs + [Attr("max-message-size", Decimal(app.maxMessageSize.value))];
      }
      assert attrs == before + NumberAttr("max-message-size", app.maxMessageSize);
      out := PushAll(out, app.extraAttrs, eol, head, attrs0 + attrs);
      Assoc(attrs0, attrs, app.extraAttrs);
      attrs := attrs + app.extraAttrs;
      out := WriteCandidates(app.mid, out, eol, head, attrs0 + attrs);
      Assoc(attrs0, attrs, CandidateAttrs(Matching(candidates, app.mid)));
      attrs := attrs + CandidateAttrs(Matching(candidates, app.mid));
      before := attrs;
      if ended {
        out := PushAttr(out, "end-of-candidates", eol, head, attrs0 + attrs);
        Assoc(attrs0, attrs, ["end-of-candidates"]);
        attrs := attrs + ["end-of-candidates"];
      }
      assert attrs == before + FlagAttrs("end-of-candidates", ended);
    }

    /** `write_application`. */
    method WriteApplication(app: Application, out0: string, eol: string, ghost lines: seq<string>)
      returns (out: string)
      requires application == Some(app) && out0 == JoinEol(lines, eol)
      ensures out == JoinEol(lines + ApplicationLines(Value()), eol)
    {
      hide JoinEol, TransportAttrs, DataAttrs, AttrLines;
      ghost var head := lines + [MEDIA_LINE] + [CONNECTION_LINE];
      out := out0 + (MEDIA_LINE + eol);
      out := out + (CONNECTION_LINE + eol);
      JoinEolAppend(lines, [MEDIA_LINE], eol);
      OneLine(MEDIA_LINE, eol);
      JoinEolAppend(lines + [MEDIA_LINE], [CONNECTION_LINE], eol);
      OneLine(CONNECTION_LINE, eol);
      assert head + AttrLines([]) == head by { NoAttrs(); }
      out := WriteTransport(app, out, eol, head);
      out := WriteData(app, out, eol, head, TransportAttrs(Value(), app));
      assert head + AttrLines(ApplicationAttrs(Value(), app)) == lines + ApplicationLines(Value());
    }

    /** `generate_sdp`. */
    method GenerateSdp(eol: string) returns (out: string)
      ensures out == Print(Value(), eol)
    {
      hide HeaderLines, SessionAttrs, AttrLines, ApplicationLines;
      out := WriteSession(eol);
      ghost var lines := HeaderLines(Value()) + AttrLines(SessionAttrs(Value()));
      if application.Some? {
        out := WriteApplication(application.value, out, eol, lines);
      } else {
        assert lines + ApplicationLines(Value()) == lines by { NoApplication(Value()); }
      }
      ghost var printed := out;
      assert printed + Concat(otherSections[..0]) == printed;
      for i := 0 to |otherSections|
        invariant out == printed + Concat(otherSections[..i])
      {
        assert otherSections[..i + 1] == otherSections[..i] + [otherSections[i]];
        ConcatSnoc(otherSections[..i], otherSections[i]);
        Assoc(printed, Concat(otherSections[..i]), otherSections[i]);
        out := out + otherSections[i];
      }
      assert otherSections[..|otherSections|] == otherSections;
    }

    // ----- parsing -----

    /** The parser's state: this description and the loop's local variables. */
    function State(kind: SectionKind, app: Option<Application>, other: string, otherMid: Option<string>,
                   sectionIndex: SectionIndex): ParserState
      reads this
    {
      ParserState(Value(), kind, app, other, otherMid, sectionIndex)
    }

    method BundleMidOnce(mid: string)
      modifies this`bundleMids
      ensures bundleMids == AddMid(old(bundleMids), mid)
    {
      if mid !in bundleMids { bundleMids := bundleMids + [mid]; }
    }

    /** `flush_section`: takes what was accumulated and stores it. */
    method FlushSection(kind0: SectionKind, app0: Option<Application>, other0: string, otherMid0: Option<string>,
                        ghost sectionIndex: SectionIndex)
      returns (kind: SectionKind, app: Option<Application>, other: string, otherMid: Option<string>)
      modifies this
      ensures State(kind, app, other, otherMid, sectionIndex)
        == Flush(old(State(kind0, app0, other0, otherMid0, sectionIndex)))
    {
      kind, app, other, otherMid := NoSection, app0, other0, otherMid0;
      match kind0
      case InApplication =>
        if app.Some? {
          application := app;
          BundleMidOnce(app.value.mid);
          app := None;
        }
      case InOther =>
        if other != "" {
          otherSections := otherSections + [other];
          other := "";
        }
        if otherMid.Some? {
          BundleMidOnce(otherMid.value);
          otherMid := None;
        }
      case NoSection =>
    }

    method CandidateAttribute(v6: Ipv6Canon, attr: string, ghost kind: SectionKind, app: Option<Application>,
                              ghost other: string, otherMid: Option<string>, sectionIndex: SectionIndex)
      returns (error: Option<DescriptionError>)
      modifies this`candidates
      ensures old(StepSessionKey(v6, State(kind, app, other, otherMid, sectionIndex), CandidateKey, attr, ""))
        == if error.Some? then Err(error.value) else Ok(State(kind, app, other, otherMid, sectionIndex))
    {
      hide Candidates.Parse, Insert;
      var defaultMid := if app.Some? then app.value.mid
                        else if otherMid.Some? then otherMid.value
                        else if bundleMids != [] then bundleMids[0]
                        else Decimal(if sectionIndex < 0 then 0 else sectionIndex);
      assert defaultMid == CandidateMid(State(kind, app, other, otherMid, sectionIndex));
      error := None;
      var parsed := ParseInPlace(v6, attr, defaultMid);
      match parsed {
        case Err(e) => error := Some(BadCandidate(e));
        case Ok(c) => PushNew(c);
      }
    }

    /** Attributes that set one field each. */
    method FieldAttribute(key: Key, value: string, sectionIndex: SectionIndex)
      requires key == ExtmapAllowMixed || key == IceUfrag || key == IcePwd || key == Setup || key == EndOfCandidates
      modifies this`extmapAllowMixed, this`iceUfrag, this`icePwd, this`role, this`ended
      ensures Value() == FieldRead(old(Value()), key, value, sectionIndex)
    {
      hide RoleFromSdp;
      match key
      case ExtmapAllowMixed =>
        extmapAllowMixed := true;
      case IceUfrag =>
        if iceUfrag.None? || sectionIndex == 0 { iceUfrag := Some(value); }
      case IcePwd =>
        if icePwd.None? || sectionIndex == 0 { icePwd := Some(value); }
      case Setup =>
        role := RoleFromSdp(value);
      case EndOfCandidates =>
        ended := true;
    }

    /** Attributes whose value is taken apart. */
    method ReadAttribute(key: Key, value: string, sectionIndex: SectionIndex)
      requires key == Group || key == IceOptions || key == FingerprintKey
      modifies this`bundleMids, this`iceOptions, this`fingerprint
      ensures Value() == PartsRead(old(Value()), key, value, sectionIndex)
    {
      hide SplitWs, SplitOn, TrimAll, ParseFingerprint;
      match key
      case Group =>
        if "BUNDLE" <= value { bundleMids := SplitWs(value[6..]); }
      case IceOptions =>
        if iceOptions == [] { iceOptions := TrimAll(SplitOn(value, ',')); }
      case FingerprintKey =>
        if fingerprint.None? || sectionIndex == 0 {
          var fp := ParseFingerprint(value);
          if fp.Some? { fingerprint := fp; }
        }
    }

    /** The attributes that the loop handles in every position. */
    method SessionAttribute(v6: Ipv6Canon, key: Key, attr: string, value: string, ghost kind: SectionKind,
                            app: Option<Application>, ghost other: string, otherMid: Option<string>,
                            sectionIndex: SectionIndex)
      returns (error: Option<DescriptionError>)
      requires IsSessionKey(key)
      modifies this
      ensures old(StepSessionKey(v6, State(kind, app, other, otherMid, sectionIndex), key, attr, value))
        == if error.Some? then Err(error.value) else Ok(State(kind, app, other, otherMid, sectionIndex))
    {
      hide StepSessionKey, Candidates.Parse, Insert, CandidateMid;
      error := None;
      if key == CandidateKey {
        error := CandidateAttribute(v6, attr, kind, app, other, otherMid, sectionIndex);
        CandidateIsStep(v6, old(State(kind, app, other, otherMid, sectionIndex)), attr, value);
        CandidateIsStep(v6, old(State(kind, app, other, otherMid, sectionIndex)), attr, "");
      } else {
        PlainAttribute(v6, key, attr, value, kind, app, other, otherMid, sectionIndex);
      }
    }

    method PlainAttribute(v6: Ipv6Canon, key: Key, attr: string, value: string, ghost kind: SectionKind,
                          app: Option<Application>, ghost other: string, otherMid: Option<string>,
                          sectionIndex: SectionIndex)
      requires IsSessionKey(key) && key != CandidateKey
      modifies this
      ensures old(StepSessionKey(v6, State(kind, app, other, otherMid, sectionIndex), key, attr, value))
        == Ok(State(kind, app, other, otherMid, sectionIndex))
    {
      hide StepSessionKey;
      if key == Group || key == IceOptions || key == FingerprintKey {
        ReadAttribute(key, value, sectionIndex);
        ReadIsStep(v6, old(State(kind, app, other, otherMid, sectionIndex)), key, attr, value);
      } else {
        if key != MsidSemantic {
          FieldAttribute(key, value, sectionIndex);
        }
        FieldIsStep(v6, old(State(kind, app, other, otherMid, sectionIndex)), key, attr, value);
      }
    }

    /** The attributes of an application section. */
    method ApplicationAttribute(app0: Application, key: Key, attr: string, value: string)
      returns (app: Application, error: Option<DescriptionError>)
      ensures StepApplicationKey(app0, key, attr, value)
        == if error.Some? then Err(error.value) else Ok(app)
    {
      app, error := app0, None;
      match key
      case MidKey =>
        app := app.(mid := value);
      case SctpPort =>
        var v := ParseUint(value, U16_MAX);
        if v.None? { error := Some(BadAttributeInteger("sctp-port")); } else { app := app.(sctpPort := v); }
      case MaxMessageSize =>
        var v := ParseUint(value, USIZE_MAX);
        if v.None? {
          error := Some(BadAttributeInteger("max-message-size"));
        } else {
          app := app.(maxMessageSize := v);
        }
      case DirectionKey(direction) =>
        app := app.(direction := direction);
      case _ =>
        app := app.(extraAttrs := app.extraAttrs + [attr]);
    }

    /** What the loop does with an attribute outside other media sections. */
    method Attribute(v6: Ipv6Canon, attr: string, ghost kind: SectionKind, app0: Option<Application>,
                     ghost other: string, otherMid: Option<string>, sectionIndex: SectionIndex)
      returns (app: Option<Application>, error: Option<DescriptionError>)
      modifies this
      ensures old(StepAttr(v6, State(kind, app0, other, otherMid, sectionIndex), attr))
        == if error.Some? then Err(error.value) else Ok(State(kind, app, other, otherMid, sectionIndex))
    {
      hide KeyOf, AttrKey, AttrValue, StepSessionKey, StepApplicationKey;
      app, error := app0, None;
      var key, value := KeyOf(AttrKey(attr)), AttrValue(attr);
      if IsSessionKey(key) {
        error := SessionAttribute(v6, key, attr, value, kind, app, other, otherMid, sectionIndex);
      } else if app.Some? {
        var next;
        next, error := ApplicationAttribute(app.value, key, attr, value);
        app := Some(next);
      } else {
        extraAttrs := extraAttrs + [attr];
      }
    }

    /** `parse_into`: one loop over the lines. On failure the description is
        left as it was at the failing line. */
    method ParseInto(v6: Ipv6Canon, sdp: string) returns (error: Option<DescriptionError>)
      modifies this
      ensures old(ParseFrom(v6, Value(), sdp)) == if error.Some? then Err(error.value) else Ok(Value())
    {
      hide StepAttr, StepOrigin, MediaType, Lines, Decimal, Trim, TrimEol, Flush;
      var kind, app: Option<Application>, other, otherMid: Option<string> := NoSection, None, "", None;
      var sectionIndex: SectionIndex := -1;
      var lines := Lines(sdp);
      var i := 0;
      while i < |lines|
        invariant 0 <= i <= |lines|
        invariant Run(v6, InitialState(old(Value())), lines)
          == Run(v6, State(kind, app, other, otherMid, sectionIndex), lines[i..])
      {
        ghost var before := State(kind, app, other, otherMid, sectionIndex);
        var line := TrimEol(lines[i]);
        if line == "" {
        } else if "m=" <= line {
          kind, app, other, otherMid := FlushSection(kind, app, other, otherMid, sectionIndex);
          sectionIndex := sectionIndex + 1;
          if MediaType(line[2..]) == "application" {
            kind := InApplication;
            app := Some(NewApplication(Decimal(sectionIndex)));
          } else {
            kind := InOther;
            other := line + "\r\n";
            otherMid := None;
          }
        } else if "o=" <= line {
          Origin(line[2..]);
        } else if kind == InOther {
          if "a=mid:" <= line {
            otherMid := Some(Trim(line[6..]));
          }
          other := other + line + "\r\n";
        } else if "a=" <= line {
          app, error := Attribute(v6, line[2..], kind, app, other, otherMid, sectionIndex);
          if error.Some? { return; }
        }
        assert Step(v6, before, lines[i]) == Ok(State(kind, app, other, otherMid, sectionIndex));
        assert lines[i..][1..] == lines[i + 1..];
        i := i + 1;
      }
      kind, app, other, otherMid := FlushSection(kind, app, other, otherMid, sectionIndex);
      error := None;
    }

    /** `Description::parse`. */
    static method Parse(v6: Ipv6Canon, sessionId: string, sdp: string)
      returns (d: Description, error: Option<DescriptionError>)
      ensures fresh(d)
      ensures Sdp.Parse(v6, sessionId, sdp) == if error.Some? then Err(error.value) else Ok(d.Value())
    {
      d := new Description(Unspec, ActPass, sessionId);
      error := d.ParseInto(v6, sdp);
    }

    method Origin(rest: string)
      modifies this`username, this`sessionId, this`sessionVersion
      ensures Value() == StepOrigin(old(Value()), rest)
    {
      var tokens := SplitWs(rest);
      if |tokens| > 0 { username := tokens[0]; }
      if |tokens| > 1 { sessionId := tokens[1]; }
      if |tokens| > 2 { sessionVersion := tokens[2]; }
    }
  }

  lemma NoAttrs()
    ensures AttrLines([]) == []
  {}

  lemma NoApplication(d: Desc)
    requires d.application.None?
    ensures ApplicationLines(d) == []
  {}

  lemma CandidateIsStep(v6: Ipv6Canon, st: ParserState, attr: string, value: string)
    ensures StepSessionKey(v6, st, CandidateKey, attr, value)
      == match Candidates.Parse(v6, attr, CandidateMid(st))
         case Err(e) => Err(BadCandidate(e))
         case Ok(c) => Ok(st.(d := st.d.(candidates := Insert(st.d.candidates, c))))
  {}

  /** The attributes that set one field each. */
  function FieldRead(d: Desc, key: Key, value: string, sectionIndex: SectionIndex): Desc {
    match key
    case ExtmapAllowMixed => d.(extmapAllowMixed := true)
    case IceUfrag => if d.iceUfrag.None? || sectionIndex == 0 then d.(iceUfrag := Some(value)) else d
    case IcePwd => if d.icePwd.None? || sectionIndex == 0 then d.(icePwd := Some(value)) else d
    case Setup => d.(role := RoleFromSdp(value))
    case EndOfCandidates => d.(ended := true)
    case _ => d
  }

  /** The attributes whose value is taken apart. */
  function PartsRead(d: Desc, key: Key, value: string, sectionIndex: SectionIndex): Desc {
    match key
    case Group => if "BUNDLE" <= value then d.(bundleMids := SplitWs(value[6..])) else d
    case IceOptions => if d.iceOptions == [] then d.(iceOptions := TrimAll(SplitOn(value, ','))) else d
    case _ =>
      if (d.fingerprint.None? || sectionIndex == 0) && ParseFingerprint(value).Some?
      then d.(fingerprint := ParseFingerprint(value)) else d
  }

  lemma FieldIsStep(v6: Ipv6Canon, st: ParserState, key: Key, attr: string, value: string)
    requires IsSessionKey(key) && key != CandidateKey && key != Group && key != IceOptions && key != FingerprintKey
    ensures StepSessionKey(v6, st, key, attr, value) == Ok(st.(d := FieldRead(st.d, key, value, st.sectionIndex)))
  {}

  lemma ReadIsStep(v6: Ipv6Canon, st: ParserState, key: Key, attr: string, value: string)
    requires key == Group || key == IceOptions || key == FingerprintKey
    ensures StepSessionKey(v6, st, key, attr, value) == Ok(st.(d := PartsRead(st.d, key, value, st.sectionIndex)))
  {
    hide SplitWs, SplitOn, TrimAll, ParseFingerprint;
  }
}
