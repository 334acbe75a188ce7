/** Print, parse, print: exactly when the text is a fixed point, and texts for which it is not. */
module FixedPoint {
  import opened Text
  import opened Ip
  import opened Fingerprints
  import opened Candidates
  import opened Sdp
  import opened CandidateLists
  import opened RoundTrip
  import opened Canonical

  // ----- equal texts have equal lines -----

  lemma SameLines(a: seq<string>, b: seq<string>, eol: string, rest: string)
    requires IsEol(eol)
    requires forall i :: 0 <= i < |a| ==> LineSafe(a[i])
    requires forall i :: 0 <= i < |b| ==> LineSafe(b[i])
    requires JoinEol(a, eol) + rest == JoinEol(b, eol) + rest
    ensures a == b
  {
    LinesOfJoin(a, eol, rest);
    LinesOfJoin(b, eol, rest);
    hide Lines, JoinEol, LineSafe;
    assert a == (a + Lines(rest))[..|a|] && b == (b + Lines(rest))[..|b|];
  }

  lemma PrintedSafe(v6: Ipv6Canon, d: Desc)
    requires Shape(d) && CandidatesReadable(v6, d)
    ensures forall i :: 0 <= i < |PrintedLines(d)| ==> LineSafe(PrintedLines(d)[i])
  {
    hide Shape, CandidatesReadable, PrintedLines, LineSafe, Run, Flush;
    PrintedRun(v6, "0", d);
  }

  // ----- the group line -----

  lemma {:induction false} SpacedLength(mids: seq<string>)
    ensures |Spaced(mids)| >= |mids|
  {
    if mids != [] { SpacedLength(mids[1..]); }
  }

  lemma SpacedLonger(mids: seq<string>, more: seq<string>)
    requires mids <= more && Spaced(mids) == Spaced(more)
    ensures mids == more
  {
    var added := more[|mids|..];
    assert more == mids + added;
    SpacedSum(mids, added);
    SpacedLength(added);
  }

  /** The first session attribute: the group, if there is one. */
  function FirstAttr(d: Desc): string {
    if d.bundleMids == [] then Attr("msid-semantic", "WMS *") else Attr("group", "BUNDLE" + Spaced(d.bundleMids))
  }

  lemma FifthLine(d: Desc)
    ensures |PrintedLines(d)| > 4 && PrintedLines(d)[4] == "a=" + FirstAttr(d)
  {
    assert SessionAttrs(d)[0] == FirstAttr(d);
    assert AttrLines(SessionAttrs(d))[0] == "a=" + FirstAttr(d);
    hide SessionAttrs, AttrLines, ApplicationLines, FirstAttr;
  }

  lemma SameSpaced(d: Desc, e: Desc)
    requires d.bundleMids != [] && e.bundleMids != [] && FirstAttr(d) == FirstAttr(e)
    ensures Spaced(d.bundleMids) == Spaced(e.bundleMids)
  {
    var p := "group:BUNDLE";
    hide Spaced;
    assert Attr("group", "BUNDLE" + Spaced(d.bundleMids)) == p + Spaced(d.bundleMids);
    assert Attr("group", "BUNDLE" + Spaced(e.bundleMids)) == p + Spaced(e.bundleMids);
    DropPrefix(p, Spaced(d.bundleMids));
    DropPrefix(p, Spaced(e.bundleMids));
  }

  lemma SameGroup(d: Desc, e: Desc)
    requires d.bundleMids <= e.bundleMids && FirstAttr(d) == FirstAttr(e)
    ensures d.bundleMids == e.bundleMids
  {
    assert Attr("msid-semantic", "WMS *")[0] == 'm';
    assert forall value :: Attr("group", value)[0] == 'g';
    if d.bundleMids != [] && e.bundleMids != [] {
      SameSpaced(d, e);
      SpacedLonger(d.bundleMids, e.bundleMids);
    }
  }

  // ----- the candidate lines -----

  lemma {:induction false} FirstsFrom(cs: seq<Candidate>)
    ensures forall c :: c in Firsts(cs) ==> c in cs
  {
    if cs != [] {
      hide Has;
      FirstsFrom(cs[..|cs| - 1]);
    }
  }

  lemma KeptMids(v6: Ipv6Canon, d: Desc)
    requires d.application.Some? && d.application.value.mid != ""
    ensures Matching(Firsts(Kept(v6, d)), d.application.value.mid) == Firsts(Kept(v6, d))
    ensures |Kept(v6, d)| == |Matching(d.candidates, d.application.value.mid)|
  {
    var mid := d.application.value.mid;
    FirstsFrom(Kept(v6, d));
    hide Firsts, Matching, Resolve;
    assert forall c :: c in Kept(v6, d) ==> c.Mid() == mid;
    MatchAll(Firsts(Kept(v6, d)), mid);
  }

  lemma LinesCount(d: Desc, e: Desc)
    requires d.application.Some? && e.application == d.application
    requires e.(candidates := d.candidates, typ := d.typ) == d
    requires |PrintedLines(d)| == |PrintedLines(e)|
    ensures var mid := d.application.value.mid; |Matching(d.candidates, mid)| == |Matching(e.candidates, mid)|
  {
    hide Matching, Spaced, Decimal, Attr, FlagAttrs, OptionAttr, NumberAttr, FingerprintAttrs, GroupAttrs, OptionsAttrs;
    var app := d.application.value;
    assert SessionAttrs(d) == SessionAttrs(e) && HeaderLines(d) == HeaderLines(e);
    assert TransportAttrs(d, app) == TransportAttrs(e, app);
    assert |DataAttrs(d, app)| - |Matching(d.candidates, app.mid)|
      == |DataAttrs(e, app)| - |Matching(e.candidates, app.mid)|;
  }

  // ----- the fixed point -----

  lemma ReparsedFields(v6: Ipv6Canon, d: Desc)
    requires d.application.Some?
    ensures Reparsed(v6, d) == d.(typ := Unspec, candidates := Firsts(Kept(v6, d)), bundleMids := Rebundled(d))
  {}

  lemma SameLinesMeans(v6: Ipv6Canon, d: Desc)
    requires TokenMids(d) && PrintedLines(Reparsed(v6, d)) == PrintedLines(d)
    ensures Bundled(d) && StayDistinct(v6, d)
  {
    var again := Reparsed(v6, d);
    assert again.bundleMids == Rebundled(d);
    FifthLine(d);
    FifthLine(again);
    assert FirstAttr(again) == ("a=" + FirstAttr(again))[2..] && FirstAttr(d) == ("a=" + FirstAttr(d))[2..];
    SplitWsSpaced(d.bundleMids);
    AddMidsGrows(SplitWs(Spaced(d.bundleMids)), OwnMids(d));
    SameGroup(d, again);
    BundleSurvives(d);
    TokenMidsReturn(d);
    SameCandidates(v6, d);
  }

  lemma SameCandidates(v6: Ipv6Canon, d: Desc)
    requires TokenMids(d) && Bundled(d) && Rebundled(d) == d.bundleMids
    requires |PrintedLines(Reparsed(v6, d))| == |PrintedLines(d)|
    ensures StayDistinct(v6, d)
  {
    if d.application.Some? {
      BundledMid(d);
      ReparsedFields(v6, d);
      hide Reparsed, PrintedLines, Rebundled, Kept, Firsts, Matching, Distinct, TokenMids, Bundled;
      LinesCount(d, Reparsed(v6, d));
      KeptMids(v6, d);
      FirstsOfDistinct(Kept(v6, d));
    }
  }

  lemma BundledMid(d: Desc)
    requires TokenMids(d) && Bundled(d) && d.application.Some?
    ensures d.application.value.mid != ""
  {}

  /** For every text that parses with token mids, the printed text parses, and prints
      as itself if and only if every section is bundled and the candidates stay
      different in canonical text. */
  lemma PrintsAgainExactly(v6: Ipv6Canon, sessionId: string, text: string, eol: string)
    requires Token(sessionId) && IsEol(eol) && Sdp.Parse(v6, sessionId, text).Ok?
    requires TokenMids(Sdp.Parse(v6, sessionId, text).value)
    ensures var d := Sdp.Parse(v6, sessionId, text).value;
      var again := Sdp.Parse(v6, sessionId, Print(d, eol));
      again == Ok(Reparsed(v6, d))
      && (Print(again.value, eol) == Print(d, eol) <==> Bundled(d) && StayDistinct(v6, d))
  {
    hide Sdp.Parse, Print, Shape, CandidatesPrintable, CandidatesReadable, TokenMids, Bundled, StayDistinct, DescOk, Reparsed;
    var d := Sdp.Parse(v6, sessionId, text).value;
    ParsedShape(v6, sessionId, text);
    ShapeOfParsed(v6, d);
    PrintableIsReadable(v6, d);
    ParsePrinted(v6, sessionId, d, eol);
    var again := Reparsed(v6, d);
    ParsedShape(v6, sessionId, Print(d, eol));
    ShapeOfParsed(v6, again);
    PrintableIsReadable(v6, again);
    if Bundled(d) && StayDistinct(v6, d) {
      KeptPrintsSame(v6, d, eol);
    } else if Print(again, eol) == Print(d, eol) {
      SamePrintSameLines(v6, d, again, eol);
      SameLinesMeans(v6, d);
    }
  }

  lemma KeptPrintsSame(v6: Ipv6Canon, d: Desc, eol: string)
    requires CandidatesPrintable(v6, d) && TokenMids(d) && Bundled(d) && StayDistinct(v6, d)
    ensures Print(Reparsed(v6, d), eol) == Print(d, eol)
  {
    if d.application.Some? { BundledMid(d); }
    hide Print, CandidatesPrintable, TokenMids, Bundled, StayDistinct, Reparsed, Normal;
    TokenMidsReturn(d);
    ReparsedIsNormal(v6, d);
    NormalPrintsSame(v6, d, eol);
  }

  lemma SamePrintSameLines(v6: Ipv6Canon, d: Desc, again: Desc, eol: string)
    requires Shape(d) && CandidatesReadable(v6, d) && Shape(again) && CandidatesReadable(v6, again) && IsEol(eol)
    requires again == Reparsed(v6, d) && Print(again, eol) == Print(d, eol)
    ensures PrintedLines(again) == PrintedLines(d)
  {
    PrintedSafe(v6, d);
    PrintedSafe(v6, again);
    assert again.otherSections == d.otherSections;
    hide Shape, CandidatesReadable, Reparsed, PrintedLines, LineSafe;
    SameLines(PrintedLines(again), PrintedLines(d), eol, Concat(d.otherSections));
  }

  /** The fixed point where it holds. */
  lemma PrintParsePrint(v6: Ipv6Canon, sessionId: string, text: string, eol: string)
    requires Token(sessionId) && IsEol(eol) && Sdp.Parse(v6, sessionId, text).Ok?
    requires var d := Sdp.Parse(v6, sessionId, text).value; TokenMids(d) && Bundled(d) && StayDistinct(v6, d)
    ensures var d := Sdp.Parse(v6, sessionId, text).value;
      var again := Sdp.Parse(v6, sessionId, Print(d, eol));
      again.Ok? && Print(again.value, eol) == Print(d, eol)
  {
    hide Sdp.Parse, Print, TokenMids, Bundled, StayDistinct, Token, Reparsed;
    PrintsAgainExactly(v6, sessionId, text, eol);
  }

  /** With group lines before the media sections, it is the candidates alone that decide. */
  lemma CanonicalForm(v6: Ipv6Canon, sessionId: string, text: string, eol: string)
    requires Token(sessionId) && IsEol(eol) && Sdp.Parse(v6, sessionId, text).Ok? && GroupFirst(Lines(text))
    requires TokenMids(Sdp.Parse(v6, sessionId, text).value)
    ensures var d := Sdp.Parse(v6, sessionId, text).value;
      var again := Sdp.Parse(v6, sessionId, Print(d, eol));
      again.Ok? && (Print(again.value, eol) == Print(d, eol) <==> StayDistinct(v6, d))
  {
    hide Print, Sdp.Parse, TokenMids, StayDistinct, Token, GroupFirst, Lines, Bundled, Reparsed;
    GroupFirstBundles(v6, sessionId, text);
    PrintsAgainExactly(v6, sessionId, text, eol);
  }

  // ----- steps and values that break it -----

  /** A group attribute inside an application section drops another section's
      mid, whatever was parsed before it. */
  lemma LateGroupUnbundles(v6: Ipv6Canon, st: ParserState, mids: seq<string>, i: nat)
    requires st.kind == InApplication && st.app.Some? && i < |st.d.otherSections|
    requires StoredMid(st.d.otherSections[i]).Some?
    requires StoredMid(st.d.otherSections[i]).value !in mids + [st.app.value.mid]
    requires forall k :: 0 <= k < |mids| ==> Token(mids[k])
    ensures var next := StepAttr(v6, st, Attr("group", "BUNDLE" + Spaced(mids)));
      next.Ok? && !Bundled(Flush(next.value).d)
  {
    forall k | 0 <= k < |mids| ensures LineSafe(mids[k]) { TokenIsSafe(mids[k]); }
    hide Token, LineSafe, StepAttr, SplitWs, Spaced, StoredMid, Attr;
    GroupStep(v6, st, mids);
    SplitWsSpaced(mids);
    UnbundledAfterFlush(st.(d := st.d.(bundleMids := mids)), i);
    hide Flush, Bundled;
  }

  lemma UnbundledAfterFlush(st: ParserState, i: nat)
    requires st.kind == InApplication && st.app.Some? && i < |st.d.otherSections|
    requires StoredMid(st.d.otherSections[i]).Some?
    requires StoredMid(st.d.otherSections[i]).value !in st.d.bundleMids + [st.app.value.mid]
    ensures !Bundled(Flush(st).d)
  {
    hide StoredMid;
    assert Flush(st).d.otherSections[i] == st.d.otherSections[i];
  }

  lemma PlusNine()
    ensures Token("+9") && ParseUint("+9", U16_MAX) == Some(9)
  {
    assert "+9"[1..] == "9" && "9"[..0] == "" && DigitsValue("9") == 9;
  }

  /** Two spellings of one port: different candidates until they are printed. */
  lemma PortSpellingsMerge(v6: Ipv6Canon, c: Candidate, mid: string)
    requires Printable(v6, c) && c.service == "9" && c.IsResolved()
    ensures var c' := Attach(v6, c.(service := "+9"), mid);
      Printable(v6, c') && !Same(c, c') && Same(Canon(v6, c, mid), Canon(v6, c', mid))
  {
    NinePort();
    PlusNine();
    if c.(mid := None) == DEFAULT { DefaultResolution(v6); }
    hide ParseUint, CanonAddress, ClassifyTransport, TypeFromSdp, SplitWs, Join;
  }

  // ----- texts on which it fails -----

  /** What a description with an application and nothing else in it reads back as. */
  lemma ReadsBack(v6: Ipv6Canon, sessionId: string, d: Desc, eol: string)
    requires Shape(d) && CandidatesReadable(v6, d) && Token(sessionId) && IsEol(eol)
    ensures Sdp.Parse(v6, sessionId, Print(d, eol)) == Ok(Reparsed(v6, d))
    ensures Shape(Reparsed(v6, d)) && CandidatesPrintable(v6, Reparsed(v6, d))
    ensures CandidatesReadable(v6, Reparsed(v6, d))
  {
    hide Sdp.Parse, Print, Shape, CandidatesReadable, CandidatesPrintable, Reparsed, DescOk;
    ParsePrinted(v6, sessionId, d, eol);
    ParsedShape(v6, sessionId, Print(d, eol));
    ShapeOfParsed(v6, Reparsed(v6, d));
    PrintableIsReadable(v6, Reparsed(v6, d));
  }

  function Plain(sessionId: string, mid: string, mids: seq<string>, candidates: seq<Candidate>): Desc {
    NewDesc(Unspec, ActPass, sessionId).(application := Some(NewApplication(mid)), bundleMids := mids,
                                         candidates := candidates)
  }

  lemma PlainShape(sessionId: string, mid: string, mids: seq<string>, candidates: seq<Candidate>)
    requires Token(sessionId) && LineSafe(mid) && forall i :: 0 <= i < |mids| ==> LineSafe(mids[i])
    ensures Shape(Plain(sessionId, mid, mids, candidates))
    ensures OwnMids(Plain(sessionId, mid, mids, candidates)) == [mid]
  {
    assert Token("rtc") && Token("0");
    assert [mid] + [] == [mid];
  }

  lemma TokensOfSpaced()
    ensures SplitWs(Spaced(["a b"])) == ["a", "b"]
    ensures SplitWs(Spaced(["a", "b", "a b"])) == ["a", "b", "a", "b"]
  {
    assert Token("a") && Token("b");
    assert Spaced(["a b"]) == " " + ("a" + " " + "b") by { assert ["a b"][1..] == []; }
    SplitWsSpace("a" + " " + "b");
    TwoTokens("a", "b");
    SplitWsSpaced(["a", "b"]);
    TokensOfSum(["a", "b"], ["a b"]);
    assert ["a", "b"] + ["a b"] == ["a", "b", "a b"];
  }

  lemma AddOne(mids: seq<string>, mid: string)
    ensures AddMids(mids, [mid]) == AddMid(mids, mid)
  {
    assert [mid][1..] == [];
  }

  /** A description with no section but its application, after one round. */
  lemma ReparsedSolo(v6: Ipv6Canon, d: Desc)
    requires d.application.Some? && d.otherSections == []
    ensures var again := Reparsed(v6, d);
      again.application == d.application && again.otherSections == []
      && again.bundleMids == AddMid(SplitWs(Spaced(d.bundleMids)), d.application.value.mid)
  {
    hide Kept, Firsts, SplitWs, Spaced;
    var own := [d.application.value.mid];
    assert OwnMids(d) == own + [] == own;
    AddOne(SplitWs(Spaced(d.bundleMids)), own[0]);
  }

  lemma SpaceAdds()
    ensures AddMid(["a", "b"], "a b") == ["a", "b", "a b"]
    ensures AddMid(["a", "b", "a", "b"], "a b") == ["a", "b", "a", "b", "a b"]
  {
    assert |"a b"| == 3;
  }

  /** A mid with a space: its text parses into a group of three, and the next round
      adds two more entries. */
  lemma SpaceInMidMultiplies(v6: Ipv6Canon, sessionId: string, eol: string) returns (text: string)
    requires Token(sessionId) && IsEol(eol)
    ensures var d := Sdp.Parse(v6, sessionId, text);
      d.Ok? && d.value.bundleMids == ["a", "b", "a b"] && d.value.application == Some(NewApplication("a b"))
      && var again := Sdp.Parse(v6, sessionId, Print(d.value, eol));
      again.Ok? && again.value.bundleMids == ["a", "b", "a", "b", "a b"] && Print(again.value, eol) != Print(d.value, eol)
  {
    var d0 := Plain(sessionId, "a b", ["a b"], []);
    text := Print(d0, eol);
    assert LineSafe("a b");
    PlainShape(sessionId, "a b", ["a b"], []);
    hide Print, Sdp.Parse, Shape, SplitWs, Spaced, LineSafe, Reparsed, AddMid, Token, CandidatesPrintable;
    ReadsBack(v6, sessionId, d0, eol);
    hide CandidatesReadable;
    ReparsedSolo(v6, d0);
    TokensOfSpaced();
    SpaceAdds();
    SecondRound(v6, sessionId, Reparsed(v6, d0), eol);
  }

  lemma SecondRound(v6: Ipv6Canon, sessionId: string, d: Desc, eol: string)
    requires Shape(d) && CandidatesReadable(v6, d) && Token(sessionId) && IsEol(eol)
    requires d.application == Some(NewApplication("a b")) && d.bundleMids == ["a", "b", "a b"] && d.otherSections == []
    ensures var again := Sdp.Parse(v6, sessionId, Print(d, eol));
      again.Ok? && again.value.bundleMids == ["a", "b", "a", "b", "a b"] && Print(again.value, eol) != Print(d, eol)
  {
    hide Print, Sdp.Parse, Shape, SplitWs, Spaced, Reparsed, AddMid, Token, CandidatesPrintable, CandidatesReadable, FirstAttr;
    var again := Reparsed(v6, d);
    ReadsBack(v6, sessionId, d, eol);
    ReparsedSolo(v6, d);
    TokensOfSpaced();
    SpaceAdds();
    LongerGroup();
    if Print(again, eol) == Print(d, eol) {
      SamePrintSameGroup(v6, d, again, eol);
      SameSpaced(d, again);
    }
  }

  lemma LongerGroup()
    ensures |Spaced(["a", "b", "a b"])| < |Spaced(["a", "b", "a", "b", "a b"])|
  {
    SpacedSum(["a", "b"], ["a", "b", "a b"]);
    assert ["a", "b"] + ["a", "b", "a b"] == ["a", "b", "a", "b", "a b"];
    SpacedLength(["a", "b"]);
  }

  lemma SamePrintSameGroup(v6: Ipv6Canon, d: Desc, again: Desc, eol: string)
    requires Shape(d) && CandidatesReadable(v6, d) && Shape(again) && CandidatesReadable(v6, again) && IsEol(eol)
    requires again == Reparsed(v6, d) && Print(again, eol) == Print(d, eol)
    ensures FirstAttr(again) == FirstAttr(d)
  {
    hide Shape, CandidatesReadable, Reparsed, PrintedLines, Print, FirstAttr;
    SamePrintSameLines(v6, d, again, eol);
    FifthLine(d);
    FifthLine(again);
    assert FirstAttr(again) == ("a=" + FirstAttr(again))[2..] && FirstAttr(d) == ("a=" + FirstAttr(d))[2..];
  }

  /** A host candidate as some peer wrote it, with the port spelled `service`. */
  function Written(service: string): Candidate {
    Candidate("f", 1, 1, "udp", ClassifyTransport("udp", ""), "0.0.0.0", service, "host", TypeFromSdp("host"), "", None,
              UNRESOLVED)
  }

  /** The same candidate once it was read. */
  function Read(service: string): Candidate {
    Written(service).(mid := Some("0"), resolution := Resolution(Ipv4, "0.0.0.0", 9))
  }

  predicate Nine(service: string) { Token(service) && ParseUint(service, U16_MAX) == Some(9) }

  lemma Nines()
    ensures Nine("9") && Nine("+9")
  {
    PlusNine();
    NinePort();
    hide ParseUint;
  }

  lemma NineResolves(v6: Ipv6Canon, service: string)
    requires Nine(service)
    ensures Resolve(v6, "0.0.0.0", service) == Resolution(Ipv4, "0.0.0.0", 9)
  {
    DefaultResolution(v6);
    NinePort();
    hide ParseUint, CanonAddress;
  }

  lemma WrittenReadable(v6: Ipv6Canon, service: string)
    requires Nine(service)
    ensures Readable(v6, Written(service))
  {
    assert Token("f") && Token("udp") && Token("host") && Token("0.0.0.0");
    hide ParseUint, Resolve, ClassifyTransport, TypeFromSdp, Token;
  }

  lemma WrittenReads(v6: Ipv6Canon, service: string)
    requires Nine(service)
    ensures Canon(v6, Written(service), "0") == Read(service)
    ensures Canon(v6, Read(service), "0") == Read("9")
  {
    NineResolves(v6, service);
    Nines();
    NineResolves(v6, "9");
    assert Decimal(9) == "9";
    assert |"0"| == 1;
    hide Nine, Resolve, ClassifyTransport, TypeFromSdp, Decimal;
  }

  lemma KeptTwo(v6: Ipv6Canon, d: Desc, a: Candidate, b: Candidate)
    requires d.application == Some(NewApplication("0")) && d.candidates == [a, b] && a.Mid() == "0" == b.Mid()
    ensures Kept(v6, d) == [Canon(v6, a, "0"), Canon(v6, b, "0")]
  {
    MatchAll([a, b], "0");
    hide Canon, Matching;
  }

  lemma FirstsOfTwo(a: Candidate, b: Candidate)
    ensures Firsts([a, b]) == if Same(a, b) then [a] else [a, b]
    ensures Distinct([a, b]) <==> !Same(a, b)
  {
    assert [a, b][..1] == [a] && [a][..0] == [];
    assert Firsts([]) == [] && !Has([], a) && Firsts([a]) == [] + [a] == [a];
    assert Has([a], b) <==> Same([a][0], b);
    assert [a] + [b] == [a, b] && [a] + [] == [a];
    if Distinct([a, b]) { assert !Same([a, b][0], [a, b][1]); }
  }

  lemma PortTextParts(v6: Ipv6Canon, sessionId: string)
    requires Token(sessionId)
    ensures var d0 := Plain(sessionId, "0", ["0"], [Written("9"), Written("+9")]);
      Shape(d0) && CandidatesReadable(v6, d0) && Firsts(Kept(v6, d0)) == [Read("9"), Read("+9")]
  {
    var d0 := Plain(sessionId, "0", ["0"], [Written("9"), Written("+9")]);
    assert Token("0") && LineSafe("0");
    PlainShape(sessionId, "0", ["0"], d0.candidates);
    Nines();
    WrittenReadable(v6, "9");
    WrittenReadable(v6, "+9");
    hide Shape, Readable, Canon, Firsts, Kept, Nine, Token;
    WrittenReads(v6, "9");
    WrittenReads(v6, "+9");
    KeptTwo(v6, d0, Written("9"), Written("+9"));
    FirstsOfTwo(Read("9"), Read("+9"));
  }

  lemma ZeroMids()
    ensures AllTokens(["0"]) && AddMid(SplitWs(Spaced(["0"])), "0") == ["0"]
  {
    assert Token("0");
    SplitWsSpaced(["0"]);
  }

  lemma PortText(v6: Ipv6Canon, sessionId: string, eol: string) returns (text: string, d: Desc)
    requires Token(sessionId) && IsEol(eol)
    ensures Sdp.Parse(v6, sessionId, text) == Ok(d) && d.candidates == [Read("9"), Read("+9")]
    ensures d.application == Some(NewApplication("0")) && TokenMids(d)
  {
    var d0 := Plain(sessionId, "0", ["0"], [Written("9"), Written("+9")]);
    text, d := Print(d0, eol), Reparsed(v6, d0);
    PortTextParts(v6, sessionId);
    ZeroMids();
    hide Print, Sdp.Parse, Shape, Reparsed, CandidatesReadable, CandidatesPrintable, Firsts, Kept, Written, Read, Token;
    hide SplitWs, Spaced, AddMid, AllTokens;
    ReadsBack(v6, sessionId, d0, eol);
    ReparsedSolo(v6, d0);
    ReparsedFields(v6, d0);
  }

  /** Two spellings of one port: the text parses into two candidates, whose printed
      lines are one candidate. */
  lemma PortSpellingsPrint(v6: Ipv6Canon, sessionId: string, eol: string) returns (text: string)
    requires Token(sessionId) && IsEol(eol)
    ensures var d := Sdp.Parse(v6, sessionId, text);
      d.Ok? && d.value.candidates == [Read("9"), Read("+9")]
      && var again := Sdp.Parse(v6, sessionId, Print(d.value, eol));
      again.Ok? && again.value.candidates == [Read("9")] && Print(again.value, eol) != Print(d.value, eol)
  {
    var d;
    text, d := PortText(v6, sessionId, eol);
    Nines();
    hide Print, Sdp.Parse, Reparsed, Canon, Firsts, Kept, Nine, Token, Distinct, TokenMids, Bundled, Read;
    WrittenReads(v6, "9");
    WrittenReads(v6, "+9");
    ReadMids();
    KeptTwo(v6, d, Read("9"), Read("+9"));
    FirstsOfTwo(Read("9"), Read("9"));
    ReparsedFields(v6, d);
    PrintsAgainExactly(v6, sessionId, text, eol);
  }

  lemma ReadMids()
    ensures Read("9").Mid() == "0" == Read("+9").Mid() && Same(Read("9"), Read("9"))
  {}

  /** Another section's two lines, and what is stored of them. */
  const MID_LINE := "a=mid:" + "x"
  const AUDIO_LINES := ["m=audio 9 x", MID_LINE]
  const AUDIO := JoinEol(AUDIO_LINES, "\r\n")

  lemma AudioMedia()
    ensures MediaType("audio 9 x") == "audio"
  {
    assert Token("audio");
    assert "audio" + " 9 x" == "audio 9 x";
    SplitWsToken("audio", " 9 x");
  }

  lemma CopiedX()
    ensures CopiedLine(MID_LINE)
  {
    assert MID_LINE == "a=mid:x" && MID_LINE[0] == 'a';
  }

  lemma AudioLine()
    ensures LineSafe("m=audio 9 x") && "m=" <= "m=audio 9 x" && "m=audio 9 x"[2..] == "audio 9 x"
    ensures |"audio"| != |"application"|
  {}

  lemma AudioLinesOk()
    ensures SectionLinesOk(AUDIO_LINES)
  {
    AudioMedia();
    AudioLine();
    CopiedX();
    hide MediaType, LineSafe, CopiedLine;
    assert AUDIO_LINES[0] == "m=audio 9 x" && AUDIO_LINES[1] == MID_LINE && |AUDIO_LINES| == 2;
  }

  lemma NotedOne(mid: string)
    requires Trim(mid) == mid
    ensures NotedMid(None, ["a=mid:" + mid]) == Some(mid)
  {
    hide Trim;
    DropPrefix("a=mid:", mid);
    var lines := ["a=mid:" + mid];
    assert lines[1..] == [];
  }

  lemma NotedX()
    ensures NotedMid(None, AUDIO_LINES[1..]) == Some("x")
  {
    TrimFixed("x");
    NotedOne("x");
    hide Trim, NotedMid;
    assert AUDIO_LINES[1..] == [MID_LINE];
  }

  lemma AudioSection()
    ensures Lines(AUDIO) == AUDIO_LINES && StoredMid(AUDIO) == Some("x")
  {
    AudioLinesOk();
    SectionLinesSafe(AUDIO_LINES);
    NotedX();
    hide SectionLinesOk, LineSafe, NotedMid, JoinEol;
    LinesOfJoin(AUDIO_LINES, "\r\n", "");
    assert AUDIO + "" == AUDIO && Lines("") == [] && AUDIO_LINES + [] == AUDIO_LINES;
  }

  /** A group attribute inside the application section, after another section. */
  const LATE_GROUP := Attr("group", "BUNDLE" + Spaced(["y"]))
  const LATE_LINES := AUDIO_LINES + [MEDIA_LINE, "a=" + LATE_GROUP]

  lemma OneToken()
    ensures Token("y") && LineSafe("y") && SplitWs(Spaced(["y"])) == ["y"]
  {
    SplitWsSpaced(["y"]);
  }

  lemma AfterAudio(v6: Ipv6Canon, st: ParserState) returns (next: ParserState)
    requires st == InitialState(st.d) && st.d.otherSections == [] && st.d.bundleMids == []
    ensures Run(v6, st, AUDIO_LINES) == Ok(next)
    ensures Flush(next).d == st.d.(otherSections := [AUDIO], bundleMids := ["x"]) && Flush(next).kind == NoSection
  {
    AudioLinesOk();
    NotedX();
    assert [] + [AUDIO] == [AUDIO] && AddMid([], "x") == ["x"];
    assert Flush(st) == st;
    hide SectionLinesOk, NotedMid, JoinEol, Run, Flush;
    SectionRun(v6, st, AUDIO_LINES);
    next := Run(v6, st, AUDIO_LINES).value;
    FlushCloses(next);
  }

  lemma FlushCloses(st: ParserState)
    ensures Flush(st).kind == NoSection
  {}

  lemma AfterLateGroup(v6: Ipv6Canon, st: ParserState) returns (next: ParserState, mid: string)
    requires st == InitialState(st.d) && st.d.otherSections == [] && st.d.bundleMids == []
    ensures Run(v6, st, LATE_LINES) == Ok(next)
    ensures LineSafe(MEDIA_LINE) && LineSafe("a=" + LATE_GROUP)
    ensures Flush(next).d
      == st.d.(otherSections := [AUDIO], bundleMids := AddMid(["y"], mid), application := Some(NewApplication(mid)))
    ensures exists n: nat :: mid == Decimal(n)
  {
    var s1 := AfterAudio(v6, st);
    var n := s1.sectionIndex + 1;
    mid := Decimal(n);
    var s2 := Flush(s1).(kind := InApplication, app := Some(NewApplication(mid)), sectionIndex := n);
    OneToken();
    MediaSafe();
    hide Run, Step, Flush, Spaced, SplitWs, Attr, Decimal, Token;
    MediaOpens(v6, s1);
    GroupStep(v6, s2, ["y"]);
    AttrLineSteps(v6, s2, LATE_GROUP);
    next := s2.(d := s2.d.(bundleMids := ["y"]));
    RunTwo(v6, s1, MEDIA_LINE, "a=" + LATE_GROUP);
    RunAppend(v6, st, AUDIO_LINES, [MEDIA_LINE, "a=" + LATE_GROUP]);
    FlushApplication(next);
  }

  lemma FlushApplication(st: ParserState)
    requires st.kind == InApplication && st.app.Some?
    ensures Flush(st).d == st.d.(application := st.app, bundleMids := AddMid(st.d.bundleMids, st.app.value.mid))
  {}

  /** The description that the late group's text parses into. */
  lemma LateText(v6: Ipv6Canon, sessionId: string, eol: string) returns (text: string, d: Desc)
    requires Token(sessionId) && IsEol(eol)
    ensures Sdp.Parse(v6, sessionId, text) == Ok(d)
    ensures TokenMids(d) && !Bundled(d) && d.candidates == [] && d.otherSections == [AUDIO]
  {
    var st := InitialState(NewDesc(Unspec, ActPass, sessionId));
    text := JoinEol(LATE_LINES, eol);
    AudioLinesOk();
    SectionLinesSafe(AUDIO_LINES);
    hide SectionLinesOk, JoinEol, LineSafe, Run, Flush, Decimal, Token, Spaced;
    var next, mid := AfterLateGroup(v6, st);
    d := Flush(next).d;
    assert forall i :: 0 <= i < |LATE_LINES| ==> LineSafe(LATE_LINES[i]);
    LinesOfJoin(LATE_LINES, eol, "");
    assert text + "" == text && Lines("") == [] && LATE_LINES + [] == LATE_LINES;
    LateIsUnbundled(d, mid);
  }

  lemma XIsNeither(n: nat)
    ensures Decimal(n) != "x" && "y" != "x"
  {
    assert IsDigit(Decimal(n)[0]);
    hide Decimal;
    assert "x"[0] == 'x' && "y"[0] == 'y';
  }

  lemma LateIsUnbundled(d: Desc, mid: string)
    requires d.otherSections == [AUDIO] && d.bundleMids == AddMid(["y"], mid) && exists n: nat :: mid == Decimal(n)
    ensures TokenMids(d) && !Bundled(d)
  {
    var n: nat :| mid == Decimal(n);
    XIsNeither(n);
    OneToken();
    AudioSection();
    hide StoredMid, Decimal, Token, Spaced, SplitWs, LineSafe, Lines;
    assert StoredMid(d.otherSections[0]) == Some("x");
    assert forall m :: m in d.bundleMids ==> m == "y" || m == mid;
  }

  /** A group attribute inside the application section drops the mid of the section
      before it: the text parses, but its printed form does not print as itself. */
  lemma LateGroupPrints(v6: Ipv6Canon, sessionId: string, eol: string) returns (text: string)
    requires Token(sessionId) && IsEol(eol)
    ensures var d := Sdp.Parse(v6, sessionId, text);
      d.Ok? && TokenMids(d.value) && StayDistinct(v6, d.value) && !Bundled(d.value)
      && var again := Sdp.Parse(v6, sessionId, Print(d.value, eol));
      again.Ok? && Print(again.value, eol) != Print(d.value, eol)
  {
    var d;
    text, d := LateText(v6, sessionId, eol);
    hide Sdp.Parse, Print, Bundled, TokenMids, Reparsed, Token;
    PrintsAgainExactly(v6, sessionId, text, eol);
    assert Kept(v6, d) == [];
  }
}
