/** What every successful parse establishes, and from it the exact conditions
    under which printing and parsing are stable. */
module Canonical {
  import opened Text
  import opened Ip
  import opened Fingerprints
  import opened Candidates
  import opened Sdp
  import opened CandidateLists
  import opened RoundTrip

  // ----- the invariant of the parser's loop -----

  /** Holds of a description at every line of the parse. */
  predicate DescOk(v6: Ipv6Canon, d: Desc) {
    SessionShape(d)
    && TextOk(d.iceUfrag) && TextOk(d.icePwd)
    && (d.application.Some? ==> ApplicationFieldsOk(d.application.value))
    && CandidatesPrintable(v6, d)
    && Distinct(d.candidates)
  }

  /** Holds of a copied section while it grows. */
  predicate CopyOk(other: string, mid: Option<string>) {
    SectionOk(other) && mid == StoredMid(other) && (mid.Some? ==> LineSafe(mid.value))
  }

  predicate StateOk(v6: Ipv6Canon, st: ParserState) {
    DescOk(v6, st.d)
    && (st.kind == InApplication <==> st.app.Some?)
    && (st.app.Some? ==> ApplicationFieldsOk(st.app.value))
    && (if st.kind == InOther then CopyOk(st.other, st.otherMid) else st.other == "" && st.otherMid == None)
  }

  lemma MidAdded(mids: seq<string>, mid: string)
    requires LineSafe(mid) && forall i :: 0 <= i < |mids| ==> LineSafe(mids[i])
    ensures forall i :: 0 <= i < |AddMid(mids, mid)| ==> LineSafe(AddMid(mids, mid)[i])
  {}

  lemma FlushApplicationOk(v6: Ipv6Canon, st: ParserState)
    requires StateOk(v6, st) && st.kind == InApplication
    ensures StateOk(v6, Flush(st)) && Flush(st).kind == NoSection
  {
    hide Printable, LineSafe, SectionOk, Distinct, AddMid, OptionOk, FingerprintOk, SessionAttrOk, StoredMid, Token;
    ApplicationMidSafe(st.app.value);
    MidAdded(st.d.bundleMids, st.app.value.mid);
    hide ApplicationFieldsOk, CopyOk;
  }

  lemma SectionStored(v6: Ipv6Canon, d: Desc, other: string)
    requires DescOk(v6, d) && SectionOk(other)
    ensures DescOk(v6, d.(otherSections := d.otherSections + [other]))
  {
    hide ApplicationFieldsOk, Printable, LineSafe, SectionOk, Distinct, OptionOk, FingerprintOk, SessionAttrOk;
    hide Token, TextOk;
  }

  lemma MidStored(v6: Ipv6Canon, d: Desc, mid: string)
    requires DescOk(v6, d) && LineSafe(mid)
    ensures DescOk(v6, d.(bundleMids := AddMid(d.bundleMids, mid)))
  {
    MidAdded(d.bundleMids, mid);
    hide ApplicationFieldsOk, Printable, LineSafe, SectionOk, Distinct, OptionOk, FingerprintOk, SessionAttrOk;
    hide Token, TextOk, AddMid;
  }

  lemma FlushOtherOk(v6: Ipv6Canon, st: ParserState)
    requires StateOk(v6, st) && st.kind == InOther
    ensures StateOk(v6, Flush(st)) && Flush(st).kind == NoSection
  {
    hide DescOk, SectionOk, StoredMid, LineSafe, AddMid;
    SectionStored(v6, st.d, st.other);
    var stored := st.d.(otherSections := st.d.otherSections + [st.other]);
    if st.otherMid.Some? {
      MidStored(v6, stored, st.otherMid.value);
      MidStored(v6, st.d, st.otherMid.value);
    }
    hide CopyOk;
  }

  lemma FlushOk(v6: Ipv6Canon, st: ParserState)
    requires StateOk(v6, st)
    ensures StateOk(v6, Flush(st)) && Flush(st).kind == NoSection
  {
    match st.kind
    case InApplication => FlushApplicationOk(v6, st);
    case InOther => FlushOtherOk(v6, st);
    case NoSection =>
    hide StateOk;
  }

  lemma ApplicationMidSafe(app: Application)
    requires ApplicationFieldsOk(app)
    ensures LineSafe(app.mid)
  {}

  lemma DecimalSafe(n: nat)
    ensures ApplicationFieldsOk(NewApplication(Decimal(n)))
  {}

  lemma NewSectionOk(line: string)
    requires LineSafe(line) && "m=" <= line && MediaType(line[2..]) != "application"
    ensures CopyOk(line + "\r\n", None)
  {
    LinesOfJoin([line], "\r\n", "");
    assert JoinEol([line], "\r\n") == line + "\r\n" by { assert [line][1..] == []; }
    assert line + "\r\n" + "" == line + "\r\n";
    assert [line] + [] == [line];
    assert Lines("") == [];
  }

  lemma {:induction false} NotedMidAppend(noted: Option<string>, lines: seq<string>, line: string)
    ensures NotedMid(noted, lines + [line])
      == if "a=mid:" <= line then Some(Trim(line[6..])) else NotedMid(noted, lines)
    decreases |lines|
  {
    if lines == [] {
      assert lines + [line] == [line];
    } else {
      TailOfSum(lines, [line]);
      NotedMidAppend(if "a=mid:" <= lines[0] then Some(Trim(lines[0][6..])) else noted, lines[1..], line);
    }
  }

  lemma JoinEolSnoc(lines: seq<string>, line: string)
    ensures JoinEol(lines + [line], "\r\n") == JoinEol(lines, "\r\n") + (line + "\r\n")
  {
    JoinEolAppend(lines, [line], "\r\n");
    assert JoinEol([line], "\r\n") == line + "\r\n" by { assert [line][1..] == []; }
  }

  lemma LinesSnoc(section: string, line: string)
    requires SectionOk(section) && LineSafe(line)
    ensures Lines(section + (line + "\r\n")) == Lines(section) + [line]
  {
    var lines := Lines(section);
    SectionLinesSafe(lines);
    JoinEolSnoc(lines, line);
    var all := lines + [line];
    assert forall i :: 0 <= i < |all| ==> LineSafe(all[i]);
    hide Lines, JoinEol, LineSafe;
    LinesOfJoin(all, "\r\n", "");
    assert JoinEol(all, "\r\n") + "" == JoinEol(all, "\r\n");
    assert Lines("") == [] by { NoLines(); }
    assert all + [] == all;
  }

  lemma NoLines()
    ensures Lines("") == []
  {}

  lemma TrimmedSafe(s: string)
    requires LineSafe(s)
    ensures LineSafe(Trim(s))
  {
    assert forall c :: c in Trim(s) ==> c in s;
  }

  lemma SectionGrows(other: string, line: string)
    requires SectionOk(other) && CopiedLine(line)
    ensures SectionOk(other + line + "\r\n") && Lines(other + line + "\r\n") == Lines(other) + [line]
  {
    CopiedIsSafe(line);
    hide Lines, CopiedLine, LineSafe, MediaType, JoinEol;
    var lines := Lines(other);
    LinesSnoc(other, line);
    Assoc(other, line, "\r\n");
    JoinEolSnoc(lines, line);
    assert forall i :: 1 <= i < |lines + [line]| ==> CopiedLine((lines + [line])[i]);
  }

  lemma MidGrows(other: string, line: string)
    requires SectionOk(other) && CopiedLine(line)
    ensures StoredMid(other + line + "\r\n") == if "a=mid:" <= line then Some(Trim(line[6..])) else StoredMid(other)
  {
    SectionGrows(other, line);
    var lines := Lines(other);
    assert lines != [];
    hide Lines, CopiedLine, LineSafe, Trim, NotedMid, MediaType, SectionOk;
    TailOfSum(lines, [line]);
    NotedMidAppend(None, lines[1..], line);
  }

  lemma CopyGrows(other: string, mid: Option<string>, line: string)
    requires CopyOk(other, mid) && CopiedLine(line)
    ensures CopyOk(other + line + "\r\n", if "a=mid:" <= line then Some(Trim(line[6..])) else mid)
  {
    CopiedIsSafe(line);
    hide CopiedLine, LineSafe, Trim, SectionOk, StoredMid;
    SectionGrows(other, line);
    MidGrows(other, line);
    if "a=mid:" <= line {
      SuffixSafe(line, 6);
      TrimmedSafe(line[6..]);
    }
  }

  lemma CopiedIsSafe(line: string)
    requires CopiedLine(line)
    ensures LineSafe(line)
  {}

  // ----- one attribute keeps the invariant -----

  lemma TokenIsSafe(t: string)
    requires Token(t)
    ensures LineSafe(t)
  {}

  lemma TokensAreSafe(s: string)
    ensures forall i :: 0 <= i < |SplitWs(s)| ==> LineSafe(SplitWs(s)[i])
  {
    forall i | 0 <= i < |SplitWs(s)| ensures LineSafe(SplitWs(s)[i]) {
      TokenIsSafe(SplitWs(s)[i]);
    }
  }

  lemma TrimmedOptionOk(item: string)
    requires ',' !in item && '\n' !in item
    ensures OptionOk(Trim(item))
  {
    assert forall c :: c in Trim(item) ==> c in item;
    TrimFixed(Trim(item));
  }

  lemma OptionsAreOk(value: string)
    requires '\n' !in value
    ensures forall i :: 0 <= i < |TrimAll(SplitOn(value, ','))| ==> OptionOk(TrimAll(SplitOn(value, ','))[i])
  {
    var items := SplitOn(value, ',');
    SplitOnChars(value, ',', '\n');
    forall i | 0 <= i < |items| ensures OptionOk(TrimAll(items)[i]) {
      TrimmedOptionOk(items[i]);
    }
  }

  lemma UpperIsToken(t: string)
    requires Token(t)
    ensures Token(Upper(t)) && Upper(Upper(t)) == Upper(t)
  {}

  lemma ParsedFingerprintOk(value: string)
    requires ParseFingerprint(value).Some?
    ensures FingerprintOk(ParseFingerprint(value).value)
  {
    UpperIsToken(SplitWs(value)[1]);
  }

  lemma InsertKeeps(v6: Ipv6Canon, d: Desc, c: Candidate)
    requires CandidatesPrintable(v6, d) && Distinct(d.candidates) && Printable(v6, c)
    ensures CandidatesPrintable(v6, d.(candidates := Insert(d.candidates, c)))
    ensures Distinct(Insert(d.candidates, c))
  {
    hide Printable;
  }

  lemma SessionKeyKeeps(v6: Ipv6Canon, st: ParserState, key: Key, attr: string, value: string)
    requires StateOk(v6, st) && IsSessionKey(key) && LineSafe(value)
    requires StepSessionKey(v6, st, key, attr, value).Ok?
    ensures StateOk(v6, StepSessionKey(v6, st, key, attr, value).value)
  {
    if key == CandidateKey {
      CandidateKeeps(v6, st, attr);
    } else if key == Group || key == IceOptions || key == FingerprintKey {
      PartsKeep(v6, st, key, attr, value);
    } else {
      hide Printable, SectionOk, OptionOk, FingerprintOk, SessionAttrOk, ApplicationFieldsOk, CopyOk, Token, Distinct;
      hide RoleFromSdp, LineSafe;
    }
  }

  lemma CandidateKeeps(v6: Ipv6Canon, st: ParserState, attr: string)
    requires StateOk(v6, st) && StepSessionKey(v6, st, CandidateKey, attr, attr).Ok?
    ensures StateOk(v6, StepSessionKey(v6, st, CandidateKey, attr, attr).value)
  {
    hide Printable, SectionOk, OptionOk, FingerprintOk, SessionAttrOk, ApplicationFieldsOk, CopyOk, Token;
    hide Distinct, Candidates.Parse, CandidateMid, Resolve, Insert, CandidatesPrintable, LineSafe;
    var c := Candidates.Parse(v6, attr, CandidateMid(st)).value;
    ParsedIsPrintable(v6, attr, CandidateMid(st));
    InsertKeeps(v6, st.d, c);
  }

  /** The attributes whose value is taken apart. */
  lemma PartsKeep(v6: Ipv6Canon, st: ParserState, key: Key, attr: string, value: string)
    requires StateOk(v6, st) && LineSafe(value) && (key == Group || key == IceOptions || key == FingerprintKey)
    requires StepSessionKey(v6, st, key, attr, value).Ok?
    ensures StateOk(v6, StepSessionKey(v6, st, key, attr, value).value)
  {
    if key == Group && "BUNDLE" <= value {
      TokensAreSafe(value[6..]);
    } else if key == IceOptions {
      OptionsAreOk(value);
    } else if key == FingerprintKey && ParseFingerprint(value).Some? {
      ParsedFingerprintOk(value);
    }
    hide Printable, SectionOk, OptionOk, FingerprintOk, SessionAttrOk, ApplicationFieldsOk, CopyOk, Token;
    hide SplitWs, SplitOn, TrimAll, ParseFingerprint, Distinct, LineSafe;
  }

  lemma ApplicationKeyKeeps(app: Application, key: Key, attr: string, value: string)
    requires ApplicationFieldsOk(app) && !IsSessionKey(key) && LineSafe(attr) && LineSafe(value)
    requires key == KeyOf(AttrKey(attr))
    requires StepApplicationKey(app, key, attr, value).Ok?
    ensures ApplicationFieldsOk(StepApplicationKey(app, key, attr, value).value)
  {
    assert key != DirectionKey(UnknownDirection) by { KnownDirection(AttrKey(attr)); }
    hide KeyOf, LineSafe, AttrKey;
  }

  lemma KnownDirection(k: string)
    ensures KeyOf(k) != DirectionKey(UnknownDirection)
  {}

  lemma ValueSafe(attr: string)
    requires LineSafe(attr)
    ensures LineSafe(AttrValue(attr))
  {
    if IndexOf(attr, ':') < |attr| { SuffixSafe(attr, IndexOf(attr, ':') + 1); }
  }

  lemma AttrKeeps(v6: Ipv6Canon, st: ParserState, attr: string)
    requires StateOk(v6, st) && LineSafe(attr) && StepAttr(v6, st, attr).Ok?
    ensures StateOk(v6, StepAttr(v6, st, attr).value)
  {
    ValueSafe(attr);
    var key, value := KeyOf(AttrKey(attr)), AttrValue(attr);
    assert !IsSessionKey(key) ==> SessionAttrOk(attr);
    hide KeyOf, AttrKey, AttrValue, LineSafe, SessionAttrOk;
    if IsSessionKey(key) {
      SessionKeyKeeps(v6, st, key, attr, value);
      hide StepSessionKey, StateOk;
    } else {
      hide StepSessionKey, StepApplicationKey;
      if st.app.Some? {
        ApplicationKeyKeeps(st.app.value, key, attr, value);
        hide ApplicationFieldsOk, DescOk, CopyOk;
      } else {
        ExtraKeeps(v6, st.d, attr);
        hide ApplicationFieldsOk, DescOk, CopyOk;
      }
    }
  }

  lemma ExtraKeeps(v6: Ipv6Canon, d: Desc, attr: string)
    requires DescOk(v6, d) && SessionAttrOk(attr)
    ensures DescOk(v6, d.(extraAttrs := d.extraAttrs + [attr]))
  {
    hide Printable, SectionOk, OptionOk, FingerprintOk, SessionAttrOk, ApplicationFieldsOk, Distinct, Token, LineSafe;
  }

  // ----- one line keeps the invariant -----

  lemma OriginKeeps(v6: Ipv6Canon, st: ParserState, rest: string)
    requires StateOk(v6, st)
    ensures StateOk(v6, st.(d := StepOrigin(st.d, rest)))
  {
    hide Printable, SectionOk, OptionOk, FingerprintOk, SessionAttrOk, ApplicationFieldsOk, CopyOk, Distinct, Token;
  }

  lemma MediaKeeps(v6: Ipv6Canon, st: ParserState, line: string)
    requires StateOk(v6, st) && LineSafe(line) && "m=" <= line
    ensures StateOk(v6, StepMedia(st, line))
  {
    FlushOk(v6, st);
    hide Flush, DescOk, SectionOk, MediaType, LineSafe, ApplicationFieldsOk, CopyOk;
    if MediaType(line[2..]) == "application" {
      DecimalSafe(Flush(st).sectionIndex + 1);
    } else {
      NewSectionOk(line);
    }
  }

  lemma CopyKeeps(v6: Ipv6Canon, st: ParserState, line: string)
    requires StateOk(v6, st) && st.kind == InOther && CopiedLine(line)
    ensures StateOk(v6, StepOther(st, line))
  {
    hide DescOk, CopyOk, CopiedLine, ApplicationFieldsOk, Trim;
    CopyGrows(st.other, st.otherMid, line);
  }

  lemma StepKeeps(v6: Ipv6Canon, st: ParserState, raw: string)
    requires StateOk(v6, st) && '\n' !in raw && Step(v6, st, raw).Ok?
    ensures StateOk(v6, Step(v6, st, raw).value)
  {
    var line := TrimEol(raw);
    TrimEolIsSafe(raw);
    hide StateOk, StepAttr, StepMedia, StepOther, StepOrigin, TrimEol, LineSafe;
    if line != "" {
      if "m=" <= line {
        MediaKeeps(v6, st, line);
      } else if "o=" <= line {
        OriginKeeps(v6, st, line[2..]);
      } else if st.kind == InOther {
        CopyKeeps(v6, st, line);
      } else if "a=" <= line {
        SuffixSafe(line, 2);
        AttrKeeps(v6, st, line[2..]);
      }
    }
  }

  lemma {:induction false} RunKeeps(v6: Ipv6Canon, st: ParserState, lines: seq<string>)
    requires StateOk(v6, st) && forall i :: 0 <= i < |lines| ==> '\n' !in lines[i]
    requires Run(v6, st, lines).Ok?
    ensures StateOk(v6, Run(v6, st, lines).value)
    decreases |lines|
  {
    hide StateOk, Step;
    if lines != [] {
      StepKeeps(v6, st, lines[0]);
      RunKeeps(v6, Step(v6, st, lines[0]).value, lines[1..]);
    }
  }

  lemma FreshOk(v6: Ipv6Canon, sessionId: string)
    requires Token(sessionId)
    ensures StateOk(v6, InitialState(NewDesc(Unspec, ActPass, sessionId)))
  {
    assert Token("rtc") && Token("0");
  }

  /** Every description that parses, from any text, has the shape that printing
      preserves, except that its candidates may collide in canonical text. */
  lemma ParsedShape(v6: Ipv6Canon, sessionId: string, text: string)
    requires Token(sessionId) && Sdp.Parse(v6, sessionId, text).Ok?
    ensures DescOk(v6, Sdp.Parse(v6, sessionId, text).value)
  {
    var st := InitialState(NewDesc(Unspec, ActPass, sessionId));
    FreshOk(v6, sessionId);
    hide DescOk, Flush, CopyOk, Lines, Run;
    RunKeeps(v6, st, Lines(text));
    FlushOk(v6, Run(v6, st, Lines(text)).value);
  }

  // ----- exactly when the round trip holds -----

  lemma ShapeOfParsed(v6: Ipv6Canon, d: Desc)
    requires DescOk(v6, d)
    ensures Shape(d) && CandidatesPrintable(v6, d)
  {
    hide Distinct, SessionShape, CandidatesPrintable, TextOk, ApplicationFieldsOk;
  }

  lemma ShapeFromNormal(v6: Ipv6Canon, d: Desc)
    requires DescOk(v6, Normal(v6, d))
    ensures Shape(d)
  {
    hide Distinct, Kept, CandidatesPrintable, TextOk, ApplicationFieldsOk, LineSafe, Token, SectionOk;
    hide OptionOk, FingerprintOk, SessionAttrOk;
  }

  lemma ReparsedIsNormal(v6: Ipv6Canon, d: Desc)
    ensures Reparsed(v6, d) == Normal(v6, d) <==> StayDistinct(v6, d) && MidsReturn(d)
  {
    NormalKeeps(v6, d);
    BundleSurvives(d);
    FirstsOfDistinct(Kept(v6, d));
    hide Normal, Rebundled, Kept, Firsts, Distinct, MidsReturn;
  }

  /** Printing and parsing preserve what printing keeps of a description if and only
      if it is well-formed. */
  lemma RoundTripExactly(v6: Ipv6Canon, sessionId: string, d: Desc, eol: string)
    requires CandidatesPrintable(v6, d) && IsEol(eol) && Token(sessionId)
    ensures Sdp.Parse(v6, sessionId, Print(d, eol)) == Ok(Normal(v6, d)) <==> WellFormed(v6, d)
  {
    PrintableIsReadable(v6, d);
    hide Print, Sdp.Parse, DescOk, Shape, CandidatesPrintable, CandidatesReadable, Token, Normal, Reparsed, StayDistinct;
    hide MidsReturn;
    if Shape(d) {
      ParsePrinted(v6, sessionId, d, eol);
      ReparsedIsNormal(v6, d);
    } else if Sdp.Parse(v6, sessionId, Print(d, eol)) == Ok(Normal(v6, d)) {
      ParsedShape(v6, sessionId, Print(d, eol));
      ShapeFromNormal(v6, d);
    }
  }

  /** Where no mid in the group is blank: its mids are tokens and name every section. */
  lemma RoundTripOfNamedMids(v6: Ipv6Canon, sessionId: string, d: Desc, eol: string)
    requires CandidatesPrintable(v6, d) && IsEol(eol) && Token(sessionId)
    requires forall i :: 0 <= i < |d.bundleMids| ==> !Blank(d.bundleMids[i])
    ensures Sdp.Parse(v6, sessionId, Print(d, eol)) == Ok(Normal(v6, d))
      <==> Shape(d) && StayDistinct(v6, d) && Bundled(d) && TokenMids(d)
  {
    hide Print, Sdp.Parse, Shape, CandidatesPrintable, Token, Normal, StayDistinct, MidsReturn, Bundled, TokenMids, Blank;
    RoundTripExactly(v6, sessionId, d, eol);
    NamedMidsReturn(d);
  }

  // ----- the canonical form -----

  lemma {:induction false} MatchAll(cs: seq<Candidate>, mid: string)
    requires forall i :: 0 <= i < |cs| ==> cs[i].Mid() == mid
    ensures Matching(cs, mid) == cs
  {
    if cs != [] {
      MatchAll(cs[1..], mid);
      HeadTail(cs);
    }
  }

  lemma NormalCandidates(v6: Ipv6Canon, cs: seq<Candidate>, mid: string)
    requires mid != "" && forall i :: 0 <= i < |cs| ==> Printable(v6, cs[i])
    ensures var canon := CanonAll(v6, Matching(cs, mid), mid);
      CandidateAttrs(Matching(canon, mid)) == CandidateAttrs(Matching(cs, mid))
  {
    var some := Matching(cs, mid);
    var canon := CanonAll(v6, some, mid);
    MatchingPrintable(v6, cs, mid);
    MatchAll(canon, mid);
    forall i | 0 <= i < |some| ensures ToSdp(canon[i]) == ToSdp(some[i]) {
      CanonPrintsSame(v6, some[i], mid);
    }
    assert CandidateAttrs(canon) == CandidateAttrs(some);
  }

  /** What printing keeps prints the same. */
  lemma NormalPrintsSame(v6: Ipv6Canon, d: Desc, eol: string)
    requires CandidatesPrintable(v6, d) && (d.application.Some? ==> d.application.value.mid != "")
    ensures PrintedLines(Normal(v6, d)) == PrintedLines(d)
    ensures Print(Normal(v6, d), eol) == Print(d, eol)
  {
    hide CandidateAttrs, Matching, CanonAll, FlagAttrs, OptionAttr, NumberAttr, FingerprintAttrs, GroupAttrs,
      OptionsAttrs, AttrLines, JoinEol, Concat, Attr;
    var n := Normal(v6, d);
    assert SessionAttrs(n) == SessionAttrs(d) && HeaderLines(n) == HeaderLines(d);
    if d.application.Some? {
      var app := d.application.value;
      NormalCandidates(v6, d.candidates, app.mid);
      assert TransportAttrs(n, app) == TransportAttrs(d, app);
      assert DataAttrs(n, app) == DataAttrs(d, app);
    }
  }

  // ----- when a parsed description is bundled -----

  predicate IsGroupLine(raw: string) {
    var line := TrimEol(raw);
    "a=" <= line && KeyOf(AttrKey(line[2..])) == Group
  }

  predicate IsMediaLine(raw: string) { "m=" <= TrimEol(raw) }

  /** No group attribute after the first media line. */
  predicate GroupFirst(lines: seq<string>) {
    forall i, j :: 0 <= i < j < |lines| && IsMediaLine(lines[i]) ==> !IsGroupLine(lines[j])
  }

  /** The sections so far are bundled; before the first media line there are none. */
  predicate BundledSoFar(st: ParserState) {
    Bundled(st.d)
    && (st.kind == InOther ==> st.otherMid == StoredMid(st.other))
    && (st.sectionIndex == -1 ==> st.d.application == None && st.d.otherSections == [] && st.kind == NoSection)
  }

  lemma FlushBundles(v6: Ipv6Canon, st: ParserState)
    requires StateOk(v6, st) && BundledSoFar(st)
    ensures BundledSoFar(Flush(st))
  {
    hide DescOk, SectionOk, LineSafe, StoredMid, ApplicationFieldsOk;
    if st.kind == InOther {
      var f := Flush(st).d;
      forall i | 0 <= i < |f.otherSections| && StoredMid(f.otherSections[i]).Some?
        ensures StoredMid(f.otherSections[i]).value in f.bundleMids
      {
        if i < |st.d.otherSections| { assert f.otherSections[i] == st.d.otherSections[i]; }
      }
    }
  }

  lemma SessionKeyBundles(v6: Ipv6Canon, st: ParserState, key: Key, attr: string, value: string)
    requires BundledSoFar(st) && IsSessionKey(key) && (key == Group ==> st.sectionIndex == -1)
    requires StepSessionKey(v6, st, key, attr, value).Ok?
    ensures BundledSoFar(StepSessionKey(v6, st, key, attr, value).value)
    ensures StepSessionKey(v6, st, key, attr, value).value.sectionIndex == st.sectionIndex
  {
    hide StoredMid, Candidates.Parse, ParseFingerprint, RoleFromSdp, SplitWs, TrimAll, Insert;
  }

  lemma AttrBundles(v6: Ipv6Canon, st: ParserState, attr: string)
    requires BundledSoFar(st) && StepAttr(v6, st, attr).Ok?
    requires KeyOf(AttrKey(attr)) == Group ==> st.sectionIndex == -1
    ensures BundledSoFar(StepAttr(v6, st, attr).value)
    ensures StepAttr(v6, st, attr).value.sectionIndex == st.sectionIndex
  {
    hide KeyOf, AttrKey, AttrValue, StepApplicationKey;
    var key := KeyOf(AttrKey(attr));
    if IsSessionKey(key) {
      SessionKeyBundles(v6, st, key, attr, AttrValue(attr));
      hide StepSessionKey, BundledSoFar;
    } else {
      hide StepSessionKey, StoredMid;
    }
  }

  lemma StepBundles(v6: Ipv6Canon, st: ParserState, raw: string)
    requires StateOk(v6, st) && BundledSoFar(st) && '\n' !in raw && Step(v6, st, raw).Ok?
    requires IsGroupLine(raw) ==> st.sectionIndex == -1
    ensures BundledSoFar(Step(v6, st, raw).value)
    ensures Step(v6, st, raw).value.sectionIndex == -1 ==> st.sectionIndex == -1 && !IsMediaLine(raw)
  {
    StepKeeps(v6, st, raw);
    FlushBundles(v6, st);
    CopiedMid(v6, st, raw);
    var line := TrimEol(raw);
    hide KeyOf, AttrKey, StepAttr, StoredMid, MediaType, TrimEol, DescOk, CopyOk, ApplicationFieldsOk;
    if line != "" && !("m=" <= line) && !("o=" <= line) && st.kind != InOther && "a=" <= line {
      AttrBundles(v6, st, line[2..]);
      hide BundledSoFar;
    }
  }

  lemma CopiedMid(v6: Ipv6Canon, st: ParserState, raw: string)
    requires StateOk(v6, st) && '\n' !in raw && Step(v6, st, raw).Ok?
    ensures Step(v6, st, raw).value.kind == InOther ==>
      Step(v6, st, raw).value.otherMid == StoredMid(Step(v6, st, raw).value.other)
  {
    StepKeeps(v6, st, raw);
    hide Step, DescOk, ApplicationFieldsOk, SectionOk, StoredMid;
  }

  lemma {:induction false} RunBundles(v6: Ipv6Canon, st: ParserState, lines: seq<string>)
    requires StateOk(v6, st) && BundledSoFar(st) && forall i :: 0 <= i < |lines| ==> '\n' !in lines[i]
    requires GroupFirst(lines) && Run(v6, st, lines).Ok?
    requires st.sectionIndex == -1 || forall i :: 0 <= i < |lines| ==> !IsGroupLine(lines[i])
    ensures BundledSoFar(Run(v6, st, lines).value)
    decreases |lines|
  {
    hide StateOk, BundledSoFar, Step, IsGroupLine, IsMediaLine;
    if lines != [] {
      var next := Step(v6, st, lines[0]).value;
      StepKeeps(v6, st, lines[0]);
      StepBundles(v6, st, lines[0]);
      if next.sectionIndex != -1 && st.sectionIndex == -1 {
        IndexMoves(v6, st, lines[0]);
      }
      RunBundles(v6, next, lines[1..]);
    }
  }

  lemma IndexMoves(v6: Ipv6Canon, st: ParserState, raw: string)
    requires Step(v6, st, raw).Ok? && Step(v6, st, raw).value.sectionIndex != st.sectionIndex
    ensures IsMediaLine(raw)
  {
    hide TrimEol, StepMedia, Candidates.Parse, ParseFingerprint, KeyOf, AttrKey, AttrValue, StepApplicationKey,
      SplitWs, RoleFromSdp, Trim;
  }

  /** A text whose group attributes come before its media sections gives a
      description that bundles every section. */
  lemma GroupFirstBundles(v6: Ipv6Canon, sessionId: string, text: string)
    requires Token(sessionId) && Sdp.Parse(v6, sessionId, text).Ok? && GroupFirst(Lines(text))
    ensures Bundled(Sdp.Parse(v6, sessionId, text).value)
  {
    var st := InitialState(NewDesc(Unspec, ActPass, sessionId));
    FreshOk(v6, sessionId);
    assert BundledSoFar(st);
    hide StateOk, Lines, Run, GroupFirst, StoredMid;
    RunBundles(v6, st, Lines(text));
    RunKeeps(v6, st, Lines(text));
    FlushBundles(v6, Run(v6, st, Lines(text)).value);
  }
}
