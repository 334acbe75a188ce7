/** Printing a description and parsing the text gives the description back. */
module RoundTrip {
  import opened Text
  import opened Ip
  import opened Fingerprints
  import opened Candidates
  import opened Sdp
  import opened CandidateLists

  // ----- well-formed descriptions -----

  /** An ICE option that splitting at commas and trimming leaves alone. */
  predicate OptionOk(s: string) {
    ',' !in s && '\n' !in s && Trim(s) == s
  }

  /** An attribute that a parser outside application sections keeps as it is. */
  predicate SessionAttrOk(attr: string) {
    LineSafe(attr) && !IsSessionKey(KeyOf(AttrKey(attr)))
  }

  /** An attribute that a parser inside an application section keeps as it is. */
  predicate ApplicationAttrOk(attr: string) {
    LineSafe(attr) && KeyOf(AttrKey(attr)) == UnknownKey
  }

  predicate FingerprintOk(fp: Fingerprint) {
    Token(fp.value) && Upper(fp.value) == fp.value
  }

  /** A line that another media section keeps when it is copied. */
  predicate CopiedLine(line: string) {
    line != "" && LineSafe(line) && !("m=" <= line) && !("o=" <= line)
  }

  /** The lines of a stored section, the media line first. */
  predicate SectionLinesOk(lines: seq<string>) {
    lines != []
    && LineSafe(lines[0]) && "m=" <= lines[0] && MediaType(lines[0][2..]) != "application"
    && forall i :: 1 <= i < |lines| ==> CopiedLine(lines[i])
  }

  /** The mid that the parser notes while it copies these lines. */
  function NotedMid(noted: Option<string>, lines: seq<string>): Option<string>
    decreases |lines|
  {
    if lines == [] then noted
    else NotedMid(if "a=mid:" <= lines[0] then Some(Trim(lines[0][6..])) else noted, lines[1..])
  }

  /** The mid of a stored section: the last one its lines declare. */
  function StoredMid(section: string): Option<string> {
    var lines := Lines(section);
    if lines == [] then None else NotedMid(None, lines[1..])
  }

  /** A stored section: its own lines, each ended by CR LF. */
  predicate SectionOk(section: string) {
    section == JoinEol(Lines(section), "\r\n") && SectionLinesOk(Lines(section))
  }

  /** The canonical forms of some candidates of one media section. */
  function CanonAll(v6: Ipv6Canon, cs: seq<Candidate>, mid: string): (r: seq<Candidate>)
    ensures |r| == |cs|
    ensures forall i :: 0 <= i < |cs| ==> r[i] == Canon(v6, cs[i], mid)
  {
    seq(|cs|, i requires 0 <= i < |cs| => Canon(v6, cs[i], mid))
  }

  predicate NumberOk(value: Option<nat>, max: nat) { value.Some? ==> value.value <= max }

  predicate TextOk(value: Option<string>) { value.Some? ==> LineSafe(value.value) }

  /** What an application section must be like to be read back as it was. */
  predicate ApplicationFieldsOk(app: Application) {
    LineSafe(app.mid)
    && app.direction != UnknownDirection
    && NumberOk(app.sctpPort, U16_MAX) && NumberOk(app.maxMessageSize, USIZE_MAX)
    && forall i :: 0 <= i < |app.extraAttrs| ==> ApplicationAttrOk(app.extraAttrs[i])
  }

  /** The same, with the fields of the description that are printed in the section. */
  predicate ApplicationShape(d: Desc, app: Application) {
    ApplicationFieldsOk(app) && TextOk(d.iceUfrag) && TextOk(d.icePwd)
  }

  predicate SessionShape(d: Desc) {
    Token(d.username) && Token(d.sessionId) && Token(d.sessionVersion)
    && (forall i :: 0 <= i < |d.bundleMids| ==> LineSafe(d.bundleMids[i]))
    && (forall i :: 0 <= i < |d.iceOptions| ==> OptionOk(d.iceOptions[i]))
    && (d.fingerprint.Some? ==> FingerprintOk(d.fingerprint.value))
    && (forall i :: 0 <= i < |d.extraAttrs| ==> SessionAttrOk(d.extraAttrs[i]))
    && (forall i :: 0 <= i < |d.otherSections| ==> SectionOk(d.otherSections[i]))
  }

  /** Every part is text that reads back as what it was printed from. */
  predicate Shape(d: Desc) {
    SessionShape(d) && (d.application.Some? ==> ApplicationShape(d, d.application.value))
  }

  /** Candidates only come from the parser or the default, so this always holds. */
  predicate CandidatesPrintable(v6: Ipv6Canon, d: Desc) {
    forall i :: 0 <= i < |d.candidates| ==> Printable(v6, d.candidates[i])
  }

  predicate CandidatesReadable(v6: Ipv6Canon, d: Desc) {
    forall i :: 0 <= i < |d.candidates| ==> Readable(v6, d.candidates[i])
  }

  /** The candidates that are printed, in canonical text. */
  function Kept(v6: Ipv6Canon, d: Desc): seq<Candidate> {
    if d.application.Some? then
      CanonAll(v6, Matching(d.candidates, d.application.value.mid), d.application.value.mid)
    else []
  }

  /** They stay different in canonical text. */
  predicate StayDistinct(v6: Ipv6Canon, d: Desc) { Distinct(Kept(v6, d)) }

  /** The mids that the application section and the other sections declare, in order. */
  function OwnMids(d: Desc): seq<string> {
    (if d.application.Some? then [d.application.value.mid] else []) + NotedMids(d.otherSections)
  }

  function NotedMids(sections: seq<string>): seq<string>
    decreases |sections|
  {
    if sections == [] then []
    else (if StoredMid(sections[0]).Some? then [StoredMid(sections[0]).value] else []) + NotedMids(sections[1..])
  }

  /** Every media section's mid is in the bundle group. */
  predicate Bundled(d: Desc) {
    (d.application.Some? ==> d.application.value.mid in d.bundleMids)
    && forall i :: 0 <= i < |d.otherSections| ==>
      StoredMid(d.otherSections[i]).Some? ==> StoredMid(d.otherSections[i]).value in d.bundleMids
  }

  predicate AllTokens(mids: seq<string>) { forall i :: 0 <= i < |mids| ==> Token(mids[i]) }

  predicate TokenMids(d: Desc) { AllTokens(d.bundleMids) }

  /** A mid that leaves nothing when the group line is split. */
  predicate Blank(mid: string) { SplitWs(mid) == [] }

  /** The blank mids of a list, each where it first occurs. */
  function Blanks(mids: seq<string>): (r: seq<string>)
    ensures forall m :: m in r <==> m in mids && Blank(m)
  {
    if mids == [] then []
    else
      var front, last := mids[..|mids| - 1], mids[|mids| - 1];
      assert mids == front + [last];
      if Blank(last) && last !in Blanks(front) then Blanks(front) + [last] else Blanks(front)
  }

  /** The bundle group names every section, and consists of tokens, followed by the
      blank mids of the sections in section order. */
  predicate MidsReturn(d: Desc) {
    var blanks := Blanks(OwnMids(d));
    var k := |d.bundleMids| - |blanks|;
    Bundled(d) && k >= 0 && AllTokens(d.bundleMids[..k]) && d.bundleMids[k..] == blanks
  }

  /** Descriptions that printing and parsing preserve. */
  predicate WellFormed(v6: Ipv6Canon, d: Desc) {
    Shape(d) && StayDistinct(v6, d) && MidsReturn(d)
  }

  /** What survives printing: not the type; only the application's candidates,
      in canonical text; and without an application section neither role nor
      ICE credentials nor candidates. */
  function Normal(v6: Ipv6Canon, d: Desc): Desc {
    if d.application.Some? then d.(typ := Unspec, candidates := Kept(v6, d))
    else d.(typ := Unspec, role := ActPass, iceUfrag := None, icePwd := None, candidates := [], ended := false)
  }

  function AddNoted(mids: seq<string>, mid: Option<string>): seq<string> {
    if mid.None? then mids else AddMid(mids, mid.value)
  }

  /** A bundle group after some mids were added. */
  function AddMids(mids: seq<string>, more: seq<string>): seq<string>
    decreases |more|
  {
    if more == [] then mids else AddMids(AddMid(mids, more[0]), more[1..])
  }

  /** The bundle group that the printed text gives: the printed mids split at
      whitespace, then every section's mid that is missing. */
  function Rebundled(d: Desc): seq<string> {
    AddMids(SplitWs(Spaced(d.bundleMids)), OwnMids(d))
  }

  /** What parsing the printed text gives: a candidate that equals an earlier one in
      canonical text is dropped. */
  function Reparsed(v6: Ipv6Canon, d: Desc): Desc {
    Normal(v6, d).(bundleMids := Rebundled(d), candidates := Firsts(Kept(v6, d)))
  }

  // ----- keys and attributes -----

  /** Can stand in front of the colon. */
  predicate PlainKey(key: string) {
    forall i :: 0 <= i < |key| ==> key[i] != ':' && key[i] != '\n'
  }

  lemma KeyedAttr(key: string, value: string)
    requires PlainKey(key)
    ensures AttrKey(Attr(key, value)) == key && AttrValue(Attr(key, value)) == value
    ensures LineSafe(value) ==> LineSafe(Attr(key, value))
  {
    var s := key + ":" + value;
    assert forall i :: 0 <= i < |key| ==> s[i] == key[i];
    IndexOfUnique(s, ':', |key|);
    assert s[..|key|] == key && s[|key| + 1..] == value;
  }

  lemma BareAttr(key: string)
    requires PlainKey(key)
    ensures AttrKey(key) == key && AttrValue(key) == ""
  {
    IndexOfUnique(key, ':', |key|);
    assert key[..|key|] == key;
  }

  function KeyName(k: Key): string
    requires k != UnknownKey && k != DirectionKey(UnknownDirection)
  {
    match k
    case Group => "group"
    case ExtmapAllowMixed => "extmap-allow-mixed"
    case IceOptions => "ice-options"
    case FingerprintKey => "fingerprint"
    case IceUfrag => "ice-ufrag"
    case IcePwd => "ice-pwd"
    case Setup => "setup"
    case CandidateKey => "candidate"
    case EndOfCandidates => "end-of-candidates"
    case MsidSemantic => "msid-semantic"
    case MidKey => "mid"
    case SctpPort => "sctp-port"
    case MaxMessageSize => "max-message-size"
    case DirectionKey(direction) => DirectionToken(direction)
  }

  lemma SessionNames(k: Key)
    requires IsSessionKey(k)
    ensures KeyOf(KeyName(k)) == k
  {
    assert "group"[0] == 'g' && "setup"[0] == 's';
    assert "ice-options"[0] == 'i' && "fingerprint"[0] == 'f';
    assert "ice-ufrag"[0] == 'i' && "candidate"[0] == 'c';
  }

  lemma ApplicationNames(k: Key)
    requires IsApplicationKey(k) && k != DirectionKey(UnknownDirection)
    ensures KeyOf(KeyName(k)) == k
  {
    assert "sctp-port"[0] == 's' && "ice-ufrag"[0] == 'i' && "candidate"[0] == 'c';
    assert "sendonly"[4] == 'o' && "sendrecv"[4] == 'r' && "recvonly"[0] == 'r' && "sendonly"[0] == 's'
      && "sendrecv"[0] == 's' && "inactive"[0] == 'i';
  }

  lemma PlainSessionNames(k: Key)
    requires k == Group || k == ExtmapAllowMixed || k == IceOptions || k == FingerprintKey || k == Setup
    ensures PlainKey(KeyName(k))
  {}

  lemma PlainIceNames(k: Key)
    requires k == IceUfrag || k == IcePwd || k == CandidateKey || k == EndOfCandidates || k == MsidSemantic
    ensures PlainKey(KeyName(k))
  {}

  lemma PlainApplicationNames(k: Key)
    requires IsApplicationKey(k) && k != DirectionKey(UnknownDirection)
    ensures PlainKey(KeyName(k))
  {}

  lemma KeyOfName(k: Key)
    requires k != UnknownKey && k != DirectionKey(UnknownDirection)
    ensures KeyOf(KeyName(k)) == k && PlainKey(KeyName(k))
  {
    hide KeyOf, KeyName, PlainKey;
    if IsApplicationKey(k) {
      ApplicationNames(k);
      PlainApplicationNames(k);
    } else if k == IceUfrag || k == IcePwd || k == CandidateKey || k == EndOfCandidates || k == MsidSemantic {
      SessionNames(k);
      PlainIceNames(k);
    } else {
      SessionNames(k);
      PlainSessionNames(k);
    }
  }

  /** How an attribute of a kind known in every position is handled. */
  lemma SessionKeyStep(v6: Ipv6Canon, st: ParserState, key: Key, value: string)
    requires IsSessionKey(key)
    ensures StepAttr(v6, st, Attr(KeyName(key), value))
      == StepSessionKey(v6, st, key, Attr(KeyName(key), value), value)
    ensures StepAttr(v6, st, KeyName(key)) == StepSessionKey(v6, st, key, KeyName(key), "")
    ensures LineSafe(value) ==> LineSafe(Attr(KeyName(key), value))
  {
    hide KeyOf, StepSessionKey, KeyName;
    KeyOfName(key);
    KeyedAttr(KeyName(key), value);
    BareAttr(KeyName(key));
  }

  // ----- running attributes -----

  /** The loop restricted to attribute lines. */
  function RunAttrs(v6: Ipv6Canon, st: ParserState, attrs: seq<string>): Result<ParserState, DescriptionError>
    decreases |attrs|
  {
    if attrs == [] then Ok(st)
    else
      match StepAttr(v6, st, attrs[0])
      case Err(e) => Err(e)
      case Ok(next) => RunAttrs(v6, next, attrs[1..])
  }

  lemma {:induction false} RunAppend(v6: Ipv6Canon, st: ParserState, a: seq<string>, b: seq<string>)
    ensures Run(v6, st, a + b) ==
      match Run(v6, st, a) case Err(e) => Err(e) case Ok(mid) => Run(v6, mid, b)
    decreases |a|
  {
    if a == [] {
      assert a + b == b;
    } else {
      assert (a + b)[1..] == a[1..] + b;
      match Step(v6, st, a[0])
      case Err(_) =>
      case Ok(next) => RunAppend(v6, next, a[1..], b);
    }
  }

  lemma {:induction false} RunAttrsAppend(v6: Ipv6Canon, st: ParserState, a: seq<string>, b: seq<string>)
    ensures RunAttrs(v6, st, a + b) ==
      match RunAttrs(v6, st, a) case Err(e) => Err(e) case Ok(mid) => RunAttrs(v6, mid, b)
    decreases |a|
  {
    if a == [] {
      assert a + b == b;
    } else {
      assert (a + b)[1..] == a[1..] + b;
      match StepAttr(v6, st, a[0])
      case Err(_) =>
      case Ok(next) => RunAttrsAppend(v6, next, a[1..], b);
    }
  }

  lemma RunOneAttr(v6: Ipv6Canon, st: ParserState, attr: string)
    ensures RunAttrs(v6, st, [attr]) == StepAttr(v6, st, attr)
  {}

  lemma AttrLineSteps(v6: Ipv6Canon, st: ParserState, attr: string)
    requires LineSafe(attr) && st.kind != InOther
    ensures LineSafe("a=" + attr)
    ensures Step(v6, st, "a=" + attr) == StepAttr(v6, st, attr)
    ensures StepAttr(v6, st, attr).Ok? ==> StepAttr(v6, st, attr).value.kind == st.kind
  {
    var line := "a=" + attr;
    assert line[0] == 'a' && line[1] == '=' && line[2..] == attr;
    assert LineSafe(line);
    TrimEolOfSafe(line);
    if StepAttr(v6, st, attr).Ok? { AttrKeepsKind(v6, st, attr); }
    hide StepAttr, StepMedia, StepOther, StepOrigin;
  }

  lemma AttrKeepsKind(v6: Ipv6Canon, st: ParserState, attr: string)
    requires StepAttr(v6, st, attr).Ok?
    ensures StepAttr(v6, st, attr).value.kind == st.kind
  {
    hide KeyOf, AttrKey, AttrValue, StepApplicationKey, Candidates.Parse, ParseFingerprint, RoleFromSdp;
  }

  lemma AttrLinesSafe(attrs: seq<string>)
    requires forall i :: 0 <= i < |attrs| ==> LineSafe(attrs[i])
    ensures |AttrLines(attrs)| == |attrs|
    ensures forall i :: 0 <= i < |attrs| ==> LineSafe(AttrLines(attrs)[i])
  {
    forall i | 0 <= i < |attrs| ensures LineSafe(AttrLines(attrs)[i]) {
      assert LineSafe(attrs[i]);
    }
  }

  lemma {:induction false} RunAttrLines(v6: Ipv6Canon, st: ParserState, attrs: seq<string>)
    requires st.kind != InOther
    requires forall i :: 0 <= i < |attrs| ==> LineSafe(attrs[i])
    ensures Run(v6, st, AttrLines(attrs)) == RunAttrs(v6, st, attrs)
    decreases |attrs|
  {
    hide StepAttr, Step;
    if attrs != [] {
      AttrLineSteps(v6, st, attrs[0]);
      assert AttrLines(attrs)[0] == "a=" + attrs[0];
      assert AttrLines(attrs)[1..] == AttrLines(attrs[1..]);
      var step := StepAttr(v6, st, attrs[0]);
      if step.Ok? {
        RunAttrLines(v6, step.value, attrs[1..]);
      }
    }
  }

  // ----- the printed session attributes, one kind at a time -----

  lemma {:induction false} SplitWsSpaced(mids: seq<string>)
    requires forall i :: 0 <= i < |mids| ==> Token(mids[i])
    ensures SplitWs(Spaced(mids)) == mids
  {
    if mids != [] {
      var rest := Spaced(mids[1..]);
      SplitWsSpaced(mids[1..]);
      assert Spaced(mids) == " " + (mids[0] + rest);
      SplitWsSpace(mids[0] + rest);
      SplitWsToken(mids[0], rest);
    }
  }

  lemma {:induction false} SpacedSafe(mids: seq<string>)
    requires forall i :: 0 <= i < |mids| ==> LineSafe(mids[i])
    ensures LineSafe(Spaced(mids))
  {
    if mids != [] {
      SpacedSafe(mids[1..]);
      assert LineSafe(" " + mids[0]);
    }
  }

  lemma BundleIsPlain()
    ensures PlainKey("BUNDLE") && "BUNDLE"[5] != '\r'
  {}

  lemma SafeAfter(p: string, s: string)
    requires PlainKey(p) && p != "" && p[|p| - 1] != '\r' && LineSafe(s)
    ensures LineSafe(p + s)
  {}

  lemma DropPrefix(p: string, s: string)
    ensures p <= p + s && (p + s)[|p|..] == s
  {}

  lemma GroupReads(mids: seq<string>)
    requires forall i :: 0 <= i < |mids| ==> LineSafe(mids[i])
    ensures var value := "BUNDLE" + Spaced(mids);
      LineSafe(value) && "BUNDLE" <= value && value[6..] == Spaced(mids)
  {
    hide Spaced, SplitWs, Token, LineSafe, PlainKey;
    SpacedSafe(mids);
    DropPrefix("BUNDLE", Spaced(mids));
    BundleIsPlain();
    SafeAfter("BUNDLE", Spaced(mids));
  }

  lemma GroupStep(v6: Ipv6Canon, st: ParserState, mids: seq<string>)
    requires forall i :: 0 <= i < |mids| ==> LineSafe(mids[i])
    ensures var attr := Attr("group", "BUNDLE" + Spaced(mids));
      LineSafe(attr) && StepAttr(v6, st, attr) == Ok(st.(d := st.d.(bundleMids := SplitWs(Spaced(mids)))))
  {
    hide StepAttr, Spaced, SplitWs, LineSafe, Attr;
    GroupReads(mids);
    SessionKeyStep(v6, st, Group, "BUNDLE" + Spaced(mids));
  }

  lemma MsidStep(v6: Ipv6Canon, st: ParserState)
    ensures LineSafe(Attr("msid-semantic", "WMS *"))
    ensures StepAttr(v6, st, Attr("msid-semantic", "WMS *")) == Ok(st)
  {
    hide StepAttr;
    SessionKeyStep(v6, st, MsidSemantic, "WMS *");
  }

  lemma {:induction false} JoinLast(options: seq<string>)
    requires forall i :: 0 <= i < |options| ==> OptionOk(options[i])
    ensures Join(options, ',') != "" ==> Join(options, ',')[|Join(options, ',')| - 1] != '\r'
  {
    if |options| == 1 {
      assert Trim(options[0]) == options[0];
    } else if |options| > 1 {
      JoinLast(options[1..]);
    }
  }

  lemma OptionsFixed(options: seq<string>)
    requires options != [] && forall i :: 0 <= i < |options| ==> OptionOk(options[i])
    ensures TrimAll(SplitOn(Join(options, ','), ',')) == options
    ensures LineSafe(Join(options, ','))
  {
    SplitOnJoin(options, ',');
    assert TrimAll(options) == options;
    JoinChars(options, ',', '\n');
    JoinLast(options);
  }

  lemma OptionsStep(v6: Ipv6Canon, st: ParserState, options: seq<string>)
    requires options != [] && forall i :: 0 <= i < |options| ==> OptionOk(options[i])
    requires st.d.iceOptions == []
    ensures var attr := Attr("ice-options", Join(options, ','));
      LineSafe(attr) && StepAttr(v6, st, attr) == Ok(st.(d := st.d.(iceOptions := options)))
  {
    hide StepAttr, Join, SplitOn, TrimAll, LineSafe, OptionOk, Attr;
    OptionsFixed(options);
    var value := Join(options, ',');
    SessionKeyStep(v6, st, IceOptions, value);
  }

  lemma ExtmapStep(v6: Ipv6Canon, st: ParserState)
    ensures StepAttr(v6, st, "extmap-allow-mixed") == Ok(st.(d := st.d.(extmapAllowMixed := true)))
  {
    hide StepAttr;
    SessionKeyStep(v6, st, ExtmapAllowMixed, "");
  }

  lemma TwoTokens(t: string, u: string)
    requires Token(t) && Token(u)
    ensures SplitWs(t + " " + u) == [t, u]
  {
    SplitWsToken(u, "");
    assert u + "" == u;
    SplitWsSpace(u);
    SplitWsToken(t, " " + u);
    assert t + " " + u == t + (" " + u);
  }

  lemma FingerprintReads(fp: Fingerprint)
    requires FingerprintOk(fp)
    ensures ParseFingerprint(AlgorithmToken(fp.algorithm) + " " + fp.value) == Some(fp)
    ensures LineSafe(AlgorithmToken(fp.algorithm) + " " + fp.value)
  {
    hide AlgorithmToken, AlgorithmFromSdp;
    AlgorithmOfToken(fp.algorithm);
    TwoTokens(AlgorithmToken(fp.algorithm), fp.value);
  }

  lemma FingerprintStep(v6: Ipv6Canon, st: ParserState, fp: Fingerprint)
    requires FingerprintOk(fp)
    requires st.d.fingerprint.None? || st.sectionIndex == 0
    ensures var attr := Attr("fingerprint", AlgorithmToken(fp.algorithm) + " " + fp.value);
      LineSafe(attr) && StepAttr(v6, st, attr) == Ok(st.(d := st.d.(fingerprint := Some(fp))))
  {
    hide StepAttr, ParseFingerprint, AlgorithmToken;
    FingerprintReads(fp);
    SessionKeyStep(v6, st, FingerprintKey, AlgorithmToken(fp.algorithm) + " " + fp.value);
  }

  lemma ExtraStep(v6: Ipv6Canon, st: ParserState, attr: string)
    requires st.app.None? && SessionAttrOk(attr)
    ensures StepAttr(v6, st, attr) == Ok(st.(d := st.d.(extraAttrs := st.d.extraAttrs + [attr])))
  {
    hide KeyOf, StepSessionKey, StepApplicationKey;
  }

  lemma {:induction false} SessionExtras(v6: Ipv6Canon, st: ParserState, attrs: seq<string>)
    requires st.app.None?
    requires forall i :: 0 <= i < |attrs| ==> SessionAttrOk(attrs[i])
    ensures RunAttrs(v6, st, attrs) == Ok(st.(d := st.d.(extraAttrs := st.d.extraAttrs + attrs)))
    decreases |attrs|
  {
    hide StepAttr, SessionAttrOk;
    if attrs == [] {
      assert st.d.extraAttrs + attrs == st.d.extraAttrs;
    } else {
      var next := st.(d := st.d.(extraAttrs := st.d.extraAttrs + [attrs[0]]));
      ExtraStep(v6, st, attrs[0]);
      SessionExtras(v6, next, attrs[1..]);
      assert next.d.extraAttrs + attrs[1..] == st.d.extraAttrs + attrs;
    }
  }

  // ----- all session attributes -----

  /** These attributes are safe to print and take the parser from one state to the other. */
  predicate Reaches(v6: Ipv6Canon, st: ParserState, attrs: seq<string>, next: ParserState) {
    RunAttrs(v6, st, attrs) == Ok(next) && forall i :: 0 <= i < |attrs| ==> LineSafe(attrs[i])
  }

  lemma ReachesOne(v6: Ipv6Canon, st: ParserState, attr: string, next: ParserState)
    requires LineSafe(attr) && StepAttr(v6, st, attr) == Ok(next)
    ensures Reaches(v6, st, [attr], next)
  {
    hide StepAttr, LineSafe;
    RunOneAttr(v6, st, attr);
  }

  lemma ReachesThen(v6: Ipv6Canon, s0: ParserState, a: seq<string>, s1: ParserState, b: seq<string>, s2: ParserState)
    requires Reaches(v6, s0, a, s1) && Reaches(v6, s1, b, s2)
    ensures Reaches(v6, s0, a + b, s2)
  {
    hide RunAttrs, LineSafe;
    RunAttrsAppend(v6, s0, a, b);
  }

  lemma NoTokens()
    ensures SplitWs(Spaced([])) == []
  {}

  lemma NothingReached(v6: Ipv6Canon, st: ParserState)
    ensures Reaches(v6, st, [], st)
  {}

  lemma GroupPart(v6: Ipv6Canon, st: ParserState, mids: seq<string>)
    requires st.d.bundleMids == [] && forall i :: 0 <= i < |mids| ==> LineSafe(mids[i])
    ensures Reaches(v6, st, GroupAttrs(mids), st.(d := st.d.(bundleMids := SplitWs(Spaced(mids)))))
  {
    hide StepAttr, LineSafe, Attr, SplitWs, Reaches;
    NoTokens();
    NothingReached(v6, st);
    if mids != [] {
      GroupStep(v6, st, mids);
      ReachesOne(v6, st, Attr("group", "BUNDLE" + Spaced(mids)),
                 st.(d := st.d.(bundleMids := SplitWs(Spaced(mids)))));
    }
  }

  lemma MsidPart(v6: Ipv6Canon, st: ParserState)
    ensures Reaches(v6, st, [Attr("msid-semantic", "WMS *")], st)
  {
    hide StepAttr, LineSafe, Attr;
    MsidStep(v6, st);
    ReachesOne(v6, st, Attr("msid-semantic", "WMS *"), st);
  }

  lemma OptionsPart(v6: Ipv6Canon, st: ParserState, options: seq<string>)
    requires st.d.iceOptions == [] && forall i :: 0 <= i < |options| ==> OptionOk(options[i])
    ensures Reaches(v6, st, OptionsAttrs(options), st.(d := st.d.(iceOptions := options)))
  {
    hide StepAttr, LineSafe, OptionOk, Attr, Join;
    if options != [] {
      OptionsStep(v6, st, options);
      ReachesOne(v6, st, Attr("ice-options", Join(options, ',')), st.(d := st.d.(iceOptions := options)));
    }
  }

  lemma ExtmapPart(v6: Ipv6Canon, st: ParserState, on: bool)
    requires !st.d.extmapAllowMixed
    ensures Reaches(v6, st, FlagAttrs("extmap-allow-mixed", on), st.(d := st.d.(extmapAllowMixed := on)))
  {
    hide StepAttr;
    if on {
      ExtmapStep(v6, st);
      ReachesOne(v6, st, "extmap-allow-mixed", st.(d := st.d.(extmapAllowMixed := true)));
    }
  }

  lemma FingerprintPart(v6: Ipv6Canon, st: ParserState, fp: Option<Fingerprint>)
    requires fp.Some? ==> FingerprintOk(fp.value)
    requires st.d.fingerprint == None || (st.sectionIndex == 0 && st.d.fingerprint == fp)
    ensures Reaches(v6, st, FingerprintAttrs(fp), st.(d := st.d.(fingerprint := fp)))
  {
    hide StepAttr, LineSafe, FingerprintOk, Attr, AlgorithmToken;
    if fp.Some? {
      FingerprintStep(v6, st, fp.value);
      ReachesOne(v6, st, Attr("fingerprint", AlgorithmToken(fp.value.algorithm) + " " + fp.value.value),
                 st.(d := st.d.(fingerprint := fp)));
    }
  }

  lemma ExtrasPart(v6: Ipv6Canon, st: ParserState, attrs: seq<string>)
    requires st.app.None? && st.d.extraAttrs == []
    requires forall i :: 0 <= i < |attrs| ==> SessionAttrOk(attrs[i])
    ensures Reaches(v6, st, attrs, st.(d := st.d.(extraAttrs := attrs)))
  {
    hide RunAttrs, LineSafe, KeyOf;
    SessionExtras(v6, st, attrs);
    assert [] + attrs == attrs;
  }

  lemma SessionPart(v6: Ipv6Canon, st: ParserState, d: Desc)
    requires SessionShape(d) && st.app.None?
    requires st.d.bundleMids == st.d.iceOptions == st.d.extraAttrs == []
    requires st.d.fingerprint.None? && !st.d.extmapAllowMixed
    ensures Reaches(v6, st, SessionAttrs(d), st.(d := st.d.(
      bundleMids := SplitWs(Spaced(d.bundleMids)), iceOptions := d.iceOptions,
      extmapAllowMixed := d.extmapAllowMixed, fingerprint := d.fingerprint, extraAttrs := d.extraAttrs)))
  {
    hide Reaches, Token, LineSafe, OptionOk, SessionAttrOk, FingerprintOk, SectionOk, SplitWs, Spaced;
    hide GroupAttrs, OptionsAttrs, FlagAttrs, FingerprintAttrs, Attr;
    var s1 := st.(d := st.d.(bundleMids := SplitWs(Spaced(d.bundleMids))));
    var s2 := s1.(d := s1.d.(iceOptions := d.iceOptions));
    var s3 := s2.(d := s2.d.(extmapAllowMixed := d.extmapAllowMixed));
    var s4 := s3.(d := s3.d.(fingerprint := d.fingerprint));
    var s5 := s4.(d := s4.d.(extraAttrs := d.extraAttrs));
    GroupPart(v6, st, d.bundleMids);
    MsidPart(v6, s1);
    var a := GroupAttrs(d.bundleMids) + [Attr("msid-semantic", "WMS *")];
    ReachesThen(v6, st, GroupAttrs(d.bundleMids), s1, [Attr("msid-semantic", "WMS *")], s1);
    OptionsPart(v6, s1, d.iceOptions);
    ReachesThen(v6, st, a, s1, OptionsAttrs(d.iceOptions), s2);
    var b := a + OptionsAttrs(d.iceOptions);
    ExtmapPart(v6, s2, d.extmapAllowMixed);
    ReachesThen(v6, st, b, s2, FlagAttrs("extmap-allow-mixed", d.extmapAllowMixed), s3);
    var c := b + FlagAttrs("extmap-allow-mixed", d.extmapAllowMixed);
    FingerprintPart(v6, s3, d.fingerprint);
    ReachesThen(v6, st, c, s3, FingerprintAttrs(d.fingerprint), s4);
    ExtrasPart(v6, s4, d.extraAttrs);
    ReachesThen(v6, st, c + FingerprintAttrs(d.fingerprint), s4, d.extraAttrs, s5);
  }

  // ----- the printed attributes of the application section -----

  /** How an attribute known only inside an application section is handled there. */
  lemma ApplicationKeyStep(v6: Ipv6Canon, st: ParserState, key: Key, value: string)
    requires st.app.Some? && IsApplicationKey(key) && key != DirectionKey(UnknownDirection)
    ensures forall app :: StepApplicationKey(st.app.value, key, Attr(KeyName(key), value), value) == Ok(app) ==>
      StepAttr(v6, st, Attr(KeyName(key), value)) == Ok(st.(app := Some(app)))
    ensures forall app :: StepApplicationKey(st.app.value, key, KeyName(key), "") == Ok(app) ==>
      StepAttr(v6, st, KeyName(key)) == Ok(st.(app := Some(app)))
    ensures LineSafe(value) ==> LineSafe(Attr(KeyName(key), value))
  {
    hide KeyOf, StepSessionKey, StepApplicationKey, KeyName;
    KeyOfName(key);
    KeyedAttr(KeyName(key), value);
    BareAttr(KeyName(key));
  }

  lemma MidPart(v6: Ipv6Canon, st: ParserState, mid: string)
    requires st.app.Some? && LineSafe(mid)
    ensures Reaches(v6, st, [Attr("mid", mid)], st.(app := Some(st.app.value.(mid := mid))))
  {
    hide StepAttr, LineSafe;
    ApplicationKeyStep(v6, st, MidKey, mid);
    ReachesOne(v6, st, Attr("mid", mid), st.(app := Some(st.app.value.(mid := mid))));
  }

  lemma DirectionPart(v6: Ipv6Canon, st: ParserState, r: Direction)
    requires st.app.Some? && r != UnknownDirection
    ensures Reaches(v6, st, FlagAttrs(DirectionToken(r), r != UnknownDirection),
                    st.(app := Some(st.app.value.(direction := r))))
  {
    hide StepAttr;
    ApplicationKeyStep(v6, st, DirectionKey(r), "");
    assert LineSafe(DirectionToken(r));
    ReachesOne(v6, st, DirectionToken(r), st.(app := Some(st.app.value.(direction := r))));
  }

  lemma RoleOfToken(r: Role)
    ensures RoleFromSdp(RoleToken(r)) == r && LineSafe(RoleToken(r))
  {
    assert "active"[0] == 'a' && "passive"[0] == 'p' && "actpass"[3] == 'p' && "passive"[3] == 's';
  }

  lemma SetupPart(v6: Ipv6Canon, st: ParserState, r: Role)
    ensures Reaches(v6, st, [Attr("setup", RoleToken(r))], st.(d := st.d.(role := r)))
  {
    hide StepAttr, LineSafe, RoleToken, RoleFromSdp;
    RoleOfToken(r);
    SessionKeyStep(v6, st, Setup, RoleToken(r));
    ReachesOne(v6, st, Attr("setup", RoleToken(r)), st.(d := st.d.(role := r)));
  }

  lemma UfragPart(v6: Ipv6Canon, st: ParserState, value: Option<string>)
    requires TextOk(value) && st.d.iceUfrag.None?
    ensures Reaches(v6, st, OptionAttr("ice-ufrag", value), st.(d := st.d.(iceUfrag := value)))
  {
    hide StepAttr, LineSafe;
    if value.Some? {
      SessionKeyStep(v6, st, IceUfrag, value.value);
      ReachesOne(v6, st, Attr("ice-ufrag", value.value), st.(d := st.d.(iceUfrag := value)));
    }
  }

  lemma PwdPart(v6: Ipv6Canon, st: ParserState, value: Option<string>)
    requires TextOk(value) && st.d.icePwd.None?
    ensures Reaches(v6, st, OptionAttr("ice-pwd", value), st.(d := st.d.(icePwd := value)))
  {
    hide StepAttr, LineSafe;
    if value.Some? {
      SessionKeyStep(v6, st, IcePwd, value.value);
      ReachesOne(v6, st, Attr("ice-pwd", value.value), st.(d := st.d.(icePwd := value)));
    }
  }

  lemma SctpPortPart(v6: Ipv6Canon, st: ParserState, value: Option<nat>)
    requires st.app.Some? && st.app.value.sctpPort.None? && NumberOk(value, U16_MAX)
    ensures Reaches(v6, st, NumberAttr("sctp-port", value), st.(app := Some(st.app.value.(sctpPort := value))))
  {
    hide StepAttr, LineSafe, Decimal, ParseUint;
    if value.Some? {
      ParseUintOfDecimal(value.value, U16_MAX);
      ApplicationKeyStep(v6, st, SctpPort, Decimal(value.value));
      ReachesOne(v6, st, Attr("sctp-port", Decimal(value.value)),
                 st.(app := Some(st.app.value.(sctpPort := value))));
    }
  }

  lemma MaxMessageSizePart(v6: Ipv6Canon, st: ParserState, value: Option<nat>)
    requires st.app.Some? && st.app.value.maxMessageSize.None? && NumberOk(value, USIZE_MAX)
    ensures Reaches(v6, st, NumberAttr("max-message-size", value),
                    st.(app := Some(st.app.value.(maxMessageSize := value))))
  {
    hide StepAttr, LineSafe, Decimal, ParseUint;
    if value.Some? {
      ParseUintOfDecimal(value.value, USIZE_MAX);
      ApplicationKeyStep(v6, st, MaxMessageSize, Decimal(value.value));
      ReachesOne(v6, st, Attr("max-message-size", Decimal(value.value)),
                 st.(app := Some(st.app.value.(maxMessageSize := value))));
    }
  }

  lemma ApplicationExtraStep(v6: Ipv6Canon, st: ParserState, attr: string)
    requires st.app.Some? && ApplicationAttrOk(attr)
    ensures StepAttr(v6, st, attr)
      == Ok(st.(app := Some(st.app.value.(extraAttrs := st.app.value.extraAttrs + [attr]))))
  {
    hide KeyOf, StepSessionKey;
  }

  lemma {:induction false} ApplicationExtras(v6: Ipv6Canon, st: ParserState, attrs: seq<string>)
    requires st.app.Some? && forall i :: 0 <= i < |attrs| ==> ApplicationAttrOk(attrs[i])
    ensures RunAttrs(v6, st, attrs)
      == Ok(st.(app := Some(st.app.value.(extraAttrs := st.app.value.extraAttrs + attrs))))
    decreases |attrs|
  {
    hide StepAttr, ApplicationAttrOk;
    var extra := st.app.value.extraAttrs;
    if attrs == [] {
      assert extra + attrs == extra;
    } else {
      ApplicationExtraStep(v6, st, attrs[0]);
      ApplicationExtras(v6, st.(app := Some(st.app.value.(extraAttrs := extra + [attrs[0]]))), attrs[1..]);
      assert extra + [attrs[0]] + attrs[1..] == extra + attrs;
    }
  }

  lemma ApplicationExtrasPart(v6: Ipv6Canon, st: ParserState, attrs: seq<string>)
    requires st.app.Some? && st.app.value.extraAttrs == []
    requires forall i :: 0 <= i < |attrs| ==> ApplicationAttrOk(attrs[i])
    ensures Reaches(v6, st, attrs, st.(app := Some(st.app.value.(extraAttrs := attrs))))
  {
    hide RunAttrs, LineSafe, KeyOf;
    ApplicationExtras(v6, st, attrs);
    assert [] + attrs == attrs;
  }

  lemma EndPart(v6: Ipv6Canon, st: ParserState, on: bool)
    requires !st.d.ended
    ensures Reaches(v6, st, FlagAttrs("end-of-candidates", on), st.(d := st.d.(ended := on)))
  {
    hide StepAttr;
    if on {
      SessionKeyStep(v6, st, EndOfCandidates, "");
      ReachesOne(v6, st, "end-of-candidates", st.(d := st.d.(ended := true)));
    }
  }

  // ----- candidates -----

  lemma CandidateAttr(v6: Ipv6Canon, c: Candidate)
    requires Readable(v6, c)
    ensures LineSafe(ToSdp(c)) && ToSdp(c) == Attr("candidate", ToSdp(c)[10..])
  {
    var body := Join(Tokens(c), ' ');
    BodyIsJoin(c);
    PrintedAreTokens(v6, c);
    hide Tokens, ToSdp, Readable;
    JoinChars(Tokens(c), ' ', '\n');
    JoinChars(Tokens(c), ' ', '\r');
    hide Join;
    DropPrefix("candidate:", body);
    SafeBody(body);
    assert "candidate" + ":" == "candidate:";
  }

  lemma SafeBody(body: string)
    requires '\n' !in body && '\r' !in body
    ensures LineSafe("candidate:" + body)
  {
    var s := "candidate:" + body;
    assert forall i :: 0 <= i < 10 ==> s[i] == "candidate:"[i];
    assert forall i :: 10 <= i < |s| ==> s[i] == body[i - 10];
  }

  lemma CandidateStep(v6: Ipv6Canon, st: ParserState, c: Candidate, mid: string)
    requires Readable(v6, c) && st.app.Some? && st.app.value.mid == mid
    ensures StepAttr(v6, st, ToSdp(c))
      == Ok(st.(d := st.d.(candidates := Insert(st.d.candidates, Canon(v6, c, mid)))))
  {
    CandidateAttr(v6, c);
    ParseOfPrint(v6, c, mid);
    hide StepAttr, ToSdp, Readable, Attr, Insert, Canon, Candidates.Parse;
    SessionKeyStep(v6, st, CandidateKey, ToSdp(c)[10..]);
  }

  lemma {:induction false} CandidatesPart(v6: Ipv6Canon, st: ParserState, done: seq<Candidate>, cs: seq<Candidate>,
                                          mid: string)
    requires forall i :: 0 <= i < |cs| ==> Readable(v6, cs[i])
    requires st.app.Some? && st.app.value.mid == mid && st.d.candidates == Firsts(done)
    ensures Reaches(v6, st, CandidateAttrs(cs),
                    st.(d := st.d.(candidates := Firsts(done + CanonAll(v6, cs, mid)))))
    decreases |cs|
  {
    hide StepAttr, Readable, ToSdp, LineSafe, Canon, Firsts;
    if cs == [] {
      assert done + CanonAll(v6, cs, mid) == done;
    } else {
      var first := Canon(v6, cs[0], mid);
      assert done + CanonAll(v6, cs, mid) == (done + [first]) + CanonAll(v6, cs[1..], mid);
      InsertIsFirst(done, first);
      var next := st.(d := st.d.(candidates := Firsts(done + [first])));
      CandidateStep(v6, st, cs[0], mid);
      CandidateAttr(v6, cs[0]);
      ReachesOne(v6, st, ToSdp(cs[0]), next);
      CandidatesPart(v6, next, done + [first], cs[1..], mid);
      assert CandidateAttrs(cs) == [ToSdp(cs[0])] + CandidateAttrs(cs[1..]);
      ReachesThen(v6, st, [ToSdp(cs[0])], next, CandidateAttrs(cs[1..]),
                  st.(d := st.d.(candidates := Firsts(done + CanonAll(v6, cs, mid)))));
    }
  }

  lemma {:induction false} MatchingReadable(v6: Ipv6Canon, cs: seq<Candidate>, mid: string)
    requires forall i :: 0 <= i < |cs| ==> Readable(v6, cs[i])
    ensures forall i :: 0 <= i < |Matching(cs, mid)| ==> Readable(v6, Matching(cs, mid)[i])
  {
    hide Readable;
    if cs != [] { MatchingReadable(v6, cs[1..], mid); }
  }

  lemma {:induction false} MatchingPrintable(v6: Ipv6Canon, cs: seq<Candidate>, mid: string)
    requires forall i :: 0 <= i < |cs| ==> Printable(v6, cs[i])
    ensures forall i :: 0 <= i < |Matching(cs, mid)| ==>
      Printable(v6, Matching(cs, mid)[i]) && Matching(cs, mid)[i].Mid() == mid
  {
    hide Printable;
    if cs != [] { MatchingPrintable(v6, cs[1..], mid); }
  }

  // ----- the whole application section -----

  lemma TransportPart(v6: Ipv6Canon, st: ParserState, d: Desc, app: Application)
    requires st.app.Some? && LineSafe(app.mid) && app.direction != UnknownDirection
    requires TextOk(d.iceUfrag) && TextOk(d.icePwd) && st.d.iceUfrag.None? && st.d.icePwd.None?
    ensures Reaches(v6, st, TransportAttrs(d, app),
                    st.(app := Some(st.app.value.(mid := app.mid, direction := app.direction)),
                        d := st.d.(role := d.role, iceUfrag := d.iceUfrag, icePwd := d.icePwd)))
  {
    hide Reaches, LineSafe, Attr, FlagAttrs, OptionAttr, DirectionToken, RoleToken;
    var s1 := st.(app := Some(st.app.value.(mid := app.mid)));
    var s2 := s1.(app := Some(s1.app.value.(direction := app.direction)));
    var s3 := s2.(d := s2.d.(role := d.role));
    var s4 := s3.(d := s3.d.(iceUfrag := d.iceUfrag));
    var s5 := s4.(d := s4.d.(icePwd := d.icePwd));
    var p1 := [Attr("mid", app.mid)];
    var p2 := FlagAttrs(DirectionToken(app.direction), app.direction != UnknownDirection);
    var p3 := [Attr("setup", RoleToken(d.role))];
    var p4 := OptionAttr("ice-ufrag", d.iceUfrag);
    var p5 := OptionAttr("ice-pwd", d.icePwd);
    MidPart(v6, st, app.mid);
    DirectionPart(v6, s1, app.direction);
    SetupPart(v6, s2, d.role);
    UfragPart(v6, s3, d.iceUfrag);
    PwdPart(v6, s4, d.icePwd);
    ReachesThen(v6, st, p1, s1, p2, s2);
    ReachesThen(v6, st, p1 + p2, s2, p3, s3);
    ReachesThen(v6, st, p1 + p2 + p3, s3, p4, s4);
    ReachesThen(v6, st, p1 + p2 + p3 + p4, s4, p5, s5);
  }

  lemma DataPart(v6: Ipv6Canon, st: ParserState, d: Desc, app: Application)
    requires ApplicationShape(d, app) && d.application == Some(app) && CandidatesReadable(v6, d)
    requires d.fingerprint.Some? ==> FingerprintOk(d.fingerprint.value)
    requires st.app.Some? && st.app.value.mid == app.mid && st.sectionIndex == 0
    requires st.app.value.sctpPort.None? && st.app.value.maxMessageSize.None? && st.app.value.extraAttrs == []
    requires st.d.fingerprint == d.fingerprint && st.d.candidates == [] && !st.d.ended
    ensures Reaches(v6, st, DataAttrs(d, app),
                    st.(app := Some(st.app.value.(sctpPort := app.sctpPort, maxMessageSize := app.maxMessageSize,
                                                  extraAttrs := app.extraAttrs)),
                        d := st.d.(candidates := Firsts(Kept(v6, d)),
                                   ended := d.ended)))
  {
    hide Reaches, Readable, ApplicationAttrOk, FingerprintOk, TextOk;
    hide FlagAttrs, NumberAttr, FingerprintAttrs, CandidateAttrs, Matching, Canon, CanonAll;
    var cs := Matching(d.candidates, app.mid);
    MatchingReadable(v6, d.candidates, app.mid);
    var s1 := st.(d := st.d.(fingerprint := d.fingerprint));
    var s2 := s1.(app := Some(s1.app.value.(sctpPort := app.sctpPort)));
    var s3 := s2.(app := Some(s2.app.value.(maxMessageSize := app.maxMessageSize)));
    var s4 := s3.(app := Some(s3.app.value.(extraAttrs := app.extraAttrs)));
    var s5 := s4.(d := s4.d.(candidates := Firsts(Kept(v6, d))));
    var s6 := s5.(d := s5.d.(ended := d.ended));
    var p1 := FingerprintAttrs(d.fingerprint);
    var p2 := NumberAttr("sctp-port", app.sctpPort);
    var p3 := NumberAttr("max-message-size", app.maxMessageSize);
    var p5 := CandidateAttrs(cs);
    var p6 := FlagAttrs("end-of-candidates", d.ended);
    FingerprintPart(v6, st, d.fingerprint);
    SctpPortPart(v6, s1, app.sctpPort);
    MaxMessageSizePart(v6, s2, app.maxMessageSize);
    ApplicationExtrasPart(v6, s3, app.extraAttrs);
    assert [] + CanonAll(v6, cs, app.mid) == Kept(v6, d);
    CandidatesPart(v6, s4, [], cs, app.mid);
    EndPart(v6, s5, d.ended);
    ReachesThen(v6, st, p1, s1, p2, s2);
    ReachesThen(v6, st, p1 + p2, s2, p3, s3);
    ReachesThen(v6, st, p1 + p2 + p3, s3, app.extraAttrs, s4);
    ReachesThen(v6, st, p1 + p2 + p3 + app.extraAttrs, s4, p5, s5);
    ReachesThen(v6, st, p1 + p2 + p3 + app.extraAttrs + p5, s5, p6, s6);
  }

  lemma ApplicationPart(v6: Ipv6Canon, st: ParserState, d: Desc, app: Application)
    requires ApplicationShape(d, app) && d.application == Some(app) && CandidatesReadable(v6, d)
    requires d.fingerprint.Some? ==> FingerprintOk(d.fingerprint.value)
    requires st.app == Some(NewApplication("0")) && st.sectionIndex == 0
    requires st.d.fingerprint == d.fingerprint && st.d.iceUfrag.None? && st.d.icePwd.None?
    requires st.d.candidates == [] && !st.d.ended
    ensures Reaches(v6, st, ApplicationAttrs(d, app),
                    st.(app := Some(app),
                        d := st.d.(role := d.role, iceUfrag := d.iceUfrag, icePwd := d.icePwd,
                                   candidates := Firsts(Kept(v6, d)),
                                   ended := d.ended)))
  {
    hide Reaches, TransportAttrs, DataAttrs, Kept, Firsts;
    var s1 := st.(app := Some(st.app.value.(mid := app.mid, direction := app.direction)),
                  d := st.d.(role := d.role, iceUfrag := d.iceUfrag, icePwd := d.icePwd));
    var s2 := s1.(app := Some(app),
                  d := s1.d.(candidates := Firsts(Kept(v6, d)),
                             ended := d.ended));
    TransportPart(v6, st, d, app);
    DataPart(v6, s1, d, app);
    ReachesThen(v6, st, TransportAttrs(d, app), s1, DataAttrs(d, app), s2);
  }

  // ----- lines -----

  /** A line that the parser ignores outside other media sections. */
  predicate IgnoredLine(line: string) {
    line != "" && LineSafe(line) && line[0] != 'm' && line[0] != 'o' && line[0] != 'a'
  }

  lemma IgnoredStep(v6: Ipv6Canon, st: ParserState, line: string)
    requires IgnoredLine(line) && st.kind != InOther
    ensures Step(v6, st, line) == Ok(st)
  {
    hide StepAttr;
    TrimEolOfSafe(line);
  }

  lemma FixedLines()
    ensures IgnoredLine("v=0") && IgnoredLine("s=-") && IgnoredLine("t=0 0") && IgnoredLine(CONNECTION_LINE)
  {}

  function OriginText(d: Desc): string {
    d.username + (" " + (d.sessionId + (" " + (d.sessionVersion + " IN IP4 127.0.0.1"))))
  }

  lemma OriginTokens(d: Desc)
    requires Token(d.username) && Token(d.sessionId) && Token(d.sessionVersion)
    ensures var ts := SplitWs(OriginText(d));
      |ts| >= 3 && ts[0] == d.username && ts[1] == d.sessionId && ts[2] == d.sessionVersion
  {
    hide Token, SplitWs, TokenLen;
    var end := " IN IP4 127.0.0.1";
    var r1 := d.sessionVersion + end;
    var r2 := d.sessionId + (" " + r1);
    SplitWsToken(d.sessionVersion, end);
    SplitWsSpace(r1);
    SplitWsToken(d.sessionId, " " + r1);
    SplitWsSpace(r2);
    SplitWsToken(d.username, " " + r2);
  }

  lemma OriginLine(d: Desc)
    requires Token(d.username) && Token(d.sessionId) && Token(d.sessionVersion)
    ensures HeaderLines(d)[1] == "o=" + OriginText(d) && LineSafe("o=" + OriginText(d))
  {
    var end := " IN IP4 127.0.0.1";
    Assoc("o=" + d.username + " " + d.sessionId + " ", d.sessionVersion, end);
    Assoc("o=" + d.username + " " + d.sessionId, " ", d.sessionVersion + end);
    Assoc("o=" + d.username + " ", d.sessionId, " " + (d.sessionVersion + end));
    Assoc("o=" + d.username, " ", d.sessionId + (" " + (d.sessionVersion + end)));
    Assoc("o=", d.username, " " + (d.sessionId + (" " + (d.sessionVersion + end))));
    OriginSafe(d);
  }

  lemma OriginSafe(d: Desc)
    requires Token(d.username) && Token(d.sessionId) && Token(d.sessionVersion)
    ensures LineSafe("o=" + OriginText(d))
  {
    var end := " IN IP4 127.0.0.1";
    assert LineSafe(end) && end != "";
    assert LineSafe(d.sessionVersion + end);
    assert LineSafe(" " + (d.sessionVersion + end));
    assert LineSafe(d.sessionId + (" " + (d.sessionVersion + end)));
    assert LineSafe(" " + (d.sessionId + (" " + (d.sessionVersion + end))));
    assert LineSafe(OriginText(d));
  }

  lemma OriginStep(v6: Ipv6Canon, st: ParserState, d: Desc)
    requires Token(d.username) && Token(d.sessionId) && Token(d.sessionVersion)
    ensures Step(v6, st, "o=" + OriginText(d)) == Ok(st.(d := st.d.(
      username := d.username, sessionId := d.sessionId, sessionVersion := d.sessionVersion)))
  {
    hide StepAttr, SplitWs, Token, OriginText, StepMedia, StepOther;
    OriginSafe(d);
    OriginTokens(d);
    TrimEolOfSafe("o=" + OriginText(d));
    DropPrefix("o=", OriginText(d));
    assert ("o=" + OriginText(d))[0] == 'o';
  }

  lemma RunOne(v6: Ipv6Canon, st: ParserState, line: string)
    ensures Run(v6, st, [line]) == Step(v6, st, line)
  {
    hide Step;
  }

  lemma RunTwo(v6: Ipv6Canon, st: ParserState, a: string, b: string)
    ensures Run(v6, st, [a, b]) == match Step(v6, st, a) case Err(e) => Err(e) case Ok(next) => Step(v6, next, b)
  {
    hide Step;
    RunAppend(v6, st, [a], [b]);
    assert [a] + [b] == [a, b];
    RunOne(v6, st, a);
    if Step(v6, st, a).Ok? { RunOne(v6, Step(v6, st, a).value, b); }
  }

  lemma HeaderRun(v6: Ipv6Canon, st: ParserState, d: Desc)
    requires Token(d.username) && Token(d.sessionId) && Token(d.sessionVersion)
    requires st.kind != InOther
    ensures Run(v6, st, HeaderLines(d)) == Ok(st.(d := st.d.(
      username := d.username, sessionId := d.sessionId, sessionVersion := d.sessionVersion)))
    ensures forall i :: 0 <= i < |HeaderLines(d)| ==> LineSafe(HeaderLines(d)[i])
  {
    var h := HeaderLines(d);
    OriginLine(d);
    FixedLines();
    hide Step, Token, LineSafe, OriginText, HeaderLines;
    assert |h| == 4 && h[0] == "v=0" && h[2] == "s=-" && h[3] == "t=0 0" by { HeaderShape(d); }
    var next := st.(d := st.d.(
      username := d.username, sessionId := d.sessionId, sessionVersion := d.sessionVersion));
    IgnoredStep(v6, st, h[0]);
    OriginStep(v6, st, d);
    IgnoredStep(v6, next, h[2]);
    IgnoredStep(v6, next, h[3]);
    RunTwo(v6, st, h[0], h[1]);
    RunTwo(v6, next, h[2], h[3]);
    assert h == [h[0], h[1]] + [h[2], h[3]];
    RunAppend(v6, st, [h[0], h[1]], [h[2], h[3]]);
  }

  lemma HeaderShape(d: Desc)
    ensures |HeaderLines(d)| == 4 && HeaderLines(d)[0] == "v=0" && HeaderLines(d)[2] == "s=-"
      && HeaderLines(d)[3] == "t=0 0"
  {}

  lemma MediaSafe()
    ensures Token("application") && LineSafe("m=" + ("application" + " 9 UDP/DTLS/SCTP webrtc-datachannel"))
  {
    assert LineSafe(" 9 UDP/DTLS/SCTP webrtc-datachannel");
    SafeAfter("application", " 9 UDP/DTLS/SCTP webrtc-datachannel");
    SafeAfter("m=", "application" + " 9 UDP/DTLS/SCTP webrtc-datachannel");
  }

  lemma MediaIsApplication()
    ensures LineSafe(MEDIA_LINE) && MediaType(MEDIA_LINE[2..]) == "application" && "m=" <= MEDIA_LINE
  {
    hide SplitWs, Token, LineSafe;
    var rest := " 9 UDP/DTLS/SCTP webrtc-datachannel";
    MediaSafe();
    SplitWsToken("application", rest);
    DropPrefix("m=", "application" + rest);
  }

  lemma MediaOpens(v6: Ipv6Canon, st: ParserState)
    ensures Step(v6, st, MEDIA_LINE)
      == Ok(Flush(st).(kind := InApplication, app := Some(NewApplication(Decimal(st.sectionIndex + 1))),
                       sectionIndex := st.sectionIndex + 1))
  {
    hide StepAttr, StepOther, StepOrigin, MediaType, Decimal;
    MediaIsApplication();
    TrimEolOfSafe(MEDIA_LINE);
  }

  lemma MediaStep(v6: Ipv6Canon, st: ParserState)
    requires st.kind == NoSection && st.sectionIndex == -1
    ensures Step(v6, st, MEDIA_LINE)
      == Ok(st.(kind := InApplication, app := Some(NewApplication("0")), sectionIndex := 0))
  {
    assert Decimal(0) == "0";
    hide Step, Decimal;
    MediaOpens(v6, st);
  }

  // ----- other media sections -----

  lemma {:induction false} CopyRun(v6: Ipv6Canon, st: ParserState, lines: seq<string>)
    requires st.kind == InOther && forall i :: 0 <= i < |lines| ==> CopiedLine(lines[i])
    ensures Run(v6, st, lines) == Ok(st.(
      other := st.other + JoinEol(lines, "\r\n"), otherMid := NotedMid(st.otherMid, lines)))
    decreases |lines|
  {
    if lines == [] {
      assert st.other + "" == st.other;
    } else {
      CopyStep(v6, st, lines[0]);
      hide Step, CopiedLine;
      var next := StepOther(st, lines[0]);
      CopyRun(v6, next, lines[1..]);
      Assoc(st.other, lines[0], "\r\n");
      Assoc(st.other, lines[0] + "\r\n", JoinEol(lines[1..], "\r\n"));
    }
  }

  lemma CopyStep(v6: Ipv6Canon, st: ParserState, line: string)
    requires st.kind == InOther && CopiedLine(line)
    ensures Step(v6, st, line) == Ok(StepOther(st, line)) && StepOther(st, line).kind == InOther
  {
    hide StepAttr, StepMedia, StepOrigin;
    TrimEolOfSafe(line);
  }

  lemma OtherMediaStep(v6: Ipv6Canon, st: ParserState, line: string)
    requires LineSafe(line) && "m=" <= line && MediaType(line[2..]) != "application"
    ensures Step(v6, st, line) == Ok(Flush(st).(
      kind := InOther, other := line + "\r\n", otherMid := None, sectionIndex := st.sectionIndex + 1))
  {
    hide StepAttr, StepOther, StepOrigin, MediaType;
    TrimEolOfSafe(line);
  }

  /** Running a stored section's lines and flushing appends the section as it
      was, and its mid to the bundle group. */
  lemma SectionRun(v6: Ipv6Canon, st: ParserState, lines: seq<string>)
    requires SectionLinesOk(lines)
    ensures Run(v6, st, lines).Ok?
    ensures Flush(Run(v6, st, lines).value).d == Flush(st).d.(
      otherSections := Flush(st).d.otherSections + [JoinEol(lines, "\r\n")],
      bundleMids := AddNoted(Flush(st).d.bundleMids, NotedMid(None, lines[1..])))
  {
    OtherMediaStep(v6, st, lines[0]);
    hide Step, CopiedLine, LineSafe, MediaType, NotedMid;
    var f := Flush(st);
    var start := f.(kind := InOther, other := lines[0] + "\r\n", otherMid := None,
                     sectionIndex := st.sectionIndex + 1);
    CopyRun(v6, start, lines[1..]);
    assert JoinEol(lines, "\r\n") == lines[0] + "\r\n" + JoinEol(lines[1..], "\r\n");
  }

  /** The flushed description with sections appended. */
  function WithSections(d: Desc, sections: seq<string>): Desc {
    d.(otherSections := d.otherSections + sections, bundleMids := AddMids(d.bundleMids, NotedMids(sections)))
  }

  lemma StoredSectionRun(v6: Ipv6Canon, st: ParserState, section: string)
    requires SectionOk(section)
    ensures Run(v6, st, Lines(section)).Ok?
    ensures Flush(Run(v6, st, Lines(section)).value).d == Flush(st).d.(
      otherSections := Flush(st).d.otherSections + [section],
      bundleMids := AddMids(Flush(st).d.bundleMids, NotedMids([section])))
  {
    assert Lines(section) != [];
    hide Step, Flush, SectionLinesOk, NotedMid, AddMid;
    SectionRun(v6, st, Lines(section));
    OneSection(Flush(st).d.bundleMids, section);
  }

  lemma OneSection(mids: seq<string>, section: string)
    ensures AddMids(mids, NotedMids([section])) == AddNoted(mids, StoredMid(section))
  {
    hide StoredMid;
    assert [section][1..] == [];
    assert NotedMids([section]) == if StoredMid(section).Some? then [StoredMid(section).value] else [];
    if StoredMid(section).Some? { assert [StoredMid(section).value][1..] == []; }
  }

  lemma StoredSectionLines(section: string, rest: string)
    requires SectionOk(section)
    ensures Lines(section + rest) == Lines(section) + Lines(rest)
  {
    hide Lines, JoinEol;
    SectionLinesSafe(Lines(section));
    LinesOfJoin(Lines(section), "\r\n", rest);
  }

  lemma {:induction false} SectionsRun(v6: Ipv6Canon, st: ParserState, sections: seq<string>)
    requires forall i :: 0 <= i < |sections| ==> SectionOk(sections[i])
    ensures Run(v6, st, Lines(Concat(sections))).Ok?
    ensures Flush(Run(v6, st, Lines(Concat(sections))).value).d == WithSections(Flush(st).d, sections)
    decreases |sections|
  {
    hide Step, Flush, SectionOk, StoredMid, AddMid;
    var others := Flush(st).d.otherSections;
    if sections == [] {
      assert others + sections == others;
    } else {
      hide Run, Lines;
      var rest := Concat(sections[1..]);
      StoredSectionRun(v6, st, sections[0]);
      StoredSectionLines(sections[0], rest);
      RunAppend(v6, st, Lines(sections[0]), Lines(rest));
      SectionsRun(v6, Run(v6, st, Lines(sections[0])).value, sections[1..]);
      Assoc(others, [sections[0]], sections[1..]);
      MidsOfSections(Flush(st).d.bundleMids, sections);
      HeadTail(sections);
    }
  }

  lemma {:induction false} AddMidsSum(mids: seq<string>, a: seq<string>, b: seq<string>)
    ensures AddMids(mids, a + b) == AddMids(AddMids(mids, a), b)
    decreases |a|
  {
    if a == [] {
      assert a + b == b;
    } else {
      TailOfSum(a, b);
      AddMidsSum(AddMid(mids, a[0]), a[1..], b);
    }
  }

  lemma MidsOfSections(mids: seq<string>, sections: seq<string>)
    requires sections != []
    ensures AddMids(mids, NotedMids(sections))
      == AddMids(AddMids(mids, NotedMids([sections[0]])), NotedMids(sections[1..]))
  {
    hide StoredMid, AddMids;
    var one := [sections[0]];
    assert one[1..] == [] && NotedMids(one[1..]) == [];
    assert NotedMids(sections) == NotedMids(one) + NotedMids(sections[1..]);
    AddMidsSum(mids, NotedMids(one), NotedMids(sections[1..]));
  }

  lemma SectionLinesSafe(lines: seq<string>)
    requires SectionLinesOk(lines)
    ensures forall i :: 0 <= i < |lines| ==> LineSafe(lines[i])
  {
    assert forall i :: 1 <= i < |lines| ==> CopiedLine(lines[i]);
  }

  // ----- the round trip -----

  /** The description that the header and the session attributes build. */
  function AfterSession(start: Desc, d: Desc): Desc {
    start.(username := d.username, sessionId := d.sessionId, sessionVersion := d.sessionVersion,
           bundleMids := SplitWs(Spaced(d.bundleMids)), iceOptions := d.iceOptions,
           extmapAllowMixed := d.extmapAllowMixed, fingerprint := d.fingerprint, extraAttrs := d.extraAttrs)
  }

  lemma SessionRun(v6: Ipv6Canon, sessionId: string, d: Desc)
    requires SessionShape(d)
    ensures var start := NewDesc(Unspec, ActPass, sessionId);
      Run(v6, InitialState(start), HeaderLines(d) + AttrLines(SessionAttrs(d)))
        == Ok(InitialState(AfterSession(start, d)))
    ensures forall i :: 0 <= i < |HeaderLines(d) + AttrLines(SessionAttrs(d))| ==>
      LineSafe((HeaderLines(d) + AttrLines(SessionAttrs(d)))[i])
  {
    var s0 := InitialState(NewDesc(Unspec, ActPass, sessionId));
    var s1 := s0.(d := s0.d.(
      username := d.username, sessionId := d.sessionId, sessionVersion := d.sessionVersion));
    HeaderRun(v6, s0, d);
    SessionPart(v6, s1, d);
    hide Run, RunAttrs, SessionShape, HeaderLines, AttrLines, SessionAttrs, LineSafe, SplitWs;
    AttrLinesSafe(SessionAttrs(d));
    RunAttrLines(v6, s1, SessionAttrs(d));
    RunAppend(v6, s0, HeaderLines(d), AttrLines(SessionAttrs(d)));
  }

  /** The description that the application section adds, once it is flushed. */
  function AfterApplication(v6: Ipv6Canon, b: Desc, d: Desc): Desc {
    if d.application.None? then b
    else
      var mid := d.application.value.mid;
      b.(role := d.role, iceUfrag := d.iceUfrag, icePwd := d.icePwd, application := d.application,
         candidates := Firsts(Kept(v6, d)), ended := d.ended,
         bundleMids := AddMid(b.bundleMids, mid))
  }

  lemma OpenApplication(v6: Ipv6Canon, st: ParserState)
    requires st.kind == NoSection && st.sectionIndex == -1
    ensures Run(v6, st, [MEDIA_LINE, CONNECTION_LINE])
      == Ok(st.(kind := InApplication, app := Some(NewApplication("0")), sectionIndex := 0))
    ensures LineSafe(MEDIA_LINE) && LineSafe(CONNECTION_LINE)
  {
    hide Run, Step, IgnoredLine, MediaType;
    FixedLines();
    MediaStep(v6, st);
    IgnoredStep(v6, st.(kind := InApplication, app := Some(NewApplication("0")), sectionIndex := 0), CONNECTION_LINE);
    RunTwo(v6, st, MEDIA_LINE, CONNECTION_LINE);
    MediaIsApplication();
    assert LineSafe(CONNECTION_LINE) by { ConnectionSafe(); }
  }

  lemma ConnectionSafe()
    ensures LineSafe(CONNECTION_LINE)
  {}

  lemma ApplicationRun(v6: Ipv6Canon, st: ParserState, d: Desc, app: Application)
    requires d.application == Some(app) && ApplicationShape(d, app) && CandidatesReadable(v6, d)
    requires d.fingerprint.Some? ==> FingerprintOk(d.fingerprint.value)
    requires st == InitialState(st.d) && st.d.fingerprint == d.fingerprint
    requires st.d.iceUfrag.None? && st.d.icePwd.None? && st.d.candidates == [] && !st.d.ended
    ensures Run(v6, st, ApplicationLines(d)).Ok?
    ensures Flush(Run(v6, st, ApplicationLines(d)).value).d == AfterApplication(v6, st.d, d)
    ensures forall i :: 0 <= i < |ApplicationLines(d)| ==> LineSafe(ApplicationLines(d)[i])
  {
    hide Run, RunAttrs, Step, AttrLines, ApplicationAttrs, LineSafe, FingerprintOk, ApplicationShape;
    hide Kept, Firsts, CandidatesReadable, AddMid;
    var attrs := ApplicationAttrs(d, app);
    var s1 := st.(kind := InApplication, app := Some(NewApplication("0")), sectionIndex := 0);
    OpenApplication(v6, st);
    ApplicationPart(v6, s1, d, app);
    AttrLinesSafe(attrs);
    RunAttrLines(v6, s1, attrs);
    RunAppend(v6, st, [MEDIA_LINE, CONNECTION_LINE], AttrLines(attrs));
  }

  lemma RunNone(v6: Ipv6Canon, st: ParserState)
    ensures Run(v6, st, []) == Ok(st)
  {}

  /** Running the printed lines, up to the stored sections. */
  lemma PrintedRun(v6: Ipv6Canon, sessionId: string, d: Desc)
    requires Shape(d) && CandidatesReadable(v6, d)
    ensures var start := NewDesc(Unspec, ActPass, sessionId);
      var run := Run(v6, InitialState(start), PrintedLines(d));
      run.Ok? && Flush(run.value).d == AfterApplication(v6, AfterSession(start, d), d)
    ensures forall i :: 0 <= i < |PrintedLines(d)| ==> LineSafe(PrintedLines(d)[i])
  {
    var start := NewDesc(Unspec, ActPass, sessionId);
    var head := HeaderLines(d) + AttrLines(SessionAttrs(d));
    SessionRun(v6, sessionId, d);
    var s1 := InitialState(AfterSession(start, d));
    if d.application.Some? {
      hide ApplicationShape, CandidatesReadable;
      ApplicationRun(v6, s1, d, d.application.value);
    }
    hide Run, HeaderLines, AttrLines, SessionAttrs, LineSafe, Shape, SessionShape;
    RunAppend(v6, InitialState(start), head, ApplicationLines(d));
    if d.application.None? {
      assert ApplicationLines(d) == [];
      RunNone(v6, s1);
    }
  }

  lemma SectionsAreOk(v6: Ipv6Canon, d: Desc)
    requires Shape(d)
    ensures forall i :: 0 <= i < |d.otherSections| ==> SectionOk(d.otherSections[i])
  {}

  lemma SectionsAdd(v6: Ipv6Canon, start: Desc, d: Desc)
    requires start.otherSections == [] && start.typ == Unspec && start.role == ActPass && start.application == None
    requires start.iceUfrag == None && start.icePwd == None && start.candidates == [] && !start.ended
    ensures WithSections(AfterApplication(v6, AfterSession(start, d), d), d.otherSections) == Reparsed(v6, d)
  {
    hide Kept, Firsts, NotedMids, SplitWs, Spaced;
    var printed := SplitWs(Spaced(d.bundleMids));
    assert [] + d.otherSections == d.otherSections;
    if d.application.Some? {
      var own := [d.application.value.mid];
      AddMidsSum(printed, own, NotedMids(d.otherSections));
      assert own[1..] == [];
      assert AddMids(printed, own) == AddMid(printed, own[0]);
    } else {
      assert [] + NotedMids(d.otherSections) == NotedMids(d.otherSections);
      assert Firsts([]) == [] by { FirstsNoLonger([]); }
      assert Kept(v6, d) == [] by { KeptNone(v6, d); }
    }
  }

  lemma KeptNone(v6: Ipv6Canon, d: Desc)
    requires d.application.None?
    ensures Kept(v6, d) == []
  {}

  /** What parsing a printed description gives, whatever its mids and candidates are. */
  lemma ParsePrinted(v6: Ipv6Canon, sessionId: string, d: Desc, eol: string)
    requires Shape(d) && CandidatesReadable(v6, d) && IsEol(eol)
    ensures Sdp.Parse(v6, sessionId, Print(d, eol)) == Ok(Reparsed(v6, d))
  {
    var start := NewDesc(Unspec, ActPass, sessionId);
    PrintedRun(v6, sessionId, d);
    SectionsAreOk(v6, d);
    hide Run, PrintedLines, LineSafe, Shape, Flush, SectionOk, Lines, WithSections, AfterApplication, AfterSession;
    hide Reparsed;
    var s2 := Run(v6, InitialState(start), PrintedLines(d)).value;
    SectionsRun(v6, s2, d.otherSections);
    var rest := Concat(d.otherSections);
    LinesOfJoin(PrintedLines(d), eol, rest);
    RunAppend(v6, InitialState(start), PrintedLines(d), Lines(rest));
    SectionsAdd(v6, start, d);
  }

  // ----- the bundle group -----

  lemma {:induction false} SpacedSum(a: seq<string>, b: seq<string>)
    ensures Spaced(a + b) == Spaced(a) + Spaced(b)
  {
    if a == [] {
      assert a + b == b;
    } else {
      TailOfSum(a, b);
      SpacedSum(a[1..], b);
    }
  }

  lemma TokensOfSum(a: seq<string>, b: seq<string>)
    ensures SplitWs(Spaced(a + b)) == SplitWs(Spaced(a)) + SplitWs(Spaced(b))
  {
    SpacedSum(a, b);
    SplitWsSum(Spaced(a), Spaced(b));
  }

  /** Only blank mids leave no token. */
  lemma {:induction false} TokensOfBlanks(mids: seq<string>)
    ensures SplitWs(Spaced(mids)) == [] <==> forall i :: 0 <= i < |mids| ==> Blank(mids[i])
  {
    if mids != [] {
      var one, rest := [mids[0]], mids[1..];
      TokensOfBlanks(rest);
      TokensOfSum(one, rest);
      assert one + rest == mids;
      assert Spaced(one) == " " + mids[0] by { assert one[1..] == []; }
      SplitWsSpace(mids[0]);
      hide SplitWs, Spaced;
      if forall i :: 0 <= i < |rest| ==> Blank(rest[i]) {
        assert forall i :: 1 <= i < |mids| ==> mids[i] == rest[i - 1];
      } else {
        var i :| 0 <= i < |rest| && !Blank(rest[i]);
        assert mids[i + 1] == rest[i];
      }
    }
  }

  lemma {:induction false} AddMidsGrows(mids: seq<string>, more: seq<string>)
    ensures mids <= AddMids(mids, more)
    ensures forall m :: m in AddMids(mids, more) <==> m in mids || m in more
    decreases |more|
  {
    if more != [] {
      AddMidsGrows(AddMid(mids, more[0]), more[1..]);
      HeadTail(more);
    }
  }

  lemma TokenIsNotBlank(mid: string)
    requires Token(mid)
    ensures !Blank(mid)
  {
    SplitWsToken(mid, "");
    assert mid + "" == mid;
  }

  /** To a group of tokens that names every other mid, the blank ones are added in order. */
  lemma {:induction false} AddBlanks(mids: seq<string>, more: seq<string>)
    requires AllTokens(mids) && forall i :: 0 <= i < |more| ==> Blank(more[i]) || more[i] in mids
    ensures AddMids(mids, more) == mids + Blanks(more)
  {
    hide Blank, Token;
    if more == [] {
      assert mids + [] == mids;
    } else {
      var front, last := more[..|more| - 1], more[|more| - 1];
      AddBlanks(mids, front);
      AddMidsSum(mids, front, [last]);
      assert front + [last] == more && [last][1..] == [];
      forall m | m in mids ensures !Blank(m) { TokenIsNotBlank(m); }
      Assoc(mids, Blanks(front), [last]);
    }
  }

  lemma {:induction false} NotedBundled(sections: seq<string>, mids: seq<string>)
    ensures (forall m :: m in NotedMids(sections) ==> m in mids) <==>
      forall i :: 0 <= i < |sections| ==> StoredMid(sections[i]).Some? ==> StoredMid(sections[i]).value in mids
    decreases |sections|
  {
    hide StoredMid;
    if sections != [] {
      NotedBundled(sections[1..], mids);
      assert forall i :: 1 <= i < |sections| ==> sections[i] == sections[1..][i - 1];
    }
  }

  lemma OwnBundled(d: Desc)
    ensures Bundled(d) <==> forall m :: m in OwnMids(d) ==> m in d.bundleMids
  {
    hide StoredMid, NotedMids;
    NotedBundled(d.otherSections, d.bundleMids);
    if d.application.Some? {
      assert forall m :: m in OwnMids(d) <==> m == d.application.value.mid || m in NotedMids(d.otherSections);
    } else {
      assert OwnMids(d) == NotedMids(d.otherSections);
    }
  }

  lemma MidsOfReturned(d: Desc)
    requires MidsReturn(d)
    ensures Rebundled(d) == d.bundleMids
  {
    OwnBundled(d);
    hide Blank, SplitWs, Spaced, OwnMids, Bundled;
    var own := OwnMids(d);
    var blanks := Blanks(own);
    var tokens := d.bundleMids[..|d.bundleMids| - |blanks|];
    assert d.bundleMids == tokens + blanks;
    TokensOfSum(tokens, blanks);
    SplitWsSpaced(tokens);
    forall i | 0 <= i < |blanks| ensures Blank(blanks[i]) { assert blanks[i] in blanks; }
    TokensOfBlanks(blanks);
    assert tokens + [] == tokens;
    OwnSplit(tokens, blanks, own);
    AddBlanks(tokens, own);
  }

  lemma RestIsBlank(tokens: seq<string>, rest: seq<string>)
    requires AllTokens(tokens) && SplitWs(Spaced(tokens + rest)) == tokens
    ensures forall i :: 0 <= i < |rest| ==> Blank(rest[i])
  {
    hide Blank, SplitWs, Spaced, Token;
    TokensOfSum(tokens, rest);
    SplitWsSpaced(tokens);
    assert |SplitWs(Spaced(rest))| == 0;
    TokensOfBlanks(rest);
  }

  lemma ReturnedMids(d: Desc)
    requires Rebundled(d) == d.bundleMids
    ensures MidsReturn(d)
  {
    var own := OwnMids(d);
    var tokens := SplitWs(Spaced(d.bundleMids));
    OwnBundled(d);
    AddMidsGrows(tokens, own);
    hide Blank, SplitWs, Spaced, OwnMids, Token, Blanks, Bundled, AddMids;
    var rest := d.bundleMids[|tokens|..];
    assert d.bundleMids == tokens + rest;
    RestIsBlank(tokens, rest);
    OwnSplit(tokens, rest, own);
    assert AllTokens(tokens);
    AddBlanks(tokens, own);
    assert d.bundleMids[..|tokens|] == tokens && rest == Blanks(own);
  }

  lemma OwnSplit(tokens: seq<string>, rest: seq<string>, own: seq<string>)
    requires forall m :: m in own ==> m in tokens + rest
    requires forall i :: 0 <= i < |rest| ==> Blank(rest[i])
    ensures forall i :: 0 <= i < |own| ==> Blank(own[i]) || own[i] in tokens
  {
    hide Blank;
    forall i | 0 <= i < |own| ensures Blank(own[i]) || own[i] in tokens {
      assert own[i] in own;
    }
  }

  /** The bundle group comes back exactly if it names every section and is made of
      tokens, followed by the sections' blank mids in section order. */
  lemma BundleSurvives(d: Desc)
    ensures Rebundled(d) == d.bundleMids <==> MidsReturn(d)
  {
    if MidsReturn(d) { MidsOfReturned(d); }
    if Rebundled(d) == d.bundleMids { ReturnedMids(d); }
  }

  /** Where no mid in the group is blank, that means tokens that name every section. */
  lemma NamedMidsReturn(d: Desc)
    requires forall i :: 0 <= i < |d.bundleMids| ==> !Blank(d.bundleMids[i])
    ensures MidsReturn(d) <==> Bundled(d) && TokenMids(d)
  {
    hide Blank, OwnMids, Token, Bundled;
    OwnBundled(d);
    if Bundled(d) { NoBlanks(OwnMids(d), d.bundleMids); }
    assert d.bundleMids[..|d.bundleMids|] == d.bundleMids;
  }

  lemma {:induction false} NoBlanks(own: seq<string>, mids: seq<string>)
    requires forall i :: 0 <= i < |own| ==> own[i] in mids
    requires forall i :: 0 <= i < |mids| ==> !Blank(mids[i])
    ensures Blanks(own) == []
  {
    hide Blank;
    if own != [] {
      NoBlanks(own[..|own| - 1], mids);
      assert own[|own| - 1] in mids;
    }
  }

  lemma TokenMidsReturn(d: Desc)
    requires TokenMids(d)
    ensures MidsReturn(d) <==> Bundled(d)
  {
    forall i | 0 <= i < |d.bundleMids| ensures !Blank(d.bundleMids[i]) { TokenIsNotBlank(d.bundleMids[i]); }
    NamedMidsReturn(d);
  }

  /** The round trip: for every well-formed description and either end of line,
      parsing the printed text gives back what printing keeps of it. */
  lemma PrintThenParse(v6: Ipv6Canon, sessionId: string, d: Desc, eol: string)
    requires WellFormed(v6, d) && CandidatesPrintable(v6, d) && IsEol(eol)
    ensures Sdp.Parse(v6, sessionId, Print(d, eol)) == Ok(Normal(v6, d))
  {
    PrintableIsReadable(v6, d);
    hide Shape, MidsReturn, Print, Sdp.Parse, CandidatesPrintable, CandidatesReadable, Rebundled, Kept;
    ParsePrinted(v6, sessionId, d, eol);
    BundleSurvives(d);
    FirstsOfDistinct(Kept(v6, d));
    NormalKeeps(v6, d);
    hide Normal, StayDistinct;
  }

  lemma PrintableIsReadable(v6: Ipv6Canon, d: Desc)
    requires CandidatesPrintable(v6, d)
    ensures CandidatesReadable(v6, d)
  {}

  lemma NormalKeeps(v6: Ipv6Canon, d: Desc)
    ensures Normal(v6, d).bundleMids == d.bundleMids && Normal(v6, d).candidates == Kept(v6, d)
  {}
}
