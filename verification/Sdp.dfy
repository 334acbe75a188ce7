/** Session descriptions as values: what the printer writes and what the
    line-driven parser computes. The object that the repository updates in
    place, with its loops, is in Description.dfy and is proved against these. */
module Sdp {
  import opened Text
  import opened Ip
  import opened Fingerprints
  import opened Candidates

  datatype SdpType = Unspec | Offer | Answer | Pranswer | Rollback

  datatype Role = ActPass | Passive | Active

  datatype Direction = UnknownDirection | SendOnly | RecvOnly | SendRecv | Inactive

  datatype Application = Application(
    mid: string,
    sctpPort: Option<nat>,
    maxMessageSize: Option<nat>,
    extraAttrs: seq<string>,
    direction: Direction)

  function NewApplication(mid: string): Application {
    Application(mid, None, None, [], SendRecv)
  }

  datatype Desc = Desc(
    typ: SdpType,
    role: Role,
    username: string,
    sessionId: string,
    sessionVersion: string,
    bundleMids: seq<string>,
    iceUfrag: Option<string>,
    icePwd: Option<string>,
    iceOptions: seq<string>,
    fingerprint: Option<Fingerprint>,
    extmapAllowMixed: bool,
    extraAttrs: seq<string>,
    application: Option<Application>,
    otherSections: seq<string>,
    candidates: seq<Candidate>,
    ended: bool)

  /** A new description; the random session id is a parameter. */
  function NewDesc(typ: SdpType, role: Role, sessionId: string): Desc {
    Desc(typ, role, "rtc", sessionId, "0", [], None, None, [], None, false, [], None, [], [], false)
  }

  // ----- building -----

  function BundleMid(d: Desc): string {
    if d.application.Some? then d.application.value.mid
    else if d.bundleMids != [] then d.bundleMids[0]
    else "0"
  }

  function Without(mids: seq<string>, mid: string): (r: seq<string>)
    ensures mid !in r
    ensures forall m :: m in r <==> m in mids && m != mid
  {
    if mids == [] then []
    else
      assert forall m :: m in mids <==> m == mids[0] || m in mids[1..];
      if mids[0] == mid then Without(mids[1..], mid) else [mids[0]] + Without(mids[1..], mid)
  }

  /** Appends a mid unless it is there. */
  function AddMid(mids: seq<string>, mid: string): seq<string> {
    if mid in mids then mids else mids + [mid]
  }

  function SetApplication(d: Desc, app: Application): Desc {
    var kept := if d.application.Some? then Without(d.bundleMids, d.application.value.mid) else d.bundleMids;
    d.(bundleMids := if app.mid in kept then kept else [app.mid] + kept, application := Some(app))
  }

  function ApplicationOrCreate(d: Desc, mid: string): Desc {
    if d.application.None? then SetApplication(d, NewApplication(mid)) else d
  }

  predicate Has(cs: seq<Candidate>, c: Candidate) {
    exists i :: 0 <= i < |cs| && Same(cs[i], c)
  }

  /** Appends a candidate unless an equal one (foundation, node, service) is there. */
  function Insert(cs: seq<Candidate>, c: Candidate): seq<Candidate> {
    if Has(cs, c) then cs else cs + [c]
  }

  function AddCandidate(d: Desc, c: Candidate): Desc {
    d.(candidates := Insert(d.candidates, c.HintMid(BundleMid(d))))
  }

  function AddIceOption(d: Desc, option: string): Desc {
    if option in d.iceOptions then d else d.(iceOptions := d.iceOptions + [option])
  }

  function SetFingerprint(d: Desc, fp: Fingerprint): Desc {
    d.(fingerprint := Some(fp.(value := Upper(fp.value))))
  }

  // ----- printing -----

  function RoleToken(r: Role): string {
    match r case Active => "active" case Passive => "passive" case ActPass => "actpass"
  }

  function DirectionToken(r: Direction): string {
    match r
    case RecvOnly => "recvonly"
    case SendOnly => "sendonly"
    case SendRecv => "sendrecv"
    case Inactive => "inactive"
    case UnknownDirection => "unknown"
  }

  /** Each item after a space. */
  function Spaced(items: seq<string>): string {
    if items == [] then "" else " " + items[0] + Spaced(items[1..])
  }

  function AttrLines(attrs: seq<string>): seq<string> {
    seq(|attrs|, i requires 0 <= i < |attrs| => "a=" + attrs[i])
  }

  /** An attribute with a value. */
  function Attr(key: string, value: string): string { key + ":" + value }

  function FingerprintAttrs(fp: Option<Fingerprint>): seq<string> {
    if fp.None? then []
    else [Attr("fingerprint", AlgorithmToken(fp.value.algorithm) + " " + fp.value.value)]
  }

  function GroupAttrs(mids: seq<string>): seq<string> {
    if mids == [] then [] else [Attr("group", "BUNDLE" + Spaced(mids))]
  }

  function OptionsAttrs(options: seq<string>): seq<string> {
    if options == [] then [] else [Attr("ice-options", Join(options, ','))]
  }

  function FlagAttrs(key: string, on: bool): seq<string> {
    if on then [key] else []
  }

  /** The attributes written before the first media section. */
  function SessionAttrs(d: Desc): seq<string> {
    GroupAttrs(d.bundleMids)
    + [Attr("msid-semantic", "WMS *")]
    + OptionsAttrs(d.iceOptions)
    + FlagAttrs("extmap-allow-mixed", d.extmapAllowMixed)
    + FingerprintAttrs(d.fingerprint)
    + d.extraAttrs
  }

  function HeaderLines(d: Desc): seq<string> {
    ["v=0", "o=" + d.username + " " + d.sessionId + " " + d.sessionVersion + " IN IP4 127.0.0.1", "s=-", "t=0 0"]
  }

  /** The candidates that are written: those whose mid is the section's. */
  function Matching(cs: seq<Candidate>, mid: string): seq<Candidate> {
    if cs == [] then []
    else (if cs[0].Mid() == mid then [cs[0]] else []) + Matching(cs[1..], mid)
  }

  function CandidateAttrs(cs: seq<Candidate>): seq<string> {
    seq(|cs|, i requires 0 <= i < |cs| => ToSdp(cs[i]))
  }

  function OptionAttr(key: string, value: Option<string>): seq<string> {
    if value.None? then [] else [Attr(key, value.value)]
  }

  function NumberAttr(key: string, value: Option<nat>): seq<string> {
    if value.None? then [] else [Attr(key, Decimal(value.value))]
  }

  /** The application section's attributes up to its ICE credentials ... */
  function TransportAttrs(d: Desc, app: Application): seq<string> {
    [Attr("mid", app.mid)]
    + FlagAttrs(DirectionToken(app.direction), app.direction != UnknownDirection)
    + [Attr("setup", RoleToken(d.role))]
    + OptionAttr("ice-ufrag", d.iceUfrag)
    + OptionAttr("ice-pwd", d.icePwd)
  }

  /** ... and from its fingerprint on. */
  function DataAttrs(d: Desc, app: Application): seq<string> {
    FingerprintAttrs(d.fingerprint)
    + NumberAttr("sctp-port", app.sctpPort)
    + NumberAttr("max-message-size", app.maxMessageSize)
    + app.extraAttrs
    + CandidateAttrs(Matching(d.candidates, app.mid))
    + FlagAttrs("end-of-candidates", d.ended)
  }

  function ApplicationAttrs(d: Desc, app: Application): seq<string> {
    TransportAttrs(d, app) + DataAttrs(d, app)
  }

  const MEDIA_LINE := "m=" + ("application" + " 9 UDP/DTLS/SCTP webrtc-datachannel")
  const CONNECTION_LINE := "c=IN IP4 0.0.0.0"

  function ApplicationLines(d: Desc): seq<string> {
    if d.application.None? then []
    else [MEDIA_LINE, CONNECTION_LINE] + AttrLines(ApplicationAttrs(d, d.application.value))
  }

  function PrintedLines(d: Desc): seq<string> {
    HeaderLines(d) + AttrLines(SessionAttrs(d)) + ApplicationLines(d)
  }

  function Concat(parts: seq<string>): string {
    if parts == [] then "" else parts[0] + Concat(parts[1..])
  }

  /** `generate_sdp`: the lines with the chosen terminator, then the other
      media sections as they were stored. */
  function Print(d: Desc, eol: string): string {
    JoinEol(PrintedLines(d), eol) + Concat(d.otherSections)
  }

  // ----- parsing -----

  datatype DescriptionError =
    | BadAttributeInteger(attribute: string)
    | BadCandidate(error: ParseError)

  datatype SectionKind = NoSection | InApplication | InOther

  /** Number of the current media section, -1 before the first one. */
  type SectionIndex = i: int | i >= -1 witness -1

  /** What the parser's loop carries from line to line. */
  datatype ParserState = ParserState(
    d: Desc,
    kind: SectionKind,
    app: Option<Application>,
    other: string,
    otherMid: Option<string>,
    sectionIndex: SectionIndex)

  function InitialState(d: Desc): ParserState {
    ParserState(d, NoSection, None, "", None, -1)
  }

  function Flush(st: ParserState): ParserState {
    match st.kind
    case NoSection => st
    case InApplication =>
      if st.app.None? then st.(kind := NoSection)
      else
        st.(kind := NoSection, app := None,
            d := st.d.(application := st.app, bundleMids := AddMid(st.d.bundleMids, st.app.value.mid)))
    case InOther =>
      var d1 := if st.other == "" then st.d else st.d.(otherSections := st.d.otherSections + [st.other]);
      var d2 := if st.otherMid.None? then d1 else d1.(bundleMids := AddMid(d1.bundleMids, st.otherMid.value));
      ParserState(d2, NoSection, st.app, "", None, st.sectionIndex)
  }

  function MediaType(rest: string): string {
    var ts := SplitWs(rest);
    if ts == [] then "" else ts[0]
  }

  function StepMedia(st: ParserState, line: string): ParserState
    requires "m=" <= line
  {
    var f := Flush(st);
    var index := f.sectionIndex + 1;
    if MediaType(line[2..]) == "application" then
      f.(kind := InApplication, app := Some(NewApplication(Decimal(index))), sectionIndex := index)
    else
      f.(kind := InOther, other := line + "\r\n", otherMid := None, sectionIndex := index)
  }

  function StepOrigin(d: Desc, rest: string): Desc {
    var ts := SplitWs(rest);
    d.(username := if |ts| > 0 then ts[0] else d.username,
       sessionId := if |ts| > 1 then ts[1] else d.sessionId,
       sessionVersion := if |ts| > 2 then ts[2] else d.sessionVersion)
  }

  datatype Key =
    | Group | ExtmapAllowMixed | IceOptions | FingerprintKey | IceUfrag | IcePwd | Setup
    | CandidateKey | EndOfCandidates | MsidSemantic
    | MidKey | SctpPort | MaxMessageSize | DirectionKey(direction: Direction)
    | UnknownKey

  function KeyOf(k: string): Key {
    if k == "group" then Group
    else if k == "extmap-allow-mixed" then ExtmapAllowMixed
    else if k == "ice-options" then IceOptions
    else if k == "fingerprint" then FingerprintKey
    else if k == "ice-ufrag" then IceUfrag
    else if k == "ice-pwd" then IcePwd
    else if k == "setup" then Setup
    else if k == "candidate" then CandidateKey
    else if k == "end-of-candidates" then EndOfCandidates
    else if k == "msid-semantic" then MsidSemantic
    else if k == "mid" then MidKey
    else if k == "sctp-port" then SctpPort
    else if k == "max-message-size" then MaxMessageSize
    else if k == "sendonly" then DirectionKey(SendOnly)
    else if k == "recvonly" then DirectionKey(RecvOnly)
    else if k == "sendrecv" then DirectionKey(SendRecv)
    else if k == "inactive" then DirectionKey(Inactive)
    else UnknownKey
  }

  /** Keys that the parser handles in every position. */
  predicate IsSessionKey(k: Key) {
    k == Group || k == ExtmapAllowMixed || k == IceOptions || k == FingerprintKey || k == IceUfrag
    || k == IcePwd || k == Setup || k == CandidateKey || k == EndOfCandidates || k == MsidSemantic
  }

  /** Keys that the parser handles inside an application section only. */
  predicate IsApplicationKey(k: Key) {
    k == MidKey || k == SctpPort || k == MaxMessageSize || k.DirectionKey?
  }

  function AttrKey(attr: string): string { attr[..IndexOf(attr, ':')] }

  function AttrValue(attr: string): string {
    var i := IndexOf(attr, ':');
    if i == |attr| then "" else attr[i + 1..]
  }

  function RoleFromSdp(value: string): Role {
    if value == "active" then Active else if value == "passive" then Passive else ActPass
  }

  function TrimAll(items: seq<string>): seq<string> {
    seq(|items|, i requires 0 <= i < |items| => Trim(items[i]))
  }

  function ParseFingerprint(value: string): Option<Fingerprint> {
    var ts := SplitWs(value);
    if |ts| < 2 || AlgorithmFromSdp(Lower(ts[0])).None? then None
    else Some(Fingerprint(AlgorithmFromSdp(Lower(ts[0])).value, Upper(ts[1])))
  }

  const USIZE_MAX := 0xFFFF_FFFF_FFFF_FFFF

  /** The mid a parsed candidate gets. The second alternative is never taken:
      lines of other sections are copied before this point. */
  function CandidateMid(st: ParserState): string {
    if st.app.Some? then st.app.value.mid
    else if st.otherMid.Some? then st.otherMid.value
    else if st.d.bundleMids != [] then st.d.bundleMids[0]
    else Decimal(if st.sectionIndex < 0 then 0 else st.sectionIndex)
  }

  function StepSessionKey(v6: Ipv6Canon, st: ParserState, key: Key, attr: string, value: string)
    : Result<ParserState, DescriptionError>
    requires IsSessionKey(key)
  {
    var d := st.d;
    match key
    case Group =>
      Ok(if "BUNDLE" <= value then st.(d := d.(bundleMids := SplitWs(value[6..]))) else st)
    case ExtmapAllowMixed => Ok(st.(d := d.(extmapAllowMixed := true)))
    case IceOptions =>
      Ok(if d.iceOptions == [] then st.(d := d.(iceOptions := TrimAll(SplitOn(value, ',')))) else st)
    case FingerprintKey =>
      var fp := ParseFingerprint(value);
      Ok(if (d.fingerprint.None? || st.sectionIndex == 0) && fp.Some? then st.(d := d.(fingerprint := fp)) else st)
    case IceUfrag =>
      Ok(if d.iceUfrag.None? || st.sectionIndex == 0 then st.(d := d.(iceUfrag := Some(value))) else st)
    case IcePwd =>
      Ok(if d.icePwd.None? || st.sectionIndex == 0 then st.(d := d.(icePwd := Some(value))) else st)
    case Setup => Ok(st.(d := d.(role := RoleFromSdp(value))))
    case CandidateKey =>
      (match Candidates.Parse(v6, attr, CandidateMid(st))
       case Err(e) => Err(BadCandidate(e))
       case Ok(c) => Ok(st.(d := d.(candidates := Insert(d.candidates, c)))))
    case EndOfCandidates => Ok(st.(d := d.(ended := true)))
    case MsidSemantic => Ok(st)
  }

  function StepApplicationKey(app: Application, key: Key, attr: string, value: string)
    : Result<Application, DescriptionError>
  {
    match key
    case MidKey => Ok(app.(mid := value))
    case SctpPort =>
      var v := ParseUint(value, U16_MAX);
      if v.None? then Err(BadAttributeInteger("sctp-port")) else Ok(app.(sctpPort := v))
    case MaxMessageSize =>
      var v := ParseUint(value, USIZE_MAX);
      if v.None? then Err(BadAttributeInteger("max-message-size")) else Ok(app.(maxMessageSize := v))
    case DirectionKey(direction) => Ok(app.(direction := direction))
    case _ => Ok(app.(extraAttrs := app.extraAttrs + [attr]))
  }

  function StepAttr(v6: Ipv6Canon, st: ParserState, attr: string): Result<ParserState, DescriptionError> {
    var key, value := KeyOf(AttrKey(attr)), AttrValue(attr);
    if IsSessionKey(key) then StepSessionKey(v6, st, key, attr, value)
    else if st.app.Some? then
      match StepApplicationKey(st.app.value, key, attr, value)
      case Err(e) => Err(e)
      case Ok(app) => Ok(st.(app := Some(app)))
    else Ok(st.(d := st.d.(extraAttrs := st.d.extraAttrs + [attr])))
  }

  /** A line inside another media section: copied, and its mid noted. */
  function StepOther(st: ParserState, line: string): ParserState {
    st.(other := st.other + line + "\r\n",
        otherMid := if "a=mid:" <= line then Some(Trim(line[6..])) else st.otherMid)
  }

  /** One turn of the loop in `parse_into`, on a line as `lines` gives it. */
  function Step(v6: Ipv6Canon, st: ParserState, raw: string): Result<ParserState, DescriptionError> {
    var line := TrimEol(raw);
    if line == "" then Ok(st)
    else if "m=" <= line then Ok(StepMedia(st, line))
    else if "o=" <= line then Ok(st.(d := StepOrigin(st.d, line[2..])))
    else if st.kind == InOther then Ok(StepOther(st, line))
    else if "a=" <= line then StepAttr(v6, st, line[2..])
    else Ok(st)
  }

  function Run(v6: Ipv6Canon, st: ParserState, lines: seq<string>): Result<ParserState, DescriptionError>
    decreases |lines|
  {
    if lines == [] then Ok(st)
    else
      match Step(v6, st, lines[0])
      case Err(e) => Err(e)
      case Ok(next) => Run(v6, next, lines[1..])
  }

  function ParseFrom(v6: Ipv6Canon, d: Desc, text: string): Result<Desc, DescriptionError> {
    match Run(v6, InitialState(d), Lines(text))
    case Err(e) => Err(e)
    case Ok(st) => Ok(Flush(st).d)
  }

  /** `Description::parse`, with the random session id of the fresh description. */
  function Parse(v6: Ipv6Canon, sessionId: string, text: string): Result<Desc, DescriptionError> {
    ParseFrom(v6, NewDesc(Unspec, ActPass, sessionId), text)
  }
}
