/** Which lines decide the application section: the last one opened counts, and in it
    the last line about each field. */
module ApplicationRules {
  import opened Text
  import opened Ip
  import opened Candidates
  import opened Sdp
  import opened Overrides
  import RoundTrip

  // ----- the rules -----

  /** What each line of a section says about a key. */
  function Values(body: seq<string>, key: string): (r: seq<Option<string>>)
    ensures |r| == |body|
  {
    seq(|body|, i requires 0 <= i < |body| => ValueOf(TrimEol(body[i]), key))
  }

  function DirectionOf(line: string): Option<Direction> {
    if ValueOf(line, "sendonly").Some? then Some(SendOnly)
    else if ValueOf(line, "recvonly").Some? then Some(RecvOnly)
    else if ValueOf(line, "sendrecv").Some? then Some(SendRecv)
    else if ValueOf(line, "inactive").Some? then Some(Inactive)
    else None
  }

  function Directions(body: seq<string>): (r: seq<Option<Direction>>)
    ensures |r| == |body|
  {
    seq(|body|, i requires 0 <= i < |body| => DirectionOf(TrimEol(body[i])))
  }

  /** The last lines about mid, port, size and direction decide them; a section with
      no mid has its number for one. */
  ghost predicate Decided(body: seq<string>, number: nat, app: Application) {
    (exists mid :: LatestSays(Values(body, "mid"), mid) && app.mid == if mid.Some? then mid.value else Decimal(number))
    && (exists port :: LatestSays(Values(body, "sctp-port"), port) && app.sctpPort == Read(port, U16_MAX))
    && (exists size :: LatestSays(Values(body, "max-message-size"), size) && app.maxMessageSize == Read(size, USIZE_MAX))
    && (exists direction :: LatestSays(Directions(body), direction)
          && app.direction == if direction.Some? then direction.value else SendRecv)
  }

  function Read(value: Option<string>, max: nat): Option<nat> {
    if value.None? then None else ParseUint(value.value, max)
  }

  function MediaCount(lines: seq<string>): nat {
    if lines == [] then 0
    else MediaCount(lines[..|lines| - 1]) + if IsMedia(lines[|lines| - 1]) then 1 else 0
  }

  /** An application section, from its media line `j` to the line before `e`. */
  predicate Spans(lines: seq<string>, j: nat, e: nat) {
    j < e <= |lines| && IsApplicationMedia(lines[j]) && (e < |lines| ==> IsMedia(lines[e]))
    && NoMedia(lines[j + 1..e])
  }

  /** The last application section of the lines decides the application. */
  ghost predicate LastSectionDecides(lines: seq<string>, app: Option<Application>) {
    match app
    case None => forall j :: 0 <= j < |lines| ==> !IsApplicationMedia(lines[j])
    case Some(a) =>
      exists j: nat, e: nat :: Spans(lines, j, e) && Decided(lines[j + 1..e], MediaCount(lines[..j]), a)
        && forall k :: j < k < |lines| ==> !IsApplicationMedia(lines[k])
  }

  // ----- one line of an application section -----

  lemma DecidedAtStart(number: nat)
    ensures Decided([], number, NewApplication(Decimal(number)))
  {
    var none: Option<string> := None;
    var nowhere: Option<Direction> := None;
    assert LatestSays(Values([], "mid"), none);
    assert LatestSays(Values([], "sctp-port"), none);
    assert LatestSays(Values([], "max-message-size"), none);
    assert LatestSays(Directions([]), nowhere);
    hide Decimal;
  }

  lemma ValuesSnoc(body: seq<string>, x: string, key: string)
    ensures Values(body + [x], key) == Values(body, key) + [ValueOf(TrimEol(x), key)]
  {
    hide ValueOf, TrimEol;
  }

  lemma DirectionsSnoc(body: seq<string>, x: string)
    ensures Directions(body + [x]) == Directions(body) + [DirectionOf(TrimEol(x))]
  {
    hide DirectionOf, TrimEol;
  }

  /** What a line does to an open application. */
  predicate Changes(was: Application, line: string, app: Application) {
    app.mid == (if ValueOf(line, "mid").Some? then ValueOf(line, "mid").value else was.mid)
    && app.sctpPort == (if ValueOf(line, "sctp-port").Some? then Read(ValueOf(line, "sctp-port"), U16_MAX) else was.sctpPort)
    && app.maxMessageSize == (if ValueOf(line, "max-message-size").Some?
                              then Read(ValueOf(line, "max-message-size"), USIZE_MAX) else was.maxMessageSize)
    && app.direction == (if DirectionOf(line).Some? then DirectionOf(line).value else was.direction)
  }

  lemma DecidedMore(body: seq<string>, number: nat, was: Application, x: string, app: Application)
    requires Decided(body, number, was) && Changes(was, TrimEol(x), app)
    ensures Decided(body + [x], number, app)
  {
    var line := TrimEol(x);
    hide ValueOf, DirectionOf, TrimEol, LatestSays, Values, Directions, ParseUint, Decimal;
    ValuesSnoc(body, x, "mid");
    ValuesSnoc(body, x, "sctp-port");
    ValuesSnoc(body, x, "max-message-size");
    DirectionsSnoc(body, x);
    var mid :| LatestSays(Values(body, "mid"), mid) && was.mid == if mid.Some? then mid.value else Decimal(number);
    LatestSnoc(Values(body, "mid"), mid, ValueOf(line, "mid"));
    var port :| LatestSays(Values(body, "sctp-port"), port) && was.sctpPort == Read(port, U16_MAX);
    LatestSnoc(Values(body, "sctp-port"), port, ValueOf(line, "sctp-port"));
    var size :| LatestSays(Values(body, "max-message-size"), size) && was.maxMessageSize == Read(size, USIZE_MAX);
    LatestSnoc(Values(body, "max-message-size"), size, ValueOf(line, "max-message-size"));
    var direction :| LatestSays(Directions(body), direction)
      && was.direction == if direction.Some? then direction.value else SendRecv;
    LatestSnoc(Directions(body), direction, DirectionOf(line));
  }

  /** What the parser's key does to an open application. */
  predicate KeyChanges(was: Application, key: Key, value: string, app: Application) {
    app.mid == (if key == MidKey then value else was.mid)
    && app.sctpPort == (if key == SctpPort then ParseUint(value, U16_MAX) else was.sctpPort)
    && app.maxMessageSize == (if key == MaxMessageSize then ParseUint(value, USIZE_MAX) else was.maxMessageSize)
    && app.direction == (if key.DirectionKey? then key.direction else was.direction)
  }

  lemma SessionKeyLeaves(v6: Ipv6Canon, st: ParserState, key: Key, attr: string, value: string)
    requires IsSessionKey(key) && StepSessionKey(v6, st, key, attr, value).Ok?
    ensures var next := StepSessionKey(v6, st, key, attr, value).value;
      next.app == st.app && next.d.application == st.d.application
  {
    hide Candidates.Parse, ParseFingerprint, SplitWs, SplitOn, TrimAll, CandidateMid, Insert, RoleFromSdp;
  }

  lemma StepAttrChanges(v6: Ipv6Canon, st: ParserState, attr: string)
    requires StepAttr(v6, st, attr).Ok?
    ensures var next := StepAttr(v6, st, attr).value;
      next.d.application == st.d.application
      && (st.app.Some? ==>
        next.app.Some? && KeyChanges(st.app.value, KeyOf(AttrKey(attr)), AttrValue(attr), next.app.value))
  {
    var key, value := KeyOf(AttrKey(attr)), AttrValue(attr);
    hide KeyOf, AttrKey, AttrValue, StepSessionKey, ParseUint;
    if IsSessionKey(key) { SessionKeyLeaves(v6, st, key, attr, value); }
  }

  function ApplicationName(key: Key): string
    requires IsApplicationKey(key) && (key.DirectionKey? ==> key.direction != UnknownDirection)
  {
    match key
    case MidKey => "mid"
    case SctpPort => "sctp-port"
    case MaxMessageSize => "max-message-size"
    case DirectionKey(direction) => DirectionToken(direction)
  }

  lemma ApplicationNameMeans(key: Key, k: string)
    requires IsApplicationKey(key) && (key.DirectionKey? ==> key.direction != UnknownDirection)
    ensures KeyOf(k) == key <==> k == ApplicationName(key)
  {
    if key.DirectionKey? { DirectionNameMeans(key.direction, k); }
  }

  lemma DirectionNameMeans(direction: Direction, k: string)
    requires direction != UnknownDirection
    ensures KeyOf(k) == DirectionKey(direction) <==> k == DirectionToken(direction)
  {}

  lemma ApplicationNameHasNoColon(key: Key)
    requires IsApplicationKey(key) && (key.DirectionKey? ==> key.direction != UnknownDirection)
    ensures ':' !in ApplicationName(key)
  {}

  lemma SaysKey(attr: string, key: Key)
    requires IsApplicationKey(key) && (key.DirectionKey? ==> key.direction != UnknownDirection)
    ensures ValueOf("a=" + attr, ApplicationName(key))
      == if KeyOf(AttrKey(attr)) == key then Some(AttrValue(attr)) else None
  {
    ApplicationNameMeans(key, AttrKey(attr));
    ApplicationNameHasNoColon(key);
    hide KeyOf, ApplicationName;
    ValueMeans(attr, ApplicationName(key));
  }

  lemma KeyIsNotUnknown(k: string)
    ensures KeyOf(k).DirectionKey? ==> KeyOf(k).direction != UnknownDirection
  {}

  lemma KeyChangesMeans(was: Application, attr: string, app: Application)
    requires KeyChanges(was, KeyOf(AttrKey(attr)), AttrValue(attr), app)
    ensures Changes(was, "a=" + attr, app)
  {
    hide KeyOf, AttrKey, AttrValue, ValueOf, ParseUint;
    KeyIsNotUnknown(AttrKey(attr));
    SaysKey(attr, MidKey);
    SaysKey(attr, SctpPort);
    SaysKey(attr, MaxMessageSize);
    SaysKey(attr, DirectionKey(SendOnly));
    SaysKey(attr, DirectionKey(RecvOnly));
    SaysKey(attr, DirectionKey(SendRecv));
    SaysKey(attr, DirectionKey(Inactive));
  }

  lemma NothingChanges(was: Application, line: string)
    requires !("a=" <= line)
    ensures Changes(was, line, was)
  {
    forall key ensures ValueOf(line, key) == None { NoAttr(line, key); }
    hide ValueOf;
  }

  lemma ApplicationLine(v6: Ipv6Canon, st: ParserState, x: string)
    requires st.app.Some? && st.kind == InApplication && !IsMedia(x) && Step(v6, st, x).Ok?
    ensures var next := Step(v6, st, x).value;
      next.app.Some? && next.d.application == st.d.application && Changes(st.app.value, TrimEol(x), next.app.value)
  {
    var line := TrimEol(x);
    hide StepAttr, StepOrigin, TrimEol, Changes, KeyChanges;
    if "a=" <= line {
      assert line[0] == 'a';
      assert line == "a=" + line[2..];
      StepAttrChanges(v6, st, line[2..]);
      KeyChangesMeans(st.app.value, line[2..], StepAttr(v6, st, line[2..]).value.app.value);
    } else {
      NothingChanges(st.app.value, line);
      if "o=" <= line { OriginKeeps(st.d, line[2..]); }
    }
  }

  lemma OriginKeeps(d: Desc, rest: string)
    ensures StepOrigin(d, rest).application == d.application
  {
    hide SplitWs;
  }

  // ----- where the sections are -----

  /** The open application is decided by the lines since its media line `j`. */
  ghost predicate Open(lines: seq<string>, j: nat, app: Application) {
    j < |lines| && LastMedia(lines, j) && IsApplicationMedia(lines[j])
    && Decided(lines[j + 1..], MediaCount(lines[..j]), app)
  }

  /** Application media lines are at most the one that opened the present section. */
  predicate NoneClosed(lines: seq<string>, from: nat) {
    forall k :: from <= k < |lines| && IsApplicationMedia(lines[k]) ==> LastMedia(lines, k)
  }

  /** The last application section that another media line has closed. */
  ghost predicate Closed(lines: seq<string>, j: nat, e: nat, app: Application) {
    e < |lines| && Spans(lines, j, e) && Decided(lines[j + 1..e], MediaCount(lines[..j]), app)
    && NoneClosed(lines, j + 1)
  }

  ghost predicate Stored(lines: seq<string>, app: Option<Application>) {
    if app.None? then NoneClosed(lines, 0) else exists j: nat, e: nat :: Closed(lines, j, e, app.value)
  }

  ghost predicate Follows(st: ParserState, lines: seq<string>) {
    Tracks(st, lines) && st.sectionIndex == MediaCount(lines) - 1
    && (st.app.Some? ==> exists j: nat :: Open(lines, j, st.app.value))
    && Stored(lines, st.d.application)
  }

  lemma CountSnoc(lines: seq<string>, x: string)
    ensures MediaCount(lines + [x]) == MediaCount(lines) + if IsMedia(x) then 1 else 0
  {
    assert (lines + [x])[..|lines|] == lines;
  }

  lemma OpenMore(lines: seq<string>, j: nat, x: string, was: Application, app: Application)
    requires Open(lines, j, was) && !IsMedia(x) && Changes(was, TrimEol(x), app)
    ensures Open(lines + [x], j, app)
  {
    var all := lines + [x];
    hide IsApplicationMedia, MediaCount, Decided, Changes;
    LastMediaSnoc(lines, x);
    assert all[j + 1..] == lines[j + 1..] + [x] && all[..j] == lines[..j] && all[j] == lines[j];
    DecidedMore(lines[j + 1..], MediaCount(lines[..j]), was, x, app);
  }

  lemma ClosedMore(lines: seq<string>, j: nat, e: nat, x: string, app: Application)
    requires Closed(lines, j, e, app) && NoneClosed(lines + [x], j + 1)
    ensures Closed(lines + [x], j, e, app)
  {
    var all := lines + [x];
    hide IsApplicationMedia, MediaCount, Decided, NoneClosed, NoMedia;
    assert all[j + 1..e] == lines[j + 1..e] && all[..j] == lines[..j] && all[j] == lines[j] && all[e] == lines[e];
  }

  lemma NoneClosedPlain(lines: seq<string>, x: string, from: nat)
    requires NoneClosed(lines, from) && !IsMedia(x)
    ensures NoneClosed(lines + [x], from)
  {
    var all := lines + [x];
    LastMediaSnoc(lines, x);
    hide LastMedia;
    forall k | from <= k < |all| && IsApplicationMedia(all[k]) ensures LastMedia(all, k) {
      assert k < |lines| && all[k] == lines[k];
    }
  }

  /** If no application section is open, the new media line closes none. */
  lemma NoneClosedMedia(lines: seq<string>, x: string, from: nat)
    requires IsMedia(x) && from <= |lines|
    requires forall k :: from <= k < |lines| ==> !IsApplicationMedia(lines[k])
    ensures NoneClosed(lines + [x], from)
  {
    var all := lines + [x];
    assert LastMedia(all, |lines|);
    assert forall k :: from <= k < |lines| ==> all[k] == lines[k];
  }

  lemma StoredPlain(lines: seq<string>, x: string, app: Option<Application>)
    requires Stored(lines, app) && !IsMedia(x)
    ensures Stored(lines + [x], app)
  {
    hide Closed, NoneClosed;
    if app.None? {
      NoneClosedPlain(lines, x, 0);
    } else {
      var j: nat, e: nat :| Closed(lines, j, e, app.value);
      assert NoneClosed(lines, j + 1) by { ClosedMeans(lines, j, e, app.value); }
      NoneClosedPlain(lines, x, j + 1);
      ClosedMore(lines, j, e, x, app.value);
    }
  }

  lemma ClosedMeans(lines: seq<string>, j: nat, e: nat, app: Application)
    requires Closed(lines, j, e, app)
    ensures NoneClosed(lines, j + 1) && j < |lines|
  {}

  lemma NotOpen(lines: seq<string>, from: nat)
    requires NoneClosed(lines, from) && !InsideApplication(lines)
    ensures forall k :: from <= k < |lines| ==> !IsApplicationMedia(lines[k])
  {}

  lemma StoredMedia(lines: seq<string>, x: string, app: Option<Application>)
    requires Stored(lines, app) && IsMedia(x) && !InsideApplication(lines)
    ensures Stored(lines + [x], app)
  {
    hide Closed, NoneClosed, InsideApplication, IsApplicationMedia;
    if app.None? {
      NotOpen(lines, 0);
      NoneClosedMedia(lines, x, 0);
    } else {
      var j: nat, e: nat :| Closed(lines, j, e, app.value);
      ClosedMeans(lines, j, e, app.value);
      NotOpen(lines, j + 1);
      NoneClosedMedia(lines, x, j + 1);
      ClosedMore(lines, j, e, x, app.value);
    }
  }

  /** A media line closes the open application section. */
  lemma OpenCloses(lines: seq<string>, j: nat, x: string, app: Application)
    requires Open(lines, j, app) && IsMedia(x)
    ensures Closed(lines + [x], j, |lines|, app)
  {
    var all := lines + [x];
    hide Decided, MediaCount;
    assert all[j + 1..|lines|] == lines[j + 1..] && all[..j] == lines[..j] && all[j] == lines[j] && all[|lines|] == x;
    assert NoMedia(lines[j + 1..]);
    assert forall k :: j < k < |lines| ==> !IsApplicationMedia(lines[k]);
    NoneClosedMedia(lines, x, j + 1);
  }

  lemma NewOpens(lines: seq<string>, x: string)
    requires IsApplicationMedia(x)
    ensures Open(lines + [x], |lines|, NewApplication(Decimal(MediaCount(lines))))
  {
    var all := lines + [x];
    assert all[|lines| + 1..] == [] && all[..|lines|] == lines;
    hide Decided, MediaCount, Decimal;
    DecidedAtStart(MediaCount(lines));
  }

  lemma MediaApplication(st: ParserState, line: string)
    requires "m=" <= line && (st.app.Some? <==> st.kind == InApplication)
    ensures var next := StepMedia(st, line);
      next.sectionIndex == st.sectionIndex + 1
      && next.app == (if MediaType(line[2..]) == "application"
                      then Some(NewApplication(Decimal(st.sectionIndex + 1))) else None)
      && next.d.application == (if st.app.Some? then st.app else st.d.application)
  {
    hide MediaType, AddMid, Decimal;
  }

  lemma MediaStores(st: ParserState, lines: seq<string>, x: string)
    requires Follows(st, lines) && IsMedia(x)
    ensures Stored(lines + [x], if st.app.Some? then st.app else st.d.application)
  {
    hide NoneClosed, Open, Closed, InsideFirst, Copying, NoMedia, MediaCount, IsMedia;
    if st.app.Some? {
      var j: nat :| Open(lines, j, st.app.value);
      OpenCloses(lines, j, x, st.app.value);
    } else {
      hide InsideApplication;
      StoredMedia(lines, x, st.d.application);
    }
  }

  lemma MediaFollows(st: ParserState, lines: seq<string>, x: string)
    requires Follows(st, lines) && IsMedia(x)
    ensures Follows(StepMedia(st, TrimEol(x)), lines + [x])
  {
    hide StepMedia, TrimEol, Decimal, MediaCount, Stored, Open, MediaType;
    MediaStores(st, lines, x);
    MediaTracks(st, lines, x);
    MediaOpens(st, lines, x);
    hide Tracks, IsMedia;
  }

  lemma MediaOpens(st: ParserState, lines: seq<string>, x: string)
    requires Follows(st, lines) && IsMedia(x)
    ensures var next := StepMedia(st, TrimEol(x));
      next.sectionIndex == MediaCount(lines + [x]) - 1
      && (next.app.Some? ==> Open(lines + [x], |lines|, next.app.value))
      && next.d.application == if st.app.Some? then st.app else st.d.application
  {
    MediaApplication(st, TrimEol(x));
    CountSnoc(lines, x);
    if IsApplicationMedia(x) { NewOpens(lines, x); }
    hide StepMedia, TrimEol, Decimal, MediaCount, Stored, Open, MediaType, Tracks;
  }

  lemma StepFollows(v6: Ipv6Canon, st: ParserState, lines: seq<string>, x: string)
    requires Follows(st, lines) && Step(v6, st, x).Ok?
    ensures Follows(Step(v6, st, x).value, lines + [x])
  {
    if IsMedia(x) {
      MediaFollows(st, lines, x);
      assert Step(v6, st, x) == Ok(StepMedia(st, TrimEol(x)));
    } else {
      PlainFollows(v6, st, lines, x);
    }
    hide Follows, StepMedia;
  }

  lemma PlainFollows(v6: Ipv6Canon, st: ParserState, lines: seq<string>, x: string)
    requires Follows(st, lines) && !IsMedia(x) && Step(v6, st, x).Ok?
    ensures Follows(Step(v6, st, x).value, lines + [x])
  {
    StepTracks(v6, st, lines, x);
    PlainKeeps(v6, st, x);
    PlainStores(v6, st, x);
    CountSnoc(lines, x);
    StoredPlain(lines, x, st.d.application);
    if st.app.Some? { ApplicationLine(v6, st, x); }
    hide Step, Tracks, Stored, Open, MediaCount, Changes, TrimEol;
    if st.app.Some? {
      var j: nat :| Open(lines, j, st.app.value);
      OpenMore(lines, j, x, st.app.value, Step(v6, st, x).value.app.value);
    }
  }

  lemma PlainStores(v6: Ipv6Canon, st: ParserState, x: string)
    requires !IsMedia(x) && Step(v6, st, x).Ok?
    ensures Step(v6, st, x).value.d.application == st.d.application
  {
    var line := TrimEol(x);
    hide StepAttr, StepOrigin, TrimEol;
    if "o=" <= line { OriginKeeps(st.d, line[2..]); }
    if "a=" <= line && !("o=" <= line) && st.kind != InOther { StepAttrChanges(v6, st, line[2..]); }
  }

  lemma {:induction false} FollowsAfter(v6: Ipv6Canon, sessionId: string, lines: seq<string>)
    requires Sdp.Run(v6, InitialState(NewDesc(Unspec, ActPass, sessionId)), lines).Ok?
    ensures Follows(Sdp.Run(v6, InitialState(NewDesc(Unspec, ActPass, sessionId)), lines).value, lines)
    decreases |lines|
  {
    var start := InitialState(NewDesc(Unspec, ActPass, sessionId));
    if lines != [] {
      hide Follows, Step;
      var before, x := lines[..|lines| - 1], lines[|lines| - 1];
      assert before + [x] == lines;
      RoundTrip.RunAppend(v6, start, before, [x]);
      FollowsAfter(v6, sessionId, before);
      var st := Sdp.Run(v6, start, before).value;
      RunOne(v6, st, x);
      hide Sdp.Run;
      StepFollows(v6, st, before, x);
    }
  }

  lemma OpenDecides(lines: seq<string>, j: nat, app: Application)
    requires Open(lines, j, app)
    ensures LastSectionDecides(lines, Some(app))
  {
    hide Decided, MediaCount;
    assert lines[j + 1..|lines|] == lines[j + 1..];
    assert Spans(lines, j, |lines|);
  }

  lemma StoredDecides(lines: seq<string>, app: Option<Application>)
    requires Stored(lines, app) && !InsideApplication(lines)
    ensures LastSectionDecides(lines, app)
  {
    hide Decided, MediaCount, Spans, NoneClosed, IsApplicationMedia, InsideApplication;
    if app.None? {
      NotOpen(lines, 0);
    } else {
      var j: nat, e: nat :| Closed(lines, j, e, app.value);
      NotOpen(lines, j + 1);
    }
  }

  lemma FlushDecides(st: ParserState, lines: seq<string>)
    requires Follows(st, lines)
    ensures LastSectionDecides(lines, Flush(st).d.application)
  {
    hide LastSectionDecides, Stored, Open, MediaCount, AddMid, InsideFirst, Copying, NoMedia;
    if st.app.Some? {
      var j: nat :| Open(lines, j, st.app.value);
      OpenDecides(lines, j, st.app.value);
    } else {
      hide InsideApplication;
      StoredDecides(lines, st.d.application);
    }
  }

  /** For every text that parses, the application is that of the last application section,
      if there is one; the last line in it about mid, port, size or direction
      decides that field, and a section without a mid is numbered. */
  lemma LastApplicationDecides(v6: Ipv6Canon, sessionId: string, text: string)
    requires Sdp.Parse(v6, sessionId, text).Ok?
    ensures LastSectionDecides(Lines(text), Sdp.Parse(v6, sessionId, text).value.application)
  {
    var lines := Lines(text);
    FollowsAfter(v6, sessionId, lines);
    var st := Sdp.Run(v6, InitialState(NewDesc(Unspec, ActPass, sessionId)), lines).value;
    hide Sdp.Run, Lines, LastSectionDecides, Follows, InitialState, NewDesc, Flush;
    FlushDecides(st, lines);
  }
}
