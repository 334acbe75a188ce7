/** Which line of a session description decides which field: the parser's rules on
    position, in terms of the lines of the text alone. */
module Overrides {
  import opened Text
  import opened Ip
  import opened Fingerprints
  import opened Candidates
  import opened Sdp
  import RoundTrip

  // ----- positions -----

  predicate IsMedia(raw: string) { "m=" <= TrimEol(raw) }

  predicate IsApplicationMedia(raw: string) {
    IsMedia(raw) && MediaType(TrimEol(raw)[2..]) == "application"
  }

  /** Line `j` opens the media section that the lines end in. */
  predicate LastMedia(lines: seq<string>, j: nat)
    requires j < |lines|
  {
    IsMedia(lines[j]) && forall k :: j < k < |lines| ==> !IsMedia(lines[k])
  }

  /** The lines end inside a media section that is no application: what follows is copied. */
  predicate Copying(lines: seq<string>) {
    exists j :: 0 <= j < |lines| && LastMedia(lines, j) && !IsApplicationMedia(lines[j])
  }

  predicate InsideApplication(lines: seq<string>) {
    exists j :: 0 <= j < |lines| && LastMedia(lines, j) && IsApplicationMedia(lines[j])
  }

  predicate NoMedia(lines: seq<string>) { forall k :: 0 <= k < |lines| ==> !IsMedia(lines[k]) }

  /** The lines end inside the first media section. */
  predicate InsideFirst(lines: seq<string>) {
    exists j :: 0 <= j < |lines| && LastMedia(lines, j) && NoMedia(lines[..j])
  }

  /** The value that an attribute line gives a key. */
  function ValueOf(line: string, key: string): Option<string> {
    if "a=" + key + ":" <= line then Some(line[|key| + 3..])
    else if line == "a=" + key then Some("")
    else None
  }

  /** What line `i` says about a key, unless the line is copied. */
  function Says(lines: seq<string>, i: nat, key: string): Option<string>
    requires i < |lines|
  {
    if Copying(lines[..i]) then None else ValueOf(TrimEol(lines[i]), key)
  }

  function Said(lines: seq<string>, key: string): (r: seq<Option<string>>)
    ensures |r| == |lines|
  {
    seq(|lines|, i requires 0 <= i < |lines| => Says(lines, i, key))
  }

  /** Which lines are in the first media section. */
  function First(lines: seq<string>): (r: seq<bool>)
    ensures |r| == |lines|
  {
    seq(|lines|, i requires 0 <= i < |lines| => InsideFirst(lines[..i]))
  }

  function Readable(values: seq<Option<string>>): (r: seq<Option<Fingerprint>>)
    ensures |r| == |values|
  {
    seq(|values|, i requires 0 <= i < |values| =>
      if values[i].Some? then ParseFingerprint(values[i].value) else None)
  }

  // ----- the rules -----

  predicate Silent<T>(values: seq<Option<T>>) {
    forall i :: 0 <= i < |values| ==> values[i].None?
  }

  /** Line `i` is the last of the first media section to say something. */
  predicate LatestOfFirst<T>(values: seq<Option<T>>, first: seq<bool>, i: nat)
    requires |first| == |values| && i < |values|
  {
    first[i] && values[i].Some? && forall j :: i < j < |values| && first[j] ==> values[j].None?
  }

  /** The last line of the first media section that says something wins; if that section
      says nothing, the first line of all that does. */
  predicate Overrides<T(==)>(values: seq<Option<T>>, first: seq<bool>, r: Option<T>)
    requires |first| == |values|
  {
    (exists i :: 0 <= i < |values| && LatestOfFirst(values, first, i) && r == values[i])
    || ((forall i :: 0 <= i < |values| && first[i] ==> values[i].None?) && EarliestSays(values, r))
  }

  /** The first line that says something wins. */
  predicate EarliestSays<T(==)>(values: seq<Option<T>>, r: Option<T>) {
    (exists i :: 0 <= i < |values| && values[i].Some? && r == values[i]
       && forall j :: 0 <= j < i ==> values[j].None?)
    || (Silent(values) && r == None)
  }

  /** The last line that says something wins. */
  predicate LatestSays<T(==)>(values: seq<Option<T>>, r: Option<T>) {
    (exists i :: 0 <= i < |values| && values[i].Some? && r == values[i]
       && forall j :: i < j < |values| ==> values[j].None?)
    || (Silent(values) && r == None)
  }

  lemma EarliestSnoc<T>(values: seq<Option<T>>, r: Option<T>, v: Option<T>)
    requires EarliestSays(values, r)
    ensures EarliestSays(values + [v], if r.None? then v else r)
  {
    var all := values + [v];
    if i :| 0 <= i < |values| && values[i].Some? && r == values[i] && forall j :: 0 <= j < i ==> values[j].None? {
      assert all[i] == values[i];
    } else if v.Some? {
      assert all[|values|] == v;
    }
  }

  lemma LatestSnoc<T>(values: seq<Option<T>>, r: Option<T>, v: Option<T>)
    requires LatestSays(values, r)
    ensures LatestSays(values + [v], if v.Some? then v else r)
  {
    var all := values + [v];
    if v.Some? {
      assert all[|values|] == v;
    } else if i :| 0 <= i < |values| && values[i].Some? && r == values[i] && forall j :: i < j < |values| ==> values[j].None? {
      assert all[i] == values[i];
    }
  }

  lemma OverridesSnoc<T>(values: seq<Option<T>>, first: seq<bool>, r: Option<T>, v: Option<T>, f: bool)
    requires |first| == |values| && Overrides(values, first, r)
    ensures Overrides(values + [v], first + [f], if v.Some? && (r.None? || f) then v else r)
  {
    var all, firsts := values + [v], first + [f];
    if f && v.Some? {
      assert LatestOfFirst(all, firsts, |values|);
    } else if i :| 0 <= i < |values| && LatestOfFirst(values, first, i) && r == values[i] {
      assert LatestOfFirst(all, firsts, i);
    } else {
      EarliestSnoc(values, r, v);
      assert forall i :: 0 <= i < |all| && firsts[i] ==> all[i].None?;
    }
  }

  // ----- one line more -----

  lemma SaidSnoc(lines: seq<string>, x: string, key: string)
    ensures Said(lines + [x], key) == Said(lines, key) + [if Copying(lines) then None else ValueOf(TrimEol(x), key)]
  {
    var all := lines + [x];
    assert all[..|lines|] == lines;
    forall i | 0 <= i < |lines| ensures Says(all, i, key) == Says(lines, i, key) {
      assert all[..i] == lines[..i];
    }
    hide Says;
    assert Says(all, |lines|, key) == if Copying(lines) then None else ValueOf(TrimEol(x), key) by {
      SaysLast(lines, x, key);
    }
  }

  lemma SaysLast(lines: seq<string>, x: string, key: string)
    ensures Says(lines + [x], |lines|, key) == if Copying(lines) then None else ValueOf(TrimEol(x), key)
  {
    assert (lines + [x])[..|lines|] == lines;
    hide Copying, ValueOf;
  }

  lemma FirstSnoc(lines: seq<string>, x: string)
    ensures First(lines + [x]) == First(lines) + [InsideFirst(lines)]
  {
    var all := lines + [x];
    assert all[..|lines|] == lines;
    assert forall i :: 0 <= i < |lines| ==> all[..i] == lines[..i];
    hide InsideFirst;
  }

  /** Where the lines end, after a media line and after any other. */
  lemma PositionSnoc(lines: seq<string>, x: string)
    ensures var all := lines + [x];
      if IsMedia(x) then
        (Copying(all) <==> !IsApplicationMedia(x)) && (InsideApplication(all) <==> IsApplicationMedia(x))
        && (InsideFirst(all) <==> NoMedia(lines)) && !NoMedia(all)
      else
        (Copying(all) <==> Copying(lines)) && (InsideApplication(all) <==> InsideApplication(lines))
        && (InsideFirst(all) <==> InsideFirst(lines)) && (NoMedia(all) <==> NoMedia(lines))
  {
    var all := lines + [x];
    assert forall k :: 0 <= k < |lines| ==> all[k] == lines[k];
    assert all[|lines|] == x;
    hide IsMedia, IsApplicationMedia;
    assert all[..|lines|] == lines;
    assert forall j :: 0 <= j < |lines| ==> all[..j] == lines[..j];
    if IsMedia(x) {
      assert LastMedia(all, |lines|);
      assert forall j :: 0 <= j < |lines| ==> !LastMedia(all, j) by { assert all[|lines|] == x; }
    } else {
      assert forall j :: 0 <= j < |lines| ==> (LastMedia(all, j) <==> LastMedia(lines, j)) by {
        LastMediaSnoc(lines, x);
      }
      assert !LastMedia(all, |lines|);
    }
  }

  lemma LastMediaSnoc(lines: seq<string>, x: string)
    requires !IsMedia(x)
    ensures forall j :: 0 <= j < |lines| ==> (LastMedia(lines + [x], j) <==> LastMedia(lines, j))
  {
    var all := lines + [x];
    hide IsMedia;
    forall j | 0 <= j < |lines| ensures LastMedia(all, j) <==> LastMedia(lines, j) {
      assert forall k :: 0 <= k < |lines| ==> all[k] == lines[k];
      if LastMedia(all, j) {
        assert forall k :: j < k < |lines| ==> !IsMedia(lines[k]) by {
          assert forall k :: j < k < |lines| ==> !IsMedia(all[k]);
        }
      }
    }
  }

  // ----- the parser's state after some lines -----

  predicate Tracks(st: ParserState, lines: seq<string>) {
    (st.kind == InOther <==> Copying(lines)) && (st.kind == InApplication <==> InsideApplication(lines))
    && (st.app.Some? <==> st.kind == InApplication)
    && (st.sectionIndex == 0 <==> InsideFirst(lines))
    && (st.sectionIndex == -1 <==> NoMedia(lines))
  }

  lemma SessionKeyTracks(v6: Ipv6Canon, st: ParserState, key: Key, attr: string, value: string)
    requires IsSessionKey(key) && StepSessionKey(v6, st, key, attr, value).Ok?
    ensures var next := StepSessionKey(v6, st, key, attr, value).value;
      next.kind == st.kind && next.app == st.app && next.sectionIndex == st.sectionIndex
  {
    hide Candidates.Parse;
  }

  lemma AttrTracks(v6: Ipv6Canon, st: ParserState, attr: string)
    requires StepAttr(v6, st, attr).Ok?
    ensures var next := StepAttr(v6, st, attr).value;
      next.kind == st.kind && next.sectionIndex == st.sectionIndex && (next.app.Some? <==> st.app.Some?)
  {
    var key, value := KeyOf(AttrKey(attr)), AttrValue(attr);
    if IsSessionKey(key) { SessionKeyTracks(v6, st, key, attr, value); }
    hide StepSessionKey, StepApplicationKey, KeyOf, IsSessionKey, AttrKey, AttrValue;
  }

  lemma PlainKeeps(v6: Ipv6Canon, st: ParserState, x: string)
    requires !IsMedia(x) && Step(v6, st, x).Ok?
    ensures var next := Step(v6, st, x).value;
      next.kind == st.kind && next.sectionIndex == st.sectionIndex && (next.app.Some? <==> st.app.Some?)
  {
    var line := TrimEol(x);
    if "a=" <= line && !("o=" <= line) && st.kind != InOther { AttrTracks(v6, st, line[2..]); }
    hide StepAttr, StepOrigin;
  }

  lemma MediaTurns(st: ParserState, line: string)
    requires "m=" <= line
    ensures var next := StepMedia(st, line);
      next.sectionIndex == st.sectionIndex + 1
      && if MediaType(line[2..]) == "application" then next.kind == InApplication && next.app.Some?
         else next.kind == InOther && ((st.app.Some? ==> st.kind == InApplication) ==> next.app.None?)
  {
    hide MediaType, AddMid;
  }

  lemma MediaTracks(st: ParserState, lines: seq<string>, x: string)
    requires Tracks(st, lines) && IsMedia(x)
    ensures Tracks(StepMedia(st, TrimEol(x)), lines + [x])
  {
    PositionSnoc(lines, x);
    MediaTurns(st, TrimEol(x));
    hide Copying, InsideApplication, InsideFirst, NoMedia, StepMedia, MediaType, TrimEol;
  }

  lemma StepTracks(v6: Ipv6Canon, st: ParserState, lines: seq<string>, x: string)
    requires Tracks(st, lines) && Step(v6, st, x).Ok?
    ensures Tracks(Step(v6, st, x).value, lines + [x])
  {
    if IsMedia(x) {
      assert Step(v6, st, x) == Ok(StepMedia(st, TrimEol(x)));
      hide Step, StepMedia, Tracks;
      MediaTracks(st, lines, x);
    } else {
      PlainKeeps(v6, st, x);
      PositionSnoc(lines, x);
      hide Step, Copying, InsideApplication, InsideFirst, NoMedia;
    }
  }

  // ----- what one line does to a field -----

  /** The value that a line gives a key, in the parser's present state. */
  function Hears(st: ParserState, x: string, key: string): Option<string> {
    if st.kind == InOther then None else ValueOf(TrimEol(x), key)
  }

  lemma ValueMeans(attr: string, key: string)
    requires ':' !in key
    ensures ValueOf("a=" + attr, key) == if AttrKey(attr) == key then Some(AttrValue(attr)) else None
  {
    var line, n := "a=" + attr, IndexOf(attr, ':');
    hide IndexOf;
    if AttrKey(attr) == key {
      if n == |attr| {
        assert attr == key;
      } else {
        assert attr == key + ":" + attr[n + 1..];
        assert line == "a=" + key + ":" + attr[n + 1..];
      }
    } else {
      if "a=" + key + ":" <= line { KeyWithColon(attr, key); }
      if line == "a=" + key {
        assert attr == line[2..] == key;
        IndexOfUnique(attr, ':', |attr|);
      }
    }
  }

  lemma KeyWithColon(attr: string, key: string)
    requires ':' !in key && "a=" + key + ":" <= "a=" + attr
    ensures AttrKey(attr) == key
  {
    var line := "a=" + attr;
    assert forall i :: 0 <= i < |key| ==> attr[i] == line[i + 2] == ("a=" + key + ":")[i + 2] == key[i];
    assert attr[|key|] == line[|key| + 2] == ("a=" + key + ":")[|key| + 2] == ':';
    IndexOfUnique(attr, ':', |key|);
    assert attr[..|key|] == key;
  }

  lemma NoAttr(line: string, key: string)
    requires !("a=" <= line)
    ensures ValueOf(line, key) == None
  {}

  predicate IsHeard(key: Key) {
    key == IceUfrag || key == IcePwd || key == FingerprintKey || key == Setup || key == IceOptions
    || key == ExtmapAllowMixed || key == EndOfCandidates || key == CandidateKey || key == SctpPort
    || key == MaxMessageSize
  }

  function Name(key: Key): string
    requires IsHeard(key)
  {
    match key
    case IceUfrag => "ice-ufrag"
    case IcePwd => "ice-pwd"
    case FingerprintKey => "fingerprint"
    case Setup => "setup"
    case IceOptions => "ice-options"
    case ExtmapAllowMixed => "extmap-allow-mixed"
    case EndOfCandidates => "end-of-candidates"
    case CandidateKey => "candidate"
    case SctpPort => "sctp-port"
    case MaxMessageSize => "max-message-size"
  }

  /** What one line says about each of the keys. */
  datatype Heard = Heard(
    ufrag: Option<string>, pwd: Option<string>, fingerprint: Option<string>, setup: Option<string>,
    options: Option<string>, mixed: Option<string>, ended: Option<string>)

  function ListensTo(st: ParserState, x: string): Heard {
    Heard(Hears(st, x, Name(IceUfrag)), Hears(st, x, Name(IcePwd)), Hears(st, x, Name(FingerprintKey)),
          Hears(st, x, Name(Setup)), Hears(st, x, Name(IceOptions)), Hears(st, x, Name(ExtmapAllowMixed)),
          Hears(st, x, Name(EndOfCandidates)))
  }

  const NOTHING := Heard(None, None, None, None, None, None, None)

  function Replaced<T>(was: Option<T>, first: bool, value: Option<T>): Option<T> {
    if value.Some? && (was.None? || first) then value else was
  }

  function FingerprintOf(value: Option<string>): Option<Fingerprint> {
    if value.Some? then ParseFingerprint(value.value) else None
  }

  predicate Effect(d: Desc, first: bool, h: Heard, n: Desc) {
    n.iceUfrag == Replaced(d.iceUfrag, first, h.ufrag)
    && n.icePwd == Replaced(d.icePwd, first, h.pwd)
    && n.fingerprint == Replaced(d.fingerprint, first, FingerprintOf(h.fingerprint))
    && n.role == (if h.setup.Some? then RoleFromSdp(h.setup.value) else d.role)
    && n.iceOptions == (if h.options.Some? && d.iceOptions == [] then TrimAll(SplitOn(h.options.value, ',')) else d.iceOptions)
    && n.extmapAllowMixed == (d.extmapAllowMixed || h.mixed.Some?)
    && n.ended == (d.ended || h.ended.Some?)
  }

  function Told(key: Key, value: string): Heard {
    match key
    case IceUfrag => NOTHING.(ufrag := Some(value))
    case IcePwd => NOTHING.(pwd := Some(value))
    case FingerprintKey => NOTHING.(fingerprint := Some(value))
    case Setup => NOTHING.(setup := Some(value))
    case IceOptions => NOTHING.(options := Some(value))
    case ExtmapAllowMixed => NOTHING.(mixed := Some(value))
    case EndOfCandidates => NOTHING.(ended := Some(value))
    case _ => NOTHING
  }

  lemma SessionKeyEffect(v6: Ipv6Canon, st: ParserState, key: Key, attr: string, value: string)
    requires IsSessionKey(key) && StepSessionKey(v6, st, key, attr, value).Ok?
    ensures Effect(st.d, st.sectionIndex == 0, Told(key, value), StepSessionKey(v6, st, key, attr, value).value.d)
  {
    hide Candidates.Parse, ParseFingerprint, RoleFromSdp, TrimAll, SplitOn, CandidateMid, Insert, SplitWs;
  }

  lemma AttrEffect(v6: Ipv6Canon, st: ParserState, attr: string)
    requires StepAttr(v6, st, attr).Ok?
    ensures Effect(st.d, st.sectionIndex == 0, Told(KeyOf(AttrKey(attr)), AttrValue(attr)), StepAttr(v6, st, attr).value.d)
  {
    var key, value := KeyOf(AttrKey(attr)), AttrValue(attr);
    hide KeyOf, AttrKey, AttrValue, StepSessionKey, StepApplicationKey;
    if IsSessionKey(key) { SessionKeyEffect(v6, st, key, attr, value); }
  }

  lemma NameMeans(key: Key, k: string)
    requires IsHeard(key)
    ensures KeyOf(k) == key <==> k == Name(key)
  {}

  lemma NameHasNoColon(key: Key)
    requires IsHeard(key)
    ensures ':' !in Name(key)
  {}

  lemma HearsKey(st: ParserState, x: string, attr: string, key: Key)
    requires TrimEol(x) == "a=" + attr && st.kind != InOther && IsHeard(key)
    ensures Hears(st, x, Name(key)) == if KeyOf(AttrKey(attr)) == key then Some(AttrValue(attr)) else None
  {
    NameMeans(key, AttrKey(attr));
    NameHasNoColon(key);
    hide Name, KeyOf;
    ValueMeans(attr, Name(key));
  }

  lemma AttrHeard(st: ParserState, x: string, attr: string)
    requires TrimEol(x) == "a=" + attr && st.kind != InOther
    ensures ListensTo(st, x) == Told(KeyOf(AttrKey(attr)), AttrValue(attr))
  {
    hide TrimEol, Hears, AttrKey, AttrValue, KeyOf, Name;
    HearsKey(st, x, attr, IceUfrag);
    HearsKey(st, x, attr, IcePwd);
    HearsKey(st, x, attr, FingerprintKey);
    HearsKey(st, x, attr, Setup);
    HearsKey(st, x, attr, IceOptions);
    HearsKey(st, x, attr, ExtmapAllowMixed);
    HearsKey(st, x, attr, EndOfCandidates);
  }

  lemma NothingHeard(st: ParserState, x: string)
    requires !("a=" <= TrimEol(x)) || st.kind == InOther
    ensures ListensTo(st, x) == NOTHING
  {
    forall key | IsHeard(key) ensures Hears(st, x, Name(key)) == None {
      if st.kind != InOther { NoAttr(TrimEol(x), Name(key)); }
    }
    hide Hears, Name, TrimEol;
  }

  lemma MediaEffect(st: ParserState, line: string)
    requires "m=" <= line
    ensures Effect(st.d, st.sectionIndex == 0, NOTHING, StepMedia(st, line).d)
  {
    FlushKeeps(st, st.sectionIndex == 0);
    hide MediaType, Flush, Effect;
  }

  lemma RestEffect(v6: Ipv6Canon, st: ParserState, x: string)
    requires Step(v6, st, x).Ok? && (!("a=" <= TrimEol(x)) || st.kind == InOther)
    ensures Effect(st.d, st.sectionIndex == 0, NOTHING, Step(v6, st, x).value.d)
  {
    hide StepAttr, TrimEol, SplitWs, StepMedia;
    if IsMedia(x) { MediaEffect(st, TrimEol(x)); }
  }

  lemma StepEffect(v6: Ipv6Canon, st: ParserState, x: string)
    requires Step(v6, st, x).Ok?
    ensures Effect(st.d, st.sectionIndex == 0, ListensTo(st, x), Step(v6, st, x).value.d)
  {
    hide Effect, StepAttr, ListensTo, StepMedia, StepOther, StepOrigin, TrimEol;
    var line := TrimEol(x);
    if "a=" <= line && st.kind != InOther {
      assert line[0] == 'a';
      assert line == "a=" + line[2..];
      AttrHeard(st, x, line[2..]);
      AttrEffect(v6, st, line[2..]);
      assert Step(v6, st, x) == StepAttr(v6, st, line[2..]);
    } else {
      NothingHeard(st, x);
      RestEffect(v6, st, x);
    }
  }

  /** A fingerprint value is read as an algorithm, named in any case, and the next token
      in upper case; anything else is not read. */
  lemma FingerprintReads(value: string, fp: Fingerprint)
    ensures ParseFingerprint(value) == Some(fp)
      <==> |SplitWs(value)| >= 2 && EqIgnoreCase(SplitWs(value)[0], AlgorithmToken(fp.algorithm))
           && fp.value == Upper(SplitWs(value)[1])
  {
    var ts := SplitWs(value);
    if |ts| >= 2 { NameInAnyCase(ts[0], fp.algorithm); }
    hide AlgorithmFromSdp, AlgorithmToken, Lower, Upper, SplitWs, EqIgnoreCase;
  }

  // ----- whole texts -----

  /** The role that a `setup` value names. */
  predicate Names(value: Option<string>, role: Role) {
    (role == Active <==> value == Some("active")) && (role == Passive <==> value == Some("passive"))
  }

  predicate ListedAs(value: Option<string>, options: seq<string>) {
    options == if value.None? then [] else TrimAll(SplitOn(value.value, ','))
  }

  ghost predicate CredentialRules(d: Desc, lines: seq<string>) {
    Overrides(Said(lines, Name(IceUfrag)), First(lines), d.iceUfrag)
    && Overrides(Said(lines, Name(IcePwd)), First(lines), d.icePwd)
    && Overrides(Readable(Said(lines, Name(FingerprintKey))), First(lines), d.fingerprint)
  }

  ghost predicate OtherRules(d: Desc, lines: seq<string>) {
    (exists value :: LatestSays(Said(lines, Name(Setup)), value) && Names(value, d.role))
    && (exists value :: EarliestSays(Said(lines, Name(IceOptions)), value) && ListedAs(value, d.iceOptions))
    && (d.extmapAllowMixed <==> !Silent(Said(lines, Name(ExtmapAllowMixed))))
    && (d.ended <==> !Silent(Said(lines, Name(EndOfCandidates))))
  }

  lemma SaidMore(st: ParserState, lines: seq<string>, x: string, key: Key)
    requires Tracks(st, lines) && IsHeard(key)
    ensures Said(lines + [x], Name(key)) == Said(lines, Name(key)) + [Hears(st, x, Name(key))]
  {
    SaidSnoc(lines, x, Name(key));
    hide Said, Name, ValueOf, Copying;
  }

  lemma ReadableMore(values: seq<Option<string>>, value: Option<string>)
    ensures Readable(values + [value]) == Readable(values) + [FingerprintOf(value)]
  {
    hide ParseFingerprint;
  }

  lemma CredentialsStep(st: ParserState, lines: seq<string>, x: string, n: Desc)
    requires Tracks(st, lines) && CredentialRules(st.d, lines)
    requires Effect(st.d, st.sectionIndex == 0, ListensTo(st, x), n)
    ensures CredentialRules(n, lines + [x])
  {
    FirstSnoc(lines, x);
    SaidMore(st, lines, x, IceUfrag);
    SaidMore(st, lines, x, IcePwd);
    SaidMore(st, lines, x, FingerprintKey);
    var first, f := First(lines), InsideFirst(lines);
    var fps := Said(lines, Name(FingerprintKey));
    ReadableMore(fps, Hears(st, x, Name(FingerprintKey)));
    hide Said, Name, Hears, First, InsideFirst, Copying, InsideApplication, Overrides, Readable, FingerprintOf;
    OverridesSnoc(Said(lines, Name(IceUfrag)), first, st.d.iceUfrag, Hears(st, x, Name(IceUfrag)), f);
    OverridesSnoc(Said(lines, Name(IcePwd)), first, st.d.icePwd, Hears(st, x, Name(IcePwd)), f);
    OverridesSnoc(Readable(fps), first, st.d.fingerprint, FingerprintOf(Hears(st, x, Name(FingerprintKey))), f);
  }

  lemma SilentMore<T>(values: seq<Option<T>>, v: Option<T>)
    ensures Silent(values + [v]) <==> Silent(values) && v.None?
  {
    assert (values + [v])[|values|] == v;
    assert forall i :: 0 <= i < |values| ==> (values + [v])[i] == values[i];
  }

  lemma RoleNamed(value: string)
    ensures Names(Some(value), RoleFromSdp(value))
  {}

  lemma FlagsStep(st: ParserState, lines: seq<string>, x: string, n: Desc)
    requires Tracks(st, lines) && OtherRules(st.d, lines)
    requires Effect(st.d, st.sectionIndex == 0, ListensTo(st, x), n)
    ensures n.extmapAllowMixed <==> !Silent(Said(lines + [x], Name(ExtmapAllowMixed)))
    ensures n.ended <==> !Silent(Said(lines + [x], Name(EndOfCandidates)))
  {
    SaidMore(st, lines, x, ExtmapAllowMixed);
    SaidMore(st, lines, x, EndOfCandidates);
    SilentMore(Said(lines, Name(ExtmapAllowMixed)), Hears(st, x, Name(ExtmapAllowMixed)));
    SilentMore(Said(lines, Name(EndOfCandidates)), Hears(st, x, Name(EndOfCandidates)));
    hide Said, Name, Hears, Tracks, Silent, EarliestSays, LatestSays, Names, ListedAs, Replaced;
  }

  lemma RoleStep(values: seq<Option<string>>, was: Role, value: Option<string>, now: Role)
    requires exists latest :: LatestSays(values, latest) && Names(latest, was)
    requires now == if value.Some? then RoleFromSdp(value.value) else was
    ensures exists latest :: LatestSays(values + [value], latest) && Names(latest, now)
  {
    if value.Some? { RoleNamed(value.value); }
    hide Names, LatestSays, RoleFromSdp;
    var latest :| LatestSays(values, latest) && Names(latest, was);
    LatestSnoc(values, latest, value);
  }

  lemma OptionsStep(values: seq<Option<string>>, was: seq<string>, value: Option<string>, now: seq<string>)
    requires exists earliest :: EarliestSays(values, earliest) && ListedAs(earliest, was)
    requires now == if value.Some? && was == [] then TrimAll(SplitOn(value.value, ',')) else was
    ensures exists earliest :: EarliestSays(values + [value], earliest) && ListedAs(earliest, now)
  {
    var earliest :| EarliestSays(values, earliest) && ListedAs(earliest, was);
    assert was == [] <==> earliest.None?;
    hide EarliestSays, TrimAll, SplitOn;
    EarliestSnoc(values, earliest, value);
  }

  lemma OthersStep(st: ParserState, lines: seq<string>, x: string, n: Desc)
    requires Tracks(st, lines) && OtherRules(st.d, lines)
    requires Effect(st.d, st.sectionIndex == 0, ListensTo(st, x), n)
    ensures OtherRules(n, lines + [x])
  {
    hide Said, Name, Hears, Tracks, Silent, Names, EarliestSays, LatestSays, SplitOn, TrimAll, RoleFromSdp, Replaced;
    hide ListedAs;
    RoleStep(Said(lines, Name(Setup)), st.d.role, Hears(st, x, Name(Setup)), n.role);
    OptionsStep(Said(lines, Name(IceOptions)), st.d.iceOptions, Hears(st, x, Name(IceOptions)), n.iceOptions);
    FlagsStep(st, lines, x, n);
    SaidMore(st, lines, x, Setup);
    SaidMore(st, lines, x, IceOptions);
  }

  lemma {:induction false} RulesAfter(v6: Ipv6Canon, sessionId: string, lines: seq<string>)
    requires Sdp.Run(v6, InitialState(NewDesc(Unspec, ActPass, sessionId)), lines).Ok?
    ensures var st := Sdp.Run(v6, InitialState(NewDesc(Unspec, ActPass, sessionId)), lines).value;
      Tracks(st, lines) && CredentialRules(st.d, lines) && OtherRules(st.d, lines)
    decreases |lines|
  {
    var start := InitialState(NewDesc(Unspec, ActPass, sessionId));
    if lines == [] {
      RulesAtStart(sessionId);
    } else {
      hide Tracks, CredentialRules, OtherRules, Step;
      var before, x := lines[..|lines| - 1], lines[|lines| - 1];
      assert before + [x] == lines;
      RoundTrip.RunAppend(v6, start, before, [x]);
      RulesAfter(v6, sessionId, before);
      var st := Sdp.Run(v6, start, before).value;
      assert Sdp.Run(v6, st, [x]) == Step(v6, st, x) by { RunOne(v6, st, x); }
      StepTracks(v6, st, before, x);
      StepEffect(v6, st, x);
      CredentialsStep(st, before, x, Step(v6, st, x).value.d);
      OthersStep(st, before, x, Step(v6, st, x).value.d);
    }
  }

  lemma RunOne(v6: Ipv6Canon, st: ParserState, x: string)
    ensures Sdp.Run(v6, st, [x]) == Step(v6, st, x)
  {
    assert [x][1..] == [];
    hide Step;
    match Step(v6, st, x)
    case Err(_) =>
    case Ok(next) => assert Sdp.Run(v6, next, []) == Ok(next);
  }

  lemma RulesAtStart(sessionId: string)
    ensures var st := InitialState(NewDesc(Unspec, ActPass, sessionId));
      Tracks(st, []) && CredentialRules(st.d, []) && OtherRules(st.d, [])
  {
    var none: Option<string> := None;
    assert LatestSays(Said([], Name(Setup)), none) && Names(none, ActPass);
    assert EarliestSays(Said([], Name(IceOptions)), none) && ListedAs(none, []);
  }

  lemma FlushKeeps(st: ParserState, first: bool)
    ensures Effect(st.d, first, NOTHING, Flush(st).d)
  {
    hide AddMid, ParseFingerprint, RoleFromSdp, TrimAll, SplitOn;
  }

  lemma RulesOf(v6: Ipv6Canon, sessionId: string, text: string)
    requires Sdp.Parse(v6, sessionId, text).Ok?
    ensures var d := Sdp.Parse(v6, sessionId, text).value;
      CredentialRules(d, Lines(text)) && OtherRules(d, Lines(text))
  {
    RulesAfter(v6, sessionId, Lines(text));
    var st := Sdp.Run(v6, InitialState(NewDesc(Unspec, ActPass, sessionId)), Lines(text)).value;
    FlushKeeps(st, false);
    hide Sdp.Run, Lines, Said, First, Readable, Overrides, LatestSays, EarliestSays, Silent, Flush;
  }

  /** For every text that parses, the ICE credentials are those of the last line about
      them in the first media section, if that section has one and is not copied;
      otherwise those of the first line about them outside copied sections. The
      fingerprint follows the same rule among the lines that can be read as one. */
  lemma FirstSectionOverrides(v6: Ipv6Canon, sessionId: string, text: string)
    requires Sdp.Parse(v6, sessionId, text).Ok?
    ensures var d, lines := Sdp.Parse(v6, sessionId, text).value, Lines(text);
      Overrides(Said(lines, "ice-ufrag"), First(lines), d.iceUfrag)
      && Overrides(Said(lines, "ice-pwd"), First(lines), d.icePwd)
      && Overrides(Readable(Said(lines, "fingerprint")), First(lines), d.fingerprint)
  {
    RulesOf(v6, sessionId, text);
    hide *;
    CredentialsOf(Sdp.Parse(v6, sessionId, text).value, Lines(text));
  }

  /** The role is the one that the last `setup` line outside copied sections names. */
  lemma LastSetupDecides(v6: Ipv6Canon, sessionId: string, text: string) returns (value: Option<string>)
    requires Sdp.Parse(v6, sessionId, text).Ok?
    ensures var d := Sdp.Parse(v6, sessionId, text).value;
      LatestSays(Said(Lines(text), "setup"), value)
      && (d.role == Active <==> value == Some("active")) && (d.role == Passive <==> value == Some("passive"))
  {
    RulesOf(v6, sessionId, text);
    hide *;
    value := SetupOf(Sdp.Parse(v6, sessionId, text).value, Lines(text));
  }

  lemma SetupOf(d: Desc, lines: seq<string>) returns (value: Option<string>)
    requires OtherRules(d, lines)
    ensures LatestSays(Said(lines, "setup"), value)
    ensures (d.role == Active <==> value == Some("active")) && (d.role == Passive <==> value == Some("passive"))
  {
    hide Said, LatestSays, EarliestSays, ListedAs, Silent;
    value :| LatestSays(Said(lines, Name(Setup)), value) && Names(value, d.role);
  }

  lemma OptionsOf(d: Desc, lines: seq<string>) returns (value: Option<string>)
    requires OtherRules(d, lines)
    ensures EarliestSays(Said(lines, "ice-options"), value)
    ensures d.iceOptions == if value.None? then [] else TrimAll(SplitOn(value.value, ','))
  {
    hide Said, LatestSays, EarliestSays, Names, Silent, SplitOn, TrimAll;
    value :| EarliestSays(Said(lines, Name(IceOptions)), value) && ListedAs(value, d.iceOptions);
  }

  /** The options are those of the first `ice-options` line outside copied sections. */
  lemma FirstOptionsDecide(v6: Ipv6Canon, sessionId: string, text: string) returns (value: Option<string>)
    requires Sdp.Parse(v6, sessionId, text).Ok?
    ensures EarliestSays(Said(Lines(text), "ice-options"), value)
    ensures Sdp.Parse(v6, sessionId, text).value.iceOptions
      == if value.None? then [] else TrimAll(SplitOn(value.value, ','))
  {
    RulesOf(v6, sessionId, text);
    hide *;
    value := OptionsOf(Sdp.Parse(v6, sessionId, text).value, Lines(text));
  }

  /** Either flag is set by one line anywhere outside copied sections. */
  lemma AnyLineSetsFlags(v6: Ipv6Canon, sessionId: string, text: string)
    requires Sdp.Parse(v6, sessionId, text).Ok?
    ensures var d, lines := Sdp.Parse(v6, sessionId, text).value, Lines(text);
      (d.extmapAllowMixed <==> exists i :: 0 <= i < |lines| && Says(lines, i, "extmap-allow-mixed").Some?)
      && (d.ended <==> exists i :: 0 <= i < |lines| && Says(lines, i, "end-of-candidates").Some?)
  {
    FlagRules(v6, sessionId, text);
    hide Sdp.Parse, Lines, Says, Said, Silent;
    SilentMeans(Lines(text), "extmap-allow-mixed");
    SilentMeans(Lines(text), "end-of-candidates");
  }

  lemma FlagRules(v6: Ipv6Canon, sessionId: string, text: string)
    requires Sdp.Parse(v6, sessionId, text).Ok?
    ensures var d, lines := Sdp.Parse(v6, sessionId, text).value, Lines(text);
      (d.extmapAllowMixed <==> !Silent(Said(lines, "extmap-allow-mixed")))
      && (d.ended <==> !Silent(Said(lines, "end-of-candidates")))
  {
    RulesOf(v6, sessionId, text);
    hide *;
    FlagsOf(Sdp.Parse(v6, sessionId, text).value, Lines(text));
  }

  lemma FlagsOf(d: Desc, lines: seq<string>)
    requires OtherRules(d, lines)
    ensures d.extmapAllowMixed <==> !Silent(Said(lines, "extmap-allow-mixed"))
    ensures d.ended <==> !Silent(Said(lines, "end-of-candidates"))
  {
    hide Said, Silent, LatestSays, EarliestSays, Names, ListedAs;
  }

  lemma CredentialsOf(d: Desc, lines: seq<string>)
    requires CredentialRules(d, lines)
    ensures Overrides(Said(lines, "ice-ufrag"), First(lines), d.iceUfrag)
    ensures Overrides(Said(lines, "ice-pwd"), First(lines), d.icePwd)
    ensures Overrides(Readable(Said(lines, "fingerprint")), First(lines), d.fingerprint)
  {
    hide Said, First, Readable, Overrides;
  }

  lemma SilentMeans(lines: seq<string>, key: string)
    ensures Silent(Said(lines, key)) <==> !exists i :: 0 <= i < |lines| && Says(lines, i, key).Some?
  {
    hide Says;
    if i :| 0 <= i < |lines| && Says(lines, i, key).Some? { assert Said(lines, key)[i].Some?; }
  }

  // ----- the origin line -----

  /** Part `n` of an origin line. */
  function OriginPart(line: string, n: nat): Option<string> {
    if "o=" <= line && n < |SplitWs(line[2..])| then Some(SplitWs(line[2..])[n]) else None
  }

  function Origins(lines: seq<string>, n: nat): (r: seq<Option<string>>)
    ensures |r| == |lines|
  {
    seq(|lines|, i requires 0 <= i < |lines| => OriginPart(TrimEol(lines[i]), n))
  }

  function Or(value: Option<string>, default: string): string {
    if value.Some? then value.value else default
  }

  predicate OriginEffect(d: Desc, line: string, n: Desc) {
    n.username == Or(OriginPart(line, 0), d.username)
    && n.sessionId == Or(OriginPart(line, 1), d.sessionId)
    && n.sessionVersion == Or(OriginPart(line, 2), d.sessionVersion)
  }

  lemma AttrLeavesOrigin(v6: Ipv6Canon, st: ParserState, attr: string)
    requires StepAttr(v6, st, attr).Ok?
    ensures var n := StepAttr(v6, st, attr).value.d;
      n.username == st.d.username && n.sessionId == st.d.sessionId && n.sessionVersion == st.d.sessionVersion
  {
    hide KeyOf, AttrKey, AttrValue, Candidates.Parse, ParseFingerprint, SplitWs, SplitOn, TrimAll, CandidateMid;
    hide Insert, RoleFromSdp, StepApplicationKey;
  }

  lemma StepOriginEffect(v6: Ipv6Canon, st: ParserState, x: string)
    requires Step(v6, st, x).Ok?
    ensures OriginEffect(st.d, TrimEol(x), Step(v6, st, x).value.d)
  {
    var line := TrimEol(x);
    hide StepAttr, TrimEol, SplitWs, MediaType, AddMid;
    if "a=" <= line {
      assert line[0] == 'a';
      if st.kind != InOther { AttrLeavesOrigin(v6, st, line[2..]); }
    }
  }

  ghost predicate OriginRules(d: Desc, lines: seq<string>, sessionId: string) {
    (exists name :: LatestSays(Origins(lines, 0), name) && d.username == Or(name, "rtc"))
    && (exists id :: LatestSays(Origins(lines, 1), id) && d.sessionId == Or(id, sessionId))
    && (exists version :: LatestSays(Origins(lines, 2), version) && d.sessionVersion == Or(version, "0"))
  }

  lemma OriginsSnoc(lines: seq<string>, x: string, n: nat)
    ensures Origins(lines + [x], n) == Origins(lines, n) + [OriginPart(TrimEol(x), n)]
  {
    hide OriginPart, TrimEol;
  }

  lemma OriginStep(d: Desc, lines: seq<string>, sessionId: string, x: string, n: Desc)
    requires OriginRules(d, lines, sessionId) && OriginEffect(d, TrimEol(x), n)
    ensures OriginRules(n, lines + [x], sessionId)
  {
    var line := TrimEol(x);
    hide OriginPart, TrimEol, Origins, LatestSays;
    OriginsSnoc(lines, x, 0);
    OriginsSnoc(lines, x, 1);
    OriginsSnoc(lines, x, 2);
    var name :| LatestSays(Origins(lines, 0), name) && d.username == Or(name, "rtc");
    LatestSnoc(Origins(lines, 0), name, OriginPart(line, 0));
    var id :| LatestSays(Origins(lines, 1), id) && d.sessionId == Or(id, sessionId);
    LatestSnoc(Origins(lines, 1), id, OriginPart(line, 1));
    var version :| LatestSays(Origins(lines, 2), version) && d.sessionVersion == Or(version, "0");
    LatestSnoc(Origins(lines, 2), version, OriginPart(line, 2));
  }

  lemma {:induction false} OriginAfter(v6: Ipv6Canon, sessionId: string, lines: seq<string>)
    requires Sdp.Run(v6, InitialState(NewDesc(Unspec, ActPass, sessionId)), lines).Ok?
    ensures OriginRules(Sdp.Run(v6, InitialState(NewDesc(Unspec, ActPass, sessionId)), lines).value.d, lines, sessionId)
    decreases |lines|
  {
    var start := InitialState(NewDesc(Unspec, ActPass, sessionId));
    if lines == [] {
      var none: Option<string> := None;
      assert LatestSays(Origins([], 0), none) && LatestSays(Origins([], 1), none) && LatestSays(Origins([], 2), none);
    } else {
      hide OriginRules, OriginEffect, Step;
      var before, x := lines[..|lines| - 1], lines[|lines| - 1];
      assert before + [x] == lines;
      RoundTrip.RunAppend(v6, start, before, [x]);
      OriginAfter(v6, sessionId, before);
      var st := Sdp.Run(v6, start, before).value;
      RunOne(v6, st, x);
      hide Sdp.Run;
      StepOriginEffect(v6, st, x);
      OriginStep(st.d, before, sessionId, x, Step(v6, st, x).value.d);
    }
  }

  /** For every text that parses, user name, session id and version are those of the last
      origin line, in any position, that has so many parts. */
  lemma LastOriginDecides(v6: Ipv6Canon, sessionId: string, text: string)
    returns (name: Option<string>, id: Option<string>, version: Option<string>)
    requires Sdp.Parse(v6, sessionId, text).Ok?
    ensures var d, lines := Sdp.Parse(v6, sessionId, text).value, Lines(text);
      LatestSays(Origins(lines, 0), name) && LatestSays(Origins(lines, 1), id) && LatestSays(Origins(lines, 2), version)
      && d.username == Or(name, "rtc") && d.sessionId == Or(id, sessionId) && d.sessionVersion == Or(version, "0")
  {
    var lines := Lines(text);
    OriginAfter(v6, sessionId, lines);
    var st := Sdp.Run(v6, InitialState(NewDesc(Unspec, ActPass, sessionId)), lines).value;
    FlushLeavesOrigin(st);
    var d := st.d;
    hide Sdp.Run, Lines, Origins, LatestSays, InitialState, NewDesc, Flush;
    name :| LatestSays(Origins(lines, 0), name) && d.username == Or(name, "rtc");
    id :| LatestSays(Origins(lines, 1), id) && d.sessionId == Or(id, sessionId);
    version :| LatestSays(Origins(lines, 2), version) && d.sessionVersion == Or(version, "0");
  }

  lemma FlushLeavesOrigin(st: ParserState)
    ensures var d := Flush(st).d;
      d.username == st.d.username && d.sessionId == st.d.sessionId && d.sessionVersion == st.d.sessionVersion
  {}

  // ----- when a text does not parse -----

  /** A line stops the parse if it is a candidate that cannot be read or, inside an
      application section, a number that cannot. */
  predicate StopsOn(line: string, inside: bool, candidate: Option<string>, port: Option<string>, size: Option<string>) {
    (candidate.Some? && |line| >= 2 && !ReadableCandidate(line[2..]))
    || (inside && (Unreadable(port, U16_MAX) || Unreadable(size, USIZE_MAX)))
  }

  predicate Stops(lines: seq<string>, i: nat)
    requires i < |lines|
  {
    StopsOn(TrimEol(lines[i]), InsideApplication(lines[..i]),
            Says(lines, i, "candidate"), Says(lines, i, "sctp-port"), Says(lines, i, "max-message-size"))
  }

  predicate Unreadable(value: Option<string>, max: nat) {
    value.Some? && ParseUint(value.value, max).None?
  }

  predicate ReadableCandidate(attr: string) { attr == "" || ParseBody(StripPrefixes(attr)).Ok? }

  /** The same for a line after those read so far. */
  predicate StopsAt(st: ParserState, x: string) {
    StopsOn(TrimEol(x), st.kind == InApplication,
            Hears(st, x, Name(CandidateKey)), Hears(st, x, Name(SctpPort)), Hears(st, x, Name(MaxMessageSize)))
  }

  lemma StepAttrStops(v6: Ipv6Canon, st: ParserState, attr: string)
    ensures var key, value := KeyOf(AttrKey(attr)), AttrValue(attr);
      StepAttr(v6, st, attr).Err? <==>
        (key == CandidateKey && !ReadableCandidate(attr))
        || (st.app.Some? && key == SctpPort && ParseUint(value, U16_MAX).None?)
        || (st.app.Some? && key == MaxMessageSize && ParseUint(value, USIZE_MAX).None?)
  {
    hide KeyOf, AttrKey, AttrValue, ParseBody, StripPrefixes, ParseUint, ParseFingerprint, SplitWs, SplitOn, TrimAll;
    hide CandidateMid, Insert, Attach, RoleFromSdp;
  }

  lemma StopsOnKey(attr: string, inside: bool, key: Key, value: string,
                   candidate: Option<string>, port: Option<string>, size: Option<string>)
    requires candidate == (if key == CandidateKey then Some(value) else None)
    requires port == (if key == SctpPort then Some(value) else None)
    requires size == (if key == MaxMessageSize then Some(value) else None)
    ensures StopsOn("a=" + attr, inside, candidate, port, size) <==>
      (key == CandidateKey && !ReadableCandidate(attr))
      || (inside && key == SctpPort && ParseUint(value, U16_MAX).None?)
      || (inside && key == MaxMessageSize && ParseUint(value, USIZE_MAX).None?)
  {
    assert ("a=" + attr)[2..] == attr;
    hide ReadableCandidate, ParseUint;
  }

  lemma AttrStops(v6: Ipv6Canon, st: ParserState, x: string, attr: string)
    requires TrimEol(x) == "a=" + attr && st.kind != InOther && (st.app.Some? <==> st.kind == InApplication)
    ensures StepAttr(v6, st, attr).Err? <==> StopsAt(st, x)
  {
    hide KeyOf, AttrKey, AttrValue, Hears, TrimEol, ReadableCandidate, ParseUint, Name, StopsOn, StepAttr;
    StepAttrStops(v6, st, attr);
    HearsKey(st, x, attr, CandidateKey);
    HearsKey(st, x, attr, SctpPort);
    HearsKey(st, x, attr, MaxMessageSize);
    StopsOnKey(attr, st.app.Some?, KeyOf(AttrKey(attr)), AttrValue(attr), Hears(st, x, Name(CandidateKey)),
               Hears(st, x, Name(SctpPort)), Hears(st, x, Name(MaxMessageSize)));
  }

  lemma StepStops(v6: Ipv6Canon, st: ParserState, x: string)
    requires st.app.Some? <==> st.kind == InApplication
    ensures Step(v6, st, x).Err? <==> StopsAt(st, x)
  {
    var line := TrimEol(x);
    if "a=" <= line && st.kind != InOther {
      assert line[0] == 'a';
      assert line == "a=" + line[2..];
      hide StopsAt, StepAttr, TrimEol;
      AttrStops(v6, st, x, line[2..]);
    } else {
      hide StepAttr, StepMedia, StepOther, StepOrigin, TrimEol, StopsAt;
      NeverStops(st, x);
    }
  }

  lemma NeverStops(st: ParserState, x: string)
    requires !("a=" <= TrimEol(x)) || st.kind == InOther
    ensures !StopsAt(st, x)
  {
    hide TrimEol, Name;
    forall key | IsHeard(key) ensures Hears(st, x, Name(key)) == None {
      if st.kind != InOther { NoAttr(TrimEol(x), Name(key)); }
    }
    hide Hears, ReadableCandidate;
  }

  lemma StopsNamed(lines: seq<string>, i: nat)
    requires i < |lines|
    ensures Stops(lines, i)
      <==> StopsOn(TrimEol(lines[i]), InsideApplication(lines[..i]), Says(lines, i, Name(CandidateKey)),
                   Says(lines, i, Name(SctpPort)), Says(lines, i, Name(MaxMessageSize)))
  {
    hide StopsOn, Says, InsideApplication, TrimEol;
  }

  lemma StopsLast(st: ParserState, lines: seq<string>, x: string)
    requires Tracks(st, lines)
    ensures Stops(lines + [x], |lines|) <==> StopsAt(st, x)
  {
    var all := lines + [x];
    assert all[..|lines|] == lines && all[|lines|] == x;
    StopsNamed(all, |lines|);
    hide Name, Stops;
    SaysLast(lines, x, Name(CandidateKey));
    SaysLast(lines, x, Name(SctpPort));
    SaysLast(lines, x, Name(MaxMessageSize));
    hide Says, Copying, InsideApplication, InsideFirst, NoMedia, ValueOf, TrimEol, StopsOn;
  }

  lemma StopsPrefix(lines: seq<string>, x: string, i: nat)
    requires i < |lines|
    ensures Stops(lines + [x], i) <==> Stops(lines, i)
  {
    assert (lines + [x])[..i] == lines[..i] && (lines + [x])[i] == lines[i];
    SaysPrefix(lines, x, i, Name(CandidateKey));
    SaysPrefix(lines, x, i, Name(SctpPort));
    SaysPrefix(lines, x, i, Name(MaxMessageSize));
    hide Says, Copying, InsideApplication, TrimEol, StopsOn;
  }

  lemma SaysPrefix(lines: seq<string>, x: string, i: nat, key: string)
    requires i < |lines|
    ensures Says(lines + [x], i, key) == Says(lines, i, key)
  {
    assert (lines + [x])[..i] == lines[..i] && (lines + [x])[i] == lines[i];
    hide Copying, ValueOf, TrimEol;
  }

  predicate SomeStops(lines: seq<string>) { exists i :: 0 <= i < |lines| && Stops(lines, i) }

  lemma SomeStopsSnoc(st: ParserState, lines: seq<string>, x: string)
    requires Tracks(st, lines)
    ensures SomeStops(lines + [x]) <==> SomeStops(lines) || StopsAt(st, x)
  {
    StopsLast(st, lines, x);
    SomeStopsMore(lines, x);
    hide StopsAt, Tracks;
  }

  lemma SomeStopsMore(lines: seq<string>, x: string)
    ensures SomeStops(lines + [x]) <==> SomeStops(lines) || Stops(lines + [x], |lines|)
  {
    forall i | 0 <= i < |lines| ensures Stops(lines + [x], i) <==> Stops(lines, i) { StopsPrefix(lines, x, i); }
    hide Stops;
    if i :| 0 <= i < |lines| && Stops(lines, i) { assert Stops(lines + [x], i); }
  }

  lemma {:induction false} RunStops(v6: Ipv6Canon, sessionId: string, lines: seq<string>)
    ensures Sdp.Run(v6, InitialState(NewDesc(Unspec, ActPass, sessionId)), lines).Err? <==> SomeStops(lines)
    decreases |lines|
  {
    if lines != [] {
      var start := InitialState(NewDesc(Unspec, ActPass, sessionId));
      hide SomeStops, Step, StopsAt, CredentialRules, OtherRules;
      var before, x := lines[..|lines| - 1], lines[|lines| - 1];
      assert before + [x] == lines;
      RoundTrip.RunAppend(v6, start, before, [x]);
      RunStops(v6, sessionId, before);
      hide Sdp.Run;
      if Sdp.Run(v6, start, before).Ok? {
        var st := Sdp.Run(v6, start, before).value;
        RulesAfter(v6, sessionId, before);
        RunOne(v6, st, x);
        StepStops(v6, st, x);
        SomeStopsSnoc(st, before, x);
      } else {
        SomeStopsMore(before, x);
      }
    }
  }

  /** A text fails to parse if and only if some line of it stops the parse. */
  lemma FailsExactly(v6: Ipv6Canon, sessionId: string, text: string)
    ensures Sdp.Parse(v6, sessionId, text).Err?
      <==> SomeStops(Lines(text))
  {
    RunStops(v6, sessionId, Lines(text));
    hide SomeStops, Lines, Sdp.Run, InitialState, NewDesc;
  }
}
