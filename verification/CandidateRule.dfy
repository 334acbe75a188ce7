/** Which candidates a text gives, and under which mid: line by line, in terms of the
    lines alone. */
module CandidateRules {
  import opened Text
  import opened Ip
  import opened Candidates
  import opened Sdp
  import opened CandidateLists
  import opened Overrides
  import opened ApplicationRules
  import RoundTrip

  /** The bundle group that each line gives. */
  function Groups(lines: seq<string>): (r: seq<Option<seq<string>>>)
    ensures |r| == |lines|
  {
    seq(|lines|, i requires 0 <= i < |lines| => GroupOf(Says(lines, i, "group")))
  }

  function GroupOf(value: Option<string>): Option<seq<string>> {
    if value.Some? && "BUNDLE" <= value.value then Some(SplitWs(value.value[6..])) else None
  }

  /** The mid for a candidate after these lines: inside an application section the last
      mid given there, or the section's number; before any section the first of
      the last group, or "0". */
  ghost predicate MidInForce(lines: seq<string>, mid: string) {
    if InsideApplication(lines) then exists j: nat :: SectionGives(lines, j, mid)
    else exists group :: LatestSays(Groups(lines), group) && mid == FirstOr(group)
  }

  function FirstOr(group: Option<seq<string>>): string {
    if group.Some? && group.value != [] then group.value[0] else "0"
  }

  ghost predicate SectionGives(lines: seq<string>, j: nat, mid: string) {
    j < |lines| && LastMedia(lines, j)
    && exists said :: LatestSays(Values(lines[j + 1..], "mid"), said)
         && mid == if said.Some? then said.value else Decimal(MediaCount(lines[..j]))
  }

  /** The candidates on these lines, in order, copied lines left out. */
  ghost predicate Offers(v6: Ipv6Canon, lines: seq<string>, list: seq<Candidate>) {
    if lines == [] then list == []
    else
      var before, x := lines[..|lines| - 1], lines[|lines| - 1];
      if Says(lines, |lines| - 1, "candidate").None? then Offers(v6, before, list)
      else
        list != [] && Offers(v6, before, list[..|list| - 1]) && Offered(v6, before, x, list[|list| - 1])
  }

  ghost predicate Offered(v6: Ipv6Canon, before: seq<string>, x: string, c: Candidate) {
    exists mid :: MidInForce(before, mid) && Offer(v6, x, mid, c)
  }

  predicate Offer(v6: Ipv6Canon, x: string, mid: string, c: Candidate) {
    |TrimEol(x)| >= 2 && Candidates.Parse(v6, TrimEol(x)[2..], mid) == Ok(c)
  }

  // ----- the parser's state -----

  ghost predicate GroupHeld(st: ParserState, lines: seq<string>) {
    exists group :: LatestSays(Groups(lines), group) && st.d.bundleMids == if group.Some? then group.value else []
  }

  ghost predicate Gathered(v6: Ipv6Canon, st: ParserState, lines: seq<string>) {
    (st.kind != InOther ==> st.otherMid == None)
    && (st.kind == NoSection ==> GroupHeld(st, lines))
    && exists list :: Offers(v6, lines, list) && st.d.candidates == Firsts(list)
  }

  lemma GroupsSnoc(st: ParserState, lines: seq<string>, x: string)
    requires Tracks(st, lines)
    ensures Groups(lines + [x]) == Groups(lines) + [GroupOf(Hears(st, x, "group"))]
  {
    SaysLast(lines, x, "group");
    forall i | 0 <= i < |lines| ensures Says(lines + [x], i, "group") == Says(lines, i, "group") {
      SaysPrefix(lines, x, i, "group");
    }
    hide Says, ValueOf, SplitWs, Copying;
  }

  /** What one line does outside a media line. */
  ghost predicate LineEffect(v6: Ipv6Canon, st: ParserState, x: string, n: ParserState) {
    n.kind == st.kind
    && (st.kind != InOther ==> n.otherMid == st.otherMid)
    && n.d.bundleMids == (if GroupOf(Hears(st, x, "group")).Some? then GroupOf(Hears(st, x, "group")).value else st.d.bundleMids)
    && if Hears(st, x, "candidate").Some?
       then exists c :: Offer(v6, x, CandidateMid(st), c) && n.d.candidates == Insert(st.d.candidates, c)
       else n.d.candidates == st.d.candidates
  }

  predicate KeyEffect(v6: Ipv6Canon, st: ParserState, key: Key, attr: string, value: string, n: ParserState) {
    n.kind == st.kind && n.otherMid == st.otherMid
    && n.d.bundleMids == (if key == Group && "BUNDLE" <= value then SplitWs(value[6..]) else st.d.bundleMids)
    && if key == CandidateKey
       then Candidates.Parse(v6, attr, CandidateMid(st)).Ok?
            && n.d.candidates == Insert(st.d.candidates, Candidates.Parse(v6, attr, CandidateMid(st)).value)
       else n.d.candidates == st.d.candidates
  }

  lemma AttrKeyEffect(v6: Ipv6Canon, st: ParserState, attr: string)
    requires StepAttr(v6, st, attr).Ok?
    ensures KeyEffect(v6, st, KeyOf(AttrKey(attr)), attr, AttrValue(attr), StepAttr(v6, st, attr).value)
  {
    hide KeyOf, AttrKey, AttrValue, Candidates.Parse, ParseFingerprint, SplitWs, SplitOn, TrimAll, CandidateMid;
    hide Insert, RoleFromSdp, ParseUint;
  }

  lemma GroupAndCandidate(k: string)
    ensures KeyOf(k) == Group <==> k == "group"
    ensures KeyOf(k) == CandidateKey <==> k == "candidate"
  {}

  lemma HearsGroupAndCandidate(st: ParserState, x: string, attr: string)
    requires TrimEol(x) == "a=" + attr && st.kind != InOther
    ensures Hears(st, x, "group") == if KeyOf(AttrKey(attr)) == Group then Some(AttrValue(attr)) else None
    ensures Hears(st, x, "candidate") == if KeyOf(AttrKey(attr)) == CandidateKey then Some(AttrValue(attr)) else None
  {
    GroupAndCandidate(AttrKey(attr));
    ValueMeans(attr, "group");
    ValueMeans(attr, "candidate");
    hide KeyOf, AttrKey, AttrValue, ValueOf, TrimEol;
  }

  lemma AttrLineEffect(v6: Ipv6Canon, st: ParserState, x: string, attr: string)
    requires TrimEol(x) == "a=" + attr && st.kind != InOther && StepAttr(v6, st, attr).Ok?
    ensures LineEffect(v6, st, x, StepAttr(v6, st, attr).value)
  {
    AttrKeyEffect(v6, st, attr);
    HearsGroupAndCandidate(st, x, attr);
    assert TrimEol(x)[2..] == attr;
    hide KeyOf, AttrKey, AttrValue, StepAttr, Hears, TrimEol, Candidates.Parse, CandidateMid, Insert, SplitWs;
    if Hears(st, x, "candidate").Some? {
      assert Offer(v6, x, CandidateMid(st), Candidates.Parse(v6, attr, CandidateMid(st)).value);
    }
  }

  lemma OtherLineEffect(v6: Ipv6Canon, st: ParserState, x: string)
    requires !IsMedia(x) && (!("a=" <= TrimEol(x)) || st.kind == InOther) && Step(v6, st, x).Ok?
    ensures LineEffect(v6, st, x, Step(v6, st, x).value)
  {
    if st.kind != InOther {
      NoAttr(TrimEol(x), "group");
      NoAttr(TrimEol(x), "candidate");
    }
    hide StepAttr, ValueOf, TrimEol, SplitWs;
  }

  lemma PlainLineEffect(v6: Ipv6Canon, st: ParserState, x: string)
    requires !IsMedia(x) && Step(v6, st, x).Ok?
    ensures LineEffect(v6, st, x, Step(v6, st, x).value)
  {
    var line := TrimEol(x);
    hide LineEffect, StepAttr, StepOther, StepOrigin, TrimEol;
    if "a=" <= line && st.kind != InOther {
      assert line[0] == 'a';
      assert line == "a=" + line[2..];
      AttrLineEffect(v6, st, x, line[2..]);
    } else {
      OtherLineEffect(v6, st, x);
    }
  }

  // ----- the mid in force -----

  lemma NoSectionYet(lines: seq<string>)
    requires !Copying(lines) && !InsideApplication(lines)
    ensures NoMedia(lines)
  {
    hide IsMedia, IsApplicationMedia;
    if k :| 0 <= k < |lines| && IsMedia(lines[k]) { SomeIsLast(lines, k); }
  }

  lemma {:induction false} SomeIsLast(lines: seq<string>, k: nat)
    requires k < |lines| && IsMedia(lines[k])
    ensures exists j :: 0 <= j < |lines| && LastMedia(lines, j)
    decreases |lines| - k
  {
    hide IsMedia;
    if m :| k < m < |lines| && IsMedia(lines[m]) { SomeIsLast(lines, m); } else { assert LastMedia(lines, k); }
  }

  lemma SectionMid(lines: seq<string>, j: nat, app: Application)
    requires Open(lines, j, app)
    ensures SectionGives(lines, j, app.mid)
  {
    hide Values, LatestSays, MediaCount, Decimal, LastMedia, IsApplicationMedia;
  }

  lemma CandidateMidInForce(v6: Ipv6Canon, st: ParserState, lines: seq<string>)
    requires Follows(st, lines) && Gathered(v6, st, lines) && st.kind != InOther
    ensures MidInForce(lines, CandidateMid(st))
  {
    hide Offers, Open, Stored, MediaCount, Groups, LatestSays, InsideFirst, SectionGives;
    if st.app.Some? {
      hide Copying, InsideApplication, NoMedia, GroupHeld;
      var j: nat :| Open(lines, j, st.app.value);
      SectionMid(lines, j, st.app.value);
    } else {
      NoSectionYet(lines);
      hide Copying, InsideApplication, NoMedia;
      var group :| LatestSays(Groups(lines), group) && st.d.bundleMids == if group.Some? then group.value else [];
      assert Decimal(0) == "0";
      assert CandidateMid(st) == FirstOr(group);
    }
  }

  // ----- the invariant -----

  lemma OffersMore(v6: Ipv6Canon, st: ParserState, lines: seq<string>, x: string, list: seq<Candidate>)
    requires Tracks(st, lines) && Offers(v6, lines, list) && Hears(st, x, "candidate").None?
    ensures Offers(v6, lines + [x], list)
  {
    SaysLast(lines, x, "candidate");
    assert (lines + [x])[..|lines|] == lines;
    hide Says, Copying, ValueOf, InsideApplication;
  }

  lemma OffersOne(v6: Ipv6Canon, st: ParserState, lines: seq<string>, x: string, list: seq<Candidate>, c: Candidate)
    requires Tracks(st, lines) && Offers(v6, lines, list) && Hears(st, x, "candidate").Some?
    requires Offered(v6, lines, x, c)
    ensures Offers(v6, lines + [x], list + [c])
  {
    SaysLast(lines, x, "candidate");
    var all, more := lines + [x], list + [c];
    assert all[..|all| - 1] == lines && all[|all| - 1] == x && more[..|more| - 1] == list && more[|more| - 1] == c;
    assert Says(all, |all| - 1, "candidate").Some?;
    hide Says, Copying, ValueOf, InsideApplication, InsideFirst, NoMedia, Offered, TrimEol;
  }

  lemma ListGrows(v6: Ipv6Canon, st: ParserState, lines: seq<string>, x: string, n: ParserState)
    requires Follows(st, lines) && Gathered(v6, st, lines) && LineEffect(v6, st, x, n)
    ensures exists list :: Offers(v6, lines + [x], list) && n.d.candidates == Firsts(list)
  {
    var list :| Offers(v6, lines, list) && st.d.candidates == Firsts(list);
    if Hears(st, x, "candidate").Some? {
      assert st.kind != InOther;
      CandidateMidInForce(v6, st, lines);
      var c :| Offer(v6, x, CandidateMid(st), c) && n.d.candidates == Insert(st.d.candidates, c);
      hide Offers, Offer, Hears, MidInForce, CandidateMid, Firsts, Insert, GroupHeld, Stored, Open;
      OffersOne(v6, st, lines, x, list, c);
      InsertIsFirst(list, c);
    } else {
      hide Offers, Hears, GroupHeld, Stored, Open;
      OffersMore(v6, st, lines, x, list);
    }
  }

  lemma GroupMore(st: ParserState, lines: seq<string>, x: string, n: ParserState)
    requires Tracks(st, lines) && GroupHeld(st, lines)
    requires n.d.bundleMids
      == if GroupOf(Hears(st, x, "group")).Some? then GroupOf(Hears(st, x, "group")).value else st.d.bundleMids
    ensures GroupHeld(n, lines + [x])
  {
    var group :| LatestSays(Groups(lines), group) && st.d.bundleMids == if group.Some? then group.value else [];
    GroupsSnoc(st, lines, x);
    hide Groups, LatestSays, Hears, GroupOf, Tracks;
    LatestSnoc(Groups(lines), group, GroupOf(Hears(st, x, "group")));
  }

  lemma PlainGathers(v6: Ipv6Canon, st: ParserState, lines: seq<string>, x: string)
    requires Follows(st, lines) && Gathered(v6, st, lines) && !IsMedia(x) && Step(v6, st, x).Ok?
    ensures Gathered(v6, Step(v6, st, x).value, lines + [x])
  {
    PlainLineEffect(v6, st, x);
    var n := Step(v6, st, x).value;
    hide Step;
    ListGrows(v6, st, lines, x, n);
    if st.kind == NoSection { GroupMore(st, lines, x, n); }
    hide Offers, GroupHeld, Hears, GroupOf, Stored, Open;
  }

  lemma MediaHolds(st: ParserState, line: string)
    requires "m=" <= line
    ensures var n := StepMedia(st, line);
      n.kind != NoSection && n.d.candidates == st.d.candidates
      && ((st.kind != InOther ==> st.otherMid == None) && n.kind != InOther ==> n.otherMid == None)
  {
    hide MediaType, AddMid;
  }

  lemma MediaGathers(v6: Ipv6Canon, st: ParserState, lines: seq<string>, x: string)
    requires Follows(st, lines) && Gathered(v6, st, lines) && IsMedia(x)
    ensures Gathered(v6, StepMedia(st, TrimEol(x)), lines + [x])
  {
    MediaHolds(st, TrimEol(x));
    assert TrimEol(x)[0] == 'm';
    NoAttr(TrimEol(x), "candidate");
    assert Hears(st, x, "candidate") == None;
    var list :| Offers(v6, lines, list) && st.d.candidates == Firsts(list);
    hide StepMedia, TrimEol, Hears, GroupHeld, Stored, Open;
    OffersMore(v6, st, lines, x, list);
    hide Offers;
  }

  lemma {:induction false} GatheredAfter(v6: Ipv6Canon, sessionId: string, lines: seq<string>)
    requires Sdp.Run(v6, InitialState(NewDesc(Unspec, ActPass, sessionId)), lines).Ok?
    ensures Gathered(v6, Sdp.Run(v6, InitialState(NewDesc(Unspec, ActPass, sessionId)), lines).value, lines)
    decreases |lines|
  {
    var start := InitialState(NewDesc(Unspec, ActPass, sessionId));
    if lines == [] {
      var none: Option<seq<string>> := None;
      assert LatestSays(Groups([]), none);
      assert Offers(v6, [], []);
    } else {
      hide Gathered, Step, Follows;
      var before, x := lines[..|lines| - 1], lines[|lines| - 1];
      assert before + [x] == lines;
      RoundTrip.RunAppend(v6, start, before, [x]);
      GatheredAfter(v6, sessionId, before);
      FollowsAfter(v6, sessionId, before);
      var st := Sdp.Run(v6, start, before).value;
      RunOne(v6, st, x);
      hide Sdp.Run;
      if IsMedia(x) {
        MediaGathers(v6, st, before, x);
        StepOnMedia(v6, st, x);
      } else {
        PlainGathers(v6, st, before, x);
      }
    }
  }

  lemma StepOnMedia(v6: Ipv6Canon, st: ParserState, x: string)
    requires IsMedia(x)
    ensures Step(v6, st, x) == Ok(StepMedia(st, TrimEol(x)))
  {
    hide StepMedia;
  }

  lemma FlushKeepsCandidates(st: ParserState)
    ensures Flush(st).d.candidates == st.d.candidates
  {}

  /** For every text that parses, the candidates are the first of each (foundation, node,
      service) among the candidate lines outside copied sections, in line order,
      each read under the mid in force there. */
  lemma CandidatesByLine(v6: Ipv6Canon, sessionId: string, text: string) returns (list: seq<Candidate>)
    requires Sdp.Parse(v6, sessionId, text).Ok?
    ensures Offers(v6, Lines(text), list)
    ensures Sdp.Parse(v6, sessionId, text).value.candidates == Firsts(list)
  {
    var lines := Lines(text);
    GatheredAfter(v6, sessionId, lines);
    var st := Sdp.Run(v6, InitialState(NewDesc(Unspec, ActPass, sessionId)), lines).value;
    FlushKeepsCandidates(st);
    hide Sdp.Run, Lines, InitialState, NewDesc, Flush, Offers, Firsts, GroupHeld;
    list :| Offers(v6, lines, list) && st.d.candidates == Firsts(list);
  }
}
