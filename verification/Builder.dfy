/** What any sequence of builder calls on a new description keeps. */
module Builder {
  import opened Text
  import opened Ip
  import opened Candidates
  import opened Sdp
  import opened CandidateLists

  /** The builder's calls. Renaming through a mutable borrow of the
      application is not one of them. */
  datatype Call = SetApp(app: Application) | OrCreate(mid: string) | AddCand(candidate: Candidate)

  function Apply(d: Desc, call: Call): Desc {
    match call
    case SetApp(app) => SetApplication(d, app)
    case OrCreate(mid) => ApplicationOrCreate(d, mid)
    case AddCand(c) => AddCandidate(d, c)
  }

  function ApplyAll(d: Desc, calls: seq<Call>): Desc {
    if calls == [] then d else Apply(ApplyAll(d, calls[..|calls| - 1]), calls[|calls| - 1])
  }

  predicate NoDuplicates(mids: seq<string>) {
    forall i, j :: 0 <= i < j < |mids| ==> mids[i] != mids[j]
  }

  /** The bundle group has no duplicates and names the application. */
  predicate BundleOk(d: Desc) {
    NoDuplicates(d.bundleMids) && (d.application.Some? ==> d.application.value.mid in d.bundleMids)
  }

  lemma {:induction false} WithoutNoDuplicates(mids: seq<string>, mid: string)
    requires NoDuplicates(mids)
    ensures NoDuplicates(Without(mids, mid))
  {
    if mids != [] {
      WithoutNoDuplicates(mids[1..], mid);
      assert forall j :: 1 <= j < |mids| ==> mids[j] == mids[1..][j - 1];
      assert mids[0] !in mids[1..];
    }
  }

  lemma SetApplicationKeeps(d: Desc, app: Application)
    requires BundleOk(d)
    ensures BundleOk(SetApplication(d, app))
    ensures SetApplication(d, app).candidates == d.candidates
    ensures forall m :: m in SetApplication(d, app).bundleMids <==>
      m == app.mid || (m in d.bundleMids && !(d.application.Some? && m == d.application.value.mid))
  {
    if d.application.Some? { WithoutNoDuplicates(d.bundleMids, d.application.value.mid); }
  }

  /** The new mid goes first, unless the group has it; the old one leaves, and the
      others keep their order. */
  lemma NewMidGoesFirst(d: Desc, app: Application, before: seq<string>, after: seq<string>)
    requires BundleOk(d)
    requires d.application.Some? ==> d.bundleMids == before + [d.application.value.mid] + after
    requires d.application.None? ==> d.bundleMids == before + after
    ensures SetApplication(d, app).bundleMids
      == if app.mid in before + after then before + after else [app.mid] + (before + after)
    ensures SetApplication(d, app).application == Some(app)
  {
    if d.application.Some? {
      var mid := d.application.value.mid;
      var mids := before + [mid] + after;
      assert mids[|before|] == mid;
      forall i | 0 <= i < |before| ensures before[i] != mid { assert mids[i] == before[i]; }
      forall i | 0 <= i < |after| ensures after[i] != mid { assert mids[|before| + 1 + i] == after[i]; }
      WithoutMiddle(before, mid, after);
    }
  }

  lemma {:induction false} WithoutMiddle(before: seq<string>, mid: string, after: seq<string>)
    requires mid !in before && mid !in after
    ensures Without(before + [mid] + after, mid) == before + after
  {
    if before == [] {
      assert before + [mid] + after == [mid] + after;
      WithoutAbsent(after, mid);
      assert [] + after == after;
    } else {
      assert (before + [mid] + after)[1..] == before[1..] + [mid] + after;
      WithoutMiddle(before[1..], mid, after);
      assert [before[0]] + (before[1..] + after) == before + after;
    }
  }

  lemma {:induction false} WithoutAbsent(mids: seq<string>, mid: string)
    requires mid !in mids
    ensures Without(mids, mid) == mids
  {
    if mids != [] { WithoutAbsent(mids[1..], mid); }
  }

  /** A candidate without a mid is given the application's, wherever that stands in the
      group, and so is written in its section; with no application it is given
      the first of the group, or "0". */
  lemma HintedCandidateIsWritten(d: Desc, c: Candidate)
    requires c.mid == None && !Has(d.candidates, c.HintMid(BundleMid(d)))
    ensures var n := AddCandidate(d, c);
      n.candidates != [] && n.candidates[..|n.candidates| - 1] == d.candidates
    ensures var last := AddCandidate(d, c).candidates[|d.candidates|];
      (d.application.Some? ==> last.mid == Some(d.application.value.mid))
      && (d.application.None? && d.bundleMids != [] ==> last.mid == Some(d.bundleMids[0]))
      && (d.application.None? && d.bundleMids == [] ==> last.mid == Some("0"))
      && last.(mid := None) == c
    ensures d.application.Some? ==>
      var mid := d.application.value.mid;
      Matching(AddCandidate(d, c).candidates, mid) == Matching(d.candidates, mid) + [c.(mid := Some(mid))]
  {
    if d.application.Some? { MatchingSnoc(d.candidates, c.HintMid(BundleMid(d)), d.application.value.mid); }
  }

  lemma {:induction false} MatchingSnoc(cs: seq<Candidate>, c: Candidate, mid: string)
    ensures Matching(cs + [c], mid) == Matching(cs, mid) + if c.Mid() == mid then [c] else []
  {
    if cs == [] {
      assert cs + [c] == [c] && [c][1..] == [];
    } else {
      assert (cs + [c])[1..] == cs[1..] + [c];
      MatchingSnoc(cs[1..], c, mid);
    }
  }

  // ----- candidates -----

  /** The candidates offered by the calls, with the mid each one is given. */
  function Offered(d: Desc, calls: seq<Call>): seq<Candidate> {
    if calls == [] then []
    else
      var front := calls[..|calls| - 1];
      var last := calls[|calls| - 1];
      Offered(d, front) + (if last.AddCand? then [last.candidate.HintMid(BundleMid(ApplyAll(d, front)))] else [])
  }

  /** Over every sequence of builder calls on a new description: the bundle
      group has no duplicates and names the application, and the candidates are
      exactly the first offers of each (foundation, node, service), in order. */
  lemma {:induction false} EveryBuild(typ: SdpType, role: Role, sessionId: string, calls: seq<Call>)
    ensures var d := ApplyAll(NewDesc(typ, role, sessionId), calls);
      BundleOk(d) && d.candidates == Firsts(Offered(NewDesc(typ, role, sessionId), calls))
      && Distinct(d.candidates)
    decreases |calls|
  {
    var start := NewDesc(typ, role, sessionId);
    FirstsDiffer(Offered(start, calls));
    if calls != [] {
      hide Firsts, Distinct;
      var front, last := calls[..|calls| - 1], calls[|calls| - 1];
      EveryBuild(typ, role, sessionId, front);
      CallKeeps(ApplyAll(start, front), last, Offered(start, front));
    } else {
      assert Firsts([]) == [];
    }
  }

  /** One call keeps the bundle group sound and adds at most its own offer. */
  lemma CallKeeps(d: Desc, call: Call, offered: seq<Candidate>)
    requires BundleOk(d) && d.candidates == Firsts(offered)
    ensures BundleOk(Apply(d, call))
    ensures Apply(d, call).candidates
      == Firsts(offered + (if call.AddCand? then [call.candidate.HintMid(BundleMid(d))] else []))
  {
    match call
    case SetApp(app) =>
      SetApplicationKeeps(d, app);
      assert offered + [] == offered;
    case OrCreate(mid) =>
      SetApplicationKeeps(d, NewApplication(mid));
      assert offered + [] == offered;
    case AddCand(c) =>
      InsertIsFirst(offered, c.HintMid(BundleMid(d)));
  }
}
