/** The SCTP transport under every interleaving of its calls. Each atomic
    operation and each lock-held block is one step of one call; a call made
    from inside a handler is a call of its own. */
module Sctp {
  import opened Ledgers
  import opened Text

  datatype SctpState = New | Connecting | Closed

  /** Where a call is. The number is the write it is about to announce. */
  datatype Pc =
    | ConnectCheck | ConnectSwap | ConnectCas | ConnectAssociate(index: nat) | ConnectAnnounce(index: nat)
    | CloseSwap | CloseState | CloseAnnounce(index: nat) | CloseClear
    | Done

  datatype Shared = Shared(
    state: SctpState,
    closed: bool,
    started: bool,
    associated: bool,
    ledger: Ledger<SctpState>,
    opener: nat,   // the call that set `started`
    closer: nat)   // the call that set `closed`

  datatype State = State(shared: Shared, calls: map<nat, Pc>)

  const START := State(Shared(New, false, false, false, Ledger([], []), 0, 0), map[])

  /** A schedule is a sequence of these: a call begins, or makes its next step. */
  datatype Event = Connect(call: nat) | Close(call: nat) | Advance(call: nat)

  function WriteState(m: Shared, value: SctpState): Shared {
    m.(state := value, ledger := Write(m.ledger, value))
  }

  /** One step of call `c`, which is at `pc`. */
  function Move(m: Shared, c: nat, pc: Pc): (Shared, Pc) {
    match pc
    case ConnectCheck => (m, if m.closed then Done else ConnectSwap)
    case ConnectSwap => if m.started then (m, Done) else (m.(started := true, opener := c), ConnectCas)
    case ConnectCas =>
      if m.state == New then (WriteState(m, Connecting), ConnectAssociate(|m.ledger.writes|)) else (m, Done)
    case ConnectAssociate(index) => (m.(associated := true), ConnectAnnounce(index))
    case ConnectAnnounce(index) => (m.(ledger := Announce(m.ledger, index)), Done)
    case CloseSwap => if m.closed then (m, Done) else (m.(closed := true, closer := c), CloseState)
    case CloseState =>
      if m.state != Closed then (WriteState(m, Closed), CloseAnnounce(|m.ledger.writes|)) else (m, CloseClear)
    case CloseAnnounce(index) => (m.(ledger := Announce(m.ledger, index)), CloseClear)
    case CloseClear => (m.(associated := false), Done)
    case Done => (m, Done)
  }

  function Begin(s: State, c: nat, pc: Pc): State {
    if c in s.calls then s else s.(calls := s.calls[c := pc])
  }

  function Step(s: State, c: nat): State {
    if c !in s.calls then s
    else var (shared, pc) := Move(s.shared, c, s.calls[c]); State(shared, s.calls[c := pc])
  }

  function Apply(s: State, e: Event): State {
    match e
    case Connect(c) => Begin(s, c, ConnectCheck)
    case Close(c) => Begin(s, c, CloseSwap)
    case Advance(c) => Step(s, c)
  }

  function Run(events: seq<Event>): State {
    if events == [] then START else Apply(Run(events[..|events| - 1]), events[|events| - 1])
  }

  // ----- the invariant -----

  function Owes(pc: Pc): Option<nat> {
    match pc
    case ConnectAssociate(index) => Some(index)
    case ConnectAnnounce(index) => Some(index)
    case CloseAnnounce(index) => Some(index)
    case _ => None
  }

  predicate IsOpening(pc: Pc) { pc == ConnectCas || pc.ConnectAssociate? || pc.ConnectAnnounce? }

  predicate IsClosing(pc: Pc) { pc == CloseState || pc.CloseAnnounce? || pc == CloseClear }

  /** What the shared fields say about each other. */
  predicate SharedOk(m: Shared) {
    m.state == Current(New, m.ledger.writes)
    && (m.ledger.writes == [] || m.ledger.writes == [Connecting] || m.ledger.writes == [Closed]
        || m.ledger.writes == [Connecting, Closed])
    && (Connecting in m.ledger.writes ==> m.started)
    && (Closed in m.ledger.writes ==> m.closed)
  }

  /** What a call's position says about the shared fields. */
  predicate CallOk(m: Shared, c: nat, pc: Pc) {
    (IsOpening(pc) ==> m.started && m.opener == c && (pc == ConnectCas <==> Connecting !in m.ledger.writes))
    && (IsClosing(pc) ==> m.closed && m.closer == c && (pc == CloseState <==> Closed !in m.ledger.writes))
  }

  /** The opener and the closer are still inside their calls, or done with their writes. */
  predicate OwnersOk(s: State) {
    var m := s.shared;
    (m.started ==> m.opener in s.calls && (IsOpening(s.calls[m.opener]) || s.calls[m.opener] == Done))
    && (m.closed ==> m.closer in s.calls && (IsClosing(s.calls[m.closer]) || s.calls[m.closer] == Done))
    && (m.closed && Closed !in m.ledger.writes ==> s.calls[m.closer] == CloseState)
  }

  ghost predicate Inv(s: State) {
    SharedOk(s.shared)
    && (forall c :: c in s.calls ==> CallOk(s.shared, c, s.calls[c]))
    && OwnersOk(s)
    && Balanced(s.shared.ledger, Waiting(s.calls, Owes))
  }

  lemma MoveKeepsShared(m: Shared, c: nat, pc: Pc)
    requires SharedOk(m) && CallOk(m, c, pc)
    ensures SharedOk(Move(m, c, pc).0) && CallOk(Move(m, c, pc).0, c, Move(m, c, pc).1)
  {}

  lemma MoveKeepsOthers(m: Shared, c: nat, pc: Pc, d: nat, other: Pc)
    requires SharedOk(m) && CallOk(m, c, pc) && CallOk(m, d, other) && c != d
    ensures CallOk(Move(m, c, pc).0, d, other)
  {}

  lemma MoveKeepsOwners(s: State, c: nat)
    requires SharedOk(s.shared) && c in s.calls && CallOk(s.shared, c, s.calls[c]) && OwnersOk(s)
    ensures OwnersOk(Step(s, c))
  {}

  lemma BalanceKept(s: State, c: nat)
    requires c in s.calls && Balanced(s.shared.ledger, Waiting(s.calls, Owes))
    ensures Balanced(Step(s, c).shared.ledger, Waiting(Step(s, c).calls, Owes))
  {
    var m, pc := s.shared, s.calls[c];
    var (n, next) := Move(m, c, pc);
    assert Follows(m.ledger, Owes(pc), Owes(next), n.ledger, n.state);
    hide Move, Balanced, Waiting, Owes, Follows;
    StepBalances(m.ledger, s.calls, Owes, c, next, n.ledger, n.state);
  }

  lemma CallsKept(s: State, c: nat)
    requires SharedOk(s.shared) && c in s.calls
    requires forall d :: d in s.calls ==> CallOk(s.shared, d, s.calls[d])
    ensures SharedOk(Step(s, c).shared)
    ensures forall d :: d in Step(s, c).calls ==> CallOk(Step(s, c).shared, d, Step(s, c).calls[d])
  {
    hide SharedOk, CallOk, Move;
    MoveKeepsShared(s.shared, c, s.calls[c]);
    forall d | d in s.calls && d != c ensures CallOk(Step(s, c).shared, d, s.calls[d]) {
      MoveKeepsOthers(s.shared, c, s.calls[c], d, s.calls[d]);
    }
  }

  lemma StepKeeps(s: State, c: nat)
    requires Inv(s)
    ensures Inv(Step(s, c))
  {
    if c in s.calls {
      BalanceKept(s, c);
      CallsKept(s, c);
      MoveKeepsOwners(s, c);
    }
    hide Step, SharedOk, CallOk, OwnersOk, Balanced, Waiting;
  }

  lemma BeginKeeps(s: State, c: nat, pc: Pc)
    requires Inv(s) && (pc == ConnectCheck || pc == CloseSwap)
    ensures Inv(Begin(s, c, pc))
  {
    if c !in s.calls {
      StepBalances(s.shared.ledger, s.calls, Owes, c, pc, s.shared.ledger, New);
      hide Balanced, Waiting;
    }
  }

  lemma {:induction false} EveryRun(events: seq<Event>)
    ensures Inv(Run(events))
  {
    if events == [] {
      assert Waiting(START.calls, Owes) == map[];
    } else {
      hide Inv, Begin, Step;
      var before := Run(events[..|events| - 1]);
      EveryRun(events[..|events| - 1]);
      match events[|events| - 1]
      case Connect(c) => BeginKeeps(before, c, ConnectCheck);
      case Close(c) => BeginKeeps(before, c, CloseSwap);
      case Advance(c) => StepKeeps(before, c);
    }
  }

  // ----- what every run keeps -----


  function Rank(state: SctpState): nat {
    match state case New => 0 case Connecting => 1 case Closed => 2
  }

  lemma ApplyRises(s: State, e: Event)
    ensures Rank(s.shared.state) <= Rank(Apply(s, e).shared.state)
    ensures s.shared.ledger.announced <= Apply(s, e).shared.ledger.announced
  {
    match e
    case Advance(c) => if c in s.calls { MoveRises(s.shared, c, s.calls[c]); }
    case _ =>
  }

  lemma MoveRises(m: Shared, c: nat, pc: Pc)
    ensures Rank(m.state) <= Rank(Move(m, c, pc).0.state)
    ensures m.ledger.announced <= Move(m, c, pc).0.ledger.announced
  {}

  /** The state only moves up New, Connecting, Closed, so Closed is absorbing,
      and no announcement is taken back. */
  lemma {:induction false} StateOnlyRises(events: seq<Event>, k: nat)
    requires k <= |events|
    ensures Rank(Run(events[..k]).shared.state) <= Rank(Run(events).shared.state)
    ensures Run(events[..k]).shared.state == Closed ==> Run(events).shared.state == Closed
    ensures Run(events[..k]).shared.ledger.announced <= Run(events).shared.ledger.announced
  {
    if k == |events| {
      assert events[..k] == events;
    } else {
      var before := events[..|events| - 1];
      StateOnlyRises(before, k);
      assert before[..k] == events[..k];
      ApplyRises(Run(before), events[|events| - 1]);
      hide Apply;
    }
  }

  /** Connecting and Closed are each written, and so announced, at most once, New never. */
  lemma EachAnnouncedAtMostOnce(events: seq<Event>, value: SctpState)
    ensures var m := Run(events).shared;
      |AnnouncedAs(m.ledger, value)| <= |WrittenAs(m.ledger, value)| <= 1
      && (value == New ==> WrittenAs(m.ledger, value) == {})
      && m.state == Current(New, m.ledger.writes)
  {
    EveryRun(events);
    var s := Run(events);
    Conservation(s.shared.ledger, Waiting(s.calls, Owes), value);
    hide Run, Balanced, Waiting, AnnouncedAs;
    OneIndex(s.shared.ledger, value);
  }

  lemma OneIndex(l: Ledger<SctpState>, value: SctpState)
    requires l.writes == [] || l.writes == [Connecting] || l.writes == [Closed] || l.writes == [Connecting, Closed]
    ensures |WrittenAs(l, value)| == if value in l.writes then 1 else 0
  {
    if value in l.writes {
      var i := if l.writes[0] == value then 0 else 1;
      assert WrittenAs(l, value) == {i};
    } else {
      assert WrittenAs(l, value) == {};
    }
  }

  /** Call `c` was begun by the `k`th event, as a close. */
  predicate BeginsClose(events: seq<Event>, k: nat, c: nat) {
    k < |events| && events[k] == Close(c) && c !in Run(events[..k]).calls
  }

  lemma {:induction false} CloseCallsClose(events: seq<Event>, k: nat, c: nat)
    requires BeginsClose(events, k, c)
    ensures c in Run(events).calls
    ensures Run(events).calls[c] == CloseSwap || Run(events).shared.closed
  {
    var before := events[..|events| - 1];
    if k < |events| - 1 {
      assert before[..k] == events[..k];
      CloseCallsClose(before, k, c);
    }
  }

  /** No call is in flight. */
  predicate Quiet(s: State) {
    forall c :: c in s.calls ==> s.calls[c] == Done
  }

  /** If anyone closes, then once every call has returned Closed is the state
      and has been announced exactly once, and so has every other write. */
  lemma ClosedAnnouncedOnce(events: seq<Event>, k: nat, c: nat)
    requires BeginsClose(events, k, c) && Quiet(Run(events))
    ensures var m := Run(events).shared;
      m.state == Closed
      && |AnnouncedAs(m.ledger, Closed)| == 1
      && |m.ledger.announced| == |m.ledger.writes|
  {
    CloseCallsClose(events, k, c);
    EveryRun(events);
    var s := Run(events);
    var m := s.shared;
    hide Run;
    assert Waiting(s.calls, Owes) == map[];
    Conservation(m.ledger, map[], Closed);
    OneIndex(m.ledger, Closed);
    AllHeard(m.ledger);
  }

  // ----- after the closing swap -----

  /** Past its closed check with the opening write to come. */
  predicate PastCheck(pc: Pc) { pc == ConnectSwap || pc == ConnectCas }

  ghost function PastCalls(s: State): set<nat> {
    set c | c in s.calls && PastCheck(s.calls[c])
  }

  /** `t` comes after `s`, which is closed. */
  ghost predicate Since(s: State, t: State) {
    t.shared.closed && PastCalls(t) <= PastCalls(s)
    && (t.shared.started ==> s.shared.started || t.shared.opener in PastCalls(s))
    && (Connecting in t.shared.ledger.writes ==>
      Connecting in s.shared.ledger.writes || t.shared.opener in PastCalls(s))
  }

  lemma MoveWhenClosed(m: Shared, c: nat, pc: Pc)
    requires m.closed
    ensures var (n, next) := Move(m, c, pc);
      n.closed && (PastCheck(next) ==> PastCheck(pc))
      && (n.started ==> (m.started && n.opener == m.opener) || (n.opener == c && pc == ConnectSwap))
      && (Connecting in n.ledger.writes ==> Connecting in m.ledger.writes || pc == ConnectCas)
  {}

  lemma SinceKept(s: State, t: State, e: Event)
    requires Since(s, t) && Inv(t)
    ensures Since(s, Apply(t, e))
  {
    match e
    case Advance(c) =>
      if c in t.calls {
        assert CallOk(t.shared, c, t.calls[c]);
        MoveWhenClosed(t.shared, c, t.calls[c]);
        hide Move, Balanced, Waiting;
      }
    case _ =>
  }

  lemma {:induction false} SinceClosing(events: seq<Event>, k: nat)
    requires k <= |events| && Run(events[..k]).shared.closed
    ensures Since(Run(events[..k]), Run(events))
  {
    if k == |events| {
      assert events[..k] == events;
    } else {
      var before := events[..|events| - 1];
      assert before[..k] == events[..k];
      SinceClosing(before, k);
      EveryRun(before);
      hide Since, Apply, Inv;
      SinceKept(Run(events[..k]), Run(before), events[|events| - 1]);
    }
  }

  /** After the closing swap Connecting is written only by a call that was then past
      its closed check: a connect that begins later opens nothing. */
  lemma OpenedAfterClosing(events: seq<Event>, k: nat)
    requires k <= |events| && Run(events[..k]).shared.closed
    ensures var s, t := Run(events[..k]), Run(events);
      Connecting in t.shared.ledger.writes ==>
        Connecting in s.shared.ledger.writes
        || (t.shared.opener in s.calls && PastCheck(s.calls[t.shared.opener]))
  {
    SinceClosing(events, k);
  }

  // ----- the associated flag -----

  /** Some call set `associated` after the closing call had cleared it. */
  ghost predicate Stale(events: seq<Event>) {
    exists k :: 0 <= k < |events| && SetsLate(events, k)
  }

  predicate SetsLate(events: seq<Event>, k: nat)
    requires k < |events|
  {
    var s := Run(events[..k]);
    events[k].Advance? && events[k].call in s.calls && s.calls[events[k].call].ConnectAssociate? && Cleared(s)
  }

  predicate Cleared(s: State) {
    s.shared.closed && s.shared.closer in s.calls && s.calls[s.shared.closer] == Done
  }

  /** The opener has set `associated`. */
  predicate Set(s: State) {
    Connecting in s.shared.ledger.writes && s.shared.opener in s.calls && !s.calls[s.shared.opener].ConnectAssociate?
  }

  lemma StaleGrows(events: seq<Event>)
    requires events != []
    ensures var before := events[..|events| - 1];
      Stale(events) <==> Stale(before) || SetsLate(events, |events| - 1)
  {
    var before := events[..|events| - 1];
    forall k | 0 <= k < |before| ensures SetsLate(before, k) == SetsLate(events, k) {
      assert before[..k] == events[..k];
    }
  }

  /** What the flag should be when some call has, or none has, set it late. */
  predicate Tracks(s: State, stale: bool) {
    (s.shared.associated <==> Set(s) && (!Cleared(s) || stale)) && (stale ==> Set(s) && Cleared(s))
  }

  lemma MoveTracks(s: State, c: nat, stale: bool)
    requires SharedOk(s.shared) && OwnersOk(s) && c in s.calls && CallOk(s.shared, c, s.calls[c])
    requires Tracks(s, stale)
    ensures Tracks(Step(s, c), stale || (s.calls[c].ConnectAssociate? && Cleared(s)))
  {}

  lemma {:induction false} AssociatedMeaning(events: seq<Event>)
    ensures Tracks(Run(events), Stale(events))
  {
    if events != [] {
      var before, last := events[..|events| - 1], events[|events| - 1];
      var s := Run(before);
      AssociatedMeaning(before);
      EveryRun(before);
      StaleGrows(events);
      hide Run, Stale, Balanced, Waiting;
      match last
      case Advance(c) =>
        if c in s.calls { MoveTracks(s, c, Stale(before)); }
        hide Step, Tracks;
      case _ =>
    }
  }

  /** When every call has returned, `associated` says whether the state is
      Connecting, exactly if no call set it after the close had cleared it. */
  lemma AssociatedExactly(events: seq<Event>)
    requires Quiet(Run(events))
    ensures var m := Run(events).shared;
      (m.associated <==> m.state == Connecting) <==> !Stale(events)
  {
    EveryRun(events);
    AssociatedMeaning(events);
    hide Run, Stale, Balanced, Waiting;
  }

  /** A call begins only when none is in flight. */
  predicate Serial(events: seq<Event>) {
    events == []
    || (Serial(events[..|events| - 1]) && (events[|events| - 1].Advance? || Quiet(Run(events[..|events| - 1]))))
  }

  /** One call in flight at most, and an opening one sees no close. */
  predicate AloneOk(s: State) {
    (forall c, d :: c in s.calls && d in s.calls && s.calls[c] != Done && s.calls[d] != Done ==> c == d)
    && (forall c :: c in s.calls && (s.calls[c] == ConnectSwap || IsOpening(s.calls[c])) ==> !s.shared.closed)
  }

  lemma {:induction false} SerialIsAlone(events: seq<Event>)
    requires Serial(events)
    ensures AloneOk(Run(events)) && !Stale(events)
  {
    if events != [] {
      var before := events[..|events| - 1];
      SerialIsAlone(before);
      StaleGrows(events);
      hide Stale;
      match events[|events| - 1]
      case Advance(c) => StepAlone(Run(before), c);
      case _ =>
    }
  }

  lemma StepAlone(s: State, c: nat)
    requires AloneOk(s)
    ensures AloneOk(Step(s, c))
  {}

  /** When calls do not overlap, `associated` is true exactly in Connecting. */
  lemma SerialAssociated(events: seq<Event>)
    requires Serial(events) && Quiet(Run(events))
    ensures Run(events).shared.associated <==> Run(events).shared.state == Connecting
  {
    SerialIsAlone(events);
    AssociatedExactly(events);
  }

  lemma Then(events: seq<Event>, s: State, e: Event) returns (more: seq<Event>, next: State)
    requires s == Run(events)
    ensures more == events + [e] && next == Apply(s, e) == Run(more)
  {
    more, next := events + [e], Apply(s, e);
    assert more[..|events|] == events;
  }

  lemma HalfOpen() returns (events: seq<Event>)
    ensures Run(events)
      == State(Shared(Connecting, false, true, false, Ledger([Connecting], []), 0, 0), map[0 := ConnectAssociate(0)])
  {
    var s;
    events, s := [], START;
    assert Run(events) == s;
    hide Run;
    events, s := Then(events, s, Connect(0));
    events, s := Then(events, s, Advance(0));
    events, s := Then(events, s, Advance(0));
    events, s := Then(events, s, Advance(0));
  }

  lemma CloseWhileHalfOpen() returns (events: seq<Event>)
    ensures Run(events)
      == State(Shared(Closed, true, true, false, Ledger([Connecting, Closed], [1]), 0, 1),
               map[0 := ConnectAssociate(0), 1 := Done])
  {
    events := HalfOpen();
    var s := Run(events);
    hide Run;
    events, s := Then(events, s, Close(1));
    events, s := Then(events, s, Advance(1));
    events, s := Then(events, s, Advance(1));
    events, s := Then(events, s, Advance(1));
    events, s := Then(events, s, Advance(1));
  }

  /** A close that runs between the compare-exchange and the flag leaves a closed
      transport associated. */
  lemma OverlapLeavesAssociated() returns (events: seq<Event>)
    ensures Quiet(Run(events)) && Run(events).shared.state == Closed && Run(events).shared.associated
  {
    events := CloseWhileHalfOpen();
    var s := Run(events);
    hide Run;
    events, s := Then(events, s, Advance(0));
    events, s := Then(events, s, Advance(0));
  }

  // ----- one call on its own -----

  function Left(pc: Pc): nat {
    match pc
    case ConnectCheck => 5
    case ConnectSwap => 4
    case ConnectCas => 3
    case ConnectAssociate(_) => 2
    case ConnectAnnounce(_) => 1
    case CloseSwap => 4
    case CloseState => 3
    case CloseAnnounce(_) => 2
    case CloseClear => 1
    case Done => 0
  }

  /** What a call does from `pc` on when nothing comes between its steps. */
  function Alone(m: Shared, c: nat, pc: Pc): Shared
    decreases Left(pc)
  {
    if pc == Done then m else var (next, at) := Move(m, c, pc); Alone(next, c, at)
  }

  /** Such a call is a run of the machine that only advances that call. */
  lemma {:induction false} AloneIsARun(events: seq<Event>, c: nat) returns (rest: seq<Event>)
    requires c in Run(events).calls
    ensures forall i :: 0 <= i < |rest| ==> rest[i] == Advance(c)
    ensures var s := Run(events);
      Run(events + rest) == State(Alone(s.shared, c, s.calls[c]), s.calls[c := Done])
    decreases Left(Run(events).calls[c])
  {
    var s := Run(events);
    if s.calls[c] == Done {
      rest := [];
      assert events + rest == events && s.calls[c := Done] == s.calls;
    } else {
      var more, next := Then(events, s, Advance(c));
      hide Run;
      var tail := AloneIsARun(more, c);
      rest := [Advance(c)] + tail;
      assert events + rest == more + tail;
      assert next.calls[c := Done] == s.calls[c := Done];
    }
  }

  // ----- whether the flag can still go stale -----

  /** Set for good on a closed transport. */
  predicate IsStale(s: State) { s.shared.state == Closed && s.shared.closed && s.shared.associated && Cleared(s) }

  /** Neither stale nor about to be. */
  predicate IsClean(s: State) {
    s.shared.state == Closed && s.shared.closed && (s.shared.associated ==> !Cleared(s))
    && forall c :: c in s.calls ==> !s.calls[c].ConnectAssociate?
  }

  lemma StaleStays(s: State, e: Event)
    requires Inv(s) && IsStale(s)
    ensures IsStale(Apply(s, e))
  {
    match e
    case Advance(c) =>
      if c in s.calls {
        assert CallOk(s.shared, c, s.calls[c]);
        hide Balanced, Waiting;
      }
    case _ =>
  }

  lemma CleanStays(s: State, e: Event)
    requires Inv(s) && IsClean(s)
    ensures IsClean(Apply(s, e))
  {
    hide Balanced, Waiting;
  }

  lemma {:induction false} StaleRuns(events: seq<Event>, more: seq<Event>)
    requires IsStale(Run(events))
    ensures IsStale(Run(events + more))
  {
    hide Run, Apply, Inv, IsStale;
    if more == [] {
      assert events + more == events;
    } else {
      var front, last := more[..|more| - 1], more[|more| - 1];
      StaleRuns(events, front);
      EveryRun(events + front);
      RunSnoc(events + front, last);
      assert events + more == events + front + [last];
      StaleStays(Run(events + front), last);
    }
  }

  lemma {:induction false} CleanRuns(events: seq<Event>, more: seq<Event>)
    requires IsClean(Run(events))
    ensures IsClean(Run(events + more))
  {
    hide Run, Apply, Inv, IsClean;
    if more == [] {
      assert events + more == events;
    } else {
      var front, last := more[..|more| - 1], more[|more| - 1];
      CleanRuns(events, front);
      EveryRun(events + front);
      RunSnoc(events + front, last);
      assert events + more == events + front + [last];
      CleanStays(Run(events + front), last);
    }
  }

  lemma RunSnoc(events: seq<Event>, e: Event)
    ensures Run(events + [e]) == Apply(Run(events), e)
  {
    assert (events + [e])[..|events|] == events;
  }

  ghost function Busy(s: State, keep: set<nat>): set<nat> {
    set c | c in s.calls && s.calls[c] != Done && c !in keep
  }

  /** All calls but the kept ones can return. */
  lemma {:induction false} OthersReturn(events: seq<Event>, keep: set<nat>) returns (more: seq<Event>)
    ensures var s, t := Run(events), Run(events + more);
      Busy(t, keep) == {} && t.calls.Keys == s.calls.Keys
      && forall c :: c in keep && c in s.calls ==> t.calls[c] == s.calls[c]
    decreases |Busy(Run(events), keep)|
  {
    hide Run, Alone;
    var s := Run(events);
    if d :| d in Busy(s, keep) {
      var first := AloneIsARun(events, d);
      var t := Run(events + first);
      assert Busy(t, keep) == Busy(s, keep) - {d};
      var rest := OthersReturn(events + first, keep);
      more := first + rest;
      assert events + first + rest == events + more;
    } else {
      more := [];
      assert events + more == events;
    }
  }

  lemma AssociatesAlone(m: Shared, c: nat, index: nat)
    ensures Alone(m, c, ConnectAssociate(index)).associated
  {
    var n := m.(associated := true);
    assert Alone(m, c, ConnectAssociate(index)) == Alone(n, c, ConnectAnnounce(index));
    assert Alone(n, c, ConnectAnnounce(index)) == n.(ledger := Announce(n.ledger, index));
  }

  /** Letting everyone else return first, a call about to set the flag leaves it set. */
  lemma GoesStale(events: seq<Event>, c: nat) returns (more: seq<Event>)
    requires c in Run(events).calls && Run(events).calls[c].ConnectAssociate?
    ensures Quiet(Run(events + more)) && Run(events + more).shared.associated
  {
    hide Run, Alone;
    var first := OthersReturn(events, {c});
    var t := Run(events + first);
    AssociatesAlone(t.shared, c, t.calls[c].index);
    var rest := AloneIsARun(events + first, c);
    more := first + rest;
    assert events + first + rest == events + more;
    assert forall d :: d in t.calls && d != c ==> t.calls[d] == Done by {
      assert forall d :: d in t.calls && t.calls[d] != Done && d != c ==> d in Busy(t, {c});
    }
  }

  /** From Closed: the transport can come to rest with the flag set exactly if it is set
      for good already, or some call is about to set it. */
  lemma GoesStaleExactly(events: seq<Event>)
    requires Run(events).shared.state == Closed
    ensures (exists more :: Quiet(Run(events + more)) && Run(events + more).shared.associated)
      <==> IsStale(Run(events)) || exists c :: c in Run(events).calls && Run(events).calls[c].ConnectAssociate?
  {
    EveryRun(events);
    var s := Run(events);
    if c :| c in s.calls && s.calls[c].ConnectAssociate? {
      var more := GoesStale(events, c);
      assert Quiet(Run(events + more)) && Run(events + more).shared.associated;
    } else if IsStale(s) {
      var more := OthersReturn(events, {});
      StaleRuns(events, more);
      assert forall d :: d in Run(events + more).calls && Run(events + more).calls[d] != Done ==>
        d in Busy(Run(events + more), {});
      assert Quiet(Run(events + more)) && Run(events + more).shared.associated;
    } else {
      assert IsClean(s);
      forall more | Quiet(Run(events + more)) ensures !Run(events + more).shared.associated {
        CleanRuns(events, more);
        EveryRun(events + more);
      }
    }
  }

  // ----- connecting -----

  predicate BeginsConnect(events: seq<Event>, k: nat, c: nat) {
    k < |events| && events[k] == Connect(c) && c !in Run(events[..k]).calls
  }

  /** Some connect is yet to look at the flags, or they are set. */
  predicate Trying(s: State) {
    s.shared.started || s.shared.closed
    || exists c :: c in s.calls && (s.calls[c] == ConnectCheck || s.calls[c] == ConnectSwap)
  }

  /** The call that set `started` is about to change the state, or someone has. */
  predicate Opening(s: State) {
    s.shared.started && s.shared.ledger.writes == [] ==>
      s.shared.opener in s.calls && s.calls[s.shared.opener] == ConnectCas
  }

  lemma TryingKept(s: State, e: Event)
    requires Trying(s)
    ensures Trying(Apply(s, e))
  {
    if !s.shared.started && !s.shared.closed {
      var c :| c in s.calls && (s.calls[c] == ConnectCheck || s.calls[c] == ConnectSwap);
      var t := Apply(s, e);
      if e == Advance(c) {
        assert t.shared.started || t.calls[c] == ConnectSwap;
      } else {
        assert t.calls[c] == s.calls[c];
      }
    }
  }

  lemma OpeningKept(s: State, e: Event)
    requires Opening(s) && SharedOk(s.shared)
    ensures Opening(Apply(s, e))
  {}

  lemma {:induction false} EveryOpening(events: seq<Event>)
    ensures Opening(Run(events))
  {
    if events != [] {
      var before := events[..|events| - 1];
      EveryOpening(before);
      EveryRun(before);
      hide Opening, SharedOk, Apply;
      OpeningKept(Run(before), events[|events| - 1]);
    }
  }

  /** Once every call has returned, a connect has opened the transport or found it closed. */
  lemma TryingOpens(events: seq<Event>)
    requires Trying(Run(events)) && Quiet(Run(events))
    ensures var m := Run(events).shared;
      (m.state == Connecting && m.ledger.announced == [0]) || (m.closed && Closed in m.ledger.writes)
  {
    EveryRun(events);
    EveryOpening(events);
    var s := Run(events);
    hide Run, Balanced;
    assert Waiting(s.calls, Owes) == map[];
    if s.shared.ledger.writes == [Connecting] { OneHeard(s.shared.ledger); }
  }

  lemma OneHeard(l: Ledger<SctpState>)
    requires Balanced(l, map[]) && |l.writes| == 1
    ensures l.announced == [0]
  {
    AllHeard(l);
  }

  lemma {:induction false} ConnectTries(events: seq<Event>, k: nat, c: nat)
    requires BeginsConnect(events, k, c)
    ensures Trying(Run(events))
  {
    var before, last := events[..|events| - 1], events[|events| - 1];
    assert before[..k] == events[..k];
    if k == |events| - 1 {
      assert Run(events).calls[c] == ConnectCheck;
    } else {
      ConnectTries(before, k, c);
      TryingKept(Run(before), last);
    }
  }

  /** If anyone connects then, once every call has returned, the transport is Connecting,
      which was announced, or it was closed. */
  lemma ConnectConnects(events: seq<Event>, k: nat, c: nat)
    requires BeginsConnect(events, k, c) && Quiet(Run(events))
    ensures var m := Run(events).shared;
      (m.state == Connecting && m.ledger.announced == [0]) || (m.closed && Closed in m.ledger.writes)
  {
    ConnectTries(events, k, c);
    TryingOpens(events);
  }

  /** The transport when its calls do not overlap. */
  class SctpTransport {
    var state: SctpState
    var closed: bool
    var started: bool
    var associated: bool
    ghost var ledger: Ledger<SctpState>
    ghost var opener: nat
    ghost var closer: nat

    ghost function View(): Shared
      reads this
    {
      Shared(state, closed, started, associated, ledger, opener, closer)
    }

    constructor ()
      ensures View() == START.shared
    {
      state, closed, started, associated := New, false, false, false;
      ledger, opener, closer := Ledger([], []), 0, 0;
    }

    method SetState(value: SctpState)
      modifies this`state, this`ledger
      ensures state == value && ledger == Write(old(ledger), value)
    {
      state := value;
      ledger := Write(ledger, value);
    }

    method Fire()
      requires ledger.writes != []
      modifies this`ledger
      ensures ledger == Announce(old(ledger), old(|ledger.writes| - 1))
    {
      ledger := Announce(ledger, |ledger.writes| - 1);
    }

    method Connect(ghost call: nat)
      modifies this
      ensures View() == Alone(old(View()), call, ConnectCheck)
      ensures old(closed) || old(started) ==> View() == old(View())
      ensures !old(closed) && !old(started) ==>
        View() == if old(state) != New then old(View()).(started := true, opener := call)
                  else old(View()).(started := true, opener := call, state := Connecting, associated := true,
                                    ledger := Told(old(ledger), Connecting))
    {
      ghost var goal := Alone(View(), call, ConnectCheck);
      if closed { return; }
      assert goal == Alone(View(), call, ConnectSwap);
      if started { return; }
      started, opener := true, call;
      assert goal == Alone(View(), call, ConnectCas);
      if state != New { return; }
      SetState(Connecting);
      assert goal == Alone(View(), call, ConnectAssociate(|ledger.writes| - 1));
      associated := true;
      assert goal == Alone(View(), call, ConnectAnnounce(|ledger.writes| - 1));
      Fire();
      assert goal == Alone(View(), call, Done);
    }

    method Close(ghost call: nat)
      modifies this
      ensures View() == Alone(old(View()), call, CloseSwap)
      ensures View() == if old(closed) then old(View())
                        else old(View()).(closed := true, closer := call, state := Closed, associated := false,
                          ledger := if old(state) == Closed then old(ledger) else Told(old(ledger), Closed))
    {
      if closed { return; }
      closed, closer := true, call;
      if state != Closed {
        SetState(Closed);
        Fire();
      }
      associated := false;
    }
  }
}
