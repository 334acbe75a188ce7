/** The ICE transport's state cells under every interleaving of its calls: the
    libjuice driver's reports and the user's `gather`, `restart_ice` and `close`. */
module Ice {
  import opened Ledgers
  import opened Text

  /** What libjuice reports. */
  datatype Juice = Disconnected | Gathering | Connecting | Connected | Completed | Failed

  datatype IceState = New | Checking | Connected | Completed | Failed | Disconnected | Closed

  datatype GatheringState = New | InProgress | Complete

  function MapState(report: Juice): (state: IceState)
    ensures state == IceState.Failed <==> report == Juice.Failed
    ensures state == IceState.Connected <==> report == Juice.Connected
    ensures state == IceState.Completed <==> report == Juice.Completed
    ensures state == IceState.New <==> report == Juice.Disconnected
    ensures state != Closed && state != IceState.Disconnected
  {
    match report
    case Disconnected => IceState.New
    case Gathering => Checking
    case Connecting => Checking
    case Connected => IceState.Connected
    case Completed => IceState.Completed
    case Failed => IceState.Failed
  }

  datatype Op = Report(report: Juice) | GatheringDone | Receive | Gather | Restart | Close

  /** Where a call is. The numbers are the writes that it is about to announce. */
  datatype Pc =
    | JuiceCheck(report: Juice) | JuiceWrite(report: Juice) | JuiceAnnounce(index: nat)
    | DoneCheck | DoneWrite | DoneAnnounce(index: nat)
    | ReceiveCheck | ReceiveDeliver
    | GatherCheck | GatherWrite | GatherAnnounce(index: nat)
    | RestartCheck | RestartGathering | RestartState(gathering: Option<nat>)
    | RestartTellGathering(index: nat, state: Option<nat>) | RestartTellState(index: nat)
    | CloseSwap | CloseWrite | CloseAnnounce(index: nat)
    | Done

  datatype Shared = Shared(
    state: IceState,
    gathering: GatheringState,
    closed: bool,
    closer: nat,                          // the call that set `closed`
    states: Ledger<IceState>,
    gatherings: Ledger<GatheringState>,
    authors: seq<nat>,                    // which call made each state write
    received: seq<nat>)                   // the calls that reached `on_data`

  datatype State = State(shared: Shared, calls: map<nat, Pc>)

  const START := State(Shared(IceState.New, GatheringState.New, false, 0, Ledger([], []), Ledger([], []), [], []), map[])

  datatype Event = Begin(call: nat, op: Op) | Advance(call: nat)

  function Entry(op: Op): Pc {
    match op
    case Report(report) => JuiceCheck(report)
    case GatheringDone => DoneCheck
    case Receive => ReceiveCheck
    case Gather => GatherCheck
    case Restart => RestartCheck
    case Close => CloseSwap
  }

  function WriteState(m: Shared, c: nat, value: IceState): Shared {
    m.(state := value, states := Write(m.states, value), authors := m.authors + [c])
  }

  function WriteGathering(m: Shared, value: GatheringState): Shared {
    m.(gathering := value, gatherings := Write(m.gatherings, value))
  }

  function TellState(m: Shared, index: nat): Shared { m.(states := Announce(m.states, index)) }

  function TellGathering(m: Shared, index: nat): Shared { m.(gatherings := Announce(m.gatherings, index)) }

  function ThenTellState(state: Option<nat>): Pc {
    match state case Some(index) => RestartTellState(index) case None => Done
  }

  function ThenTell(gathering: Option<nat>, state: Option<nat>): Pc {
    match gathering case Some(index) => RestartTellGathering(index, state) case None => ThenTellState(state)
  }

  /** One step of call `c`, which is at `pc`. */
  function Move(m: Shared, c: nat, pc: Pc): (Shared, Pc) {
    match pc
    case JuiceCheck(report) => (m, if m.closed then Done else JuiceWrite(report))
    case JuiceWrite(report) =>
      if m.state != MapState(report) then (WriteState(m, c, MapState(report)), JuiceAnnounce(|m.states.writes|))
      else (m, Done)
    case JuiceAnnounce(index) => (TellState(m, index), Done)
    case DoneCheck => (m, if m.closed then Done else DoneWrite)
    case DoneWrite =>
      if m.gathering != GatheringState.Complete then (WriteGathering(m, GatheringState.Complete), DoneAnnounce(|m.gatherings.writes|))
      else (m, Done)
    case DoneAnnounce(index) => (TellGathering(m, index), Done)
    case ReceiveCheck => (m, if m.closed then Done else ReceiveDeliver)
    case ReceiveDeliver => (m.(received := m.received + [c]), Done)
    case GatherCheck => (m, if m.closed then Done else GatherWrite)
    case GatherWrite =>
      if m.gathering == GatheringState.New then (WriteGathering(m, InProgress), GatherAnnounce(|m.gatherings.writes|))
      else (m, Done)
    case GatherAnnounce(index) => (TellGathering(m, index), Done)
    case RestartCheck => (m, if m.closed then Done else RestartGathering)
    case RestartGathering =>
      if m.gathering != GatheringState.New then (WriteGathering(m, GatheringState.New), RestartState(Some(|m.gatherings.writes|)))
      else (m, RestartState(None))
    case RestartState(gathering) =>
      if m.state != IceState.New then (WriteState(m, c, IceState.New), ThenTell(gathering, Some(|m.states.writes|)))
      else (m, ThenTell(gathering, None))
    case RestartTellGathering(index, state) => (TellGathering(m, index), ThenTellState(state))
    case RestartTellState(index) => (TellState(m, index), Done)
    case CloseSwap => if m.closed then (m, Done) else (m.(closed := true, closer := c), CloseWrite)
    case CloseWrite =>
      if m.state != Closed then (WriteState(m, c, Closed), CloseAnnounce(|m.states.writes|)) else (m, Done)
    case CloseAnnounce(index) => (TellState(m, index), Done)
    case Done => (m, Done)
  }

  function Apply(s: State, e: Event): State {
    match e
    case Begin(c, op) => if c in s.calls then s else s.(calls := s.calls[c := Entry(op)])
    case Advance(c) =>
      if c !in s.calls then s
      else var (shared, pc) := Move(s.shared, c, s.calls[c]); State(shared, s.calls[c := pc])
  }

  function Run(events: seq<Event>): State {
    if events == [] then START else Apply(Run(events[..|events| - 1]), events[|events| - 1])
  }

  // ----- the invariant -----

  function OwesState(pc: Pc): Option<nat> {
    match pc
    case JuiceAnnounce(index) => Some(index)
    case CloseAnnounce(index) => Some(index)
    case RestartTellGathering(_, state) => state
    case RestartTellState(index) => Some(index)
    case _ => None
  }

  function OwesGathering(pc: Pc): Option<nat> {
    match pc
    case DoneAnnounce(index) => Some(index)
    case GatherAnnounce(index) => Some(index)
    case RestartState(gathering) => gathering
    case RestartTellGathering(index, _) => Some(index)
    case _ => None
  }

  /** Past its closed check with its state write still to come. */
  predicate Past(pc: Pc) { pc.JuiceWrite? || pc == RestartGathering || pc.RestartState? }

  /** The call may still write the state. */
  predicate MayWrite(pc: Pc) {
    Past(pc) || pc.JuiceCheck? || pc == RestartCheck || pc == CloseSwap || pc == CloseWrite
  }

  predicate IsClosing(pc: Pc) { pc == CloseWrite || pc.CloseAnnounce? }

  /** What the shared fields say about each other. */
  predicate SharedOk(m: Shared) {
    m.state == Current(IceState.New, m.states.writes) && NoRepeat(IceState.New, m.states.writes)
    && m.gathering == Current(GatheringState.New, m.gatherings.writes) && NoRepeat(GatheringState.New, m.gatherings.writes)
    && |m.authors| == |m.states.writes| && Once(m.authors)
    && (forall i :: 0 <= i < |m.authors| ==>
      (m.states.writes[i] == Closed <==> m.closed && m.authors[i] == m.closer))
  }

  /** What a call's position says about the shared fields. */
  predicate CallOk(m: Shared, c: nat, pc: Pc) {
    (MayWrite(pc) ==> c !in m.authors)
    && (IsClosing(pc) ==> m.closed && m.closer == c)
    && (m.closed && m.closer == c ==> IsClosing(pc) || pc == Done)
    && (m.closed && m.closer == c && pc != CloseWrite ==> c in m.authors)
  }

  predicate AuthorsOk(s: State) {
    (forall c :: c in s.shared.authors ==> c in s.calls)
    && (s.shared.closed ==> s.shared.closer in s.calls)
  }

  ghost predicate Inv(s: State) {
    SharedOk(s.shared)
    && (forall c :: c in s.calls ==> CallOk(s.shared, c, s.calls[c]))
    && AuthorsOk(s)
    && Balanced(s.shared.states, Waiting(s.calls, OwesState))
    && Balanced(s.shared.gatherings, Waiting(s.calls, OwesGathering))
  }

  lemma WriteStateOk(m: Shared, c: nat, value: IceState)
    requires SharedOk(m) && value != m.state && c !in m.authors
    requires value == Closed <==> m.closed && c == m.closer
    ensures SharedOk(WriteState(m, c, value))
  {
    NoRepeatAppend(IceState.New, m.states.writes, value);
  }

  lemma WriteGatheringOk(m: Shared, value: GatheringState)
    requires SharedOk(m) && value != m.gathering
    ensures SharedOk(WriteGathering(m, value))
  {
    NoRepeatAppend(GatheringState.New, m.gatherings.writes, value);
  }

  lemma SwapOk(m: Shared, c: nat)
    requires SharedOk(m) && !m.closed && c !in m.authors
    ensures SharedOk(m.(closed := true, closer := c))
  {}

  lemma MoveKeepsShared(m: Shared, c: nat, pc: Pc)
    requires SharedOk(m) && CallOk(m, c, pc)
    ensures SharedOk(Move(m, c, pc).0)
  {
    match pc
    case JuiceWrite(report) => if m.state != MapState(report) { WriteStateOk(m, c, MapState(report)); }
    case RestartState(_) => if m.state != IceState.New { WriteStateOk(m, c, IceState.New); }
    case CloseWrite => if m.state != Closed { WriteStateOk(m, c, Closed); }
    case DoneWrite => if m.gathering != GatheringState.Complete { WriteGatheringOk(m, GatheringState.Complete); }
    case GatherWrite => if m.gathering == GatheringState.New { WriteGatheringOk(m, InProgress); }
    case RestartGathering => if m.gathering != GatheringState.New { WriteGatheringOk(m, GatheringState.New); }
    case CloseSwap => if !m.closed { SwapOk(m, c); }
    case _ => hide NoRepeat, Once;
  }

  lemma ClosedIsTheClosers(m: Shared)
    requires SharedOk(m) && m.state == Closed
    ensures m.closed && m.closer in m.authors
  {
    assert m.authors[|m.authors| - 1] == m.closer;
  }

  lemma MoveKeepsCall(m: Shared, c: nat, pc: Pc)
    requires m.state == Closed ==> m.closed && m.closer in m.authors
    requires CallOk(m, c, pc)
    ensures CallOk(Move(m, c, pc).0, c, Move(m, c, pc).1)
  {}

  lemma MoveKeepsOthers(m: Shared, c: nat, pc: Pc, d: nat, other: Pc)
    requires CallOk(m, c, pc) && CallOk(m, d, other) && c != d
    ensures CallOk(Move(m, c, pc).0, d, other)
  {}

  lemma CallsKept(s: State, c: nat)
    requires SharedOk(s.shared) && c in s.calls
    requires forall d :: d in s.calls ==> CallOk(s.shared, d, s.calls[d])
    ensures var next := Apply(s, Advance(c));
      SharedOk(next.shared) && forall d :: d in next.calls ==> CallOk(next.shared, d, next.calls[d])
  {
    if s.shared.state == Closed { ClosedIsTheClosers(s.shared); }
    hide SharedOk, CallOk, Move;
    MoveKeepsShared(s.shared, c, s.calls[c]);
    MoveKeepsCall(s.shared, c, s.calls[c]);
    forall d | d in s.calls && d != c ensures CallOk(Move(s.shared, c, s.calls[c]).0, d, s.calls[d]) {
      MoveKeepsOthers(s.shared, c, s.calls[c], d, s.calls[d]);
    }
  }

  lemma MoveAuthors(m: Shared, c: nat, pc: Pc)
    ensures var n := Move(m, c, pc).0;
      (n.authors == m.authors || n.authors == m.authors + [c])
      && (n.closed ==> (m.closed && n.closer == m.closer) || n.closer == c)
  {}

  lemma AuthorsKept(s: State, c: nat)
    requires AuthorsOk(s) && c in s.calls
    ensures AuthorsOk(Apply(s, Advance(c)))
  {
    MoveAuthors(s.shared, c, s.calls[c]);
    hide Move;
  }

  lemma MoveFollows(m: Shared, c: nat, pc: Pc)
    ensures var (n, next) := Move(m, c, pc);
      Follows(m.states, OwesState(pc), OwesState(next), n.states, n.state)
      && Follows(m.gatherings, OwesGathering(pc), OwesGathering(next), n.gatherings, n.gathering)
  {}

  lemma BalanceKept(s: State, c: nat)
    requires c in s.calls
    requires Balanced(s.shared.states, Waiting(s.calls, OwesState))
    requires Balanced(s.shared.gatherings, Waiting(s.calls, OwesGathering))
    ensures var next := Apply(s, Advance(c));
      Balanced(next.shared.states, Waiting(next.calls, OwesState))
      && Balanced(next.shared.gatherings, Waiting(next.calls, OwesGathering))
  {
    var m, pc := s.shared, s.calls[c];
    var (n, next) := Move(m, c, pc);
    MoveFollows(m, c, pc);
    hide Move, Balanced, Waiting, OwesState, OwesGathering, Follows;
    StepBalances(m.states, s.calls, OwesState, c, next, n.states, n.state);
    StepBalances(m.gatherings, s.calls, OwesGathering, c, next, n.gatherings, n.gathering);
  }

  lemma EntryOk(op: Op)
    ensures OwesState(Entry(op)) == None == OwesGathering(Entry(op))
    ensures MayWrite(Entry(op)) || Entry(op) == DoneCheck || Entry(op) == GatherCheck || Entry(op) == ReceiveCheck
    ensures !Past(Entry(op)) && !IsClosing(Entry(op)) && Entry(op) != CloseWrite && Entry(op) != Done
  {}

  lemma BeginBalances(s: State, c: nat, op: Op)
    requires Inv(s) && c !in s.calls
    ensures var next := Apply(s, Begin(c, op));
      Balanced(next.shared.states, Waiting(next.calls, OwesState))
      && Balanced(next.shared.gatherings, Waiting(next.calls, OwesGathering))
  {
    EntryOk(op);
    StepBalances(s.shared.states, s.calls, OwesState, c, Entry(op), s.shared.states, IceState.New);
    StepBalances(s.shared.gatherings, s.calls, OwesGathering, c, Entry(op), s.shared.gatherings, GatheringState.New);
    hide Inv, Balanced, Waiting, Entry;
  }

  lemma EntryCallOk(s: State, c: nat, op: Op)
    requires AuthorsOk(s) && c !in s.calls
    ensures CallOk(s.shared, c, Entry(op))
  {
    EntryOk(op);
    hide Entry, MayWrite, IsClosing;
  }

  lemma BeginCalls(s: State, c: nat, op: Op)
    requires Inv(s) && c !in s.calls
    ensures var next := Apply(s, Begin(c, op));
      SharedOk(next.shared) && AuthorsOk(next) && forall d :: d in next.calls ==> CallOk(next.shared, d, next.calls[d])
  {
    EntryCallOk(s, c, op);
    hide Balanced, Waiting, SharedOk, CallOk, Entry;
  }

  lemma BeginKeeps(s: State, c: nat, op: Op)
    requires Inv(s)
    ensures Inv(Apply(s, Begin(c, op)))
  {
    if c !in s.calls {
      BeginBalances(s, c, op);
      BeginCalls(s, c, op);
      hide Balanced, Waiting, SharedOk, CallOk, AuthorsOk, Entry, OwesState, OwesGathering;
    }
  }

  lemma AdvanceKeeps(s: State, c: nat)
    requires Inv(s)
    ensures Inv(Apply(s, Advance(c)))
  {
    if c in s.calls {
      BalanceKept(s, c);
      CallsKept(s, c);
      AuthorsKept(s, c);
    }
    hide Apply, SharedOk, CallOk, AuthorsOk, Balanced, Waiting;
  }

  lemma {:induction false} EveryRun(events: seq<Event>)
    ensures Inv(Run(events))
  {
    if events == [] {
      assert Waiting(START.calls, OwesState) == map[] == Waiting(START.calls, OwesGathering);
    } else {
      hide Inv, Apply;
      var before := events[..|events| - 1];
      EveryRun(before);
      match events[|events| - 1]
      case Begin(c, op) => BeginKeeps(Run(before), c, op);
      case Advance(c) => AdvanceKeeps(Run(before), c);
    }
  }

  // ----- what every run keeps -----

  /** The written states, from New on, never repeat a neighbour and end in the
      current state; for each value, announcements made plus announcements
      pending equal the writes. The same holds for the gathering state. */
  lemma WritesAndAnnouncements(events: seq<Event>, value: IceState, gathering: GatheringState)
    ensures var s := Run(events);
      var m := s.shared;
      NoRepeat(IceState.New, m.states.writes) && m.state == Current(IceState.New, m.states.writes)
      && NoRepeat(GatheringState.New, m.gatherings.writes)
      && m.gathering == Current(GatheringState.New, m.gatherings.writes)
      && Once(m.states.announced) && Once(m.gatherings.announced)
      && |WrittenAs(m.states, value)|
         == |AnnouncedAs(m.states, value)| + |PendingAs(m.states, Waiting(s.calls, OwesState), value)|
      && |WrittenAs(m.gatherings, gathering)|
         == |AnnouncedAs(m.gatherings, gathering)|
            + |PendingAs(m.gatherings, Waiting(s.calls, OwesGathering), gathering)|
  {
    EveryRun(events);
    var s := Run(events);
    Conservation(s.shared.states, Waiting(s.calls, OwesState), value);
    Conservation(s.shared.gatherings, Waiting(s.calls, OwesGathering), gathering);
    hide Run, Waiting, WrittenAs, AnnouncedAs, PendingAs, NoRepeat, Once;
  }

  predicate Quiet(s: State) {
    forall c :: c in s.calls ==> s.calls[c] == Done
  }

  /** Call `c` was begun by the `k`th event, as a close. */
  predicate BeginsClose(events: seq<Event>, k: nat, c: nat) {
    k < |events| && events[k] == Begin(c, Close) && c !in Run(events[..k]).calls
  }

  lemma {:induction false} CloseCallsClose(events: seq<Event>, k: nat, c: nat)
    requires BeginsClose(events, k, c)
    ensures c in Run(events).calls
    ensures Run(events).calls[c] == CloseSwap || Run(events).shared.closed
  {
    var before, last := events[..|events| - 1], events[|events| - 1];
    var s := Run(before);
    if k < |events| - 1 {
      assert before[..k] == events[..k];
      CloseCallsClose(before, k, c);
      if last.Advance? && last.call in s.calls {
        MoveCloses(s.shared, last.call, s.calls[last.call]);
        hide Move, Run;
      }
    }
  }

  lemma MoveCloses(m: Shared, c: nat, pc: Pc)
    ensures m.closed || pc == CloseSwap ==> Move(m, c, pc).0.closed
  {}

  /** Closed is written at most once, by the call that set `closed`. */
  lemma ClosedWrittenAtMostOnce(events: seq<Event>)
    ensures var m := Run(events).shared;
      |AnnouncedAs(m.states, Closed)| <= |WrittenAs(m.states, Closed)| <= 1
  {
    EveryRun(events);
    var s := Run(events);
    Conservation(s.shared.states, Waiting(s.calls, OwesState), Closed);
    OneClosed(s.shared);
  }

  lemma OneClosed(m: Shared)
    requires SharedOk(m)
    ensures |WrittenAs(m.states, Closed)| == if m.closed && m.closer in m.authors then 1 else 0
  {
    if m.closed && m.closer in m.authors {
      var i: nat :| i < |m.authors| && m.authors[i] == m.closer;
      assert WrittenAs(m.states, Closed) == {i};
    } else {
      assert WrittenAs(m.states, Closed) == {};
    }
  }

  /** If anyone closes then, once every call has returned, Closed has been
      written once and announced once, and nothing is left unannounced. */
  lemma ClosedAnnouncedOnce(events: seq<Event>, k: nat, c: nat)
    requires BeginsClose(events, k, c) && Quiet(Run(events))
    ensures var m := Run(events).shared;
      |WrittenAs(m.states, Closed)| == 1 && AnnouncedAs(m.states, Closed) == WrittenAs(m.states, Closed)
      && |m.states.announced| == |m.states.writes|
      && |m.gatherings.announced| == |m.gatherings.writes|
  {
    CloseCallsClose(events, k, c);
    EveryRun(events);
    var s := Run(events);
    hide Run;
    QuietBalances(s);
    OneClosed(s.shared);
    assert s.shared.closer in s.shared.authors by {
      assert CallOk(s.shared, s.shared.closer, s.calls[s.shared.closer]);
    }
    hide *;
    Conservation(s.shared.states, map[], Closed);
    AllHeard(s.shared.states);
    AllHeard(s.shared.gatherings);
  }

  lemma QuietBalances(s: State)
    requires Inv(s) && Quiet(s)
    ensures Balanced(s.shared.states, map[]) && Balanced(s.shared.gatherings, map[])
  {
    hide Balanced, SharedOk, CallOk, AuthorsOk;
    assert Waiting(s.calls, OwesState) == map[];
    assert Waiting(s.calls, OwesGathering) == map[];
  }

  // ----- what a report writes -----

  predicate BeginsReport(events: seq<Event>, k: nat, c: nat, report: Juice) {
    k < |events| && events[k] == Begin(c, Report(report)) && c !in Run(events[..k]).calls
  }

  predicate IsReporting(pc: Pc, report: Juice) {
    pc == JuiceCheck(report) || pc == JuiceWrite(report) || pc.JuiceAnnounce? || pc == Done
  }

  /** All that call `c` has written is `value`. */
  predicate WroteOnly(m: Shared, c: nat, value: IceState) {
    |m.authors| == |m.states.writes|
    && forall i :: 0 <= i < |m.authors| && m.authors[i] == c ==> m.states.writes[i] == value
  }

  lemma MoveWritesOnly(m: Shared, c: nat, pc: Pc, d: nat, report: Juice)
    requires WroteOnly(m, d, MapState(report)) && (c == d ==> IsReporting(pc, report))
    ensures WroteOnly(Move(m, c, pc).0, d, MapState(report))
    ensures c == d ==> IsReporting(Move(m, c, pc).1, report)
  {
    hide MapState;
  }

  lemma {:induction false} ReportWritesOnly(events: seq<Event>, k: nat, c: nat, report: Juice)
    requires BeginsReport(events, k, c, report)
    ensures var s := Run(events);
      c in s.calls && IsReporting(s.calls[c], report) && WroteOnly(s.shared, c, MapState(report))
  {
    var before, last := events[..|events| - 1], events[|events| - 1];
    var s := Run(before);
    assert before[..k] == events[..k];
    if k == |events| - 1 {
      EveryRun(before);
      hide Run, Balanced, Waiting, CallOk, NoRepeat;
    } else {
      ReportWritesOnly(before, k, c, report);
      if last.Advance? && last.call in s.calls {
        MoveWritesOnly(s.shared, last.call, s.calls[last.call], c, report);
      }
      hide Move, WroteOnly, IsReporting;
    }
  }

  /** Whatever overlaps with it, the state that a report writes is the one it names: Failed
      for Failed, Connected and Completed for themselves, New for Disconnected,
      Checking for the rest. */
  lemma ReportWrites(events: seq<Event>, k: nat, c: nat, report: Juice, i: nat)
    requires BeginsReport(events, k, c, report)
    requires i < |Run(events).shared.authors| && Run(events).shared.authors[i] == c
    ensures i < |Run(events).shared.states.writes|
    ensures var value := Run(events).shared.states.writes[i];
      (value == IceState.Failed <==> report == Juice.Failed)
      && (value == IceState.Connected <==> report == Juice.Connected)
      && (value == IceState.Completed <==> report == Juice.Completed)
      && (value == IceState.New <==> report == Juice.Disconnected)
      && (value == Checking <==> report == Juice.Gathering || report == Juice.Connecting)
  {
    ReportWritesOnly(events, k, c, report);
    hide Run;
  }

  // ----- after the closing swap -----

  ghost function PastCalls(s: State): set<nat> {
    set c | c in s.calls && Past(s.calls[c])
  }

  /** `t` comes after `s`, which is closed: only calls that were past their check
      in `s`, and the closer, have written since. */
  ghost predicate Since(s: State, t: State) {
    t.shared.closed && t.shared.closer == s.shared.closer
    && s.shared.authors <= t.shared.authors
    && s.shared.states.writes <= t.shared.states.writes
    && PastCalls(t) <= PastCalls(s)
    && (forall i :: |s.shared.authors| <= i < |t.shared.authors| ==>
      t.shared.authors[i] in PastCalls(s) + {s.shared.closer})
  }

  lemma MoveWhenClosed(m: Shared, c: nat, pc: Pc)
    requires m.closed
    ensures var (n, next) := Move(m, c, pc);
      n.closed && n.closer == m.closer
      && (Past(next) ==> Past(pc))
      && ((n.authors == m.authors && n.states.writes == m.states.writes)
          || (n.authors == m.authors + [c] && m.states.writes <= n.states.writes && (Past(pc) || pc == CloseWrite)))
  {}

  lemma SinceKept(s: State, t: State, e: Event)
    requires Since(s, t) && forall c :: c in t.calls && t.calls[c] == CloseWrite ==> c == t.shared.closer
    ensures Since(s, Apply(t, e))
  {
    match e
    case Begin(c, op) => EntryOk(op);
    case Advance(c) =>
      if c in t.calls {
        MoveWhenClosed(t.shared, c, t.calls[c]);
        hide Move, Past;
      }
  }

  lemma {:induction false} SinceClosing(events: seq<Event>, k: nat)
    requires k <= |events| && Run(events[..k]).shared.closed
    ensures Since(Run(events[..k]), Run(events))
  {
    if k == |events| {
      assert events[..k] == events;
    } else {
      var before := events[..|events| - 1];
      assert before[..k] == events[..k];
      SinceClosing(before, k);
      EveryRun(before);
      hide Since, Apply, SharedOk, AuthorsOk, Balanced, Waiting;
      SinceKept(Run(events[..k]), Run(before), events[|events| - 1]);
    }
  }

  lemma SubsetSize(a: set<nat>, b: set<nat>)
    requires a <= b
    ensures |a| <= |b|
  {
    assert b == a + (b - a);
  }

  /** After the closing swap, the state writes other than the closing call's own
      number at most the calls that were then past their closed check: each such
      call writes at most once. */
  lemma WritesAfterClosing(events: seq<Event>, k: nat)
    requires k <= |events| && Run(events[..k]).shared.closed
    ensures var s, t := Run(events[..k]), Run(events);
      s.shared.authors <= t.shared.authors
      && var since := t.shared.authors[|s.shared.authors|..];
      Once(since)
      && Elems(since) <= PastCalls(s) + {s.shared.closer}
      && |Elems(since) - {s.shared.closer}| <= |PastCalls(s)|
      && |since| <= |PastCalls(s)| + 1
  {
    SinceClosing(events, k);
    EveryRun(events);
    var s, t := Run(events[..k]), Run(events);
    var since := t.shared.authors[|s.shared.authors|..];
    hide Run, Balanced, Waiting, CallOk;
    OnceSize(since);
    SubsetSize(Elems(since) - {s.shared.closer}, PastCalls(s));
    SubsetSize(Elems(since), PastCalls(s) + {s.shared.closer});
  }

  predicate Reporting(pc: Pc) { pc.JuiceCheck? || pc.JuiceWrite? || pc.JuiceAnnounce? }

  predicate Restarting(pc: Pc) { pc == RestartCheck || pc == RestartGathering || pc.RestartState? }

  /** Hence at most one, when the driver reports serially and no restart is in flight. */
  lemma AtMostOneLateWrite(events: seq<Event>, k: nat)
    requires k <= |events| && Run(events[..k]).shared.closed
    requires var calls := Run(events[..k]).calls;
      (forall c, d :: c in calls && d in calls && Reporting(calls[c]) && Reporting(calls[d]) ==> c == d)
      && (forall c :: c in calls ==> !Restarting(calls[c]))
    ensures var s, t := Run(events[..k]), Run(events);
      s.shared.authors <= t.shared.authors
      && |Elems(t.shared.authors[|s.shared.authors|..]) - {s.shared.closer}| <= 1
  {
    WritesAfterClosing(events, k);
    var s := Run(events[..k]);
    if c :| c in PastCalls(s) {
      SubsetSize(PastCalls(s), {c});
    }
  }

  // ----- when Closed is absorbing -----

  lemma {:induction false} RunAppend(events: seq<Event>, e: Event)
    ensures Run(events + [e]) == Apply(Run(events), e)
  {
    assert (events + [e])[..|events|] == events;
  }

  lemma ClosedStays(events: seq<Event>, more: seq<Event>)
    requires Run(events).shared.state == Closed && PastCalls(Run(events)) == {}
    ensures Run(events + more).shared.state == Closed
  {
    EveryRun(events);
    EveryRun(events + more);
    var s, t := Run(events).shared, Run(events + more).shared;
    ClosedIsTheClosers(s);
    assert (events + more)[..|events|] == events;
    SinceClosing(events + more, |events|);
    hide Run, Balanced, Waiting, CallOk;
    assert |s.authors| == |t.authors|;
    assert s.states.writes == t.states.writes;
  }

  lemma ClosedLeft(events: seq<Event>, c: nat) returns (more: seq<Event>)
    requires Run(events).shared.state == Closed && c in PastCalls(Run(events))
    ensures Run(events + more).shared.state != Closed
  {
    RunAppend(events, Advance(c));
    more := [Advance(c)];
    if Run(events).calls[c] == RestartGathering {
      RunAppend(events + more, Advance(c));
      assert events + more + [Advance(c)] == events + [Advance(c), Advance(c)];
      more := [Advance(c), Advance(c)];
    }
  }

  /** A closed transport can leave Closed exactly if some call is past its closed
      check with its write to come. */
  lemma LeavesClosedExactly(events: seq<Event>)
    requires Run(events).shared.state == Closed
    ensures (exists more :: Run(events + more).shared.state != Closed) <==> PastCalls(Run(events)) != {}
  {
    if c :| c in PastCalls(Run(events)) {
      var more := ClosedLeft(events, c);
      assert Run(events + more).shared.state != Closed;
    } else {
      forall more ensures Run(events + more).shared.state == Closed {
        ClosedStays(events, more);
      }
    }
  }

  /** A call begins only when none is in flight. */
  predicate Serial(events: seq<Event>) {
    events == []
    || (Serial(events[..|events| - 1]) && (events[|events| - 1].Advance? || Quiet(Run(events[..|events| - 1]))))
  }

  predicate AloneOk(s: State) {
    (forall c, d :: c in s.calls && d in s.calls && s.calls[c] != Done && s.calls[d] != Done ==> c == d)
    && (forall c :: c in s.calls && Past(s.calls[c]) ==> !s.shared.closed)
  }

  lemma MoveAlone(m: Shared, c: nat, pc: Pc)
    requires Past(pc) ==> !m.closed
    ensures Past(Move(m, c, pc).1) ==> !Move(m, c, pc).0.closed
    ensures pc == Done ==> Move(m, c, pc).1 == Done
  {}

  lemma {:induction false} SerialIsAlone(events: seq<Event>)
    requires Serial(events)
    ensures AloneOk(Run(events))
  {
    if events != [] {
      var before := events[..|events| - 1];
      SerialIsAlone(before);
      var s := Run(before);
      match events[|events| - 1]
      case Advance(c) =>
        if c in s.calls {
          MoveAlone(s.shared, c, s.calls[c]);
          hide Move, Past;
        }
      case Begin(c, op) => EntryOk(op);
    }
  }

  /** When calls do not overlap, Closed is absorbing. */
  lemma SerialClosedIsFinal(events: seq<Event>, more: seq<Event>)
    requires Serial(events) && Run(events).shared.state == Closed
    ensures Run(events + more).shared.state == Closed
  {
    SerialIsAlone(events);
    EveryRun(events);
    ClosedIsTheClosers(Run(events).shared);
    assert PastCalls(Run(events)) == {};
    ClosedStays(events, more);
  }

  lemma Then(events: seq<Event>, s: State, e: Event) returns (more: seq<Event>, next: State)
    requires s == Run(events)
    ensures more == events + [e] && next == Apply(s, e) == Run(more)
  {
    more, next := events + [e], Apply(s, e);
    RunAppend(events, e);
  }

  lemma ReportBegun() returns (events: seq<Event>)
    ensures Run(events) == START.(calls := map[0 := JuiceWrite(Juice.Connected)])
  {
    var s;
    events, s := [], START;
    assert Run(events) == s;
    hide Run;
    events, s := Then(events, s, Begin(0, Report(Juice.Connected)));
    events, s := Then(events, s, Advance(0));
  }

  lemma CloseBegun() returns (events: seq<Event>)
    ensures Run(events)
      == State(START.shared.(closed := true, closer := 1), map[0 := JuiceWrite(Juice.Connected), 1 := CloseWrite])
  {
    events := ReportBegun();
    var s := Run(events);
    hide Run;
    events, s := Then(events, s, Begin(1, Close));
    events, s := Then(events, s, Advance(1));
  }

  lemma ClosedDuringReport() returns (events: seq<Event>)
    ensures var s := Run(events);
      s.shared.state == Closed && s.shared.closed && s.shared.states == Ledger([Closed], [0])
      && 0 in s.calls && s.calls[0] == JuiceWrite(Juice.Connected)
  {
    events := CloseBegun();
    var s := Run(events);
    hide Run;
    events, s := Then(events, s, Advance(1));
    events, s := Then(events, s, Advance(1));
  }

  /** A schedule that closes the transport, announces it, and leaves Closed again: a
      report was past its check when the close came. */
  lemma ClosedIsLeft() returns (events: seq<Event>, more: seq<Event>)
    ensures var s := Run(events);
      s.shared.state == Closed && s.shared.states == Ledger([Closed], [0]) && 0 in PastCalls(s)
    ensures Run(events + more).shared.state == IceState.Connected && Run(events + more).shared.closed
  {
    events := ClosedDuringReport();
    hide Run;
    more := [Advance(0)];
    RunAppend(events, Advance(0));
  }

  // ----- datagrams after the closing swap -----

  ghost function Delivering(s: State): set<nat> {
    set c | c in s.calls && s.calls[c] == ReceiveDeliver
  }

  /** `t` comes after `s`, which is closed: what was delivered since was on its way. */
  ghost predicate DeliveredSince(s: State, t: State) {
    t.shared.closed && s.shared.received <= t.shared.received
    && var since := t.shared.received[|s.shared.received|..];
    Once(since) && Elems(since) !! Delivering(t) && Elems(since) + Delivering(t) <= Delivering(s)
  }

  lemma MoveDelivers(m: Shared, c: nat, pc: Pc)
    requires m.closed
    ensures var (n, next) := Move(m, c, pc);
      n.closed && next != ReceiveDeliver
      && n.received == if pc == ReceiveDeliver then m.received + [c] else m.received
  {}

  lemma DeliveredKept(s: State, t: State, e: Event)
    requires DeliveredSince(s, t)
    ensures DeliveredSince(s, Apply(t, e))
  {
    match e
    case Begin(c, op) => assert Entry(op) != ReceiveDeliver;
    case Advance(c) =>
      if c in t.calls {
        MoveDelivers(t.shared, c, t.calls[c]);
        hide Move;
        var u := Apply(t, e);
        var since, now := t.shared.received[|s.shared.received|..], u.shared.received[|s.shared.received|..];
        if t.calls[c] == ReceiveDeliver {
          assert now == since + [c];
          assert Elems(now) == Elems(since) + {c};
          assert Delivering(u) == Delivering(t) - {c};
          assert c !in Elems(since);
        } else {
          assert Delivering(u) == Delivering(t);
        }
      }
  }

  lemma {:induction false} DeliveredClosing(events: seq<Event>, k: nat)
    requires k <= |events| && Run(events[..k]).shared.closed
    ensures DeliveredSince(Run(events[..k]), Run(events))
  {
    if k == |events| {
      assert events[..k] == events;
    } else {
      var before := events[..|events| - 1];
      assert before[..k] == events[..k];
      DeliveredClosing(before, k);
      hide DeliveredSince, Apply;
      DeliveredKept(Run(events[..k]), Run(before), events[|events| - 1]);
    }
  }

  /** After the closing swap `on_data` is called only for datagrams that were past the
      closed check by then, once each; with a serial driver that is one at most. */
  lemma ReceivedAfterClosing(events: seq<Event>, k: nat)
    requires k <= |events| && Run(events[..k]).shared.closed
    ensures var s, t := Run(events[..k]), Run(events);
      s.shared.received <= t.shared.received
      && var since := t.shared.received[|s.shared.received|..];
      Once(since) && Elems(since) <= Delivering(s) && |since| <= |Delivering(s)|
  {
    DeliveredClosing(events, k);
    var s, t := Run(events[..k]), Run(events);
    hide Run, Delivering, Elems;
    var since := t.shared.received[|s.shared.received|..];
    OnceSize(since);
    SubsetSize(Elems(since), Delivering(s));
  }

  /** A closed transport can still call `on_data` exactly if some datagram is past the
      closed check. */
  lemma DeliversAfterCloseExactly(events: seq<Event>)
    requires Run(events).shared.closed
    ensures (exists more :: |Run(events + more).shared.received| > |Run(events).shared.received|)
      <==> Delivering(Run(events)) != {}
  {
    if c :| c in Delivering(Run(events)) {
      RunAppend(events, Advance(c));
      assert |Run(events + [Advance(c)]).shared.received| > |Run(events).shared.received|;
    } else {
      forall more ensures |Run(events + more).shared.received| <= |Run(events).shared.received| {
        assert (events + more)[..|events|] == events;
        ReceivedAfterClosing(events + more, |events|);
      }
    }
  }

  // ----- one call on its own -----

  function Left(pc: Pc): nat {
    match pc
    case RestartCheck => 5
    case RestartGathering => 4
    case RestartState(_) => 3
    case RestartTellGathering(_, _) => 2
    case RestartTellState(_) => 1
    case JuiceCheck(_) => 3
    case JuiceWrite(_) => 2
    case JuiceAnnounce(_) => 1
    case DoneCheck => 3
    case DoneWrite => 2
    case DoneAnnounce(_) => 1
    case ReceiveCheck => 2
    case ReceiveDeliver => 1
    case GatherCheck => 3
    case GatherWrite => 2
    case GatherAnnounce(_) => 1
    case CloseSwap => 3
    case CloseWrite => 2
    case CloseAnnounce(_) => 1
    case Done => 0
  }

  /** What a call does from `pc` on when nothing comes between its steps. */
  function Alone(m: Shared, c: nat, pc: Pc): Shared
    decreases Left(pc)
  {
    if pc == Done then m else var (next, at) := Move(m, c, pc); Alone(next, c, at)
  }

  lemma LeftDrops(m: Shared, c: nat, pc: Pc)
    requires pc != Done
    ensures Left(Move(m, c, pc).1) < Left(pc)
  {}

  lemma AloneStep(m: Shared, c: nat, pc: Pc)
    ensures Alone(m, c, pc) == if pc == Done then m else Alone(Move(m, c, pc).0, c, Move(m, c, pc).1)
  {}

  /** Such a call is a run of the machine that only advances that call. */
  lemma {:induction false} AloneIsARun(events: seq<Event>, c: nat) returns (rest: seq<Event>)
    requires c in Run(events).calls
    ensures forall i :: 0 <= i < |rest| ==> rest[i] == Advance(c)
    ensures var s := Run(events);
      Run(events + rest) == State(Alone(s.shared, c, s.calls[c]), s.calls[c := Done])
    decreases Left(Run(events).calls[c])
  {
    hide Run, Left, Move, Alone;
    var s := Run(events);
    AloneStep(s.shared, c, s.calls[c]);
    if s.calls[c] == Done {
      rest := [];
      assert events + rest == events && s.calls[c := Done] == s.calls;
    } else {
      LeftDrops(s.shared, c, s.calls[c]);
      RunAppend(events, Advance(c));
      var next := Run(events + [Advance(c)]);
      var tail := AloneIsARun(events + [Advance(c)], c);
      rest := [Advance(c)] + tail;
      assert events + rest == events + [Advance(c)] + tail;
      assert next.calls[c := Done] == s.calls[c := Done];
    }
  }

  datatype IceError = TransportClosed | Refused

  /** The state that libjuice's handlers and the user share, when calls do not overlap. */
  class Bridge {
    var state: IceState
    var gathering: GatheringState
    var closed: bool
    ghost var closer: nat
    ghost var states: Ledger<IceState>
    ghost var gatherings: Ledger<GatheringState>
    ghost var authors: seq<nat>
    ghost var received: seq<nat>

    ghost function View(): Shared
      reads this
    {
      Shared(state, gathering, closed, closer, states, gatherings, authors, received)
    }

    constructor ()
      ensures View() == START.shared
    {
      state, gathering, closed := IceState.New, GatheringState.New, false;
      closer, states, gatherings, authors, received := 0, Ledger([], []), Ledger([], []), [], [];
    }

    method SetState(ghost call: nat, value: IceState) returns (ghost index: nat)
      modifies this`state, this`states, this`authors
      ensures View() == WriteState(old(View()), call, value) && index == old(|states.writes|)
    {
      index := |states.writes|;
      state, states, authors := value, Write(states, value), authors + [call];
    }

    method SetGathering(value: GatheringState) returns (ghost index: nat)
      modifies this`gathering, this`gatherings
      ensures View() == WriteGathering(old(View()), value) && index == old(|gatherings.writes|)
    {
      index := |gatherings.writes|;
      gathering, gatherings := value, Write(gatherings, value);
    }

    method FireState(ghost index: nat)
      modifies this`states
      ensures View() == TellState(old(View()), index)
    {
      states := Announce(states, index);
    }

    method FireGathering(ghost index: nat)
      modifies this`gatherings
      ensures View() == TellGathering(old(View()), index)
    {
      gatherings := Announce(gatherings, index);
    }

    method OnJuiceState(ghost call: nat, report: Juice)
      modifies this
      ensures View() == Alone(old(View()), call, JuiceCheck(report))
      ensures old(closed) ==> View() == old(View())
      ensures !old(closed) ==> (state == IceState.Failed <==> report == Juice.Failed)
      ensures !old(closed) ==> (state == IceState.Connected <==> report == Juice.Connected)
      ensures !old(closed) ==> (state == IceState.Completed <==> report == Juice.Completed)
      ensures !old(closed) ==> (state == IceState.New <==> report == Juice.Disconnected)
      ensures !old(closed) ==> (state == Checking <==> report == Juice.Gathering || report == Juice.Connecting)
      ensures state == old(state) ==> View() == old(View())
      ensures state != old(state) ==>
        View() == old(View()).(state := state, states := Told(old(states), state), authors := old(authors) + [call])
    {
      if closed { return; }
      if state != MapState(report) {
        ghost var index := SetState(call, MapState(report));
        FireState(index);
      }
    }

    method OnJuiceGatheringDone(ghost call: nat)
      modifies this
      ensures View() == Alone(old(View()), call, DoneCheck)
      ensures View() == if old(closed) || old(gathering) == GatheringState.Complete then old(View())
                        else old(View()).(gathering := GatheringState.Complete,
                                          gatherings := Told(old(gatherings), GatheringState.Complete))
    {
      if closed { return; }
      if gathering != GatheringState.Complete {
        ghost var index := SetGathering(GatheringState.Complete);
        FireGathering(index);
      }
    }

    /** Whether the datagram reached `on_data`. */
    method OnJuiceRecv(ghost call: nat) returns (delivered: bool)
      modifies this
      ensures delivered == !old(closed)
      ensures View() == Alone(old(View()), call, ReceiveCheck)
      ensures View() == old(View()).(received := old(received) + if delivered then [call] else [])
    {
      if closed { return false; }
      received := received + [call];
      return true;
    }

    /** libjuice is told to gather after the handler call; `accepted` is its answer. */
    method GatherCandidates(ghost call: nat, accepted: bool) returns (r: Result<(), IceError>)
      modifies this
      ensures r == if old(closed) then Err(TransportClosed)
                   else if old(gathering) == GatheringState.New && !accepted then Err(Refused) else Ok(())
      ensures View() == Alone(old(View()), call, GatherCheck)
      ensures View() == if old(closed) || old(gathering) != GatheringState.New then old(View())
                        else old(View()).(gathering := InProgress, gatherings := Told(old(gatherings), InProgress))
    {
      if closed { return Err(TransportClosed); }
      if gathering == GatheringState.New {
        ghost var index := SetGathering(InProgress);
        FireGathering(index);
        if !accepted { return Err(Refused); }
      }
      return Ok(());
    }

    method ResetGathering(ghost call: nat) returns (changed: bool, ghost write: Option<nat>)
      modifies this`gathering, this`gatherings
      ensures (View(), RestartState(write)) == Move(old(View()), call, RestartGathering)
      ensures changed == write.Some? == (old(gathering) != GatheringState.New)
      ensures write == if changed then Some(old(|gatherings.writes|)) else None
      ensures View() == if changed then WriteGathering(old(View()), GatheringState.New) else old(View())
    {
      changed, write := gathering != GatheringState.New, None;
      if changed {
        ghost var index := SetGathering(GatheringState.New);
        write := Some(index);
      }
    }

    method ResetState(ghost call: nat, ghost before: Option<nat>) returns (changed: bool, ghost write: Option<nat>)
      modifies this`state, this`states, this`authors
      ensures (View(), ThenTell(before, write)) == Move(old(View()), call, RestartState(before))
      ensures changed == write.Some? == (old(state) != IceState.New)
      ensures write == if changed then Some(old(|states.writes|)) else None
      ensures View() == if changed then WriteState(old(View()), call, IceState.New) else old(View())
    {
      changed, write := state != IceState.New, None;
      if changed {
        ghost var index := SetState(call, IceState.New);
        write := Some(index);
      }
    }

    method TellReset(ghost call: nat, gatheringChanged: bool, ghost gatheringWrite: Option<nat>,
                     stateChanged: bool, ghost stateWrite: Option<nat>)
      requires gatheringChanged == gatheringWrite.Some? && stateChanged == stateWrite.Some?
      modifies this`gatherings, this`states
      ensures View() == Alone(old(View()), call, ThenTell(gatheringWrite, stateWrite))
      ensures gatherings == if gatheringChanged then Announce(old(gatherings), gatheringWrite.value) else old(gatherings)
      ensures states == if stateChanged then Announce(old(states), stateWrite.value) else old(states)
    {
      hide Alone;
      AloneStep(View(), call, ThenTell(gatheringWrite, stateWrite));
      if gatheringChanged {
        FireGathering(gatheringWrite.value);
      }
      TellStateReset(call, stateChanged, stateWrite);
    }

    method TellStateReset(ghost call: nat, changed: bool, ghost write: Option<nat>)
      requires changed == write.Some?
      modifies this`states
      ensures View() == Alone(old(View()), call, ThenTellState(write))
      ensures states == if changed then Announce(old(states), write.value) else old(states)
    {
      hide Alone;
      AloneStep(View(), call, ThenTellState(write));
      if changed {
        FireState(write.value);
      }
      AloneStep(View(), call, Done);
    }

    method RestartIce(ghost call: nat) returns (ok: bool)
      modifies this
      ensures ok == !old(closed)
      ensures View() == Alone(old(View()), call, RestartCheck)
      ensures old(closed) ==> View() == old(View())
      ensures !old(closed) ==> state == IceState.New && gathering == GatheringState.New && !closed
      ensures !old(closed) ==>
        states == (if old(state) == IceState.New then old(states) else Told(old(states), IceState.New))
        && authors == (if old(state) == IceState.New then old(authors) else old(authors) + [call])
        && gatherings == (if old(gathering) == GatheringState.New then old(gatherings)
                          else Told(old(gatherings), GatheringState.New))
      ensures closer == old(closer) && received == old(received)
    {
      hide Alone;
      AloneStep(View(), call, RestartCheck);
      AloneStep(View(), call, Done);
      assert Alone(View(), call, RestartCheck) == if closed then View() else Alone(View(), call, RestartGathering);
      hide Move, ThenTell;
      if closed { return false; }
      AloneStep(View(), call, RestartGathering);
      var gatheringChanged, gatheringWrite := ResetGathering(call);
      AloneStep(View(), call, RestartState(gatheringWrite));
      var stateChanged, stateWrite := ResetState(call, gatheringWrite);
      TellReset(call, gatheringChanged, gatheringWrite, stateChanged, stateWrite);
      return true;
    }

    method WriteClosed(ghost call: nat)
      modifies this`state, this`states, this`authors
      ensures View() == Alone(old(View()), call, CloseWrite)
      ensures View() == if old(state) == Closed then old(View())
                        else old(View()).(state := Closed, states := Told(old(states), Closed),
                                          authors := old(authors) + [call])
    {
      hide Alone;
      AloneStep(View(), call, CloseWrite);
      AloneStep(View(), call, Done);
      if state != Closed {
        ghost var index := SetState(call, Closed);
        AloneStep(View(), call, CloseAnnounce(index));
        FireState(index);
        AloneStep(View(), call, Done);
      }
    }

    method CloseTransport(ghost call: nat)
      modifies this
      ensures View() == Alone(old(View()), call, CloseSwap)
      ensures View() == if old(closed) then old(View())
                        else if old(state) == Closed then old(View()).(closed := true, closer := call)
                        else old(View()).(closed := true, closer := call, state := Closed,
                                          states := Told(old(states), Closed), authors := old(authors) + [call])
    {
      hide Alone;
      AloneStep(View(), call, CloseSwap);
      AloneStep(View(), call, Done);
      if closed { return; }
      closed, closer := true, call;
      WriteClosed(call);
    }
  }
}
