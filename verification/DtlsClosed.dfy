/** When a closed DTLS transport stays closed: exactly under which interleavings,
    and always when calls do not overlap. */
module DtlsClosed {
  import opened Dtls
  import opened Ledgers
  import opened Text

  // ----- who holds the inner lock -----

  predicate HolderOk(s: State) {
    s.shared.holder.Some? ==>
      s.shared.holder.value in s.calls && At(s.calls[s.shared.holder.value]).holds
  }

  predicate HolderMoved(m: Shared, c: nat, n: Shared, next: Pc) {
    n.holder == None || (n.holder == m.holder && m.holder != Some(c)) || (n.holder == Some(c) && At(next).holds)
  }

  lemma StartMovesHolder(m: Shared, c: nat, at: StartPc)
    requires m.holder == Some(c) ==> At(Starting(at)).holds
    ensures HolderMoved(m, c, MoveStart(m, c, at).0, MoveStart(m, c, at).1)
  {}

  lemma DriveMovesHolder(m: Shared, c: nat, from: Caller, at: DrivePc, a: Answer)
    ensures HolderMoved(m, c, MoveDrive(m, c, from, at, a).0, MoveDrive(m, c, from, at, a).1)
  {}

  lemma PumpMovesHolder(m: Shared, c: nat, at: PumpPc, a: Answer)
    requires m.holder == Some(c) ==> At(Pumping(at)).holds
    ensures HolderMoved(m, c, MovePump(m, c, at, a).0, MovePump(m, c, at, a).1)
  {}

  lemma SendMovesHolder(m: Shared, c: nat, at: SendPc, a: Answer)
    requires m.holder == Some(c) ==> At(Sending(at)).holds
    ensures HolderMoved(m, c, MoveSend(m, c, at, a).0, MoveSend(m, c, at, a).1)
  {}

  /** The other moves do not touch the lock. */
  lemma RestMovesHolder(m: Shared, c: nat, pc: Pc, a: Answer)
    requires (pc.Failing? || pc.Closing? || pc == Done) && m.holder != Some(c)
    ensures HolderMoved(m, c, Move(m, c, pc, a).0, Move(m, c, pc, a).1)
  {}

  lemma MoveMovesHolder(m: Shared, c: nat, pc: Pc, a: Answer)
    requires m.holder == Some(c) ==> At(pc).holds
    ensures HolderMoved(m, c, Move(m, c, pc, a).0, Move(m, c, pc, a).1)
  {
    match pc
    case Starting(at) => StartMovesHolder(m, c, at);
    case Driving(from, at) => DriveMovesHolder(m, c, from, at, a);
    case Pumping(at) => PumpMovesHolder(m, c, at, a);
    case Sending(at) => SendMovesHolder(m, c, at, a);
    case _ => RestMovesHolder(m, c, pc, a);
    hide HolderMoved, MoveStart, MoveDrive, MovePump, MoveFail, MoveClose, MoveSend;
  }

  lemma {:induction false} EveryHolder(client: bool, events: seq<Event>)
    ensures HolderOk(Run(client, events))
  {
    if events != [] {
      var before := events[..|events| - 1];
      EveryHolder(client, before);
      var s := Run(client, before);
      match events[|events| - 1]
      case Begin(_, _) =>
      case Advance(c, a) =>
        if c in s.calls {
          MoveMovesHolder(s.shared, c, s.calls[c], a);
          hide Move, At;
        }
    }
  }

  // ----- when Closed is left -----

  /** A pump past its closed check that has yet to feed the inbound BIO. */
  predicate WillFeed(pc: Pc) { pc == Pumping(PumpLock) || pc == Pumping(PumpFeed) }

  /** The peer was heard, or will be by a call that got past its closed check. */
  ghost predicate Hearing(s: State) {
    s.shared.fed || exists c :: c in s.calls && WillFeed(s.calls[c])
  }

  /** A call past every closed check that can see the handshake finish, and will then
      write Connected whatever the state is. */
  predicate MayConnect(m: Shared, hearing: bool, pc: Pc) {
    match pc
    case Starting(at) => m.client && !m.done && ((at == StartLock && hearing) || (at == StartHeld && m.fed))
    case Driving(_, at) =>
      (match at
       case DriveHandshake => !m.done && m.fed
       case DriveDrain(result) => !m.done && result == Finished
       case DriveWrite => true
       case DriveAnnounce(_) => false)
    case _ => false
  }

  predicate Pinned(m: Shared) { m.state == Closed && m.closed }

  /** What a step of a closed transport leaves as it was. */
  predicate StaysShut(m: Shared, hearing: bool, pc: Pc, n: Shared, next: Pc) {
    Pinned(n) && n.client == m.client
    && (n.fed ==> m.fed || WillFeed(pc)) && (WillFeed(next) ==> WillFeed(pc))
    && !MayConnect(n, hearing, next)
  }

  lemma StartStaysClosed(m: Shared, hearing: bool, c: nat, at: StartPc)
    requires Pinned(m) && (m.fed ==> hearing) && (At(Starting(at)).opening ==> !hearing)
    requires !MayConnect(m, hearing, Starting(at))
    ensures var (n, next) := MoveStart(m, c, at); StaysShut(m, hearing, Starting(at), n, next)
  {}

  lemma DriveStaysClosed(m: Shared, hearing: bool, c: nat, from: Caller, at: DrivePc, a: Answer)
    requires Pinned(m) && !MayConnect(m, hearing, Driving(from, at))
    ensures var (n, next) := MoveDrive(m, c, from, at, a); StaysShut(m, hearing, Driving(from, at), n, next)
  {}

  lemma PumpStaysClosed(m: Shared, hearing: bool, c: nat, at: PumpPc, a: Answer)
    requires Pinned(m)
    ensures var (n, next) := MovePump(m, c, at, a); StaysShut(m, hearing, Pumping(at), n, next)
  {}

  lemma FailStaysClosed(m: Shared, hearing: bool, at: FailPc)
    requires Pinned(m)
    ensures var (n, next) := MoveFail(m, at); StaysShut(m, hearing, Failing(at), n, next)
  {}

  lemma CloseStaysClosed(m: Shared, hearing: bool, c: nat, at: ClosePc)
    requires Pinned(m)
    ensures var (n, next) := MoveClose(m, c, at); StaysShut(m, hearing, Closing(at), n, next)
  {}

  lemma SendStaysClosed(m: Shared, hearing: bool, c: nat, at: SendPc, a: Answer)
    requires Pinned(m)
    ensures var (n, next) := MoveSend(m, c, at, a); StaysShut(m, hearing, Sending(at), n, next)
  {}

  lemma MoveStaysClosed(m: Shared, hearing: bool, c: nat, pc: Pc, a: Answer)
    requires Pinned(m) && (m.fed ==> hearing) && (At(pc).opening ==> !hearing) && !MayConnect(m, hearing, pc)
    ensures var (n, next) := Move(m, c, pc, a); StaysShut(m, hearing, pc, n, next)
  {
    match pc
    case Starting(at) => StartStaysClosed(m, hearing, c, at);
    case Driving(from, at) => DriveStaysClosed(m, hearing, c, from, at, a);
    case Pumping(at) => PumpStaysClosed(m, hearing, c, at, a);
    case Failing(at) => FailStaysClosed(m, hearing, at);
    case Closing(at) => CloseStaysClosed(m, hearing, c, at);
    case Sending(at) => SendStaysClosed(m, hearing, c, at, a);
    case Done =>
    hide MoveStart, MoveDrive, MovePump, MoveFail, MoveClose, MoveSend;
  }

  ghost predicate Stuck(s: State) {
    Pinned(s.shared) && forall c :: c in s.calls ==> !MayConnect(s.shared, Hearing(s), s.calls[c])
  }

  /** While nothing is installed nobody can have been heard. */
  lemma NothingHeard(s: State, c: nat)
    requires Inv(s) && c in s.calls && At(s.calls[c]).opening
    ensures !Hearing(s)
  {
    assert CallOk(s.shared, c, s.calls[c]);
    forall d | d in s.calls ensures !WillFeed(s.calls[d]) {
      assert CallOk(s.shared, d, s.calls[d]);
    }
  }

  /** A step of one call does not make another one able to connect: if it feeds, it
      holds the lock that the other would need. */
  lemma OthersStayShut(m: Shared, n: Shared, hearing: bool, heard: bool, c: nat, pc: Pc, next: Pc, d: nat, other: Pc)
    requires StaysShut(m, hearing, pc, n, next) && Respects(m, c, pc, n) && (heard ==> hearing)
    requires c != d && CallOk(m, c, pc) && CallOk(m, d, other) && !MayConnect(m, hearing, other)
    ensures !MayConnect(n, heard, other)
  {
    hide Pinned;
  }

  lemma StuckAdvances(s: State, c: nat, a: Answer)
    requires Stuck(s) && Inv(s) && c in s.calls
    ensures Stuck(Apply(s, Advance(c, a)))
  {
    var m, pc, hearing := s.shared, s.calls[c], Hearing(s);
    var (n, next) := Move(m, c, pc, a);
    var t := Apply(s, Advance(c, a));
    if At(pc).opening { NothingHeard(s, c); }
    assert CallOk(m, c, pc);
    hide Move, At, CallOk, SharedOk, OwnersOk, Balanced, Waiting, Respects, MayConnect;
    MoveStaysClosed(m, hearing, c, pc, a);
    MoveRespects(m, c, pc, a);
    assert Hearing(t) ==> hearing;
    forall d | d in s.calls && d != c ensures !MayConnect(n, Hearing(t), s.calls[d]) {
      OthersStayShut(m, n, hearing, Hearing(t), c, pc, next, d, s.calls[d]);
    }
    LessHearing(n, hearing, Hearing(t), next);
  }

  lemma LessHearing(m: Shared, hearing: bool, heard: bool, pc: Pc)
    requires !MayConnect(m, hearing, pc) && (heard ==> hearing)
    ensures !MayConnect(m, heard, pc)
  {}

  lemma StuckBegins(s: State, c: nat, op: Op)
    requires Stuck(s)
    ensures Stuck(Apply(s, Begin(c, op)))
  {
    if c !in s.calls && CanBegin(s.shared, op) {
      var t := Apply(s, Begin(c, op));
      assert !WillFeed(Entry(op)) && forall hearing :: !MayConnect(s.shared, hearing, Entry(op));
      hide MayConnect, WillFeed, Entry, Pinned;
      assert Hearing(t) ==> Hearing(s);
      forall d | d in s.calls ensures !MayConnect(t.shared, Hearing(t), t.calls[d]) {
        LessHearing(s.shared, Hearing(s), Hearing(t), s.calls[d]);
      }
    }
  }

  lemma RunAppend(client: bool, events: seq<Event>, e: Event)
    ensures Run(client, events + [e]) == Apply(Run(client, events), e)
  {
    assert (events + [e])[..|events|] == events;
  }

  lemma {:induction false} StaysClosed(client: bool, events: seq<Event>, more: seq<Event>)
    requires Stuck(Run(client, events))
    ensures Stuck(Run(client, events + more))
  {
    hide Run, Stuck, Apply, Inv;
    if more == [] {
      assert events + more == events;
    } else {
      var front, last := more[..|more| - 1], more[|more| - 1];
      StaysClosed(client, events, front);
      assert events + more == events + front + [last];
      RunAppend(client, events + front, last);
      var s := Run(client, events + front);
      EveryRun(client, events + front);
      match last
      case Begin(c, op) => StuckBegins(s, c, op);
      case Advance(c, a) =>
        if c in s.calls { StuckAdvances(s, c, a); } else { NoCall(s, c, a); }
    }
  }

  lemma NoCall(s: State, c: nat, a: Answer)
    requires c !in s.calls
    ensures Apply(s, Advance(c, a)) == s
  {}

  // ----- how it is left -----

  const GOOD := Answer(true, Finished, true, NoMore, true)
  const SLOW := Answer(true, WantMore, true, NoMore, true)

  /** A call that holds the lock and will give it back without connecting. */
  predicate Idle(m: Shared, pc: Pc) {
    match pc
    case Starting(at) => at == StartHeld && !(m.client && m.fed)
    case Driving(_, at) => (at == DriveHandshake && !m.fed) || (at.DriveDrain? && at.result != Finished)
    case Pumping(at) => at == PumpFeed || at == PumpState || at == PumpConnected
    case _ => false
  }

  function IdleLeft(pc: Pc): nat {
    match pc
    case Starting(_) => 5
    case Driving(_, at) => if at == DriveHandshake then 4 else 3
    case Pumping(at) => (if at == PumpFeed then 3 else if at == PumpState then 2 else 1)
    case _ => 0
  }

  function Listened(m: Shared, pc: Pc): Shared { m.(fed := m.fed || pc == Pumping(PumpFeed)) }

  /** A step towards letting go: the lock is given back, or the call is nearer to it. */
  lemma IdleMoves(m: Shared, c: nat, pc: Pc)
    requires Idle(m, pc) && m.state == Closed
    ensures var (n, next) := Move(m, c, pc, SLOW);
      n == Release(Listened(m, pc))
      || (n == Listened(m, pc) && Idle(n, next) && IdleLeft(next) < IdleLeft(pc) && next != Pumping(PumpFeed))
  {}

  /** Such a call can let go of the lock; all it may change is that the peer was heard. */
  lemma {:induction false} LetGo(client: bool, events: seq<Event>, d: nat) returns (more: seq<Event>)
    requires var s := Run(client, events); s.shared.state == Closed && d in s.calls && Idle(s.shared, s.calls[d])
    ensures var s, t := Run(client, events), Run(client, events + more);
      t.shared == Release(Listened(s.shared, s.calls[d])) && t.calls.Keys == s.calls.Keys
      && forall c :: c in s.calls && c != d ==> t.calls[c] == s.calls[c]
    decreases IdleLeft(Run(client, events).calls[d])
  {
    hide Run, Move, Idle, IdleLeft, Release;
    var s := Run(client, events);
    IdleMoves(s.shared, d, s.calls[d]);
    RunAppend(client, events, Advance(d, SLOW));
    more := [Advance(d, SLOW)];
    if Run(client, events + more).shared != Release(Listened(s.shared, s.calls[d])) {
      var rest := LetGo(client, events + more, d);
      assert events + more + rest == events + (more + rest);
      more := more + rest;
    }
  }

  function Left(pc: Pc): nat {
    match pc
    case Starting(at) => if at == StartLock then 5 else 4
    case Driving(_, at) => (match at case DriveHandshake => 3 case DriveDrain(_) => 2 case _ => 1)
    case _ => 0
  }

  /** The call can go straight on to write Connected. */
  predicate Ready(m: Shared, pc: Pc) {
    m.state == Closed && MayConnect(m, m.fed, pc) && (pc == Starting(StartLock) ==> m.holder == None)
  }

  lemma GoodMoves(m: Shared, c: nat, pc: Pc)
    requires Ready(m, pc)
    ensures var (n, next) := Move(m, c, pc, GOOD);
      n.state == Connected || (Ready(n, next) && Left(next) < Left(pc))
  {}

  lemma {:induction false} GoesOn(client: bool, events: seq<Event>, c: nat) returns (more: seq<Event>)
    requires var s := Run(client, events); c in s.calls && Ready(s.shared, s.calls[c])
    ensures Run(client, events + more).shared.state == Connected
    decreases Left(Run(client, events).calls[c])
  {
    hide Run, Move, Ready, Left;
    var s := Run(client, events);
    GoodMoves(s.shared, c, s.calls[c]);
    RunAppend(client, events, Advance(c, GOOD));
    more := [Advance(c, GOOD)];
    if Run(client, events + more).shared.state != Connected {
      var rest := GoesOn(client, events + more, c);
      assert events + more + rest == events + (more + rest);
      more := more + rest;
    }
  }

  lemma HoldersChoice(m: Shared, c: nat, pc: Pc)
    requires At(pc).holds && !m.done && m.client && m.state == Closed && CallOk(m, c, pc)
    ensures Ready(m, pc) || Idle(m, pc)
  {}

  /** `c` waits for the lock, the peer was not heard yet, and the pump `e` is next. */
  predicate Waits(s: State, c: nat, e: nat) {
    s.shared.state == Closed && s.shared.client && !s.shared.done && s.shared.holder == None
    && c in s.calls && s.calls[c] == Starting(StartLock) && e in s.calls && s.calls[e] == Pumping(PumpLock)
  }

  lemma PumpEnters(s: State, c: nat, e: nat)
    requires Waits(s, c, e)
    ensures var t := Apply(s, Advance(e, SLOW));
      t.shared == s.shared.(holder := Some(e)) && t.calls == s.calls[e := Pumping(PumpFeed)] && c != e
  {}

  lemma FeedsFirst(client: bool, events: seq<Event>, c: nat, e: nat) returns (more: seq<Event>)
    requires Waits(Run(client, events), c, e)
    ensures Run(client, events + more).shared.state == Connected
  {
    hide Run, Apply;
    var s := Run(client, events);
    PumpEnters(s, c, e);
    RunAppend(client, events, Advance(e, SLOW));
    var first := events + [Advance(e, SLOW)];
    var second := LetGo(client, first, e);
    var t := Run(client, first + second);
    assert c in t.calls && t.calls[c] == Starting(StartLock) && t.shared.fed && t.shared.holder == None;
    var third := GoesOn(client, first + second, c);
    more := [Advance(e, SLOW)] + second + third;
    assert events + more == first + second + third;
  }

  ghost predicate Leavable(s: State, c: nat) {
    s.shared.state == Closed && c in s.calls && MayConnect(s.shared, Hearing(s), s.calls[c])
  }

  /** With the lock free: either the peer was heard, or a pump is next. */
  lemma FreeLeaves(client: bool, events: seq<Event>, c: nat) returns (more: seq<Event>)
    requires var s := Run(client, events);
      Leavable(s, c) && s.calls[c] == Starting(StartLock) && s.shared.holder == None
    ensures Run(client, events + more).shared.state == Connected
  {
    var s := Run(client, events);
    EveryRun(client, events);
    hide Run, Balanced, Waiting, History, AllSecured;
    if s.shared.fed {
      more := GoesOn(client, events, c);
    } else {
      var e :| e in s.calls && WillFeed(s.calls[e]);
      assert CallOk(s.shared, e, s.calls[e]);
      more := FeedsFirst(client, events, c, e);
    }
  }

  lemma WhoHolds(client: bool, events: seq<Event>) returns (d: nat)
    requires var m := Run(client, events).shared; m.holder != None && m.client && !m.done && m.state == Closed
    ensures var s := Run(client, events);
      d in s.calls && s.shared.holder == Some(d) && At(s.calls[d]).holds
      && (Ready(s.shared, s.calls[d]) || Idle(s.shared, s.calls[d]))
  {
    var s := Run(client, events);
    EveryRun(client, events);
    EveryHolder(client, events);
    d := s.shared.holder.value;
    HoldersChoice(s.shared, d, s.calls[d]);
  }

  /** Once the holder has let go, the waiting call can still connect. */
  lemma StillLeavable(s: State, t: State, c: nat, d: nat)
    requires Leavable(s, c) && s.calls[c] == Starting(StartLock) && d in s.calls && At(s.calls[d]).holds
    requires t.shared == Release(Listened(s.shared, s.calls[d])) && t.calls.Keys == s.calls.Keys
    requires forall e :: e in s.calls && e != d ==> t.calls[e] == s.calls[e]
    ensures Leavable(t, c) && t.calls[c] == Starting(StartLock) && t.shared.holder == None
  {
    if !t.shared.fed {
      var e :| e in s.calls && WillFeed(s.calls[e]);
      assert e != d && t.calls[e] == s.calls[e];
      assert Hearing(t);
    }
  }

  lemma CanLeave(client: bool, events: seq<Event>, c: nat) returns (more: seq<Event>)
    requires Leavable(Run(client, events), c)
    ensures Run(client, events + more).shared.state == Connected
  {
    hide Run;
    var s := Run(client, events);
    if s.calls[c] != Starting(StartLock) {
      more := GoesOn(client, events, c);
    } else if s.shared.holder == None {
      more := FreeLeaves(client, events, c);
    } else {
      var d := WhoHolds(client, events);
      if Ready(s.shared, s.calls[d]) {
        more := GoesOn(client, events, d);
      } else {
        var first := LetGo(client, events, d);
        hide Leavable, Idle, Ready, At;
        StillLeavable(s, Run(client, events + first), c, d);
        var rest := FreeLeaves(client, events + first, c);
        assert events + first + rest == events + (first + rest);
        more := first + rest;
      }
    }
  }

  /** A closed transport can leave Closed exactly if some call got past its closed
      check and can still be the one to see the handshake finish. */
  lemma LeavesClosedExactly(client: bool, events: seq<Event>)
    requires Run(client, events).shared.state == Closed
    ensures (exists more :: Run(client, events + more).shared.state != Closed)
      <==> (exists c :: Leavable(Run(client, events), c))
  {
    EveryRun(client, events);
    StateIsLast(Run(client, events).shared);
    var s := Run(client, events);
    if c :| Leavable(s, c) {
      var more := CanLeave(client, events, c);
      assert Run(client, events + more).shared.state != Closed;
    } else {
      assert Stuck(s) by {
        assert forall c :: c in s.calls ==> !Leavable(s, c);
      }
      forall more ensures Run(client, events + more).shared.state == Closed {
        StaysClosed(client, events, more);
      }
    }
  }

  // ----- after the closing swap -----

  /** Past its closed check, on the way to data: to the start, the pump or the send. */
  predicate PastCheck(pc: Pc) {
    match pc
    case Starting(at) => at != StartCheck
    case Driving(_, _) => true
    case Pumping(at) => at != PumpCheck
    case Sending(at) => at != SendCheck
    case _ => false
  }

  ghost function PastCalls(s: State): set<nat> {
    set c | c in s.calls && PastCheck(s.calls[c])
  }

  predicate UsedBy(before: seq<Use>, after: seq<Use>, calls: set<nat>) {
    before <= after && forall i :: |before| <= i < |after| ==> after[i].call in calls
  }

  /** What a step may do once the transport is closed. */
  predicate Winds(m: Shared, c: nat, pc: Pc, n: Shared, next: Pc) {
    n.closed && (PastCheck(next) ==> PastCheck(pc))
    && (n.delivered == m.delivered || (n.delivered == m.delivered + [Use(c, m.done)] && PastCheck(pc)))
    && (n.sealed == m.sealed || (n.sealed == m.sealed + [Use(c, m.done)] && PastCheck(pc)))
    && (n.started == m.started || (n.opener == c && PastCheck(pc)))
    && (m.started ==> n.started && n.opener == m.opener)
  }

  lemma StartWinds(m: Shared, c: nat, at: StartPc)
    requires m.closed
    ensures var (n, next) := MoveStart(m, c, at); Winds(m, c, Starting(at), n, next)
  {}

  lemma DriveWinds(m: Shared, c: nat, from: Caller, at: DrivePc, a: Answer)
    requires m.closed
    ensures var (n, next) := MoveDrive(m, c, from, at, a); Winds(m, c, Driving(from, at), n, next)
  {}

  lemma PumpWinds(m: Shared, c: nat, at: PumpPc, a: Answer)
    requires m.closed
    ensures var (n, next) := MovePump(m, c, at, a); Winds(m, c, Pumping(at), n, next)
  {}

  lemma SendWinds(m: Shared, c: nat, at: SendPc, a: Answer)
    requires m.closed
    ensures var (n, next) := MoveSend(m, c, at, a); Winds(m, c, Sending(at), n, next)
  {}

  lemma OtherWinds(m: Shared, c: nat, pc: Pc, a: Answer)
    requires m.closed && (pc.Failing? || pc.Closing? || pc == Done)
    ensures var (n, next) := Move(m, c, pc, a); Winds(m, c, pc, n, next)
  {}

  lemma MoveWinds(m: Shared, c: nat, pc: Pc, a: Answer)
    requires m.closed
    ensures var (n, next) := Move(m, c, pc, a); Winds(m, c, pc, n, next)
  {
    match pc
    case Starting(at) => StartWinds(m, c, at);
    case Driving(from, at) => DriveWinds(m, c, from, at, a);
    case Pumping(at) => PumpWinds(m, c, at, a);
    case Sending(at) => SendWinds(m, c, at, a);
    case _ => OtherWinds(m, c, pc, a);
    hide Winds, MoveStart, MoveDrive, MovePump, MoveSend, MoveFail, MoveClose;
  }

  /** `t` comes after `s`, which is closed. */
  ghost predicate Since(s: State, t: State) {
    t.shared.closed && PastCalls(t) <= PastCalls(s)
    && UsedBy(s.shared.delivered, t.shared.delivered, PastCalls(s))
    && UsedBy(s.shared.sealed, t.shared.sealed, PastCalls(s))
    && (s.shared.started || (t.shared.started ==> t.shared.opener in PastCalls(s)))
  }

  lemma SinceKept(s: State, t: State, e: Event)
    requires Since(s, t)
    ensures Since(s, Apply(t, e))
  {
    match e
    case Begin(c, op) =>
      assert !PastCheck(Entry(op));
      hide PastCheck, Entry;
    case Advance(c, a) =>
      if c in t.calls {
        MoveWinds(t.shared, c, t.calls[c], a);
        hide Move, PastCheck;
      }
  }

  /** After the closing swap only calls that were then past their closed check reach
      `on_data` or SSL_write, or open the handshake: what begins later has no effect
      on the data path. */
  lemma {:induction false} NothingNewAfterClosing(client: bool, events: seq<Event>, k: nat)
    requires k <= |events| && Run(client, events[..k]).shared.closed
    ensures var s, t := Run(client, events[..k]), Run(client, events);
      PastCalls(t) <= PastCalls(s)
      && UsedBy(s.shared.delivered, t.shared.delivered, PastCalls(s))
      && UsedBy(s.shared.sealed, t.shared.sealed, PastCalls(s))
      && (s.shared.started || (t.shared.started ==> t.shared.opener in PastCalls(s)))
  {
    SinceClosing(client, events, k);
  }

  lemma {:induction false} SinceClosing(client: bool, events: seq<Event>, k: nat)
    requires k <= |events| && Run(client, events[..k]).shared.closed
    ensures Since(Run(client, events[..k]), Run(client, events))
  {
    if k == |events| {
      assert events[..k] == events;
    } else {
      var before := events[..|events| - 1];
      assert before[..k] == events[..k];
      SinceClosing(client, before, k);
      hide Since, Apply;
      SinceKept(Run(client, events[..k]), Run(client, before), events[|events| - 1]);
    }
  }

  // ----- calls that do not overlap -----

  /** A call begins only when none is in flight. */
  predicate Serial(client: bool, events: seq<Event>) {
    events == []
    || (Serial(client, events[..|events| - 1])
        && (events[|events| - 1].Advance? || Quiet(Run(client, events[..|events| - 1]))))
  }

  function Rank(state: DtlsState): nat {
    match state
    case New => 0
    case Connecting => 1
    case Connected => 2
    case Failed => 3
    case Closed => 4
  }

  predicate Increasing(states: seq<DtlsState>) {
    forall i, j :: 0 <= i < j < |states| ==> Rank(states[i]) < Rank(states[j])
  }

  /** The state that a call relies on between its steps. */
  predicate Expects(m: Shared, pc: Pc) {
    match pc
    case Starting(at) =>
      (at.StartAnnounce? || at == StartRead || at == StartInstall || at == StartLock || at == StartHeld
       ==> m.state == Connecting)
    case Driving(_, at) => !at.DriveAnnounce? ==> m.state == Connecting
    case Failing(_) => m.state != New
    case _ => true
  }

  /** The announcements are the writes, in order, but for the one a call still owes. */
  predicate InOrder(m: Shared, owes: Option<nat>) {
    (forall i :: 0 <= i < |m.ledger.announced| ==> m.ledger.announced[i] == i)
    && match owes
       case None => |m.ledger.announced| == |m.ledger.writes|
       case Some(index) => index == |m.ledger.announced| == |m.ledger.writes| - 1
  }

  /** At most one write, which raises the state. */
  predicate Raises(m: Shared, n: Shared) {
    (n.ledger.writes == m.ledger.writes && n.state == m.state)
    || (n.ledger.writes == m.ledger.writes + [n.state] && Rank(m.state) < Rank(n.state))
  }

  lemma StartSerial(m: Shared, c: nat, at: StartPc)
    requires Expects(m, Starting(at))
    ensures var (n, next) := MoveStart(m, c, at); Expects(n, next) && Raises(m, n)
  {}

  lemma DriveSerial(m: Shared, c: nat, from: Caller, at: DrivePc, a: Answer)
    requires Expects(m, Driving(from, at)) && m.state != New
    ensures var (n, next) := MoveDrive(m, c, from, at, a); Expects(n, next) && Raises(m, n)
  {}

  lemma PumpSerial(m: Shared, c: nat, at: PumpPc, a: Answer)
    requires m.state != New
    ensures var (n, next) := MovePump(m, c, at, a); Expects(n, next) && Raises(m, n)
  {}

  lemma FailSerial(m: Shared, at: FailPc)
    requires Expects(m, Failing(at))
    ensures var (n, next) := MoveFail(m, at); Expects(n, next) && Raises(m, n)
  {}

  lemma CloseSerial(m: Shared, c: nat, at: ClosePc)
    ensures var (n, next) := MoveClose(m, c, at); Expects(n, next) && Raises(m, n)
  {}

  lemma SendSerial(m: Shared, c: nat, at: SendPc, a: Answer)
    ensures var (n, next) := MoveSend(m, c, at, a); Expects(n, next) && Raises(m, n)
  {}

  lemma MoveSerial(m: Shared, c: nat, pc: Pc, a: Answer)
    requires Expects(m, pc) && (At(pc).begun ==> m.state != New)
    ensures var (n, next) := Move(m, c, pc, a); Expects(n, next) && Raises(m, n)
  {
    match pc
    case Starting(at) => StartSerial(m, c, at);
    case Driving(from, at) => DriveSerial(m, c, from, at, a);
    case Pumping(at) => PumpSerial(m, c, at, a);
    case Failing(at) => FailSerial(m, at);
    case Closing(at) => CloseSerial(m, c, at);
    case Sending(at) => SendSerial(m, c, at, a);
    case Done =>
    hide MoveStart, MoveDrive, MovePump, MoveFail, MoveClose, MoveSend;
  }

  lemma FollowsInOrder(m: Shared, owes: Option<nat>, n: Shared, next: Option<nat>)
    requires InOrder(m, owes) && Follows(m.ledger, owes, next, n.ledger, n.state)
    ensures InOrder(n, next)
  {}

  /** The one call in flight, if any, and what it owes. */
  ghost predicate OneAtATime(s: State) {
    (forall c, d :: c in s.calls && d in s.calls && s.calls[c] != Done && s.calls[d] != Done ==> c == d)
    && (forall c :: c in s.calls && s.calls[c] != Done ==>
      Expects(s.shared, s.calls[c]) && InOrder(s.shared, Owes(s.calls[c])))
    && (Quiet(s) ==> InOrder(s.shared, None))
    && Increasing(s.shared.ledger.writes)
  }

  lemma RaisesIncreasing(m: Shared, n: Shared)
    requires Raises(m, n) && Increasing(m.ledger.writes) && m.state == Current(New, m.ledger.writes)
    ensures Increasing(n.ledger.writes)
  {}

  lemma MoveOneAtATime(m: Shared, c: nat, pc: Pc, a: Answer)
    requires SharedOk(m) && CallOk(m, c, pc)
    requires Expects(m, pc) && InOrder(m, Owes(pc)) && Increasing(m.ledger.writes)
    ensures var (n, next) := Move(m, c, pc, a);
      Expects(n, next) && InOrder(n, Owes(next)) && Increasing(n.ledger.writes)
  {
    var (n, next) := Move(m, c, pc, a);
    StateIsLast(m);
    assert At(pc).begun ==> m.state != New;
    assert m.state == Current(New, m.ledger.writes);
    hide SharedOk, CallOk, Increasing, At;
    MoveSerial(m, c, pc, a);
    MoveFollows(m, c, pc, a);
    hide Move, Expects, Raises, InOrder, Follows, Owes;
    FollowsInOrder(m, Owes(pc), n, Owes(next));
    RaisesIncreasing(m, n);
  }

  lemma AdvanceOneAtATime(s: State, c: nat, a: Answer)
    requires Inv(s) && OneAtATime(s) && c in s.calls && s.calls[c] != Done
    ensures OneAtATime(Apply(s, Advance(c, a)))
  {
    hide Expects, InOrder, Increasing, CallOk, SharedOk;
    MoveOneAtATime(s.shared, c, s.calls[c], a);
    assert Owes(Done) == None;
    hide Inv, Move, Owes;
    assert forall d :: d in s.calls && d != c ==> s.calls[d] == Done;
    var t := Apply(s, Advance(c, a));
    assert c in t.calls;
    if Quiet(t) { assert t.calls[c] == Done; }
  }

  lemma BeginOneAtATime(s: State, c: nat, op: Op)
    requires Inv(s) && OneAtATime(s) && Quiet(s)
    ensures OneAtATime(Apply(s, Begin(c, op)))
  {
    if c !in s.calls && CanBegin(s.shared, op) {
      StateIsLast(s.shared);
      EntryOk(s.shared, c, op);
      assert Expects(s.shared, Entry(op));
      hide Inv, Expects, Entry, InOrder, Increasing, CallOk, SharedOk;
    }
  }

  lemma ApplyOneAtATime(s: State, e: Event)
    requires Inv(s) && OneAtATime(s) && (e.Begin? ==> Quiet(s))
    ensures OneAtATime(Apply(s, e))
  {
    hide OneAtATime, Inv, Quiet;
    match e
    case Begin(c, op) => BeginOneAtATime(s, c, op);
    case Advance(c, a) =>
      if c in s.calls {
        if s.calls[c] == Done {
          assert s.calls[c := Done] == s.calls;
        } else {
          hide Apply;
          AdvanceOneAtATime(s, c, a);
        }
      }
  }

  lemma {:induction false} SerialIsOneAtATime(client: bool, events: seq<Event>)
    requires Serial(client, events)
    ensures OneAtATime(Run(client, events))
  {
    if events != [] {
      hide OneAtATime, Inv, Quiet, Apply;
      var before := events[..|events| - 1];
      SerialIsOneAtATime(client, before);
      EveryRun(client, before);
      ApplyOneAtATime(Run(client, before), events[|events| - 1]);
    } else {
      hide Inv;
    }
  }

  /** When calls do not overlap, the states announced so far are the first states
      written, and they strictly increase: none is announced twice, and after
      Closed none is written. */
  lemma SerialAnnouncesUpwards(client: bool, events: seq<Event>)
    requires Serial(client, events) && Quiet(Run(client, events))
    ensures var m := Run(client, events).shared;
      (forall k :: 0 <= k < |m.ledger.announced| ==> m.ledger.announced[k] < |m.ledger.writes|)
      && Heard(m.ledger) == m.ledger.writes
      && Increasing(Heard(m.ledger))
      && (Closed in Heard(m.ledger) ==> m.state == Closed)
  {
    SerialIsOneAtATime(client, events);
    EveryRun(client, events);
    var m := Run(client, events).shared;
    hide Run, Balanced, Waiting, CallOk, History;
    assert Heard(m.ledger) == m.ledger.writes;
    if Closed in m.ledger.writes {
      var i :| 0 <= i < |m.ledger.writes| && m.ledger.writes[i] == Closed;
      assert i == |m.ledger.writes| - 1;
    }
  }

  // ----- two schedules -----

  lemma Then(client: bool, events: seq<Event>, s: State, e: Event) returns (more: seq<Event>, next: State)
    requires s == Run(client, events)
    ensures more == events + [e] && next == Apply(s, e) == Run(client, more)
  {
    more, next := events + [e], Apply(s, e);
    RunAppend(client, events, e);
  }

  function Opening(fed: bool, holder: Option<nat>, installs: nat): Shared {
    Shared(true, Connecting, false, true, false, fed, holder, installs, 0, 0, 0, Ledger([Connecting], [0]), [], [])
  }

  lemma StartBegins() returns (events: seq<Event>)
    ensures Run(true, events) == State(Opening(false, None, 0), map[0 := Starting(StartRead)])
  {
    var s;
    events, s := [], Initial(true);
    assert Run(true, events) == s;
    hide Run;
    events, s := Then(true, events, s, Begin(0, Start));
    events, s := Then(true, events, s, Advance(0, SLOW));
    events, s := Then(true, events, s, Advance(0, SLOW));
    events, s := Then(true, events, s, Advance(0, SLOW));
    events, s := Then(true, events, s, Advance(0, SLOW));
  }

  /** The first drive sends the client's flight and waits for the peer. */
  lemma StartReturns() returns (events: seq<Event>)
    ensures Run(true, events) == State(Opening(false, None, 1), map[0 := Done])
  {
    events := StartBegins();
    var s := Run(true, events);
    hide Run;
    events, s := Then(true, events, s, Advance(0, SLOW));
    events, s := Then(true, events, s, Advance(0, SLOW));
    events, s := Then(true, events, s, Advance(0, SLOW));
    events, s := Then(true, events, s, Advance(0, SLOW));
    events, s := Then(true, events, s, Advance(0, SLOW));
    events, s := Then(true, events, s, Advance(0, SLOW));
  }

  /** The peer's flight arrives, and the pump drives the handshake. */
  lemma PumpDrives() returns (events: seq<Event>)
    ensures Run(true, events)
      == State(Opening(true, Some(1), 1), map[0 := Done, 1 := Driving(FromPump, DriveHandshake)])
  {
    events := StartReturns();
    var s := Run(true, events);
    hide Run;
    events, s := Then(true, events, s, Begin(1, Pump));
    events, s := Then(true, events, s, Advance(1, SLOW));
    events, s := Then(true, events, s, Advance(1, SLOW));
    events, s := Then(true, events, s, Advance(1, SLOW));
    events, s := Then(true, events, s, Advance(1, SLOW));
  }

  /** A close while the pump drives: the state is Closed, announced, and the drive can
      still write Connected over it. */
  lemma ClosedDuringDrive() returns (events: seq<Event>)
    ensures var s := Run(true, events);
      s.shared.state == Closed && s.shared.ledger.announced == [0, 1] && Leavable(s, 1)
  {
    events := PumpDrives();
    var s := Run(true, events);
    hide Run;
    events, s := Then(true, events, s, Begin(2, Close));
    events, s := Then(true, events, s, Advance(2, SLOW));
    events, s := Then(true, events, s, Advance(2, SLOW));
    events, s := Then(true, events, s, Advance(2, SLOW));
    hide Hearing;
  }

  lemma FailedDuringDrive() returns (events: seq<Event>)
    ensures Run(true, events)
      == State(Opening(true, Some(1), 1).(state := Failed, ledger := Ledger([Connecting, Failed], [0])),
               map[0 := Done, 1 := Driving(FromPump, DriveHandshake), 2 := Failing(FailAnnounce(1))])
  {
    events := PumpDrives();
    var s := Run(true, events);
    hide Run;
    events, s := Then(true, events, s, Begin(2, IceDown));
    events, s := Then(true, events, s, Advance(2, SLOW));
  }

  lemma ConnectedAfterFailed() returns (events: seq<Event>)
    ensures var s := Run(true, events);
      s.shared.state == Connected && s.shared.ledger.writes == [Connecting, Failed, Connected]
      && s.shared.installs == 1 && !s.shared.closed && s.calls.Keys == {0, 1, 2}
  {
    events := FailedDuringDrive();
    var s := Run(true, events);
    hide Run;
    events, s := Then(true, events, s, Advance(1, GOOD));
    events, s := Then(true, events, s, Advance(1, GOOD));
    events, s := Then(true, events, s, Advance(1, GOOD));
  }

  /** Five state changes, Failed twice among them: the bounds are reached. */
  lemma BoundsAreReached() returns (events: seq<Event>)
    ensures Run(true, events).shared.ledger.writes == [Connecting, Failed, Connected, Failed, Closed]
  {
    events := ConnectedAfterFailed();
    var s := Run(true, events);
    hide Run;
    events, s := Then(true, events, s, Begin(3, IceDown));
    events, s := Then(true, events, s, Advance(3, SLOW));
    events, s := Then(true, events, s, Begin(4, Close));
    events, s := Then(true, events, s, Advance(4, SLOW));
    events, s := Then(true, events, s, Advance(4, SLOW));
  }
}
