/** What the answers of OpenSSL and ICE must lead to, under every interleaving: a
    broken handshake fails the transport, a finished one connects it, the peer's
    close_notify closes it. */
module DtlsOutcomes {
  import opened Dtls
  import opened Ledgers
  import opened Text

  /** Where a call is heading. */
  datatype Aim = ToFail | ToConnect | ToClose

  predicate Heads(aim: Aim, pc: Pc) {
    match aim
    case ToFail => pc == Driving(FromPump, DriveDrain(Broken)) || pc == Failing(FailWrite)
    case ToConnect => pc.Driving? && pc.drive == DriveWrite
    case ToClose => pc == Closing(CloseSwap)
  }

  predicate Reached(aim: Aim, m: Shared) {
    match aim
    case ToFail => m.state == Failed || m.state == Closed
    case ToConnect => m.state == Connected
    case ToClose => m.closed
  }

  /** At some moment from event `k` on, the aim was reached. */
  ghost predicate Since(client: bool, events: seq<Event>, k: nat, aim: Aim) {
    exists j :: k <= j <= |events| && Reached(aim, Run(client, events[..j]).shared)
  }

  lemma HeadsOn(aim: Aim, m: Shared, c: nat, pc: Pc, a: Answer)
    requires Heads(aim, pc)
    ensures var (n, next) := Move(m, c, pc, a); Heads(aim, next) || Reached(aim, n)
  {}

  lemma {:induction false} HeadsTo(client: bool, events: seq<Event>, k: nat, c: nat, aim: Aim)
    requires k <= |events|
    requires var s := Run(client, events[..k]);
      c in s.calls && (Heads(aim, s.calls[c]) || Reached(aim, s.shared))
    ensures var s := Run(client, events);
      c in s.calls && (Heads(aim, s.calls[c]) || Since(client, events, k, aim))
    decreases |events|
  {
    if k == |events| {
      assert events[..k] == events;
      assert Reached(aim, Run(client, events).shared) ==> Since(client, events, k, aim);
    } else {
      var before, last := events[..|events| - 1], events[|events| - 1];
      assert before[..k] == events[..k];
      HeadsTo(client, before, k, c, aim);
      var s := Run(client, before);
      assert Run(client, events) == Apply(s, last);
      hide Run, Move, Heads, Reached;
      if Since(client, before, k, aim) {
        var j :| k <= j <= |before| && Reached(aim, Run(client, before[..j]).shared);
        assert before[..j] == events[..j];
      } else if last.Advance? && last.call == c {
        HeadsOn(aim, s.shared, c, s.calls[c], last.answer);
        assert events[..|events|] == events;
      }
    }
  }

  /** Event `k` is a step of call `c`, which is at `pc` and gets answer `a`. */
  ghost predicate StepsAt(client: bool, events: seq<Event>, k: nat, c: nat, pc: Pc, a: Answer) {
    k < |events| && events[k] == Advance(c, a)
    && c in Run(client, events[..k]).calls && Run(client, events[..k]).calls[c] == pc
  }

  lemma AfterStep(client: bool, events: seq<Event>, k: nat, c: nat, pc: Pc, a: Answer)
    requires StepsAt(client, events, k, c, pc, a)
    ensures var s := Run(client, events[..k]); var t := Run(client, events[..k + 1]);
      c in t.calls && (t.shared, t.calls[c]) == Move(s.shared, c, pc, a)
  {
    assert events[..k + 1][..k] == events[..k];
  }

  /** `value` was the state at some moment after event `k`. */
  ghost predicate StateSince(client: bool, events: seq<Event>, k: nat, value: DtlsState) {
    exists j :: k < j <= |events| && Run(client, events[..j]).shared.state == value
  }

  /** Flags stay set and writes stay written. */
  lemma {:induction false} Lasting(client: bool, events: seq<Event>, j: nat)
    requires j <= |events|
    ensures var m, n := Run(client, events[..j]).shared, Run(client, events).shared;
      (m.closed ==> n.closed) && (m.done ==> n.done) && m.ledger.writes <= n.ledger.writes
  {
    if j == |events| {
      assert events[..j] == events;
    } else {
      var before, last := events[..|events| - 1], events[|events| - 1];
      assert before[..j] == events[..j];
      Lasting(client, before, j);
      var s := Run(client, before);
      hide Move;
      if last.Advance? && last.call in s.calls { MoveRespects(s.shared, last.call, s.calls[last.call], last.answer); }
    }
  }

  lemma SinceMeans(client: bool, events: seq<Event>, k: nat, aim: Aim)
    requires Since(client, events, k + 1, aim)
    ensures aim == ToFail ==> StateSince(client, events, k, Failed) || StateSince(client, events, k, Closed)
    ensures aim == ToConnect ==> StateSince(client, events, k, Connected)
    ensures aim == ToClose ==> Run(client, events).shared.closed
  {
    var j :| k + 1 <= j <= |events| && Reached(aim, Run(client, events[..j]).shared);
    var value := Run(client, events[..j]).shared.state;
    if aim == ToClose {
      Lasting(client, events, j);
    } else {
      assert StateSince(client, events, k, value);
    }
  }

  /** A pump whose handshake breaks, or whose flight ICE refuses, is on its way to
      fail the transport until the state has been Failed or Closed since. */
  lemma BrokenPumpFails(client: bool, events: seq<Event>, k: nat, c: nat, result: Handshake, a: Answer)
    requires (StepsAt(client, events, k, c, Driving(FromPump, DriveHandshake), a) && a.handshake == Broken)
      || (StepsAt(client, events, k, c, Driving(FromPump, DriveDrain(result)), a) && (!a.drained || result == Broken))
    ensures var s := Run(client, events);
      c in s.calls
      && (s.calls[c] == Driving(FromPump, DriveDrain(Broken)) || s.calls[c] == Failing(FailWrite)
          || StateSince(client, events, k, Failed) || StateSince(client, events, k, Closed))
  {
    var pc := Run(client, events[..k]).calls[c];
    AfterStep(client, events, k, c, pc, a);
    HeadsTo(client, events, k + 1, c, ToFail);
    hide Run;
    if Since(client, events, k + 1, ToFail) { SinceMeans(client, events, k, ToFail); }
  }

  /** Whoever sees the handshake finish first, with its flight sent, is about to write
      Connected until it was written. */
  lemma FinishedDriveConnects(client: bool, events: seq<Event>, k: nat, c: nat, from: Caller, a: Answer)
    requires StepsAt(client, events, k, c, Driving(from, DriveDrain(Finished)), a) && a.drained
    requires !Run(client, events[..k]).shared.done
    ensures var s := Run(client, events);
      c in s.calls
      && ((s.calls[c].Driving? && s.calls[c].drive == DriveWrite) || StateSince(client, events, k, Connected))
  {
    AfterStep(client, events, k, c, Driving(from, DriveDrain(Finished)), a);
    HeadsTo(client, events, k + 1, c, ToConnect);
    hide Run;
    if Since(client, events, k + 1, ToConnect) { SinceMeans(client, events, k, ToConnect); }
  }

  /** A pump that reads the peer's close_notify is on its way to close the transport
      until it is closed; Closed is then written, or its writer about to. */
  lemma CloseNotifyCloses(client: bool, events: seq<Event>, k: nat, c: nat, a: Answer)
    requires StepsAt(client, events, k, c, Pumping(PumpRead), a) && a.read == CloseNotify
    ensures var s := Run(client, events);
      c in s.calls
      && (s.calls[c] == Closing(CloseSwap)
          || (s.shared.closed
              && (Closed in s.shared.ledger.writes
                  || (s.shared.closer in s.calls && s.calls[s.shared.closer] == Closing(CloseWrite)))))
  {
    AfterStep(client, events, k, c, Pumping(PumpRead), a);
    HeadsTo(client, events, k + 1, c, ToClose);
    EveryRun(client, events);
    hide Run, SharedOk, CallOk, Balanced, Waiting;
    if Since(client, events, k + 1, ToClose) { SinceMeans(client, events, k, ToClose); }
  }

  lemma SinceWritten(client: bool, events: seq<Event>, k: nat, value: DtlsState)
    requires StateSince(client, events, k, value) && value != New
    ensures value in Run(client, events).shared.ledger.writes
  {
    var j :| k < j <= |events| && Run(client, events[..j]).shared.state == value;
    EveryRun(client, events[..j]);
    Lasting(client, events, j);
    StateIsLast(Run(client, events[..j]).shared);
    hide Run;
  }

  /** Once every call has returned, what these answers lead to was written, and all
      that was written was announced once. */
  lemma OutcomesAtRest(client: bool, events: seq<Event>, k: nat, c: nat, pc: Pc, a: Answer)
    requires StepsAt(client, events, k, c, pc, a) && Quiet(Run(client, events))
    ensures var w := Run(client, events).shared.ledger.writes;
      (pc == Driving(FromPump, DriveHandshake) && a.handshake == Broken ==> Failed in w || Closed in w)
      && (pc.Driving? && pc.from == FromPump && pc.drive.DriveDrain? && !a.drained ==> Failed in w || Closed in w)
      && (pc.Driving? && pc.drive == DriveDrain(Finished) && a.drained ==> Connected in w)
      && (pc == Pumping(PumpRead) && a.read == CloseNotify ==> Closed in w)
    ensures |Run(client, events).shared.ledger.announced| == |Run(client, events).shared.ledger.writes|
      && Once(Run(client, events).shared.ledger.announced)
  {
    OneHandlerCallPerWrite(client, events, New);
    BrokenAtRest(client, events, k, c, pc, a);
    FinishedAtRest(client, events, k, c, pc, a);
    hide Run;
    if pc == Pumping(PumpRead) && a.read == CloseNotify { CloseNotifyCloses(client, events, k, c, a); }
  }

  lemma BrokenAtRest(client: bool, events: seq<Event>, k: nat, c: nat, pc: Pc, a: Answer)
    requires StepsAt(client, events, k, c, pc, a) && Quiet(Run(client, events))
    ensures (pc == Driving(FromPump, DriveHandshake) && a.handshake == Broken)
            || (pc.Driving? && pc.from == FromPump && pc.drive.DriveDrain? && !a.drained)
            ==> Failed in Run(client, events).shared.ledger.writes || Closed in Run(client, events).shared.ledger.writes
  {
    hide Run;
    if (pc == Driving(FromPump, DriveHandshake) && a.handshake == Broken)
      || (pc.Driving? && pc.from == FromPump && pc.drive.DriveDrain? && !a.drained)
    {
      BrokenPumpFails(client, events, k, c, if pc.drive.DriveDrain? then pc.drive.result else Broken, a);
      if StateSince(client, events, k, Failed) {
        SinceWritten(client, events, k, Failed);
      } else {
        SinceWritten(client, events, k, Closed);
      }
    }
  }

  lemma FinishedAtRest(client: bool, events: seq<Event>, k: nat, c: nat, pc: Pc, a: Answer)
    requires StepsAt(client, events, k, c, pc, a) && Quiet(Run(client, events))
    ensures pc.Driving? && pc.drive == DriveDrain(Finished) && a.drained ==>
      Connected in Run(client, events).shared.ledger.writes
  {
    if pc.Driving? && pc.drive == DriveDrain(Finished) && a.drained {
      AfterStep(client, events, k, c, pc, a);
      Lasting(client, events, k + 1);
      OneHandlerCallPerWrite(client, events, New);
    }
  }

  // ----- starting -----

  /** Whoever set `started` is about to write Connecting until something was written. */
  predicate Starts(s: State) {
    s.shared.started && s.shared.ledger.writes == [] ==>
      s.shared.opener in s.calls && s.calls[s.shared.opener] == Starting(StartWrite)
  }

  lemma StepStarts(s: State, e: Event)
    requires Starts(s) && SharedOk(s.shared)
    ensures Starts(Apply(s, e))
  {
    match e
    case Begin(_, _) =>
    case Advance(c, a) =>
      if c in s.calls {
        StateIsLast(s.shared);
        MoveRespects(s.shared, c, s.calls[c], a);
        assert s.calls[c] == Starting(StartWrite) && s.shared.state == New ==>
          Move(s.shared, c, s.calls[c], a).0.ledger.writes != [];
        NewlyStarted(s.shared, c, s.calls[c], a);
        hide Move, SharedOk;
      }
  }

  lemma NewlyStarted(m: Shared, c: nat, pc: Pc, a: Answer)
    ensures var (n, next) := Move(m, c, pc, a);
      n.started && !m.started ==> n.opener == c && next == Starting(StartWrite)
  {
    if pc.Starting? {
      hide MoveDrive, MovePump, MoveFail, MoveClose, MoveSend;
    } else {
      hide MoveStart;
      if pc.Driving? {
        hide MovePump, MoveFail, MoveClose, MoveSend;
      } else {
        hide MoveDrive;
      }
    }
  }

  lemma {:induction false} EveryStart(client: bool, events: seq<Event>)
    ensures Starts(Run(client, events))
  {
    if events != [] {
      var before := events[..|events| - 1];
      EveryStart(client, before);
      EveryRun(client, before);
      hide Starts, SharedOk, Apply, CallOk, OwnersOk, Balanced, Waiting;
      StepStarts(Run(client, before), events[|events| - 1]);
    }
  }

  /** Once every call has returned, a transport that was started has written and announced
      Connecting, or it was closed first. */
  lemma StartedAtRest(client: bool, events: seq<Event>)
    requires Run(client, events).shared.started && Quiet(Run(client, events))
    ensures var l := Run(client, events).shared.ledger;
      l.writes != [] && (l.writes[0] == Connecting || l.writes == [Closed]) && |l.announced| == |l.writes|
  {
    EveryStart(client, events);
    WritesBounded(client, events, New);
    OneHandlerCallPerWrite(client, events, New);
    hide Run;
  }

  lemma StartedOrClosedAtRest(client: bool, events: seq<Event>)
    requires Quiet(Run(client, events))
    ensures var m := Run(client, events).shared;
      m.started || m.closed ==> m.ledger.writes != [] && (m.ledger.writes[0] == Connecting || m.ledger.writes == [Closed])
  {
    WritesBounded(client, events, New);
    OneHandlerCallPerWrite(client, events, New);
    if Run(client, events).shared.started { StartedAtRest(client, events); }
    hide Run;
  }

  // ----- the right value is announced -----

  function Announcing(pc: Pc): Option<DtlsState> {
    match pc
    case Starting(at) => if at.StartAnnounce? then Some(Connecting) else None
    case Driving(_, at) => if at.DriveAnnounce? then Some(Connected) else None
    case Failing(at) => if at.FailAnnounce? then Some(Failed) else None
    case Closing(at) => if at.CloseAnnounce? then Some(Closed) else None
    case _ => None
  }

  /** The write that a call is to announce has the value its handler call names. */
  predicate OwesRight(writes: seq<DtlsState>, pc: Pc) {
    Owes(pc).Some? ==> Owes(pc).value < |writes| && Announcing(pc) == Some(writes[Owes(pc).value])
  }

  /** A call that is to announce something has just written it. */
  predicate JustWrote(next: Pc, state: DtlsState) {
    Owes(next).Some? ==> Announcing(next) == Some(state)
  }

  lemma StartJustWrote(m: Shared, c: nat, at: StartPc)
    ensures JustWrote(MoveStart(m, c, at).1, MoveStart(m, c, at).0.state)
  {}

  lemma DriveJustWrote(m: Shared, c: nat, from: Caller, at: DrivePc, a: Answer)
    ensures JustWrote(MoveDrive(m, c, from, at, a).1, MoveDrive(m, c, from, at, a).0.state)
  {}

  lemma FailJustWrote(m: Shared, at: FailPc)
    ensures JustWrote(MoveFail(m, at).1, MoveFail(m, at).0.state)
  {}

  lemma CloseJustWrote(m: Shared, c: nat, at: ClosePc)
    ensures JustWrote(MoveClose(m, c, at).1, MoveClose(m, c, at).0.state)
  {}

  lemma RestJustWrote(m: Shared, c: nat, pc: Pc, a: Answer)
    requires pc.Pumping? || pc.Sending? || pc.Done?
    ensures JustWrote(Move(m, c, pc, a).1, Move(m, c, pc, a).0.state)
  {}

  lemma MoveJustWrote(m: Shared, c: nat, pc: Pc, a: Answer)
    ensures JustWrote(Move(m, c, pc, a).1, Move(m, c, pc, a).0.state)
  {
    hide JustWrote, MoveStart, MoveDrive, MovePump, MoveFail, MoveClose, MoveSend;
    match pc
    case Starting(at) => StartJustWrote(m, c, at);
    case Driving(from, at) => DriveJustWrote(m, c, from, at, a);
    case Failing(at) => FailJustWrote(m, at);
    case Closing(at) => CloseJustWrote(m, c, at);
    case _ => RestJustWrote(m, c, pc, a);
  }

  lemma MoveOwesRight(m: Shared, c: nat, pc: Pc, a: Answer)
    requires OwesRight(m.ledger.writes, pc)
    requires Owes(pc).Some? ==> Owes(Move(m, c, pc, a).1).None?
    ensures OwesRight(Move(m, c, pc, a).0.ledger.writes, Move(m, c, pc, a).1)
  {
    MoveJustWrote(m, c, pc, a);
    MoveFollows(m, c, pc, a);
    hide Move, Owes, Announcing;
  }

  lemma OwesOnce(m: Shared, c: nat, pc: Pc, a: Answer)
    requires Owes(pc).Some?
    ensures Owes(Move(m, c, pc, a).1).None?
  {}

  ghost predicate AllOweRight(s: State) {
    forall c :: c in s.calls ==> OwesRight(s.shared.ledger.writes, s.calls[c])
  }

  lemma StepOwesRight(s: State, e: Event)
    requires AllOweRight(s)
    ensures AllOweRight(Apply(s, e))
  {
    match e
    case Begin(_, _) =>
    case Advance(c, a) =>
      if c in s.calls {
        var pc := s.calls[c];
        if Owes(pc).Some? { OwesOnce(s.shared, c, pc, a); }
        MoveOwesRight(s.shared, c, pc, a);
        MoveRespects(s.shared, c, pc, a);
        hide Move, Owes, Announcing;
      }
  }

  /** In every run, whoever is about to call the handler calls it with the value of the
      write that the call announces. */
  lemma HandlerCallsAreRight(client: bool, events: seq<Event>, c: nat)
    requires c in Run(client, events).calls && Owes(Run(client, events).calls[c]).Some?
    ensures var s := Run(client, events);
      var index := Owes(s.calls[c]).value;
      index < |s.shared.ledger.writes| && Announcing(s.calls[c]) == Some(s.shared.ledger.writes[index])
  {
    EveryOneOwesRight(client, events);
    hide Run;
  }

  lemma {:induction false} EveryOneOwesRight(client: bool, events: seq<Event>)
    ensures AllOweRight(Run(client, events))
  {
    if events != [] {
      var before := events[..|events| - 1];
      EveryOneOwesRight(client, before);
      hide AllOweRight, Apply;
      StepOwesRight(Run(client, before), events[|events| - 1]);
    }
  }

  /** Connected has been announced. */
  predicate ConnectedTold(l: Ledger<DtlsState>) {
    exists k :: 0 <= k < |l.announced| && l.announced[k] < |l.writes| && l.writes[l.announced[k]] == Connected
  }

  lemma MoveTells(m: Shared, c: nat, pc: Pc, a: Answer)
    requires OwesRight(m.ledger.writes, pc)
    requires forall k :: 0 <= k < |m.ledger.announced| ==> m.ledger.announced[k] < |m.ledger.writes|
    ensures ConnectedTold(Move(m, c, pc, a).0.ledger) <==> ConnectedTold(m.ledger) || (pc.Driving? && pc.drive.DriveAnnounce?)
  {
    var l, n := m.ledger, Move(m, c, pc, a).0.ledger;
    MoveRespects(m, c, pc, a);
    MoveFollows(m, c, pc, a);
    if Owes(pc).Some? { OwesOnce(m, c, pc, a); }
    hide Move, Respects;
    if Owes(pc).Some? && n != l {
      assert n.announced == l.announced + [Owes(pc).value];
      assert n.announced[|l.announced|] == Owes(pc).value;
    }
    if ConnectedTold(l) {
      var k :| 0 <= k < |l.announced| && l.announced[k] < |l.writes| && l.writes[l.announced[k]] == Connected;
      assert n.announced[k] == l.announced[k];
    }
  }
}
