/** The DTLS transport under every interleaving of its calls. OpenSSL and the
    lower transport answer as they please: each step takes its answers from the
    schedule. The inner lock is held across steps; each block under another lock
    is one step. */
module Dtls {
  import opened Ledgers
  import opened Text

  datatype DtlsState = New | Connecting | Connected | Failed | Closed

  datatype Handshake = Finished | WantMore | Broken

  datatype Read = Data | CloseNotify | NoMore

  /** What the foreign calls of a step return: BIO_write, SSL_do_handshake,
      the drain into ICE, SSL_read, SSL_write. */
  datatype Answer = Answer(fed: bool, handshake: Handshake, drained: bool, read: Read, wrote: bool)

  datatype Op = Start | Pump | IceDown | Close | Send

  /** Who called `drive_handshake_locked`. */
  datatype Caller = FromStart | FromPump

  /** Where a call is. The numbers are the writes that it is about to announce. */
  datatype Pc =
    | Starting(start: StartPc)
    | Driving(from: Caller, drive: DrivePc)
    | Pumping(pump: PumpPc)
    | Failing(fail: FailPc)
    | Closing(close: ClosePc)
    | Sending(send: SendPc)
    | Done

  datatype StartPc =
    | StartCheck | StartSwap | StartWrite | StartAnnounce(index: nat) | StartRead | StartInstall
    | StartLock | StartHeld

  datatype DrivePc = DriveHandshake | DriveDrain(result: Handshake) | DriveWrite | DriveAnnounce(index: nat)

  datatype PumpPc = PumpCheck | PumpLock | PumpFeed | PumpState | PumpConnected | PumpRead | PumpDeliver

  datatype FailPc = FailWrite | FailAnnounce(index: nat)

  datatype ClosePc = CloseSwap | CloseWrite | CloseAnnounce(index: nat)

  datatype SendPc = SendCheck | SendState | SendLock | SendWrite | SendDrain

  datatype Shared = Shared(
    client: bool,
    state: DtlsState,
    closed: bool,
    started: bool,
    done: bool,              // the handshake flag
    fed: bool,               // the inbound BIO has taken bytes from the peer
    holder: Option<nat>,     // the call inside the inner lock
    installs: nat,           // how often the failure shim and the pump were installed
    opener: nat,             // the call that set `started`
    winner: nat,             // the call that set `done`
    closer: nat,             // the call that set `closed`
    ledger: Ledger<DtlsState>,
    delivered: seq<Use>,     // the `on_data` calls
    sealed: seq<Use>)        // the SSL_write calls

  /** Who handled application data, and the handshake flag at that moment. */
  datatype Use = Use(call: nat, secured: bool)

  datatype State = State(shared: Shared, calls: map<nat, Pc>)

  datatype Event = Begin(call: nat, op: Op) | Advance(call: nat, answer: Answer)

  function Initial(client: bool): State {
    State(Shared(client, New, false, false, false, false, None, 0, 0, 0, 0, Ledger([], []), [], []), map[])
  }

  function WriteState(m: Shared, value: DtlsState): Shared {
    m.(state := value, ledger := Write(m.ledger, value))
  }

  function Tell(m: Shared, index: nat): Shared { m.(ledger := Announce(m.ledger, index)) }

  function Release(m: Shared): Shared { m.(holder := None) }

  /** Entering the inner lock, or waiting for it. */
  function Acquire(m: Shared, c: nat, waiting: Pc, inside: Pc): (Shared, Pc) {
    if m.holder == None then (m.(holder := Some(c)), inside) else (m, waiting)
  }

  function MoveStart(m: Shared, c: nat, at: StartPc): (Shared, Pc) {
    match at
    case StartCheck => (m, if m.closed then Done else Starting(StartSwap))
    case StartSwap => if m.started then (m, Done) else (m.(started := true, opener := c), Starting(StartWrite))
    case StartWrite =>
      if m.state == New then (WriteState(m, Connecting), Starting(StartAnnounce(|m.ledger.writes|))) else (m, Done)
    case StartAnnounce(index) => (Tell(m, index), Starting(StartRead))
    case StartRead => (m, Starting(StartInstall))
    case StartInstall => (m.(installs := m.installs + 1), Starting(StartLock))
    case StartLock => Acquire(m, c, Starting(StartLock), Starting(StartHeld))
    case StartHeld => if m.client then (m, Driving(FromStart, DriveHandshake)) else (Release(m), Done)
  }

  /** `start` gives up the lock and returns, whatever the drive returned; the pump
      goes on, or lets go and fails the transport. */
  function Driven(m: Shared, from: Caller, ok: bool): (Shared, Pc) {
    match from
    case FromStart => (Release(m), Done)
    case FromPump => if ok then (m, Pumping(PumpConnected)) else (Release(m), Failing(FailWrite))
  }

  /** A handshake needs the peer: OpenSSL does not finish it before it was fed. */
  function Progress(fed: bool, answer: Handshake): Handshake {
    if answer == Finished && !fed then WantMore else answer
  }

  function MoveDrive(m: Shared, c: nat, from: Caller, at: DrivePc, a: Answer): (Shared, Pc) {
    match at
    case DriveHandshake => (m, Driving(from, DriveDrain(Progress(m.fed, a.handshake))))
    case DriveDrain(result) =>
      if !a.drained || result == Broken then Driven(m, from, false)
      else if result == Finished && !m.done then (m.(done := true, winner := c), Driving(from, DriveWrite))
      else Driven(m, from, true)
    case DriveWrite => (WriteState(m, Connected), Driving(from, DriveAnnounce(|m.ledger.writes|)))
    case DriveAnnounce(index) => Driven(Tell(m, index), from, true)
  }

  function MovePump(m: Shared, c: nat, at: PumpPc, a: Answer): (Shared, Pc) {
    match at
    case PumpCheck => (m, if m.closed then Done else Pumping(PumpLock))
    case PumpLock => Acquire(m, c, Pumping(PumpLock), Pumping(PumpFeed))
    case PumpFeed => if a.fed then (m.(fed := true), Pumping(PumpState)) else (Release(m), Done)
    case PumpState =>
      (m, if m.state == Connecting then Driving(FromPump, DriveHandshake) else Pumping(PumpConnected))
    case PumpConnected => if m.state == Connected then (m, Pumping(PumpRead)) else (Release(m), Done)
    case PumpRead =>
      (match a.read
       case Data => (m, Pumping(PumpDeliver))
       case CloseNotify => (Release(m), Closing(CloseSwap))
       case NoMore => (Release(m), Done))
    case PumpDeliver => (m.(delivered := m.delivered + [Use(c, m.done)]), Pumping(PumpRead))
  }

  function MoveFail(m: Shared, at: FailPc): (Shared, Pc) {
    match at
    case FailWrite =>
      if m.state != Failed && m.state != Closed
      then (WriteState(m, Failed), Failing(FailAnnounce(|m.ledger.writes|)))
      else (m, Done)
    case FailAnnounce(index) => (Tell(m, index), Done)
  }

  function MoveClose(m: Shared, c: nat, at: ClosePc): (Shared, Pc) {
    match at
    case CloseSwap => if m.closed then (m, Done) else (m.(closed := true, closer := c), Closing(CloseWrite))
    case CloseWrite =>
      if m.state != Closed then (WriteState(m, Closed), Closing(CloseAnnounce(|m.ledger.writes|))) else (m, Done)
    case CloseAnnounce(index) => (Tell(m, index), Done)
  }

  function MoveSend(m: Shared, c: nat, at: SendPc, a: Answer): (Shared, Pc) {
    match at
    case SendCheck => (m, if m.closed then Done else Sending(SendState))
    case SendState => (m, if m.state == Connected then Sending(SendLock) else Done)
    case SendLock => Acquire(m, c, Sending(SendLock), Sending(SendWrite))
    case SendWrite =>
      var next := m.(sealed := m.sealed + [Use(c, m.done)]);
      if a.wrote then (next, Sending(SendDrain)) else (Release(next), Done)
    case SendDrain => (Release(m), Done)
  }

  /** One step of call `c`, which is at `pc`. */
  function Move(m: Shared, c: nat, pc: Pc, a: Answer): (Shared, Pc) {
    match pc
    case Starting(at) => MoveStart(m, c, at)
    case Driving(from, at) => MoveDrive(m, c, from, at, a)
    case Pumping(at) => MovePump(m, c, at, a)
    case Failing(at) => MoveFail(m, at)
    case Closing(at) => MoveClose(m, c, at)
    case Sending(at) => MoveSend(m, c, at, a)
    case Done => (m, Done)
  }

  function Entry(op: Op): Pc {
    match op
    case Start => Starting(StartCheck)
    case Pump => Pumping(PumpCheck)
    case IceDown => Failing(FailWrite)
    case Close => Closing(CloseSwap)
    case Send => Sending(SendCheck)
  }

  /** The pump and the failure shim are called through the handlers that `start` installs. */
  predicate CanBegin(m: Shared, op: Op) {
    op == Pump || op == IceDown ==> m.installs > 0
  }

  function Apply(s: State, e: Event): State {
    match e
    case Begin(c, op) =>
      if c in s.calls || !CanBegin(s.shared, op) then s else s.(calls := s.calls[c := Entry(op)])
    case Advance(c, a) =>
      if c !in s.calls then s
      else var (shared, pc) := Move(s.shared, c, s.calls[c], a); State(shared, s.calls[c := pc])
  }

  function Run(client: bool, events: seq<Event>): State {
    if events == [] then Initial(client)
    else Apply(Run(client, events[..|events| - 1]), events[|events| - 1])
  }

  // ----- the histories -----

  /** What may follow Connecting. */
  predicate AfterConnecting(x: seq<DtlsState>) {
    x == [] || x == [Failed] || x == [Connected] || x == [Closed]
    || x == [Failed, Connected] || x == [Failed, Closed] || x == [Connected, Failed] || x == [Connected, Closed]
    || x == [Closed, Connected]
    || x == [Failed, Connected, Failed] || x == [Failed, Connected, Closed] || x == [Connected, Failed, Closed]
    || x == [Failed, Closed, Connected] || x == [Closed, Connected, Failed]
    || x == [Failed, Connected, Failed, Closed] || x == [Failed, Closed, Connected, Failed]
  }

  predicate History(writes: seq<DtlsState>) {
    writes == [] || writes == [Closed] || (writes[0] == Connecting && AfterConnecting(writes[1..]))
  }

  lemma AfterAppend(x: seq<DtlsState>, value: DtlsState)
    requires AfterConnecting(x) && value != New && value != Connecting
    requires value == Connected || value == Closed ==> value !in x
    requires value == Failed && x != [] ==> x[|x| - 1] == Connected
    ensures AfterConnecting(x + [value])
  {
    assert forall i :: 0 <= i < |x| ==> (x + [value])[i] == x[i];
  }

  lemma HistoryAppend(w: seq<DtlsState>, value: DtlsState)
    requires History(w) && value != New
    requires value == Connecting ==> w == []
    requires value == Connected || value == Failed ==> Connecting in w
    requires value == Connected || value == Closed ==> value !in w
    requires value == Failed ==> Current(New, w) != Failed && Current(New, w) != Closed
    ensures History(w + [value])
  {
    if w != [] {
      var x := w[1..];
      assert (w + [value])[1..] == x + [value];
      assert forall i :: 0 <= i < |x| ==> x[i] == w[i + 1];
      assert w != [Closed];
      assert Connecting !in x;
      AfterAppend(x, value);
    }
  }

  // ----- the invariant -----

  function Owes(pc: Pc): Option<nat> {
    match pc
    case Starting(at) => (match at case StartAnnounce(index) => Some(index) case _ => None)
    case Driving(_, at) => (match at case DriveAnnounce(index) => Some(index) case _ => None)
    case Failing(at) => (match at case FailAnnounce(index) => Some(index) case _ => None)
    case Closing(at) => (match at case CloseAnnounce(index) => Some(index) case _ => None)
    case _ => None
  }

  /** What is known at a place: the call is the opener and nothing is installed yet;
      Connecting was written; shim and pump are installed; the peer was heard; the
      handshake is done; the call holds the inner lock. */
  datatype Place = Place(opening: bool, begun: bool, piped: bool, fed: bool, secured: bool, holds: bool)

  const NOWHERE := Place(false, false, false, false, false, false)

  function At(pc: Pc): Place {
    match pc
    case Starting(at) =>
      (match at
       case StartCheck => NOWHERE
       case StartSwap => NOWHERE
       case StartWrite => NOWHERE.(opening := true)
       case StartAnnounce(_) => NOWHERE.(opening := true, begun := true)
       case StartRead => NOWHERE.(opening := true, begun := true)
       case StartInstall => NOWHERE.(opening := true, begun := true)
       case StartLock => NOWHERE.(begun := true, piped := true)
       case StartHeld => NOWHERE.(begun := true, piped := true, holds := true))
    case Driving(from, at) =>
      var secured := at.DriveWrite? || at.DriveAnnounce?;
      Place(false, true, true, from == FromPump || secured || at == DriveDrain(Finished), secured, true)
    case Pumping(at) =>
      Place(false, true, true, at != PumpCheck && at != PumpLock && at != PumpFeed,
            at == PumpRead || at == PumpDeliver, at != PumpCheck && at != PumpLock)
    case Failing(_) => NOWHERE.(begun := true, piped := true)
    case Closing(_) => NOWHERE
    case Sending(at) =>
      NOWHERE.(secured := at != SendCheck && at != SendState, holds := at == SendWrite || at == SendDrain)
    case Done => NOWHERE
  }

  predicate AllSecured(uses: seq<Use>) { forall i :: 0 <= i < |uses| ==> uses[i].secured }

  /** What the shared fields say about each other. */
  predicate SharedOk(m: Shared) {
    m.state == Current(New, m.ledger.writes) && History(m.ledger.writes)
    && (Connecting in m.ledger.writes ==> m.started)
    && (Connected in m.ledger.writes ==> m.done)
    && (Closed in m.ledger.writes ==> m.closed)
    && (m.done ==> m.fed) && (m.fed ==> m.installs > 0) && (m.installs > 0 ==> Connecting in m.ledger.writes)
    && m.installs <= 1
    && AllSecured(m.delivered) && AllSecured(m.sealed)
  }

  predicate IsWinning(pc: Pc) { pc.Driving? && pc.drive == DriveWrite }

  /** What a call's position says about the shared fields. */
  predicate CallOk(m: Shared, c: nat, pc: Pc) {
    (At(pc).opening ==> m.started && m.opener == c && m.installs == 0)
    && (At(pc).begun ==> Connecting in m.ledger.writes)
    && (At(pc).piped ==> m.installs > 0) && (At(pc).fed ==> m.fed) && (At(pc).secured ==> m.done)
    && (IsWinning(pc) ==> m.winner == c && Connected !in m.ledger.writes)
    && (pc == Closing(CloseWrite) ==> m.closed && m.closer == c && Closed !in m.ledger.writes)
    && (At(pc).holds ==> m.holder == Some(c))
  }

  /** The call that set a flag has made its write, or is about to. */
  predicate OwnersOk(s: State) {
    var m := s.shared;
    (m.closed && Closed !in m.ledger.writes ==> m.closer in s.calls && s.calls[m.closer] == Closing(CloseWrite))
    && (m.done && Connected !in m.ledger.writes ==> m.winner in s.calls && IsWinning(s.calls[m.winner]))
  }

  ghost predicate Inv(s: State) {
    SharedOk(s.shared)
    && (forall c :: c in s.calls ==> CallOk(s.shared, c, s.calls[c]))
    && OwnersOk(s)
    && Balanced(s.shared.ledger, Waiting(s.calls, Owes))
  }

  lemma StateIsLast(m: Shared)
    requires SharedOk(m)
    ensures m.state == New <==> m.ledger.writes == []
    ensures m.state != New ==> m.state in m.ledger.writes
  {
    var w := m.ledger.writes;
    if |w| > 1 { assert w[|w| - 1] == w[1..][|w| - 2]; }
  }

  lemma WriteOk(m: Shared, value: DtlsState)
    requires SharedOk(m) && value != New && value != m.state
    requires value == Connecting ==> m.state == New && m.started
    requires value == Connected ==> m.done && Connected !in m.ledger.writes
    requires value == Failed ==> m.state != Closed && Connecting in m.ledger.writes
    requires value == Closed ==> m.closed && Closed !in m.ledger.writes
    ensures SharedOk(WriteState(m, value))
  {
    StateIsLast(m);
    HistoryAppend(m.ledger.writes, value);
    hide History;
  }

  lemma StartKeepsShared(m: Shared, c: nat, at: StartPc)
    requires SharedOk(m) && CallOk(m, c, Starting(at))
    ensures SharedOk(MoveStart(m, c, at).0)
  {
    if at == StartWrite && m.state == New { WriteOk(m, Connecting); }
    hide History, AllSecured;
  }

  lemma DriveKeepsShared(m: Shared, c: nat, from: Caller, at: DrivePc, a: Answer)
    requires SharedOk(m) && CallOk(m, c, Driving(from, at))
    ensures SharedOk(MoveDrive(m, c, from, at, a).0)
  {
    if at == DriveWrite {
      StateIsLast(m);
      WriteOk(m, Connected);
    }
    hide History, AllSecured;
  }

  lemma PumpKeepsShared(m: Shared, c: nat, at: PumpPc, a: Answer)
    requires SharedOk(m) && CallOk(m, c, Pumping(at))
    ensures SharedOk(MovePump(m, c, at, a).0)
  {
    hide History;
  }

  lemma FailKeepsShared(m: Shared, c: nat, at: FailPc)
    requires SharedOk(m) && CallOk(m, c, Failing(at))
    ensures SharedOk(MoveFail(m, at).0)
  {
    if at == FailWrite && m.state != Failed && m.state != Closed { WriteOk(m, Failed); }
    hide History, AllSecured;
  }

  lemma CloseKeepsShared(m: Shared, c: nat, at: ClosePc)
    requires SharedOk(m) && CallOk(m, c, Closing(at))
    ensures SharedOk(MoveClose(m, c, at).0)
  {
    if at == CloseWrite && m.state != Closed { WriteOk(m, Closed); }
    hide History, AllSecured;
  }

  lemma SendKeepsShared(m: Shared, c: nat, at: SendPc, a: Answer)
    requires SharedOk(m) && CallOk(m, c, Sending(at))
    ensures SharedOk(MoveSend(m, c, at, a).0)
  {
    hide History;
  }

  lemma MoveKeepsShared(m: Shared, c: nat, pc: Pc, a: Answer)
    requires SharedOk(m) && CallOk(m, c, pc)
    ensures SharedOk(Move(m, c, pc, a).0)
  {
    hide SharedOk, CallOk, MoveStart, MoveDrive, MovePump, MoveFail, MoveClose, MoveSend;
    match pc
    case Starting(at) => StartKeepsShared(m, c, at);
    case Driving(from, at) => DriveKeepsShared(m, c, from, at, a);
    case Pumping(at) => PumpKeepsShared(m, c, at, a);
    case Failing(at) => FailKeepsShared(m, c, at);
    case Closing(at) => CloseKeepsShared(m, c, at);
    case Sending(at) => SendKeepsShared(m, c, at, a);
    case Done =>
  }

  /** What the calls need of the shared fields. */
  predicate Sound(m: Shared) {
    (m.done ==> m.fed)
    && (m.installs > 0 ==> m.started)
    && (m.state == Connected ==> m.done)
    && (Connected in m.ledger.writes ==> m.done)
    && (Closed in m.ledger.writes ==> m.closed)
  }

  lemma StartKeepsCall(m: Shared, c: nat, at: StartPc)
    requires CallOk(m, c, Starting(at)) && Sound(m)
    ensures CallOk(MoveStart(m, c, at).0, c, MoveStart(m, c, at).1)
  {}

  lemma DriveKeepsCall(m: Shared, c: nat, from: Caller, at: DrivePc, a: Answer)
    requires CallOk(m, c, Driving(from, at)) && Sound(m)
    ensures CallOk(MoveDrive(m, c, from, at, a).0, c, MoveDrive(m, c, from, at, a).1)
  {}

  lemma PumpKeepsCall(m: Shared, c: nat, at: PumpPc, a: Answer)
    requires CallOk(m, c, Pumping(at)) && Sound(m)
    ensures CallOk(MovePump(m, c, at, a).0, c, MovePump(m, c, at, a).1)
  {}

  lemma FailKeepsCall(m: Shared, c: nat, at: FailPc)
    requires CallOk(m, c, Failing(at)) && Sound(m)
    ensures CallOk(MoveFail(m, at).0, c, MoveFail(m, at).1)
  {}

  lemma CloseKeepsCall(m: Shared, c: nat, at: ClosePc)
    requires CallOk(m, c, Closing(at)) && Sound(m)
    ensures CallOk(MoveClose(m, c, at).0, c, MoveClose(m, c, at).1)
  {}

  lemma SendKeepsCall(m: Shared, c: nat, at: SendPc, a: Answer)
    requires CallOk(m, c, Sending(at)) && Sound(m)
    ensures CallOk(MoveSend(m, c, at, a).0, c, MoveSend(m, c, at, a).1)
  {}

  lemma MoveKeepsCall(m: Shared, c: nat, pc: Pc, a: Answer)
    requires CallOk(m, c, pc) && Sound(m)
    ensures CallOk(Move(m, c, pc, a).0, c, Move(m, c, pc, a).1)
  {
    hide Sound, CallOk, MoveStart, MoveDrive, MovePump, MoveFail, MoveClose, MoveSend;
    match pc
    case Starting(at) => StartKeepsCall(m, c, at);
    case Driving(from, at) => DriveKeepsCall(m, c, from, at, a);
    case Pumping(at) => PumpKeepsCall(m, c, at, a);
    case Failing(at) => FailKeepsCall(m, c, at);
    case Closing(at) => CloseKeepsCall(m, c, at);
    case Sending(at) => SendKeepsCall(m, c, at, a);
    case Done =>
  }

  /** What one step does to the fields that other calls rely on. */
  predicate Respects(m: Shared, c: nat, pc: Pc, n: Shared) {
    (m.started ==> n.started && n.opener == m.opener)
    && (n.installs == m.installs || (At(pc).opening && n.installs == m.installs + 1))
    && m.ledger.writes <= n.ledger.writes
    && (m.fed ==> n.fed) && (n.fed ==> m.fed || pc == Pumping(PumpFeed))
    && (m.done ==> n.done && n.winner == m.winner) && (n.done ==> m.done || pc.Driving?)
    && (m.closed ==> n.closed && n.closer == m.closer) && (n.closed ==> m.closed || pc.Closing?)
    && (IsWinning(pc) || (Connected in n.ledger.writes ==> Connected in m.ledger.writes))
    && (pc == Closing(CloseWrite) || (Closed in n.ledger.writes ==> Closed in m.ledger.writes))
    && (n.holder == m.holder || m.holder == None || At(pc).holds)
  }

  lemma StartRespects(m: Shared, c: nat, at: StartPc)
    ensures Respects(m, c, Starting(at), MoveStart(m, c, at).0)
  {}

  lemma DriveRespects(m: Shared, c: nat, from: Caller, at: DrivePc, a: Answer)
    ensures Respects(m, c, Driving(from, at), MoveDrive(m, c, from, at, a).0)
  {}

  lemma PumpRespects(m: Shared, c: nat, at: PumpPc, a: Answer)
    ensures Respects(m, c, Pumping(at), MovePump(m, c, at, a).0)
  {}

  lemma FailRespects(m: Shared, c: nat, at: FailPc)
    ensures Respects(m, c, Failing(at), MoveFail(m, at).0)
  {}

  lemma CloseRespects(m: Shared, c: nat, at: ClosePc)
    ensures Respects(m, c, Closing(at), MoveClose(m, c, at).0)
  {}

  lemma SendRespects(m: Shared, c: nat, at: SendPc, a: Answer)
    ensures Respects(m, c, Sending(at), MoveSend(m, c, at, a).0)
  {}

  lemma MoveRespects(m: Shared, c: nat, pc: Pc, a: Answer)
    ensures Respects(m, c, pc, Move(m, c, pc, a).0)
  {
    if pc != Done { hide Respects, MoveStart, MoveDrive, MovePump, MoveFail, MoveClose, MoveSend; }
    match pc
    case Starting(at) => StartRespects(m, c, at);
    case Driving(from, at) => DriveRespects(m, c, from, at, a);
    case Pumping(at) => PumpRespects(m, c, at, a);
    case Failing(at) => FailRespects(m, c, at);
    case Closing(at) => CloseRespects(m, c, at);
    case Sending(at) => SendRespects(m, c, at, a);
    case Done =>
  }

  lemma RespectedOthers(m: Shared, c: nat, pc: Pc, n: Shared, d: nat, other: Pc)
    requires CallOk(m, c, pc) && CallOk(m, d, other) && c != d && Respects(m, c, pc, n)
    ensures CallOk(n, d, other)
  {
    assert IsWinning(pc) ==> At(pc).secured;
    assert IsWinning(other) ==> At(other).secured;
    assert Connecting in m.ledger.writes ==> Connecting in n.ledger.writes;
    hide At, IsWinning;
  }

  lemma CallsKept(s: State, c: nat, a: Answer)
    requires SharedOk(s.shared) && c in s.calls
    requires forall d :: d in s.calls ==> CallOk(s.shared, d, s.calls[d])
    ensures var next := Apply(s, Advance(c, a));
      SharedOk(next.shared) && forall d :: d in next.calls ==> CallOk(next.shared, d, next.calls[d])
  {
    var m, pc := s.shared, s.calls[c];
    SoundOf(m);
    MoveKeepsShared(m, c, pc, a);
    MoveKeepsCall(m, c, pc, a);
    MoveRespects(m, c, pc, a);
    hide SharedOk, CallOk, Move, Respects, Sound;
    forall d | d in s.calls && d != c ensures CallOk(Move(m, c, pc, a).0, d, s.calls[d]) {
      RespectedOthers(m, c, pc, Move(m, c, pc, a).0, d, s.calls[d]);
    }
  }

  lemma SoundOf(m: Shared)
    requires SharedOk(m)
    ensures Sound(m)
  {
    StateIsLast(m);
    hide History, AllSecured;
  }

  lemma DriveOwner(m: Shared, c: nat, from: Caller, at: DrivePc, a: Answer)
    requires m.done && Connected !in m.ledger.writes && m.winner == c ==> at == DriveWrite
    ensures var (n, next) := MoveDrive(m, c, from, at, a);
      n.done && Connected !in n.ledger.writes ==>
        (m.done && n.winner == m.winner != c) || (n.winner == c && IsWinning(next))
  {}

  lemma CloseOwner(m: Shared, c: nat, at: ClosePc)
    requires m.state == Closed ==> Closed in m.ledger.writes
    requires m.closed && Closed !in m.ledger.writes && m.closer == c ==> at == CloseWrite
    ensures var (n, next) := MoveClose(m, c, at);
      n.closed && Closed !in n.ledger.writes ==>
        (m.closed && n.closer == m.closer != c) || (n.closer == c && next == Closing(CloseWrite))
  {}

  /** A flag whose write is to come belongs to the moving call, or to another one as before. */
  lemma OwnersMoved(m: Shared, c: nat, pc: Pc, a: Answer)
    requires m.state == Closed ==> Closed in m.ledger.writes
    requires m.closed && Closed !in m.ledger.writes && m.closer == c ==> pc == Closing(CloseWrite)
    requires m.done && Connected !in m.ledger.writes && m.winner == c ==> IsWinning(pc)
    ensures var (n, next) := Move(m, c, pc, a);
      m.ledger.writes <= n.ledger.writes
      && (n.closed && Closed !in n.ledger.writes ==>
        (m.closed && n.closer == m.closer != c) || (n.closer == c && next == Closing(CloseWrite)))
      && (n.done && Connected !in n.ledger.writes ==>
        (m.done && n.winner == m.winner != c) || (n.winner == c && IsWinning(next)))
  {
    MoveRespects(m, c, pc, a);
    if pc.Driving? { DriveOwner(m, c, pc.from, pc.drive, a); }
    if pc.Closing? { CloseOwner(m, c, pc.close); }
    assert Move(m, c, pc, a) == if pc.Driving? then MoveDrive(m, c, pc.from, pc.drive, a)
                                else if pc.Closing? then MoveClose(m, c, pc.close) else Move(m, c, pc, a);
    hide Move, MoveDrive, MoveClose, At;
  }

  lemma OwnersKept(s: State, c: nat, a: Answer)
    requires SharedOk(s.shared) && c in s.calls && CallOk(s.shared, c, s.calls[c]) && OwnersOk(s)
    ensures OwnersOk(Apply(s, Advance(c, a)))
  {
    SoundOf(s.shared);
    StateIsLast(s.shared);
    OwnersMoved(s.shared, c, s.calls[c], a);
    hide Move, SharedOk, CallOk, Sound;
  }

  lemma StartFollows(m: Shared, c: nat, at: StartPc)
    ensures var (n, next) := MoveStart(m, c, at);
      Follows(m.ledger, Owes(Starting(at)), Owes(next), n.ledger, n.state)
  {}

  lemma DriveFollows(m: Shared, c: nat, from: Caller, at: DrivePc, a: Answer)
    ensures var (n, next) := MoveDrive(m, c, from, at, a);
      Follows(m.ledger, Owes(Driving(from, at)), Owes(next), n.ledger, n.state)
  {}

  lemma PumpFollows(m: Shared, c: nat, at: PumpPc, a: Answer)
    ensures var (n, next) := MovePump(m, c, at, a);
      Follows(m.ledger, None, Owes(next), n.ledger, n.state)
  {}

  lemma FailFollows(m: Shared, at: FailPc)
    ensures var (n, next) := MoveFail(m, at);
      Follows(m.ledger, Owes(Failing(at)), Owes(next), n.ledger, n.state)
  {}

  lemma CloseFollows(m: Shared, c: nat, at: ClosePc)
    ensures var (n, next) := MoveClose(m, c, at);
      Follows(m.ledger, Owes(Closing(at)), Owes(next), n.ledger, n.state)
  {}

  lemma SendFollows(m: Shared, c: nat, at: SendPc, a: Answer)
    ensures var (n, next) := MoveSend(m, c, at, a);
      Follows(m.ledger, None, Owes(next), n.ledger, n.state)
  {}

  lemma MoveFollows(m: Shared, c: nat, pc: Pc, a: Answer)
    ensures var (n, next) := Move(m, c, pc, a);
      Follows(m.ledger, Owes(pc), Owes(next), n.ledger, n.state)
  {
    hide Follows, MoveStart, MoveDrive, MovePump, MoveFail, MoveClose, MoveSend;
    match pc
    case Starting(at) => StartFollows(m, c, at);
    case Driving(from, at) => DriveFollows(m, c, from, at, a);
    case Pumping(at) => PumpFollows(m, c, at, a);
    case Failing(at) => FailFollows(m, at);
    case Closing(at) => CloseFollows(m, c, at);
    case Sending(at) => SendFollows(m, c, at, a);
    case Done => assert Follows(m.ledger, Owes(pc), Owes(pc), m.ledger, m.state) by { DoneFollows(m); }
  }

  lemma DoneFollows(m: Shared)
    ensures Follows(m.ledger, Owes(Done), Owes(Done), m.ledger, m.state)
  {}

  lemma BalanceKept(s: State, c: nat, a: Answer)
    requires c in s.calls && Balanced(s.shared.ledger, Waiting(s.calls, Owes))
    ensures var next := Apply(s, Advance(c, a)); Balanced(next.shared.ledger, Waiting(next.calls, Owes))
  {
    var m, pc := s.shared, s.calls[c];
    var (n, next) := Move(m, c, pc, a);
    MoveFollows(m, c, pc, a);
    hide Move, Balanced, Waiting, Owes, Follows;
    StepBalances(m.ledger, s.calls, Owes, c, next, n.ledger, n.state);
  }

  lemma EntryOk(m: Shared, c: nat, op: Op)
    requires SharedOk(m) && CanBegin(m, op)
    ensures CallOk(m, c, Entry(op)) && Owes(Entry(op)) == None
    ensures Entry(op) != Closing(CloseWrite) && !IsWinning(Entry(op))
  {
    hide History, AllSecured;
  }

  lemma BeginKeeps(s: State, c: nat, op: Op)
    requires Inv(s)
    ensures Inv(Apply(s, Begin(c, op)))
  {
    if c !in s.calls && CanBegin(s.shared, op) {
      EntryOk(s.shared, c, op);
      hide Entry, SharedOk, CallOk, CanBegin, Owes, Waiting, Balanced;
      StepBalances(s.shared.ledger, s.calls, Owes, c, Entry(op), s.shared.ledger, New);
    }
  }

  lemma AdvanceKeeps(s: State, c: nat, a: Answer)
    requires Inv(s)
    ensures Inv(Apply(s, Advance(c, a)))
  {
    if c in s.calls {
      BalanceKept(s, c, a);
      CallsKept(s, c, a);
      OwnersKept(s, c, a);
    }
    hide Apply, SharedOk, CallOk, OwnersOk, Balanced, Waiting;
  }

  lemma {:induction false} EveryRun(client: bool, events: seq<Event>)
    ensures Inv(Run(client, events))
  {
    if events == [] {
      assert Waiting(Initial(client).calls, Owes) == map[];
    } else {
      hide Inv, Apply;
      var before := events[..|events| - 1];
      EveryRun(client, before);
      match events[|events| - 1]
      case Begin(c, op) => BeginKeeps(Run(client, before), c, op);
      case Advance(c, a) => AdvanceKeeps(Run(client, before), c, a);
    }
  }

  // ----- what every run keeps -----

  function Bit(w: seq<DtlsState>, i: nat, value: DtlsState): nat {
    if i < |w| && w[i] == value then 1 else 0
  }

  lemma {:induction false} CountShort(w: seq<DtlsState>, value: DtlsState)
    requires |w| <= 5
    ensures Count(w, value)
      == Bit(w, 0, value) + Bit(w, 1, value) + Bit(w, 2, value) + Bit(w, 3, value) + Bit(w, 4, value)
  {
    if w != [] { CountShort(w[..|w| - 1], value); }
  }

  lemma HistoryBits(w: seq<DtlsState>, value: DtlsState)
    requires History(w)
    ensures |w| <= 5
    ensures var n := Bit(w, 0, value) + Bit(w, 1, value) + Bit(w, 2, value) + Bit(w, 3, value) + Bit(w, 4, value);
      n <= if value == New then 0 else if value == Failed then 2 else 1
  {
    if |w| > 1 {
      var x := w[1..];
      assert forall i :: 0 <= i < |x| ==> x[i] == w[i + 1];
      assert Connecting !in x && New !in x;
    }
  }

  /** Connecting, Connected and Closed are each written at most once and Failed at
      most twice, New never: any run has at most five state changes, and their
      sequence is one of those listed in `History`. */
  lemma WritesBounded(client: bool, events: seq<Event>, value: DtlsState)
    ensures var w := Run(client, events).shared.ledger.writes;
      History(w) && Run(client, events).shared.state == Current(New, w)
      && |w| <= 5 && Count(w, value) <= (if value == New then 0 else if value == Failed then 2 else 1)
  {
    EveryRun(client, events);
    var w := Run(client, events).shared.ledger.writes;
    hide Run, History, AllSecured, Balanced, Waiting, CallOk;
    HistoryBits(w, value);
    CountShort(w, value);
  }

  /** After Closed come at most Connected, and then Failed. */
  lemma AfterClosed(client: bool, events: seq<Event>, k: nat)
    requires k < |Run(client, events).shared.ledger.writes|
    requires Run(client, events).shared.ledger.writes[k] == Closed
    ensures Run(client, events).shared.ledger.writes[k + 1..] <= [Connected, Failed]
  {
    EveryRun(client, events);
    HistoryAfterClosed(Run(client, events).shared.ledger.writes, k);
  }

  lemma HistoryAfterClosed(w: seq<DtlsState>, k: nat)
    requires History(w) && k < |w| && w[k] == Closed
    ensures w[k + 1..] <= [Connected, Failed]
  {
    if k > 0 {
      var x := w[1..];
      assert x[k - 1] == Closed;
      assert w[k + 1..] == x[k..];
    }
  }

  predicate Quiet(s: State) {
    forall c :: c in s.calls ==> s.calls[c] == Done
  }

  /** Each write fires one handler call: none is announced twice, announcements made
      and pending add up to the writes, and once every call has returned none is
      missing. The flags then agree with the writes. */
  lemma OneHandlerCallPerWrite(client: bool, events: seq<Event>, value: DtlsState)
    ensures var s := Run(client, events);
      var m := s.shared;
      Once(m.ledger.announced)
      && |WrittenAs(m.ledger, value)|
         == |AnnouncedAs(m.ledger, value)| + |PendingAs(m.ledger, Waiting(s.calls, Owes), value)|
      && (Quiet(s) ==>
        |m.ledger.announced| == |m.ledger.writes|
        && (m.done <==> Connected in m.ledger.writes) && (m.closed <==> Closed in m.ledger.writes))
  {
    EveryRun(client, events);
    var s := Run(client, events);
    Conservation(s.shared.ledger, Waiting(s.calls, Owes), value);
    if Quiet(s) {
      assert Waiting(s.calls, Owes) == map[];
      AllHeard(s.shared.ledger);
    }
    hide Run, Waiting, WrittenAs, AnnouncedAs, PendingAs, CallOk, History, AllSecured;
  }

  /** Connected, every delivery to `on_data` and every SSL_write come after the
      handshake flag was set, and that after the peer was heard; the failure shim and the pump go in at most once;
      the inner lock admits one call at a time. */
  lemma NothingBeforeTheHandshake(client: bool, events: seq<Event>)
    ensures var s := Run(client, events);
      (s.shared.state == Connected ==> s.shared.done) && (s.shared.done ==> s.shared.fed)
      && AllSecured(s.shared.delivered) && AllSecured(s.shared.sealed)
      && s.shared.installs <= 1
      && (forall c, d :: c in s.calls && d in s.calls && At(s.calls[c]).holds && At(s.calls[d]).holds ==> c == d)
  {
    EveryRun(client, events);
    StateIsLast(Run(client, events).shared);
    hide Run, Waiting, Balanced, At, History, AllSecured;
  }

  predicate BeginsClose(client: bool, events: seq<Event>, k: nat, c: nat) {
    k < |events| && events[k] == Begin(c, Close) && c !in Run(client, events[..k]).calls
  }

  lemma {:induction false} CloseCallsClose(client: bool, events: seq<Event>, k: nat, c: nat)
    requires BeginsClose(client, events, k, c)
    ensures var s := Run(client, events);
      c in s.calls && (s.calls[c] == Closing(CloseSwap) || s.shared.closed)
  {
    var before, last := events[..|events| - 1], events[|events| - 1];
    var s := Run(client, before);
    if k < |events| - 1 {
      assert before[..k] == events[..k];
      CloseCallsClose(client, before, k, c);
      if last.Advance? && last.call in s.calls {
        MoveRespects(s.shared, last.call, s.calls[last.call], last.answer);
        assert s.calls[last.call] == Closing(CloseSwap) ==>
          Move(s.shared, last.call, s.calls[last.call], last.answer).0.closed;
        hide Move, Run;
      }
    }
  }

  /** If anyone closes then, once every call has returned, Closed was written
      once and announced once. */
  lemma ClosedAnnouncedOnce(client: bool, events: seq<Event>, k: nat, c: nat)
    requires BeginsClose(client, events, k, c) && Quiet(Run(client, events))
    ensures var m := Run(client, events).shared;
      Count(m.ledger.writes, Closed) == 1 && AnnouncedAs(m.ledger, Closed) == WrittenAs(m.ledger, Closed)
  {
    CloseCallsClose(client, events, k, c);
    OneHandlerCallPerWrite(client, events, Closed);
    WritesBounded(client, events, Closed);
    QuietBalance(client, events);
    hide *;
    Conservation(Run(client, events).shared.ledger, map[], Closed);
  }

  lemma QuietBalance(client: bool, events: seq<Event>)
    requires Quiet(Run(client, events))
    ensures Balanced(Run(client, events).shared.ledger, map[])
  {
    EveryRun(client, events);
    var s := Run(client, events);
    hide Run, Balanced, SharedOk, CallOk, OwnersOk;
    assert Waiting(s.calls, Owes) == map[];
  }
}
