/** The three transports on top of each other, with the handlers that tie them:
    `DtlsTransport::new` wraps the ICE handler in an auto-start, `start` wraps it
    in a failure shim, and `SctpTransport::new` hooks DTLS Connected. Handlers run
    on whichever thread announces; nobody else replaces them. */
module Stack {
  import Dtls
  import Ice
  import Sctp
  import opened Ledgers
  import opened Text

  /** The ICE handler slot. Each wrapper keeps a snapshot of what was there. */
  datatype Handler = Base | AutoStart(prev: Handler) | Shim(prev: Handler)

  datatype Act = CallBase | RunStart | DrainOut | RunFail

  /** One ICE state event on its way through the handler it was given: what is
      still to do, and the DTLS call it waits for. */
  datatype Delivery = Delivery(event: Ice.IceState, handler: Handler, todo: seq<Act>, waiting: Option<nat>)

  /** What happened, in order: an ICE event up, DTLS Connected written and
      announced, SCTP Connecting written. */
  datatype Mark = IceUp | DtlsConnected | DtlsAnnounced | SctpConnecting

  datatype State = State(
    dtls: Dtls.State,
    sctp: Sctp.State,
    slot: Handler,
    snapshots: map<nat, Handler>,       // what each `start` read from the slot
    deliveries: map<nat, Delivery>,
    base: seq<nat>,                     // the deliveries that called the first handler
    log: seq<Mark>)

  datatype Event =
    | IceEvent(delivery: nat, event: Ice.IceState)
    | Deliver(delivery: nat, call: nat)                       // `call` names a call it may begin
    | DtlsBegin(call: nat, op: Dtls.Op)
    | DtlsAdvance(call: nat, answer: Dtls.Answer, hook: nat)  // `hook` names the connect it may begin
    | SctpEvent(sctp: Sctp.Event)

  predicate IsUp(e: Ice.IceState) { e == Ice.IceState.Connected || e == Ice.IceState.Completed }

  predicate IsDown(e: Ice.IceState) { e == Ice.IceState.Failed || e == Ice.IceState.Closed }

  /** What a handler does with an event, wrapper by wrapper. */
  function Todo(h: Handler, e: Ice.IceState): seq<Act> {
    match h
    case Base => [CallBase]
    case AutoStart(prev) => (if IsUp(e) then [RunStart, DrainOut] else []) + Todo(prev, e)
    case Shim(prev) => Todo(prev, e) + (if IsDown(e) then [RunFail] else [])
  }

  function Initial(client: bool): State {
    State(Dtls.Initial(client), Sctp.START, AutoStart(Base), map[], map[], [], [])
  }

  function Arrive(s: State, d: nat, e: Ice.IceState): State {
    if d in s.deliveries then s
    else s.(deliveries := s.deliveries[d := Delivery(e, s.slot, Todo(s.slot, e), None)],
            log := if IsUp(e) then s.log + [IceUp] else s.log)
  }

  /** The delivery begins a DTLS call and waits for it. */
  function Spawn(s: State, d: nat, call: nat, op: Dtls.Op): State
    requires d in s.deliveries && s.deliveries[d].todo != []
  {
    var it := s.deliveries[d];
    if call in s.dtls.calls then s
    else s.(dtls := Dtls.Apply(s.dtls, Dtls.Begin(call, op)),
            deliveries := s.deliveries[d := it.(todo := it.todo[1..], waiting := Some(call))])
  }

  predicate IsWaiting(s: State, it: Delivery) {
    it.waiting.Some? && it.waiting.value in s.dtls.calls && s.dtls.calls[it.waiting.value] != Dtls.Done
  }

  function Proceed(s: State, d: nat, call: nat): State {
    if d !in s.deliveries || s.deliveries[d].todo == [] || IsWaiting(s, s.deliveries[d]) then s
    else
      var it := s.deliveries[d];
      var next := s.(deliveries := s.deliveries[d := it.(todo := it.todo[1..], waiting := None)]);
      match it.todo[0]
      case CallBase => next.(base := s.base + [d])
      case RunStart => Spawn(s, d, call, Dtls.Start)
      case DrainOut => if s.dtls.shared.holder == None then next else s
      case RunFail => Spawn(s, d, call, Dtls.IceDown)
  }

  /** The call is about to announce Connected. */
  predicate IsAnnouncing(pc: Dtls.Pc) { pc.Driving? && pc.drive.DriveAnnounce? }

  /** A DTLS step, with what it does to the slot, the log and the layer above. The
      hook needs a call of its own to connect. */
  function StepDtls(s: State, c: nat, a: Dtls.Answer, hook: nat): State {
    if c !in s.dtls.calls || (IsAnnouncing(s.dtls.calls[c]) && hook in s.sctp.calls) then s
    else
      var pc := s.dtls.calls[c];
      var next := s.(dtls := Dtls.Apply(s.dtls, Dtls.Advance(c, a)));
      if pc == Dtls.Starting(Dtls.StartRead) then next.(snapshots := s.snapshots[c := s.slot])
      else if pc == Dtls.Starting(Dtls.StartInstall) then
        next.(slot := Shim(if c in s.snapshots then s.snapshots[c] else s.slot))
      else if Dtls.IsWinning(pc) then next.(log := s.log + [DtlsConnected])
      else if IsAnnouncing(pc) then
        next.(log := s.log + [DtlsAnnounced], sctp := Sctp.Apply(s.sctp, Sctp.Connect(hook)))
      else next
  }

  function StepSctp(s: State, e: Sctp.Event): State {
    var sctp := Sctp.Apply(s.sctp, e);
    s.(sctp := sctp,
       log := if sctp.shared.state == Sctp.Connecting && s.sctp.shared.state != Sctp.Connecting
              then s.log + [SctpConnecting] else s.log)
  }

  function Apply(s: State, e: Event): State {
    match e
    case IceEvent(d, event) => Arrive(s, d, event)
    case Deliver(d, call) => Proceed(s, d, call)
    case DtlsBegin(c, op) => if op == Dtls.IceDown then s else s.(dtls := Dtls.Apply(s.dtls, Dtls.Begin(c, op)))
    case DtlsAdvance(c, a, hook) => StepDtls(s, c, a, hook)
    case SctpEvent(event) => StepSctp(s, event)
  }

  function Run(client: bool, events: seq<Event>): State {
    if events == [] then Initial(client)
    else Apply(Run(client, events[..|events| - 1]), events[|events| - 1])
  }

  // ----- each layer runs as it does alone -----

  lemma LayerSteps(s: State, e: Event) returns (dtls: seq<Dtls.Event>, sctp: seq<Sctp.Event>)
    ensures |dtls| <= 1 && |sctp| <= 1
    ensures Apply(s, e).dtls == (if dtls == [] then s.dtls else Dtls.Apply(s.dtls, dtls[0]))
    ensures Apply(s, e).sctp == (if sctp == [] then s.sctp else Sctp.Apply(s.sctp, sctp[0]))
  {
    hide Dtls.Apply, Sctp.Apply;
    dtls, sctp := [], [];
    match e
    case IceEvent(_, _) =>
    case Deliver(d, call) =>
      if Proceed(s, d, call).dtls != s.dtls {
        dtls := [Dtls.Begin(call, if s.deliveries[d].todo[0] == RunStart then Dtls.Start else Dtls.IceDown)];
      }
    case DtlsBegin(c, op) => if op != Dtls.IceDown { dtls := [Dtls.Begin(c, op)]; }
    case DtlsAdvance(c, a, hook) =>
      if c in s.dtls.calls && !(IsAnnouncing(s.dtls.calls[c]) && hook in s.sctp.calls) {
        dtls := [Dtls.Advance(c, a)];
        if IsAnnouncing(s.dtls.calls[c]) { sctp := [Sctp.Connect(hook)]; }
      }
    case SctpEvent(event) => sctp := [event];
  }

  lemma DtlsGrows(client: bool, events: seq<Dtls.Event>, more: seq<Dtls.Event>)
    requires |more| <= 1
    ensures Dtls.Run(client, events + more)
      == if more == [] then Dtls.Run(client, events) else Dtls.Apply(Dtls.Run(client, events), more[0])
  {
    if more == [] { assert events + more == events; } else { assert (events + more)[..|events|] == events; }
  }

  lemma SctpGrows(events: seq<Sctp.Event>, more: seq<Sctp.Event>)
    requires |more| <= 1
    ensures Sctp.Run(events + more)
      == if more == [] then Sctp.Run(events) else Sctp.Apply(Sctp.Run(events), more[0])
  {
    if more == [] { assert events + more == events; } else { assert (events + more)[..|events|] == events; }
  }

  /** Whatever the stack does, its DTLS and SCTP layers each make a run of their
      own machine: all that holds of those runs holds here. */
  lemma {:induction false} LayersRun(client: bool, events: seq<Event>)
    returns (dtls: seq<Dtls.Event>, sctp: seq<Sctp.Event>)
    ensures Run(client, events).dtls == Dtls.Run(client, dtls)
    ensures Run(client, events).sctp == Sctp.Run(sctp)
  {
    dtls, sctp := [], [];
    if events != [] {
      var before := events[..|events| - 1];
      dtls, sctp := LayersRun(client, before);
      assert Run(client, events) == Apply(Run(client, before), events[|events| - 1]);
      hide Run, Apply, Dtls.Apply, Sctp.Apply, Dtls.Run, Sctp.Run;
      var moreDtls, moreSctp := LayerSteps(Run(client, before), events[|events| - 1]);
      DtlsGrows(client, dtls, moreDtls);
      SctpGrows(sctp, moreSctp);
      dtls, sctp := dtls + moreDtls, sctp + moreSctp;
    }
  }

  // ----- the chain of handlers -----

  /** The shim goes in at most once, over the auto-start, over the first handler. */
  predicate SlotOk(dtls: Dtls.State, slot: Handler, snapshots: map<nat, Handler>) {
    dtls.shared.installs <= 1
    && slot == (if dtls.shared.installs == 0 then AutoStart(Base) else Shim(AutoStart(Base)))
    && forall c :: c in dtls.calls && dtls.calls[c] == Dtls.Starting(Dtls.StartInstall) ==>
      c in snapshots && snapshots[c] == AutoStart(Base)
  }

  /** Each delivery has called the first handler once, or still will. */
  predicate BaseOk(deliveries: map<nat, Delivery>, base: seq<nat>) {
    (forall d :: d in deliveries ==> Count(base, d) + Count(deliveries[d].todo, CallBase) == 1)
    && (forall d :: d in base ==> d in deliveries)
  }

  /** What a delivery still has to do only exists if its event was up, or down
      with the shim in place. */
  predicate TodoOk(deliveries: map<nat, Delivery>, up: bool, shim: bool) {
    forall d :: d in deliveries ==>
      (RunStart in deliveries[d].todo || DrainOut in deliveries[d].todo ==> up)
      && (RunFail in deliveries[d].todo ==> shim)
  }

  ghost predicate ChainOk(s: State) {
    SlotOk(s.dtls, s.slot, s.snapshots)
    && BaseOk(s.deliveries, s.base)
    && TodoOk(s.deliveries, IceUp in s.log, s.dtls.shared.installs > 0)
  }

  lemma AutoStartMeaning(e: Ice.IceState)
    ensures Count(Todo(AutoStart(Base), e), CallBase) == 1
    ensures RunStart in Todo(AutoStart(Base), e) || DrainOut in Todo(AutoStart(Base), e) ==> IsUp(e)
    ensures RunFail !in Todo(AutoStart(Base), e)
  {
    var up := if IsUp(e) then [RunStart, DrainOut] else [];
    assert Todo(AutoStart(Base), e) == up + [CallBase];
    CountAppend(up, CallBase, CallBase);
  }

  lemma TodoMeaning(h: Handler, e: Ice.IceState)
    requires h == AutoStart(Base) || h == Shim(AutoStart(Base))
    ensures Count(Todo(h, e), CallBase) == 1
    ensures RunStart in Todo(h, e) || DrainOut in Todo(h, e) ==> IsUp(e)
    ensures RunFail in Todo(h, e) ==> h.Shim?
  {
    AutoStartMeaning(e);
    if h.Shim? {
      var todo := Todo(AutoStart(Base), e);
      var down := if IsDown(e) then [RunFail] else [];
      assert Todo(h, e) == todo + down;
      hide Todo, Count;
      CountConcat(todo, down, CallBase);
    }
  }

  lemma CountOf(acts: seq<Act>, act: Act)
    requires |acts| <= 1 || act !in acts
    ensures Count(acts, act) == if act in acts then 1 else 0
  {
    if |acts| == 1 { assert acts[..0] == []; }
  }

  lemma CountTail(acts: seq<Act>)
    requires acts != []
    ensures Count(acts, CallBase) == Count(acts[1..], CallBase) + if acts[0] == CallBase then 1 else 0
    ensures forall act :: act in acts[1..] ==> act in acts
  {
    assert acts == [acts[0]] + acts[1..];
    CountConcat([acts[0]], acts[1..], CallBase);
    CountOf([acts[0]], CallBase);
  }

  // ----- what the stack needs of a DTLS step -----

  /** Who installs, starts, wins and announces. */
  predicate StepFacts(m: Dtls.Shared, pc: Dtls.Pc, n: Dtls.Shared, next: Dtls.Pc) {
    (next == Dtls.Starting(Dtls.StartInstall) ==> pc == Dtls.Starting(Dtls.StartRead))
    && n.installs == m.installs + (if pc == Dtls.Starting(Dtls.StartInstall) then 1 else 0)
    && (next.Starting? ==> pc.Starting?)
    && (n.started ==> m.started || pc.Starting?)
    && (next.Driving? && next.drive.DriveAnnounce? ==> Dtls.IsWinning(pc))
    && (Dtls.Connected in n.ledger.writes <==> Dtls.Connected in m.ledger.writes || Dtls.IsWinning(pc))
  }

  lemma StartFacts(m: Dtls.Shared, c: nat, at: Dtls.StartPc)
    ensures var (n, next) := Dtls.MoveStart(m, c, at); StepFacts(m, Dtls.Starting(at), n, next)
  {}

  lemma DriveFacts(m: Dtls.Shared, c: nat, from: Dtls.Caller, at: Dtls.DrivePc, a: Dtls.Answer)
    ensures var (n, next) := Dtls.MoveDrive(m, c, from, at, a); StepFacts(m, Dtls.Driving(from, at), n, next)
  {}

  lemma PumpFacts(m: Dtls.Shared, c: nat, at: Dtls.PumpPc, a: Dtls.Answer)
    ensures var (n, next) := Dtls.MovePump(m, c, at, a); StepFacts(m, Dtls.Pumping(at), n, next)
  {}

  lemma FailFacts(m: Dtls.Shared, at: Dtls.FailPc)
    ensures var (n, next) := Dtls.MoveFail(m, at); StepFacts(m, Dtls.Failing(at), n, next)
  {}

  lemma CloseFacts(m: Dtls.Shared, c: nat, at: Dtls.ClosePc)
    ensures var (n, next) := Dtls.MoveClose(m, c, at); StepFacts(m, Dtls.Closing(at), n, next)
  {}

  lemma SendFacts(m: Dtls.Shared, c: nat, at: Dtls.SendPc, a: Dtls.Answer)
    ensures var (n, next) := Dtls.MoveSend(m, c, at, a); StepFacts(m, Dtls.Sending(at), n, next)
  {}

  lemma MoveFacts(m: Dtls.Shared, c: nat, pc: Dtls.Pc, a: Dtls.Answer)
    ensures var (n, next) := Dtls.Move(m, c, pc, a); StepFacts(m, pc, n, next)
  {
    match pc
    case Starting(at) => StartFacts(m, c, at);
    case Driving(from, at) => DriveFacts(m, c, from, at, a);
    case Pumping(at) => PumpFacts(m, c, at, a);
    case Failing(at) => FailFacts(m, at);
    case Closing(at) => CloseFacts(m, c, at);
    case Sending(at) => SendFacts(m, c, at, a);
    case Done =>
    hide Dtls.MoveStart, Dtls.MoveDrive, Dtls.MovePump, Dtls.MoveFail, Dtls.MoveClose, Dtls.MoveSend;
  }

  // ----- the chain is kept -----

  lemma Added(deliveries: map<nat, Delivery>, base: seq<nat>, up: bool, shim: bool, d: nat, it: Delivery)
    requires BaseOk(deliveries, base) && TodoOk(deliveries, up, shim) && d !in deliveries
    requires Count(it.todo, CallBase) == 1
    ensures BaseOk(deliveries[d := it], base)
    ensures TodoOk(deliveries[d := it], up || RunStart in it.todo || DrainOut in it.todo, shim || RunFail in it.todo)
  {
    hide Count;
  }

  lemma ArriveKeeps(s: State, d: nat, e: Ice.IceState)
    requires ChainOk(s)
    ensures ChainOk(Arrive(s, d, e))
  {
    hide Todo, BaseOk, Count;
    if d !in s.deliveries {
      TodoMeaning(s.slot, e);
      Added(s.deliveries, s.base, IceUp in s.log, s.dtls.shared.installs > 0, d, Delivery(e, s.slot, Todo(s.slot, e), None));
      assert s.slot.Shim? ==> s.dtls.shared.installs > 0;
      hide SlotOk;
    }
  }

  /** Doing the next thing, and calling the first handler if that is what it is. */
  lemma BaseAdvanced(deliveries: map<nat, Delivery>, base: seq<nat>, d: nat, it: Delivery)
    requires BaseOk(deliveries, base)
    requires d in deliveries && deliveries[d].todo != [] && it.todo == deliveries[d].todo[1..]
    ensures BaseOk(deliveries[d := it], if deliveries[d].todo[0] == CallBase then base + [d] else base)
  {
    CountTail(deliveries[d].todo);
    hide Count;
    if deliveries[d].todo[0] == CallBase {
      forall e | e in deliveries
        ensures Count(base + [d], e) + Count(deliveries[d := it][e].todo, CallBase) == 1
      {
        CountAppend(base, d, e);
      }
    }
  }

  lemma TodoAdvanced(deliveries: map<nat, Delivery>, up: bool, shim: bool, d: nat, it: Delivery)
    requires TodoOk(deliveries, up, shim)
    requires d in deliveries && deliveries[d].todo != [] && it.todo == deliveries[d].todo[1..]
    ensures TodoOk(deliveries[d := it], up, shim)
  {
    CountTail(deliveries[d].todo);
  }

  lemma Advanced(s: State, d: nat, waiting: Option<nat>)
    requires BaseOk(s.deliveries, s.base) && TodoOk(s.deliveries, IceUp in s.log, s.dtls.shared.installs > 0)
    requires d in s.deliveries && s.deliveries[d].todo != []
    ensures var it := s.deliveries[d];
      var next := s.deliveries[d := it.(todo := it.todo[1..], waiting := waiting)];
      BaseOk(next, if it.todo[0] == CallBase then s.base + [d] else s.base)
      && TodoOk(next, IceUp in s.log, s.dtls.shared.installs > 0)
  {
    var it := s.deliveries[d];
    BaseAdvanced(s.deliveries, s.base, d, it.(todo := it.todo[1..], waiting := waiting));
    TodoAdvanced(s.deliveries, IceUp in s.log, s.dtls.shared.installs > 0, d,
                 it.(todo := it.todo[1..], waiting := waiting));
  }

  lemma SpawnKeepsSlot(s: State, call: nat, op: Dtls.Op)
    requires SlotOk(s.dtls, s.slot, s.snapshots)
    ensures SlotOk(Dtls.Apply(s.dtls, Dtls.Begin(call, op)), s.slot, s.snapshots)
    ensures Dtls.Apply(s.dtls, Dtls.Begin(call, op)).shared == s.dtls.shared
  {}

  lemma ProceedKeeps(s: State, d: nat, call: nat)
    requires ChainOk(s)
    ensures ChainOk(Proceed(s, d, call))
  {
    hide SlotOk, BaseOk, TodoOk, Dtls.Apply;
    if d in s.deliveries && s.deliveries[d].todo != [] && !IsWaiting(s, s.deliveries[d]) {
      match s.deliveries[d].todo[0]
      case RunStart =>
        Advanced(s, d, Some(call));
        SpawnKeepsSlot(s, call, Dtls.Start);
      case RunFail =>
        Advanced(s, d, Some(call));
        SpawnKeepsSlot(s, call, Dtls.IceDown);
      case _ => Advanced(s, d, None);
    }
  }

  lemma SlotStepped(dtls: Dtls.State, slot: Handler, snapshots: map<nat, Handler>, c: nat, a: Dtls.Answer)
    requires SlotOk(dtls, slot, snapshots) && c in dtls.calls
    requires Dtls.CallOk(dtls.shared, c, dtls.calls[c])
    ensures var next := Dtls.Apply(dtls, Dtls.Advance(c, a));
      var pc := dtls.calls[c];
      SlotOk(next,
             if pc == Dtls.Starting(Dtls.StartInstall) then Shim(if c in snapshots then snapshots[c] else slot) else slot,
             if pc == Dtls.Starting(Dtls.StartRead) then snapshots[c := slot] else snapshots)
  {
    MoveFacts(dtls.shared, c, dtls.calls[c], a);
    assert dtls.calls[c] == Dtls.Starting(Dtls.StartInstall) ==> dtls.shared.installs == 0;
    assert dtls.calls[c] == Dtls.Starting(Dtls.StartRead) ==> dtls.shared.installs == 0;
    hide Dtls.Move, Dtls.CallOk;
  }

  lemma DtlsStepKeeps(s: State, c: nat, a: Dtls.Answer, hook: nat)
    requires ChainOk(s) && Dtls.Inv(s.dtls)
    ensures ChainOk(StepDtls(s, c, a, hook))
  {
    if c in s.dtls.calls {
      assert Dtls.CallOk(s.dtls.shared, c, s.dtls.calls[c]);
      hide Dtls.Inv, Dtls.CallOk;
      SlotStepped(s.dtls, s.slot, s.snapshots, c, a);
      MoveFacts(s.dtls.shared, c, s.dtls.calls[c], a);
      hide Dtls.Move, SlotOk, BaseOk, Sctp.Apply;
    }
  }

  lemma RestKeeps(s: State, e: Event)
    requires ChainOk(s) && (e.DtlsBegin? || e.SctpEvent?)
    ensures ChainOk(Apply(s, e))
  {
    hide SlotOk, BaseOk, TodoOk, Sctp.Apply;
    match e
    case DtlsBegin(call, op) => SpawnKeepsSlot(s, call, op);
    case SctpEvent(_) =>
    hide Dtls.Apply;
  }

  lemma {:induction false} EveryChain(client: bool, events: seq<Event>)
    ensures ChainOk(Run(client, events))
  {
    if events != [] {
      var before, last := events[..|events| - 1], events[|events| - 1];
      var s := Run(client, before);
      EveryChain(client, before);
      var dtls, _ := LayersRun(client, before);
      Dtls.EveryRun(client, dtls);
      hide ChainOk, Dtls.Inv, Dtls.Run, Arrive, Proceed, StepDtls;
      match last
      case IceEvent(d, e) => ArriveKeeps(s, d, e);
      case Deliver(d, call) => ProceedKeeps(s, d, call);
      case DtlsAdvance(c, a, hook) => DtlsStepKeeps(s, c, a, hook);
      case _ => RestKeeps(s, last);
    }
  }

  /** Over any sequence of ICE events and any number of racing `start` calls, every
      event calls the handler installed before `DtlsTransport::new` exactly once,
      unless it is still on its way to it; and the failure shim and the pump go in
      at most once. */
  lemma BaseCalledOnce(client: bool, events: seq<Event>, d: nat)
    requires d in Run(client, events).deliveries
    ensures var s := Run(client, events);
      Count(s.base, d) == (if CallBase in s.deliveries[d].todo then 0 else 1)
      && (s.deliveries[d].todo == [] ==> Count(s.base, d) == 1)
      && s.dtls.shared.installs <= 1
      && (s.slot == AutoStart(Base) || s.slot == Shim(AutoStart(Base)))
  {
    EveryChain(client, events);
  }

  // ----- started before told -----

  predicate Begun(dtls: Dtls.State) { dtls.shared.started || dtls.shared.closed }

  predicate StillStarting(dtls: Dtls.State, call: nat) {
    call in dtls.calls
    && (dtls.calls[call] == Dtls.Starting(Dtls.StartCheck) || dtls.calls[call] == Dtls.Starting(Dtls.StartSwap))
  }

  /** Where an up event is on its way, and whether DTLS was started by then. */
  predicate UpOk(dtls: Dtls.State, it: Delivery) {
    it.todo == [RunStart, DrainOut, CallBase]
    || (it.todo == [DrainOut, CallBase] && (Begun(dtls) || (it.waiting.Some? && StillStarting(dtls, it.waiting.value))))
    || ((it.todo == [CallBase] || it.todo == []) && Begun(dtls))
  }

  predicate UpsOk(dtls: Dtls.State, deliveries: map<nat, Delivery>) {
    forall d :: d in deliveries && IsUp(deliveries[d].event) ==> UpOk(dtls, deliveries[d])
  }

  lemma UpTodo(h: Handler, e: Ice.IceState)
    requires (h == AutoStart(Base) || h == Shim(AutoStart(Base))) && IsUp(e)
    ensures Todo(h, e) == [RunStart, DrainOut, CallBase]
  {
    var up := [RunStart, DrainOut] + [CallBase];
    assert Todo(AutoStart(Base), e) == up;
    assert up + [] == up;
  }

  lemma DtlsMovesOn(dtls: Dtls.State, e: Dtls.Event, it: Delivery)
    requires UpOk(dtls, it)
    ensures UpOk(Dtls.Apply(dtls, e), it)
  {
    match e
    case Begin(_, _) =>
    case Advance(c, a) =>
      if c in dtls.calls {
        var m, pc := dtls.shared, dtls.calls[c];
        Dtls.MoveRespects(m, c, pc, a);
        assert pc == Dtls.Starting(Dtls.StartCheck) ==>
          m.closed || Dtls.Move(m, c, pc, a).1 == Dtls.Starting(Dtls.StartSwap);
        assert pc == Dtls.Starting(Dtls.StartSwap) ==> Dtls.Move(m, c, pc, a).0.started;
        hide Dtls.Move;
      }
  }

  lemma DtlsMovesAll(dtls: Dtls.State, e: Dtls.Event, deliveries: map<nat, Delivery>)
    requires UpsOk(dtls, deliveries)
    ensures UpsOk(Dtls.Apply(dtls, e), deliveries)
  {
    hide UpOk, Dtls.Apply;
    forall d | d in deliveries && IsUp(deliveries[d].event) ensures UpOk(Dtls.Apply(dtls, e), deliveries[d]) {
      DtlsMovesOn(dtls, e, deliveries[d]);
    }
  }

  lemma UpProceeds(s: State, d: nat, call: nat)
    requires UpsOk(s.dtls, s.deliveries) && d in s.deliveries && IsUp(s.deliveries[d].event)
    ensures d in Proceed(s, d, call).deliveries && UpOk(Proceed(s, d, call).dtls, Proceed(s, d, call).deliveries[d])
  {}

  lemma ProceedFrame(s: State, d: nat, call: nat)
    ensures var t := Proceed(s, d, call);
      t.deliveries.Keys == s.deliveries.Keys
      && (forall e :: e in s.deliveries ==> t.deliveries[e].event == s.deliveries[e].event)
      && (forall e :: e in s.deliveries && e != d ==> t.deliveries[e] == s.deliveries[e])
      && (t.dtls == s.dtls || t.dtls == Dtls.Apply(s.dtls, Dtls.Begin(call, Dtls.Start))
          || t.dtls == Dtls.Apply(s.dtls, Dtls.Begin(call, Dtls.IceDown)))
  {
    hide Dtls.Apply;
  }

  lemma ProceedUps(s: State, d: nat, call: nat)
    requires UpsOk(s.dtls, s.deliveries)
    ensures UpsOk(Proceed(s, d, call).dtls, Proceed(s, d, call).deliveries)
  {
    if d in s.deliveries && IsUp(s.deliveries[d].event) { UpProceeds(s, d, call); }
    ProceedFrame(s, d, call);
    hide Proceed, UpOk, Dtls.Apply;
    DtlsMovesAll(s.dtls, Dtls.Begin(call, Dtls.Start), s.deliveries);
    DtlsMovesAll(s.dtls, Dtls.Begin(call, Dtls.IceDown), s.deliveries);
  }

  lemma StepDtlsFrame(s: State, c: nat, a: Dtls.Answer, hook: nat)
    ensures StepDtls(s, c, a, hook).deliveries == s.deliveries
    ensures StepDtls(s, c, a, hook).dtls == s.dtls
      || StepDtls(s, c, a, hook).dtls == Dtls.Apply(s.dtls, Dtls.Advance(c, a))
  {
    hide Dtls.Apply, Sctp.Apply;
  }

  lemma StepUps(s: State, e: Event)
    requires UpsOk(s.dtls, s.deliveries) && ChainOk(s)
    ensures UpsOk(Apply(s, e).dtls, Apply(s, e).deliveries)
  {
    hide Proceed, StepDtls, Dtls.Apply, Sctp.Apply, Todo;
    match e
    case IceEvent(d, event) => if IsUp(event) { UpTodo(s.slot, event); }
    case Deliver(d, call) => ProceedUps(s, d, call);
    case DtlsBegin(c, op) => DtlsMovesAll(s.dtls, Dtls.Begin(c, op), s.deliveries);
    case DtlsAdvance(c, a, hook) =>
      StepDtlsFrame(s, c, a, hook);
      DtlsMovesAll(s.dtls, Dtls.Advance(c, a), s.deliveries);
    case SctpEvent(_) =>
  }

  lemma {:induction false} EveryUp(client: bool, events: seq<Event>)
    ensures UpsOk(Run(client, events).dtls, Run(client, events).deliveries)
  {
    if events != [] {
      var before := events[..|events| - 1];
      EveryUp(client, before);
      EveryChain(client, before);
      hide UpsOk, ChainOk, Apply;
      StepUps(Run(client, before), events[|events| - 1]);
    }
  }

  /** By the time the first handler hears that ICE is up, DTLS has been started, by
      this event or another caller, unless it was closed. */
  lemma StartedBeforeTold(client: bool, events: seq<Event>, d: nat)
    requires var s := Run(client, events); d in s.deliveries && d in s.base && IsUp(s.deliveries[d].event)
    ensures Begun(Run(client, events).dtls)
  {
    EveryUp(client, events);
    BaseCalledOnce(client, events, d);
    assert UpOk(Run(client, events).dtls, Run(client, events).deliveries[d]);
    hide Run;
  }

  // ----- failed when ICE goes down -----

  predicate Fell(dtls: Dtls.State) {
    Dtls.Failed in dtls.shared.ledger.writes || Dtls.Closed in dtls.shared.ledger.writes
  }

  /** Where a down event is on its way through the shim. */
  predicate DownOk(dtls: Dtls.State, it: Delivery) {
    it.todo == [CallBase, RunFail] || it.todo == [RunFail]
    || (it.todo == []
        && (Fell(dtls)
            || (it.waiting.Some? && it.waiting.value in dtls.calls
                && dtls.calls[it.waiting.value] == Dtls.Failing(Dtls.FailWrite))))
  }

  predicate ThroughShim(it: Delivery) { IsDown(it.event) && it.handler.Shim? }

  predicate DownsOk(dtls: Dtls.State, deliveries: map<nat, Delivery>) {
    forall d :: d in deliveries && ThroughShim(deliveries[d]) ==> DownOk(dtls, deliveries[d])
  }

  lemma DownTodo(h: Handler, e: Ice.IceState)
    requires h == Shim(AutoStart(Base)) && IsDown(e)
    ensures Todo(h, e) == [CallBase, RunFail]
  {
    assert Todo(AutoStart(Base), e) == [] + [CallBase] == [CallBase];
    assert Todo(h, e) == [CallBase] + [RunFail];
  }

  lemma DtlsFalls(dtls: Dtls.State, e: Dtls.Event, it: Delivery)
    requires DownOk(dtls, it) && Dtls.Inv(dtls)
    ensures DownOk(Dtls.Apply(dtls, e), it)
  {
    match e
    case Begin(_, _) =>
    case Advance(c, a) =>
      if c in dtls.calls {
        var m, pc := dtls.shared, dtls.calls[c];
        Dtls.StateIsLast(m);
        Dtls.MoveRespects(m, c, pc, a);
        assert pc == Dtls.Failing(Dtls.FailWrite) ==> Fell(Dtls.Apply(dtls, e));
        hide Dtls.Move, Dtls.Inv;
      }
  }

  lemma DtlsFallsAll(dtls: Dtls.State, e: Dtls.Event, deliveries: map<nat, Delivery>)
    requires DownsOk(dtls, deliveries) && Dtls.Inv(dtls)
    ensures DownsOk(Dtls.Apply(dtls, e), deliveries)
  {
    hide DownOk, Dtls.Apply, Dtls.Inv;
    forall d | d in deliveries && ThroughShim(deliveries[d]) ensures DownOk(Dtls.Apply(dtls, e), deliveries[d]) {
      DtlsFalls(dtls, e, deliveries[d]);
    }
  }

  lemma DownProceeds(s: State, d: nat, call: nat)
    requires DownsOk(s.dtls, s.deliveries) && d in s.deliveries && ThroughShim(s.deliveries[d])
    requires TodoOk(s.deliveries, IceUp in s.log, s.dtls.shared.installs > 0)
    ensures d in Proceed(s, d, call).deliveries
    ensures DownOk(Proceed(s, d, call).dtls, Proceed(s, d, call).deliveries[d])
  {
    assert s.deliveries[d].todo == [RunFail] ==> RunFail in s.deliveries[d].todo;
  }

  lemma ProceedKeepsHandlers(s: State, d: nat, call: nat)
    ensures Proceed(s, d, call).deliveries.Keys == s.deliveries.Keys
    ensures forall e :: e in s.deliveries ==> Proceed(s, d, call).deliveries[e].handler == s.deliveries[e].handler
  {
    hide Dtls.Apply;
  }

  lemma ProceedDowns(s: State, d: nat, call: nat)
    requires DownsOk(s.dtls, s.deliveries) && ChainOk(s) && Dtls.Inv(s.dtls)
    ensures DownsOk(Proceed(s, d, call).dtls, Proceed(s, d, call).deliveries)
  {
    hide SlotOk, BaseOk, TodoOk, Proceed, DownOk, Dtls.Apply, Dtls.Inv;
    if d in s.deliveries && ThroughShim(s.deliveries[d]) { DownProceeds(s, d, call); }
    ProceedFrame(s, d, call);
    ProceedKeepsHandlers(s, d, call);
    DtlsFallsAll(s.dtls, Dtls.Begin(call, Dtls.Start), s.deliveries);
    DtlsFallsAll(s.dtls, Dtls.Begin(call, Dtls.IceDown), s.deliveries);
  }

  lemma StepDowns(s: State, e: Event)
    requires DownsOk(s.dtls, s.deliveries) && ChainOk(s) && Dtls.Inv(s.dtls)
    ensures DownsOk(Apply(s, e).dtls, Apply(s, e).deliveries)
  {
    hide Proceed, StepDtls, Dtls.Apply, Sctp.Apply, Todo, Dtls.Inv, BaseOk, TodoOk;
    match e
    case IceEvent(d, event) => if IsDown(event) && s.slot.Shim? { DownTodo(s.slot, event); }
    case Deliver(d, call) => ProceedDowns(s, d, call);
    case DtlsBegin(c, op) => DtlsFallsAll(s.dtls, Dtls.Begin(c, op), s.deliveries);
    case DtlsAdvance(c, a, hook) =>
      StepDtlsFrame(s, c, a, hook);
      DtlsFallsAll(s.dtls, Dtls.Advance(c, a), s.deliveries);
    case SctpEvent(_) =>
  }

  lemma {:induction false} EveryDown(client: bool, events: seq<Event>)
    ensures DownsOk(Run(client, events).dtls, Run(client, events).deliveries)
  {
    if events != [] {
      var before := events[..|events| - 1];
      EveryDown(client, before);
      EveryChain(client, before);
      var dtls, _ := LayersRun(client, before);
      Dtls.EveryRun(client, dtls);
      hide DownsOk, ChainOk, Apply, Dtls.Inv;
      StepDowns(Run(client, before), events[|events| - 1]);
    }
  }

  /** Once an ICE Failed or Closed event has passed through the failure shim, DTLS
      has written Failed or Closed. */
  lemma FailedWithIce(client: bool, events: seq<Event>, d: nat)
    requires var s := Run(client, events);
      d in s.deliveries && ThroughShim(s.deliveries[d])
      && s.deliveries[d].todo == [] && !IsWaiting(s, s.deliveries[d])
    ensures Fell(Run(client, events).dtls)
  {
    EveryDown(client, events);
    assert DownOk(Run(client, events).dtls, Run(client, events).deliveries[d]);
    hide Run;
  }

  /** The shim hands the event to the first handler before it fails DTLS. */
  lemma ToldBeforeFailed(client: bool, events: seq<Event>, d: nat)
    requires var s := Run(client, events); d in s.deliveries && ThroughShim(s.deliveries[d])
    requires RunFail !in Run(client, events).deliveries[d].todo
    ensures d in Run(client, events).base
  {
    EveryDown(client, events);
    BaseCalledOnce(client, events, d);
    var it := Run(client, events).deliveries[d];
    assert DownOk(Run(client, events).dtls, it);
    hide Run;
  }

  // ----- causality across the layers -----

  predicate Preceded(log: seq<Mark>, effect: Mark, cause: Mark) {
    forall i :: 0 <= i < |log| && log[i] == effect ==> cause in log[..i]
  }

  lemma PrecededAppend(log: seq<Mark>, mark: Mark, effect: Mark, cause: Mark)
    requires Preceded(log, effect, cause) && (mark == effect ==> cause in log)
    ensures Preceded(log + [mark], effect, cause)
  {
    forall i | 0 <= i <= |log| && (log + [mark])[i] == effect ensures cause in (log + [mark])[..i] {
      if i < |log| { assert (log + [mark])[..i] == log[..i]; } else { assert (log + [mark])[..i] == log; }
    }
  }

  predicate LogOk(log: seq<Mark>) {
    Preceded(log, DtlsConnected, IceUp)
    && Preceded(log, DtlsAnnounced, DtlsConnected)
    && Preceded(log, SctpConnecting, DtlsAnnounced)
  }

  lemma LogAppend(log: seq<Mark>, mark: Mark)
    requires LogOk(log)
    requires mark == DtlsConnected ==> IceUp in log
    requires mark == DtlsAnnounced ==> DtlsConnected in log
    requires mark == SctpConnecting ==> DtlsAnnounced in log
    ensures LogOk(log + [mark])
  {
    PrecededAppend(log, mark, DtlsConnected, IceUp);
    PrecededAppend(log, mark, DtlsAnnounced, DtlsConnected);
    PrecededAppend(log, mark, SctpConnecting, DtlsAnnounced);
    hide Preceded;
  }

  /** A start exists only since an ICE event went up; the announcement of Connected
      only since it was written. */
  predicate DtlsCaused(dtls: Dtls.State, log: seq<Mark>) {
    (dtls.shared.started ==> IceUp in log)
    && (forall c :: c in dtls.calls && dtls.calls[c].Starting? ==> IceUp in log)
    && (forall c :: c in dtls.calls && dtls.calls[c].Driving? && dtls.calls[c].drive.DriveAnnounce? ==>
      DtlsConnected in log)
    && (DtlsConnected in log <==> Dtls.Connected in dtls.shared.ledger.writes)
  }

  predicate Opens(pc: Sctp.Pc) { pc == Sctp.ConnectCheck || pc == Sctp.ConnectSwap || pc == Sctp.ConnectCas }

  /** A connect exists only since DTLS announced Connected. */
  predicate SctpCaused(sctp: Sctp.State, log: seq<Mark>) {
    (forall c :: c in sctp.calls && Opens(sctp.calls[c]) ==> DtlsAnnounced in log)
    && (SctpConnecting in log <==> Sctp.Connecting in sctp.shared.ledger.writes)
  }

  ghost predicate Caused(s: State) {
    LogOk(s.log) && DtlsCaused(s.dtls, s.log) && SctpCaused(s.sctp, s.log)
  }

  /** Nobody calls `start` or `connect` but the hooks. */
  predicate HandsOff(events: seq<Event>) {
    forall i :: 0 <= i < |events| ==>
      !(events[i].DtlsBegin? && events[i].op == Dtls.Start) && !(events[i].SctpEvent? && events[i].sctp.Connect?)
  }

  lemma SctpBegins(sctp: Sctp.State, hook: nat, log: seq<Mark>)
    requires SctpCaused(sctp, log)
    ensures SctpCaused(Sctp.Apply(sctp, Sctp.Connect(hook)), log + [DtlsAnnounced])
  {}

  lemma SctpMoves(m: Sctp.Shared, c: nat, pc: Sctp.Pc)
    requires m.state == Sctp.Connecting ==> Sctp.Connecting in m.ledger.writes
    ensures var (n, next) := Sctp.Move(m, c, pc);
      var writes := n.state == Sctp.Connecting && m.state != Sctp.Connecting;
      (Opens(next) ==> Opens(pc)) && (writes ==> Opens(pc))
      && (Sctp.Connecting in n.ledger.writes <==> Sctp.Connecting in m.ledger.writes || writes)
  {}

  lemma SctpCausedMore(sctp: Sctp.State, log: seq<Mark>, mark: Mark)
    requires SctpCaused(sctp, log) && mark != SctpConnecting
    ensures SctpCaused(sctp, log + [mark])
  {}

  lemma DtlsCausedMore(dtls: Dtls.State, log: seq<Mark>, mark: Mark)
    requires DtlsCaused(dtls, log) && mark != DtlsConnected
    ensures DtlsCaused(dtls, log + [mark])
  {}

  lemma SctpAdvanceCaused(s: State, c: nat)
    requires Caused(s) && c in s.sctp.calls
    requires s.sctp.shared.state == Sctp.Connecting ==> Sctp.Connecting in s.sctp.shared.ledger.writes
    ensures Caused(StepSctp(s, Sctp.Advance(c)))
  {
    hide Sctp.Move, DtlsCaused, LogOk;
    SctpMoves(s.sctp.shared, c, s.sctp.calls[c]);
    DtlsCausedMore(s.dtls, s.log, SctpConnecting);
    if StepSctp(s, Sctp.Advance(c)).log != s.log { LogAppend(s.log, SctpConnecting); }
  }

  lemma SctpStepCaused(s: State, e: Sctp.Event)
    requires Caused(s) && !e.Connect?
    requires s.sctp.shared.state == Sctp.Connecting ==> Sctp.Connecting in s.sctp.shared.ledger.writes
    ensures Caused(StepSctp(s, e))
  {
    hide DtlsCaused, LogOk;
    match e
    case Close(c) =>
    case Advance(c) => if c in s.sctp.calls { SctpAdvanceCaused(s, c); }
  }

  lemma ArriveCaused(s: State, d: nat, e: Ice.IceState)
    requires Caused(s)
    ensures Caused(Arrive(s, d, e))
  {
    LogAppend(s.log, IceUp);
    DtlsCausedMore(s.dtls, s.log, IceUp);
    SctpCausedMore(s.sctp, s.log, IceUp);
    hide LogOk, DtlsCaused, SctpCaused;
  }

  lemma DtlsBeginCaused(dtls: Dtls.State, call: nat, op: Dtls.Op, log: seq<Mark>)
    requires DtlsCaused(dtls, log) && (op == Dtls.Start ==> IceUp in log)
    ensures DtlsCaused(Dtls.Apply(dtls, Dtls.Begin(call, op)), log)
  {}

  lemma ProceedCaused(s: State, d: nat, call: nat)
    requires Caused(s) && TodoOk(s.deliveries, IceUp in s.log, s.dtls.shared.installs > 0)
    ensures Caused(Proceed(s, d, call))
  {
    if d in s.deliveries && s.deliveries[d].todo != [] {
      assert s.deliveries[d].todo[0] == RunStart ==> IceUp in s.log;
      DtlsBeginCaused(s.dtls, call, Dtls.IceDown, s.log);
      if IceUp in s.log { DtlsBeginCaused(s.dtls, call, Dtls.Start, s.log); }
      hide LogOk, DtlsCaused, SctpCaused, Dtls.Apply, TodoOk;
    }
  }

  lemma DtlsStepCaused(dtls: Dtls.State, c: nat, a: Dtls.Answer, log: seq<Mark>)
    requires DtlsCaused(dtls, log) && c in dtls.calls
    ensures DtlsCaused(Dtls.Apply(dtls, Dtls.Advance(c, a)),
                       if Dtls.IsWinning(dtls.calls[c]) then log + [DtlsConnected] else log)
  {
    MoveFacts(dtls.shared, c, dtls.calls[c], a);
    hide Dtls.Move;
  }

  lemma WinningMeansUp(dtls: Dtls.State, c: nat, log: seq<Mark>)
    requires Dtls.Inv(dtls) && DtlsCaused(dtls, log) && c in dtls.calls && Dtls.IsWinning(dtls.calls[c])
    ensures IceUp in log
  {
    assert Dtls.CallOk(dtls.shared, c, dtls.calls[c]);
  }

  lemma WinningCaused(s: State, c: nat, a: Dtls.Answer, hook: nat)
    requires Caused(s) && Dtls.Inv(s.dtls) && c in s.dtls.calls && Dtls.IsWinning(s.dtls.calls[c])
    ensures Caused(StepDtls(s, c, a, hook))
  {
    hide LogOk, DtlsCaused, SctpCaused, Dtls.Apply, Dtls.Inv;
    WinningMeansUp(s.dtls, c, s.log);
    DtlsStepCaused(s.dtls, c, a, s.log);
    LogAppend(s.log, DtlsConnected);
    SctpCausedMore(s.sctp, s.log, DtlsConnected);
  }

  lemma AnnouncingCaused(s: State, c: nat, a: Dtls.Answer, hook: nat)
    requires Caused(s) && c in s.dtls.calls
    requires IsAnnouncing(s.dtls.calls[c]) && hook !in s.sctp.calls
    ensures Caused(StepDtls(s, c, a, hook))
  {
    assert DtlsConnected in s.log;
    hide LogOk, DtlsCaused, SctpCaused, Dtls.Apply, Sctp.Apply;
    DtlsStepCaused(s.dtls, c, a, s.log);
    LogAppend(s.log, DtlsAnnounced);
    DtlsCausedMore(Dtls.Apply(s.dtls, Dtls.Advance(c, a)), s.log, DtlsAnnounced);
    SctpBegins(s.sctp, hook, s.log);
  }

  lemma StepDtlsCaused(s: State, c: nat, a: Dtls.Answer, hook: nat)
    requires Caused(s) && Dtls.Inv(s.dtls)
    ensures Caused(StepDtls(s, c, a, hook))
  {
    hide Dtls.Apply, Sctp.Apply, Dtls.Inv, LogOk, DtlsCaused, SctpCaused;
    if c in s.dtls.calls && !(IsAnnouncing(s.dtls.calls[c]) && hook in s.sctp.calls) {
      var pc := s.dtls.calls[c];
      if Dtls.IsWinning(pc) {
        WinningCaused(s, c, a, hook);
      } else if IsAnnouncing(pc) {
        AnnouncingCaused(s, c, a, hook);
      } else {
        DtlsStepCaused(s.dtls, c, a, s.log);
      }
    }
  }

  lemma SctpKnows(s: Sctp.State)
    requires Sctp.Inv(s)
    ensures s.shared.state == Sctp.Connecting ==> Sctp.Connecting in s.shared.ledger.writes
  {}

  /** What earlier sections give about a reached state. */
  lemma Reached(client: bool, events: seq<Event>)
    ensures var s := Run(client, events);
      Dtls.Inv(s.dtls) && ChainOk(s)
      && (s.sctp.shared.state == Sctp.Connecting ==> Sctp.Connecting in s.sctp.shared.ledger.writes)
  {
    EveryChain(client, events);
    var dtls, sctp := LayersRun(client, events);
    Dtls.EveryRun(client, dtls);
    Sctp.EveryRun(sctp);
    SctpKnows(Run(client, events).sctp);
  }

  lemma StepCaused(s: State, e: Event)
    requires Caused(s) && Dtls.Inv(s.dtls) && ChainOk(s)
    requires s.sctp.shared.state == Sctp.Connecting ==> Sctp.Connecting in s.sctp.shared.ledger.writes
    requires !(e.DtlsBegin? && e.op == Dtls.Start) && !(e.SctpEvent? && e.sctp.Connect?)
    ensures Caused(Apply(s, e))
  {
    hide LogOk, DtlsCaused, SctpCaused, SlotOk, BaseOk, TodoOk, Dtls.Inv, Dtls.Apply;
    hide Arrive, Proceed, StepDtls, StepSctp;
    match e
    case IceEvent(d, event) => ArriveCaused(s, d, event);
    case Deliver(d, call) => ProceedCaused(s, d, call);
    case DtlsBegin(call, op) => DtlsBeginCaused(s.dtls, call, op, s.log);
    case DtlsAdvance(c, a, hook) => StepDtlsCaused(s, c, a, hook);
    case SctpEvent(event) => SctpStepCaused(s, event);
  }

  lemma {:induction false} EveryCause(client: bool, events: seq<Event>)
    requires HandsOff(events)
    ensures Caused(Run(client, events))
  {
    if events != [] {
      var before, last := events[..|events| - 1], events[|events| - 1];
      assert HandsOff(before);
      EveryCause(client, before);
      Reached(client, before);
      hide Caused, ChainOk, Apply, Dtls.Inv;
      StepCaused(Run(client, before), last);
    }
  }

  /** With no explicit `start` or `connect`, wherever SCTP becomes Connecting, DTLS
      announced Connected before, wrote it before that, and an ICE Connected or
      Completed event came before that. */
  lemma Causality(client: bool, events: seq<Event>, l: nat) returns (i: nat, j: nat, k: nat)
    requires HandsOff(events)
    requires l < |Run(client, events).log| && Run(client, events).log[l] == SctpConnecting
    ensures var log := Run(client, events).log;
      i < j < k < l && log[i] == IceUp && log[j] == DtlsConnected && log[k] == DtlsAnnounced
  {
    EveryCause(client, events);
    var log := Run(client, events).log;
    hide Run;
    k :| 0 <= k < l && log[k] == DtlsAnnounced;
    j :| 0 <= j < k && log[j] == DtlsConnected;
    i :| 0 <= i < j && log[i] == IceUp;
  }

  /** The marks stand for the states: an SCTP layer that left New for Connecting, or
      a DTLS layer that wrote Connected, has its mark in the log. */
  lemma MarksAreStates(client: bool, events: seq<Event>)
    requires HandsOff(events)
    ensures var s := Run(client, events);
      (SctpConnecting in s.log <==> Sctp.Connecting in s.sctp.shared.ledger.writes)
      && (DtlsConnected in s.log <==> Dtls.Connected in s.dtls.shared.ledger.writes)
      && (s.sctp.shared.state == Sctp.Connecting ==> SctpConnecting in s.log)
  {
    EveryCause(client, events);
    var _, sctp := LayersRun(client, events);
    Sctp.EveryRun(sctp);
    SctpKnows(Run(client, events).sctp);
  }
}
