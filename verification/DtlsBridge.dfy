/** The DTLS bridge as an object, when its calls do not overlap: each method makes
    the steps of the machine. Foreign calls return what they like; what SSL_read
    has to give is a parameter. */
module DtlsBridge {
  import opened Dtls
  import opened Ledgers
  import opened Text

  /** The steps of one call, with the answers it got. */
  function Steps(m: Shared, c: nat, pc: Pc, answers: seq<Answer>): (Shared, Pc) {
    if answers == [] then (m, pc)
    else
      var (n, at) := Steps(m, c, pc, answers[..|answers| - 1]);
      Move(n, c, at, answers[|answers| - 1])
  }

  lemma StepsSnoc(m: Shared, c: nat, pc: Pc, answers: seq<Answer>, a: Answer)
    ensures var (n, at) := Steps(m, c, pc, answers); Steps(m, c, pc, answers + [a]) == Move(n, c, at, a)
  {
    assert (answers + [a])[..|answers|] == answers;
  }

  lemma StepsFirst(m: Shared, c: nat, pc: Pc, a: Answer)
    ensures Steps(m, c, pc, [a]) == Move(m, c, pc, a)
  {
    StepsSnoc(m, c, pc, [], a);
    assert [] + [a] == [a];
  }

  lemma {:induction false} StepsConcat(m: Shared, c: nat, pc: Pc, first: seq<Answer>, rest: seq<Answer>)
    ensures var (n, at) := Steps(m, c, pc, first); Steps(m, c, pc, first + rest) == Steps(n, c, at, rest)
  {
    if rest == [] {
      assert first + rest == first;
    } else {
      var front, last := rest[..|rest| - 1], rest[|rest| - 1];
      StepsConcat(m, c, pc, first, front);
      assert first + rest == first + front + [last];
      StepsSnoc(m, c, pc, first + front, last);
    }
  }

  function Events(c: nat, answers: seq<Answer>): (events: seq<Event>)
    ensures |events| == |answers|
  {
    seq(|answers|, i requires 0 <= i < |answers| => Advance(c, answers[i]))
  }

  /** Such steps are a run of the machine that only advances that call. */
  lemma {:induction false} StepsAreARun(client: bool, events: seq<Event>, c: nat, answers: seq<Answer>)
    requires c in Run(client, events).calls
    ensures var s := Run(client, events);
      var (n, at) := Steps(s.shared, c, s.calls[c], answers);
      Run(client, events + Events(c, answers)) == State(n, s.calls[c := at])
  {
    hide Move;
    var s := Run(client, events);
    if answers == [] {
      assert events + Events(c, answers) == events && s.calls[c := s.calls[c]] == s.calls;
    } else {
      var front, last := answers[..|answers| - 1], answers[|answers| - 1];
      StepsAreARun(client, events, c, front);
      var all := events + Events(c, answers);
      assert all[..|all| - 1] == events + Events(c, front);
      assert all[|all| - 1] == Advance(c, last);
      hide Steps;
      StepsSnoc(s.shared, c, s.calls[c], front, last);
      assert front + [last] == answers;
      var (n, at) := Steps(s.shared, c, s.calls[c], front);
      var (n', at') := Steps(s.shared, c, s.calls[c], answers);
      assert s.calls[c := at][c := at'] == s.calls[c := at'];
    }
  }

  /** From the handler call to the lock: announce, read the slot, install, enter, look at the role. */
  lemma OpensTo(m: Shared, c: nat, index: nat) returns (answers: seq<Answer>)
    requires m.holder == None
    ensures var inside := Tell(m, index).(installs := m.installs + 1, holder := Some(c));
      Steps(m, c, Starting(StartAnnounce(index)), answers)
        == if m.client then (inside, Driving(FromStart, DriveHandshake)) else (Release(inside), Done)
  {
    var pc := Starting(StartAnnounce(index));
    StepsFirst(m, c, pc, ANY);
    hide Steps;
    answers := [ANY];
    StepsSnoc(m, c, pc, answers, ANY);
    answers := answers + [ANY];
    StepsSnoc(m, c, pc, answers, ANY);
    answers := answers + [ANY];
    StepsSnoc(m, c, pc, answers, ANY);
    answers := answers + [ANY];
    StepsSnoc(m, c, pc, answers, ANY);
    answers := answers + [ANY];
  }

  const ANY := Answer(true, Finished, true, NoMore, true)

  datatype DtlsError = IsClosed | NotConnected | WriteFailed | IceFailed | HandshakeFailed

  /** How many records the pump delivers: those before the first that is no data. */
  function Surfaced(records: seq<Read>): (n: nat)
    ensures n <= |records| && (forall i :: 0 <= i < n ==> records[i] == Data)
    ensures n < |records| ==> records[n] != Data
  {
    if records != [] && records[0] == Data then 1 + Surfaced(records[1..]) else 0
  }

  /** The peer's close_notify is the first of the records that is no data. */
  predicate Notifies(records: seq<Read>) {
    exists n :: 0 <= n < |records| && records[n] == CloseNotify && forall i :: 0 <= i < n ==> records[i] == Data
  }

  lemma NotifiesAtSurfaced(records: seq<Read>)
    ensures Notifies(records) <==> Surfaced(records) < |records| && records[Surfaced(records)] == CloseNotify
  {
    var k := Surfaced(records);
    if n :| 0 <= n < |records| && records[n] == CloseNotify && forall i :: 0 <= i < n ==> records[i] == Data {
      assert n >= k && n <= k;
    }
  }

  /** The flight is taken, or not; the state then decides between driving and reading. */
  lemma FeedsTo(m: Shared, c: nat, a: Answer) returns (answers: seq<Answer>)
    ensures Steps(m, c, Pumping(PumpFeed), answers)
      == if !a.fed then (Release(m), Done)
         else (m.(fed := true), if m.state == Connecting then Driving(FromPump, DriveHandshake) else Pumping(PumpConnected))
  {
    StepsFirst(m, c, Pumping(PumpFeed), a);
    hide Steps;
    answers := [a];
    if a.fed {
      StepsSnoc(m, c, Pumping(PumpFeed), answers, ANY);
      answers := answers + [ANY];
    }
  }

  /** One record is read, and delivered if it is data. */
  lemma ReadsOne(m: Shared, c: nat, before: seq<Answer>, read: Read) returns (after: seq<Answer>)
    requires Steps(m, c, Pumping(PumpRead), before).1 == Pumping(PumpRead)
    ensures var n := Steps(m, c, Pumping(PumpRead), before).0;
      Steps(m, c, Pumping(PumpRead), after)
        == match read
           case Data => (n.(delivered := n.delivered + [Use(c, n.done)]), Pumping(PumpRead))
           case CloseNotify => (Release(n), Closing(CloseSwap))
           case NoMore => (Release(n), Done)
  {
    var a := Answer(true, Finished, true, read, true);
    hide Steps;
    StepsSnoc(m, c, Pumping(PumpRead), before, a);
    after := before + [a];
    if read == Data {
      StepsSnoc(m, c, Pumping(PumpRead), after, ANY);
      after := after + [ANY];
    }
  }

  lemma UsesSnoc(call: nat, secured: bool, n: nat)
    ensures Uses(call, secured, n) + [Use(call, secured)] == Uses(call, secured, n + 1)
  {}

  function Uses(call: nat, secured: bool, n: nat): (uses: seq<Use>)
    ensures |uses| == n && forall i :: 0 <= i < n ==> uses[i] == Use(call, secured)
  {
    seq(n, _ => Use(call, secured))
  }

  /** The handshake is done: Connected is written and announced. */
  function Secured(m: Shared, call: nat): Shared {
    m.(done := true, winner := call, state := Connected, ledger := Told(m.ledger, Connected))
  }

  /** Records surface until the peer's close_notify, which closes. */
  function AfterReading(m: Shared, call: nat, records: seq<Read>): Shared {
    var read := m.(delivered := m.delivered + Uses(call, m.done, Surfaced(records)));
    if Notifies(records) && !m.closed
    then read.(closed := true, closer := call, state := Closed, ledger := Told(m.ledger, Closed))
    else read
  }

  /** The pump's drive breaks, completes the handshake or waits for more. */
  function AfterDriving(m: Shared, call: nat, a: Answer, records: seq<Read>): Shared {
    if !a.drained || a.handshake == Broken then m.(state := Failed, ledger := Told(m.ledger, Failed))
    else if Finishes(m.state, m.done, a) then AfterReading(Secured(m, call), call, records)
    else m
  }

  /** What becomes of the peer's flight, once taken. */
  function AfterFeeding(m: Shared, call: nat, a: Answer, records: seq<Read>): Shared {
    if m.state == Connected then AfterReading(m, call, records)
    else if m.state == Connecting then AfterDriving(m, call, a, records)
    else m
  }

  /** The same, while the handshake goes on. */
  lemma DrivingMeans(m: Shared, call: nat, a: Answer, records: seq<Read>)
    requires m.state == Connecting
    ensures var n := AfterFeeding(m, call, a, records);
      n.fed == m.fed && n.holder == m.holder
      && (!a.drained || a.handshake == Broken ==> n == m.(state := Failed, ledger := Told(m.ledger, Failed)))
      && (Finishes(m.state, m.done, a) ==> n == AfterReading(Secured(m, call), call, records))
      && (a.drained && a.handshake != Broken && !Finishes(m.state, m.done, a) ==> n == m)
  {
    hide Notifies, Surfaced, Uses;
  }

  /** The same, case by case. */
  lemma FeedingMeans(m: Shared, call: nat, a: Answer, records: seq<Read>)
    ensures var n := AfterFeeding(m, call, a, records);
      n.fed == m.fed && n.holder == m.holder
      && (m.state == Connecting && (!a.drained || a.handshake == Broken) ==>
        n.state == Failed && n.closed == m.closed && n.delivered == m.delivered
        && n.ledger == Told(m.ledger, Failed))
      && (!m.closed && (m.state == Connected || Finishes(m.state, m.done, a)) ==>
        var up := if m.state == Connected then m.ledger else Told(m.ledger, Connected);
        n.state == (if Notifies(records) then Closed else Connected) && n.closed == Notifies(records)
        && n.ledger == (if Notifies(records) then Told(up, Closed) else up)
        && n.delivered == m.delivered + Uses(call, m.done || m.state == Connecting, Surfaced(records)))
      && (m.state == Connecting && a.drained && a.handshake != Broken && !Finishes(m.state, m.done, a) ==> n == m)
      && (m.state != Connecting && m.state != Connected ==> n == m)
  {
    if m.state == Connecting {
      DrivingMeans(m, call, a, records);
      hide AfterFeeding;
    }
    hide Notifies, Surfaced, Uses;
  }

  /** The pump's drive completes the handshake. */
  predicate Finishes(state: DtlsState, done: bool, a: Answer) {
    state == Connecting && !done && a.handshake == Finished && a.drained
  }

  class Bridge {
    const client: bool
    var state: DtlsState
    var closed: bool
    var started: bool
    var handshakeDone: bool
    var fed: bool
    ghost var holder: Option<nat>
    ghost var installs: nat
    ghost var opener: nat
    ghost var winner: nat
    ghost var closer: nat
    ghost var ledger: Ledger<DtlsState>
    ghost var delivered: seq<Use>
    ghost var sealed: seq<Use>

    ghost function View(): Shared
      reads this
    {
      Shared(client, state, closed, started, handshakeDone, fed, holder, installs, opener, winner, closer, ledger,
             delivered, sealed)
    }

    constructor (isClient: bool)
      ensures View() == Initial(isClient).shared
    {
      client := isClient;
      state, closed, started, handshakeDone, fed := New, false, false, false, false;
      holder, installs, opener, winner, closer := None, 0, 0, 0, 0;
      ledger, delivered, sealed := Ledger([], []), [], [];
    }

    method SetState(value: DtlsState) returns (ghost index: nat)
      modifies this`state, this`ledger
      ensures View() == WriteState(old(View()), value) && index == old(|ledger.writes|)
    {
      index := |ledger.writes|;
      state, ledger := value, Write(ledger, value);
    }

    method Fire(ghost index: nat)
      modifies this`ledger
      ensures View() == Tell(old(View()), index)
    {
      ledger := Announce(ledger, index);
    }

    method CloseTransport(ghost call: nat) returns (ghost answers: seq<Answer>)
      modifies this
      ensures Steps(old(View()), call, Closing(CloseSwap), answers) == (View(), Done)
      ensures old(closed) ==> View() == old(View())
      ensures !old(closed) ==> View() == old(View()).(closed := true, closer := call, state := Closed,
        ledger := if old(state) == Closed then old(ledger) else Told(old(ledger), Closed))
    {
      ghost var m, pc := View(), Closing(CloseSwap);
      StepsFirst(m, call, pc, ANY);
      answers := [ANY];
      hide Steps;
      if closed { return; }
      closed, closer := true, call;
      StepsSnoc(m, call, pc, answers, ANY);
      answers := answers + [ANY];
      if state != Closed {
        ghost var index := SetState(Closed);
        StepsSnoc(m, call, pc, answers, ANY);
        answers := answers + [ANY];
        Fire(index);
      }
    }

    method FailTransport(ghost call: nat) returns (ghost answers: seq<Answer>)
      modifies this
      ensures Steps(old(View()), call, Failing(FailWrite), answers) == (View(), Done)
      ensures View() == if old(state) == Failed || old(state) == Closed then old(View())
                        else old(View()).(state := Failed, ledger := Told(old(ledger), Failed))
    {
      ghost var m, pc := View(), Failing(FailWrite);
      StepsFirst(m, call, pc, ANY);
      answers := [ANY];
      hide Steps;
      if state != Failed && state != Closed {
        ghost var index := SetState(Failed);
        StepsSnoc(m, call, pc, answers, ANY);
        answers := answers + [ANY];
        Fire(index);
      }
    }

    /** Under the inner lock; what becomes of the lock is up to the caller. */
    method DriveHandshakeLocked(ghost call: nat, ghost from: Caller, answer: Answer)
      returns (r: Result<(), DtlsError>, ghost answers: seq<Answer>)
      modifies this
      ensures Steps(old(View()), call, Driving(from, DriveHandshake), answers) == Driven(View(), from, r.Ok?)
      ensures r == if !answer.drained then Err(IceFailed)
                   else if answer.handshake == Broken then Err(HandshakeFailed) else Ok(())
      ensures View() == if r.Ok? && answer.handshake == Finished && old(fed) && !old(handshakeDone)
                        then Secured(old(View()), call) else old(View())
    {
      ghost var m, pc := View(), Driving(from, DriveHandshake);
      var handshake := Progress(fed, answer.handshake);
      StepsFirst(m, call, pc, answer);
      StepsSnoc(m, call, pc, [answer], answer);
      hide Steps;
      answers := [answer] + [answer];
      if !answer.drained { return Err(IceFailed), answers; }
      match handshake
      case Finished =>
        if !handshakeDone {
          handshakeDone, winner := true, call;
          StepsSnoc(m, call, pc, answers, answer);
          answers := answers + [answer];
          ghost var index := SetState(Connected);
          StepsSnoc(m, call, pc, answers, answer);
          answers := answers + [answer];
          Fire(index);
        }
        return Ok(()), answers;
      case WantMore => return Ok(()), answers;
      case Broken => return Err(HandshakeFailed), answers;
    }

    /** Plaintext out of SSL_read, one delivery a record, until `records` runs out or
        the peer's close_notify comes; the lock is given back before the close. */
    method ReadAll(ghost call: nat, records: seq<Read>) returns (notified: bool, ghost answers: seq<Answer>)
      modifies this`holder, this`delivered
      ensures Steps(old(View()), call, Pumping(PumpRead), answers)
        == (View(), if notified then Closing(CloseSwap) else Done)
      ensures notified == Notifies(records)
      ensures View() == old(View()).(holder := None,
        delivered := old(delivered) + Uses(call, old(handshakeDone), Surfaced(records)))
    {
      ghost var m := View();
      NotifiesAtSurfaced(records);
      answers := [];
      hide Move;
      assert Steps(m, call, Pumping(PumpRead), answers) == (m, Pumping(PumpRead));
      hide Steps, Surfaced, Notifies, Uses;
      var i := 0;
      while true
        invariant 0 <= i <= |records|
        invariant Steps(m, call, Pumping(PumpRead), answers) == (View(), Pumping(PumpRead))
        invariant forall k :: 0 <= k < i ==> records[k] == Data
        invariant delivered == m.delivered + Uses(call, m.done, i) && holder == m.holder
        decreases |records| - i
      {
        var read := if i < |records| then records[i] else NoMore;
        answers := ReadsOne(m, call, answers, read);
        if read != Data {
          holder := None;
          assert i == Surfaced(records);
          return read == CloseNotify, answers;
        }
        delivered := delivered + [Use(call, handshakeDone)];
        UsesSnoc(call, m.done, i);
        i := i + 1;
      }
    }

    method PumpInbound(ghost call: nat, answer: Answer, records: seq<Read>) returns (ghost answers: seq<Answer>)
      requires holder == None
      modifies this
      ensures Steps(old(View()), call, Pumping(PumpCheck), answers) == (View(), Done)
      ensures old(closed) || !answer.fed ==> View() == old(View())
      ensures !old(closed) && answer.fed ==> fed && holder == None
      // the handshake breaks, or ICE refuses its flight
      ensures !old(closed) && answer.fed && old(state) == Connecting && (!answer.drained || answer.handshake == Broken) ==>
        state == Failed && !closed && delivered == old(delivered)
        && ledger.writes == old(ledger.writes) + [Failed]
        && ledger.announced == old(ledger.announced) + [old(|ledger.writes|)]
      // it finishes, or had finished before
      ensures !old(closed) && answer.fed && (old(state) == Connected || Finishes(old(state), old(handshakeDone), answer)) ==>
        var up := if old(state) == Connected then old(ledger.writes) else old(ledger.writes) + [Connected];
        var told := if old(state) == Connected then old(ledger.announced)
                    else old(ledger.announced) + [old(|ledger.writes|)];
        state == (if Notifies(records) then Closed else Connected) && closed == Notifies(records)
        && ledger.writes == (if Notifies(records) then up + [Closed] else up)
        && ledger.announced == (if Notifies(records) then told + [|up|] else told)
        && delivered == old(delivered) + Uses(call, old(handshakeDone) || old(state) == Connecting, Surfaced(records))
      // the peer's flight was taken, and nothing else
      ensures !old(closed) && answer.fed && old(state) == Connecting && answer.drained && answer.handshake != Broken
          && !Finishes(old(state), old(handshakeDone), answer)
        ==> View() == old(View()).(fed := true)
      ensures !old(closed) && answer.fed && old(state) != Connecting && old(state) != Connected
        ==> View() == old(View()).(fed := true)
    {
      ghost var m, pc := View(), Pumping(PumpCheck);
      StepsFirst(m, call, pc, ANY);
      answers := [ANY];
      FeedingMeans(m.(fed := true), call, answer, records);
      hide Steps, AfterFeeding, Notifies, Surfaced, Uses;
      if closed { return; }
      StepsSnoc(m, call, pc, answers, ANY);
      answers := answers + [ANY];
      holder := Some(call);
      ghost var rest := Feed(call, answer, records);
      StepsConcat(m, call, pc, answers, rest);
      answers := answers + rest;
    }

    /** The pump inside the lock. */
    method Feed(ghost call: nat, answer: Answer, records: seq<Read>) returns (ghost answers: seq<Answer>)
      modifies this
      ensures Steps(old(View()), call, Pumping(PumpFeed), answers) == (View(), Done)
      ensures !answer.fed ==> View() == Release(old(View()))
      ensures answer.fed ==> View() == AfterFeeding(Release(old(View())).(fed := true), call, answer, records)
    {
      ghost var m, pc := View(), Pumping(PumpFeed);
      hide Steps, Move, AfterDriving, AfterReading;
      answers := FeedsTo(m, call, answer);
      if !answer.fed {
        holder := None;
        return;
      }
      fed := true;
      assert View() == m.(fed := true);
      assert Release(View()) == Release(m).(fed := true);
      if state == Connecting {
        ghost var rest := Shake(call, answer, records);
        StepsConcat(m, call, pc, answers, rest);
        return answers + rest;
      }
      ghost var rest := Surface(call, records);
      StepsConcat(m, call, pc, answers, rest);
      return answers + rest;
    }

    /** The pump with the handshake still to finish. */
    method Shake(ghost call: nat, answer: Answer, records: seq<Read>) returns (ghost answers: seq<Answer>)
      requires state == Connecting && fed
      modifies this
      ensures Steps(old(View()), call, Driving(FromPump, DriveHandshake), answers) == (View(), Done)
      ensures View() == AfterDriving(Release(old(View())), call, answer, records)
    {
      ghost var m, pc := View(), Driving(FromPump, DriveHandshake);
      var r;
      r, answers := DriveHandshakeLocked(call, FromPump, answer);
      hide Steps, AfterReading;
      ghost var rest;
      if r.Err? {
        holder := None;
        rest := FailTransport(call);
      } else {
        rest := Surface(call, records);
      }
      StepsConcat(m, call, pc, answers, rest);
      answers := answers + rest;
    }

    method Surface(ghost call: nat, records: seq<Read>) returns (ghost answers: seq<Answer>)
      modifies this
      ensures Steps(old(View()), call, Pumping(PumpConnected), answers) == (View(), Done)
      ensures View() == if old(state) == Connected then AfterReading(Release(old(View())), call, records)
                        else Release(old(View()))
    {
      ghost var m, pc := View(), Pumping(PumpConnected);
      StepsFirst(m, call, pc, ANY);
      answers := [ANY];
      hide Steps;
      if state != Connected {
        holder := None;
        return;
      }
      var notified, read := ReadAll(call, records);
      StepsConcat(m, call, pc, answers, read);
      answers := answers + read;
      if notified {
        ghost var closing := CloseTransport(call);
        StepsConcat(m, call, pc, answers, closing);
        answers := answers + closing;
      }
    }

    /** ICE's failure to take the first flight is not an error of `start`. */
    method StartHandshake(ghost call: nat, answer: Answer) returns (r: Result<(), DtlsError>, ghost answers: seq<Answer>)
      requires holder == None
      modifies this
      ensures Steps(old(View()), call, Starting(StartCheck), answers) == (View(), Done)
      ensures r == if old(closed) then Err(IsClosed)
                   else if !old(started) && old(state) == New && client && answer.drained && answer.handshake == Broken
                   then Err(HandshakeFailed)
                   else Ok(())
      ensures old(closed) || old(started) ==> View() == old(View())
      ensures !old(closed) && !old(started) ==>
        started && opener == call
        && (old(state) != New ==> View() == old(View()).(started := true, opener := call))
        && (old(state) == New ==>
          installs == old(installs) + 1
          && state == (if client && old(fed) && answer.drained && answer.handshake == Finished && !old(handshakeDone)
                       then Connected else Connecting)
          && ledger.writes == old(ledger.writes) + (if state == Connected then [Connecting, Connected] else [Connecting])
          && ledger.announced == old(ledger.announced)
             + (if state == Connected then [old(|ledger.writes|), old(|ledger.writes|) + 1] else [old(|ledger.writes|)]))
      ensures closed == old(closed) && fed == old(fed) && holder == None
      ensures delivered == old(delivered) && sealed == old(sealed)
    {
      ghost var m, pc := View(), Starting(StartCheck);
      StepsFirst(m, call, pc, ANY);
      answers := [ANY];
      hide Steps;
      if closed { return Err(IsClosed), answers; }
      StepsSnoc(m, call, pc, answers, ANY);
      answers := answers + [ANY];
      if started { return Ok(()), answers; }
      started, opener := true, call;
      StepsSnoc(m, call, pc, answers, ANY);
      answers := answers + [ANY];
      if state != New { return Ok(()), answers; }
      ghost var index := SetState(Connecting);
      var result, rest := Open(call, index, answer);
      StepsConcat(m, call, pc, answers, rest);
      return result, answers + rest;
    }

    /** `start` from the handler call on. */
    method Open(ghost call: nat, ghost index: nat, answer: Answer)
      returns (r: Result<(), DtlsError>, ghost answers: seq<Answer>)
      requires holder == None
      modifies this
      ensures Steps(old(View()), call, Starting(StartAnnounce(index)), answers) == (View(), Done)
      ensures r == if client && answer.drained && answer.handshake == Broken then Err(HandshakeFailed) else Ok(())
      ensures var m := old(View()).(ledger := Announce(old(ledger), index), installs := old(installs) + 1, holder := None);
        View() == if client && old(fed) && answer.drained && answer.handshake == Finished && !old(handshakeDone)
                  then Secured(m, call) else m
    {
      ghost var m, pc := View(), Starting(StartAnnounce(index));
      Fire(index);
      installs := installs + 1;
      holder := Some(call);
      answers := OpensTo(m, call, index);
      r := Ok(());
      hide Steps;
      if client {
        var drive, driven := DriveHandshakeLocked(call, FromStart, answer);
        StepsConcat(m, call, pc, answers, driven);
        answers := answers + driven;
        if drive == Err(HandshakeFailed) { r := drive; }
      }
      holder := None;
    }

    /** Application data leaves only from Connected. */
    method SendData(ghost call: nat, answer: Answer) returns (r: Result<(), DtlsError>, ghost answers: seq<Answer>)
      requires holder == None
      modifies this
      ensures Steps(old(View()), call, Sending(SendCheck), answers) == (View(), Done)
      ensures r == if old(closed) then Err(IsClosed)
                   else if old(state) != Connected then Err(NotConnected)
                   else if !answer.wrote then Err(WriteFailed)
                   else if !answer.drained then Err(IceFailed)
                   else Ok(())
      ensures View() == old(View()).(sealed := if r == Err(IsClosed) || r == Err(NotConnected) then old(sealed)
                                               else old(sealed) + [Use(call, old(handshakeDone))])
    {
      ghost var m, pc := View(), Sending(SendCheck);
      StepsFirst(m, call, pc, ANY);
      answers := [ANY];
      hide Steps;
      if closed { return Err(IsClosed), answers; }
      StepsSnoc(m, call, pc, answers, ANY);
      answers := answers + [ANY];
      if state != Connected { return Err(NotConnected), answers; }
      StepsSnoc(m, call, pc, answers, ANY);
      answers := answers + [ANY];
      StepsSnoc(m, call, pc, answers, answer);
      answers := answers + [answer];
      sealed := sealed + [Use(call, handshakeDone)];
      if !answer.wrote { return Err(WriteFailed), answers; }
      StepsSnoc(m, call, pc, answers, ANY);
      answers := answers + [ANY];
      return if answer.drained then Ok(()) else Err(IceFailed), answers;
    }
  }
}
