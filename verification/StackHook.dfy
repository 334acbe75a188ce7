/** The hook that `SctpTransport::new` puts on DTLS: it connects SCTP. */
module StackHooks {
  import Dtls
  import DtlsOutcomes
  import Sctp
  import opened Ledgers
  import opened Stack

  /** Event `k` is a DTLS step, and `hook` the connect of SCTP that it begins. */
  ghost predicate Connects(client: bool, events: seq<Event>, k: nat, hook: nat) {
    k < |events| && events[k].DtlsAdvance? && events[k].hook == hook
    && hook !in Run(client, events[..k]).sctp.calls
    && hook in Run(client, events[..k + 1]).sctp.calls
    && Run(client, events[..k + 1]).sctp.calls[hook] == Sctp.ConnectCheck
  }

  /** The mark, DTLS's announcement and the connect come together. */
  ghost predicate Hooked(s: State) {
    (DtlsAnnounced in s.log <==> DtlsOutcomes.ConnectedTold(s.dtls.shared.ledger))
    && (DtlsAnnounced in s.log ==> Sctp.Trying(s.sctp))
  }

  lemma BeginTells(dtls: Dtls.State, call: nat, op: Dtls.Op)
    ensures Dtls.Apply(dtls, Dtls.Begin(call, op)).shared == dtls.shared
  {}

  lemma InRange(dtls: Dtls.State)
    requires Dtls.Inv(dtls)
    ensures var l := dtls.shared.ledger; forall k :: 0 <= k < |l.announced| ==> l.announced[k] < |l.writes|
  {}

  lemma HookFrame(s: State, c: nat, a: Dtls.Answer, hook: nat)
    requires c in s.dtls.calls && (IsAnnouncing(s.dtls.calls[c]) ==> hook !in s.sctp.calls)
    ensures var t := StepDtls(s, c, a, hook);
      t.dtls == Dtls.Apply(s.dtls, Dtls.Advance(c, a))
      && (DtlsAnnounced in t.log <==> DtlsAnnounced in s.log || IsAnnouncing(s.dtls.calls[c]))
      && t.sctp == if IsAnnouncing(s.dtls.calls[c]) then Sctp.Apply(s.sctp, Sctp.Connect(hook)) else s.sctp
  {
    hide Dtls.Apply, Sctp.Apply;
  }

  lemma NewConnectTries(sctp: Sctp.State, hook: nat)
    requires hook !in sctp.calls
    ensures Sctp.Trying(Sctp.Apply(sctp, Sctp.Connect(hook)))
  {
    assert Sctp.Apply(sctp, Sctp.Connect(hook)).calls[hook] == Sctp.ConnectCheck;
  }

  lemma DtlsStepHooks(s: State, c: nat, a: Dtls.Answer, hook: nat)
    requires Hooked(s) && Dtls.Inv(s.dtls) && DtlsOutcomes.AllOweRight(s.dtls)
    ensures Hooked(StepDtls(s, c, a, hook))
  {
    if c in s.dtls.calls && !(IsAnnouncing(s.dtls.calls[c]) && hook in s.sctp.calls) {
      InRange(s.dtls);
      assert DtlsOutcomes.OwesRight(s.dtls.shared.ledger.writes, s.dtls.calls[c]);
      hide Dtls.Inv, DtlsOutcomes.AllOweRight, DtlsOutcomes.ConnectedTold, DtlsOutcomes.OwesRight, Sctp.Trying;
      HookFrame(s, c, a, hook);
      DtlsOutcomes.MoveTells(s.dtls.shared, c, s.dtls.calls[c], a);
      hide Dtls.Move, StepDtls, Sctp.Apply;
      if IsAnnouncing(s.dtls.calls[c]) { NewConnectTries(s.sctp, hook); }
    } else {
      assert StepDtls(s, c, a, hook) == s;
    }
  }

  lemma StepHooks(s: State, e: Event)
    requires Hooked(s) && Dtls.Inv(s.dtls) && DtlsOutcomes.AllOweRight(s.dtls)
    ensures Hooked(Apply(s, e))
  {
    hide StepDtls, Dtls.Apply, Sctp.Apply, Dtls.Inv, DtlsOutcomes.AllOweRight, DtlsOutcomes.ConnectedTold, Sctp.Trying;
    match e
    case IceEvent(_, _) =>
    case Deliver(d, call) =>
      BeginTells(s.dtls, call, Dtls.Start);
      BeginTells(s.dtls, call, Dtls.IceDown);
    case DtlsBegin(c, op) => BeginTells(s.dtls, c, op);
    case DtlsAdvance(c, a, hook) => DtlsStepHooks(s, c, a, hook);
    case SctpEvent(event) => if Sctp.Trying(s.sctp) { Sctp.TryingKept(s.sctp, event); }
  }

  lemma {:induction false} EveryHook(client: bool, events: seq<Event>)
    ensures Hooked(Run(client, events))
  {
    if events != [] {
      var before := events[..|events| - 1];
      EveryHook(client, before);
      var dtls, _ := LayersRun(client, before);
      Dtls.EveryRun(client, dtls);
      DtlsOutcomes.EveryOneOwesRight(client, dtls);
      hide Hooked, Apply, Dtls.Inv, DtlsOutcomes.AllOweRight;
      StepHooks(Run(client, before), events[|events| - 1]);
    }
  }

  /** A step adds DtlsAnnounced to the log only by beginning a connect. */
  lemma AnnouncedByConnect(s: State, e: Event)
    requires DtlsAnnounced !in s.log && DtlsAnnounced in Apply(s, e).log
    ensures e.DtlsAdvance? && e.hook !in s.sctp.calls
    ensures e.hook in Apply(s, e).sctp.calls && Apply(s, e).sctp.calls[e.hook] == Sctp.ConnectCheck
  {
    hide Dtls.Apply;
  }

  lemma {:induction false} MarkedConnects(client: bool, events: seq<Event>) returns (k: nat, hook: nat)
    requires DtlsAnnounced in Run(client, events).log
    ensures Connects(client, events, k, hook)
  {
    var before, last := events[..|events| - 1], events[|events| - 1];
    if DtlsAnnounced in Run(client, before).log {
      k, hook := MarkedConnects(client, before);
      assert before[..k] == events[..k] && before[..k + 1] == events[..k + 1];
    } else {
      AnnouncedByConnect(Run(client, before), last);
      k, hook := |before|, last.hook;
      assert events[..k + 1] == events;
    }
  }

  /** If DTLS has announced Connected, some step of it began a connect of SCTP. */
  lemma AnnouncedConnects(client: bool, events: seq<Event>) returns (k: nat, hook: nat)
    requires DtlsOutcomes.ConnectedTold(Run(client, events).dtls.shared.ledger)
    ensures Connects(client, events, k, hook)
  {
    EveryHook(client, events);
    k, hook := MarkedConnects(client, events);
  }

  /** Once DTLS has announced Connected and every call of SCTP has returned, SCTP is
      Connecting, and has announced that, or it was closed. */
  lemma ConnectedReachesSctp(client: bool, events: seq<Event>)
    requires DtlsOutcomes.ConnectedTold(Run(client, events).dtls.shared.ledger)
    requires Sctp.Quiet(Run(client, events).sctp)
    ensures var m := Run(client, events).sctp.shared;
      (m.state == Sctp.Connecting && m.ledger.announced == [0]) || (m.closed && Sctp.Closed in m.ledger.writes)
  {
    EveryHook(client, events);
    var _, sctp := LayersRun(client, events);
    Sctp.TryingOpens(sctp);
  }

  /** And with both layers at rest, a DTLS layer that wrote Connected has SCTP
      Connecting or closed. */
  lemma ConnectedAtRest(client: bool, events: seq<Event>)
    requires Dtls.Connected in Run(client, events).dtls.shared.ledger.writes
    requires Dtls.Quiet(Run(client, events).dtls) && Sctp.Quiet(Run(client, events).sctp)
    ensures var m := Run(client, events).sctp.shared;
      (m.state == Sctp.Connecting && m.ledger.announced == [0]) || (m.closed && Sctp.Closed in m.ledger.writes)
  {
    var dtls, _ := LayersRun(client, events);
    Dtls.QuietBalance(client, dtls);
    var l := Run(client, events).dtls.shared.ledger;
    hide Run, Dtls.Run;
    var i: nat :| i < |l.writes| && l.writes[i] == Dtls.Connected;
    assert i in l.announced;
    var k :| 0 <= k < |l.announced| && l.announced[k] == i;
    ConnectedReachesSctp(client, events);
  }
}
