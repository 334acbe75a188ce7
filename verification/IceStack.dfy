/** A run of the ICE transport under the stack: what libjuice reports, carried by
    the handler call into DTLS. */
module IceStacks {
  import Dtls
  import DtlsOutcomes
  import Ice
  import Stack

  /** The handler call for ICE's state write `i` is the stack's delivery `d`. */
  predicate Carries(ice: Ice.State, i: nat, s: Stack.State, d: nat) {
    i < |ice.shared.states.writes| && i in ice.shared.states.announced
    && d in s.deliveries && s.deliveries[d].event == ice.shared.states.writes[i]
  }

  predicate Returned(s: Stack.State, d: nat) {
    d in s.deliveries && s.deliveries[d].todo == [] && !Stack.IsWaiting(s, s.deliveries[d])
  }

  /** libjuice reported Failed and the report changed the state: once its handler call,
      made with the failure shim in place, has returned, DTLS has written Failed or Closed. */
  lemma FailedReportFails(client: bool, events: seq<Stack.Event>, ice: seq<Ice.Event>, k: nat, c: nat, i: nat, d: nat)
    requires Ice.BeginsReport(ice, k, c, Ice.Juice.Failed)
    requires i < |Ice.Run(ice).shared.authors| && Ice.Run(ice).shared.authors[i] == c
    requires Carries(Ice.Run(ice), i, Stack.Run(client, events), d)
    requires Returned(Stack.Run(client, events), d) && Stack.Run(client, events).deliveries[d].handler.Shim?
    ensures var w := Stack.Run(client, events).dtls.shared.ledger.writes; Dtls.Failed in w || Dtls.Closed in w
  {
    Ice.ReportWrites(ice, k, c, Ice.Juice.Failed, i);
    hide Ice.Run, Stack.Run;
    Stack.FailedWithIce(client, events, d);
  }

  /** The same for a close of ICE itself. */
  lemma ClosedIceFails(client: bool, events: seq<Stack.Event>, ice: seq<Ice.Event>, i: nat, d: nat)
    requires Carries(Ice.Run(ice), i, Stack.Run(client, events), d)
    requires Ice.Run(ice).shared.states.writes[i] == Ice.Closed
    requires Returned(Stack.Run(client, events), d) && Stack.Run(client, events).deliveries[d].handler.Shim?
    ensures var w := Stack.Run(client, events).dtls.shared.ledger.writes; Dtls.Failed in w || Dtls.Closed in w
  {
    hide Ice.Run, Stack.Run;
    Stack.FailedWithIce(client, events, d);
  }

  /** libjuice reported Connected or Completed and the report changed the state: once its
      handler call has returned, or just called the first handler, DTLS has been
      started, unless it was closed; when DTLS is at rest, Connecting was written
      first, or Closed alone. */
  lemma UpReportStarts(client: bool, events: seq<Stack.Event>, ice: seq<Ice.Event>, k: nat, c: nat, i: nat, d: nat,
                       report: Ice.Juice)
    requires Ice.BeginsReport(ice, k, c, report) && (report == Ice.Juice.Connected || report == Ice.Juice.Completed)
    requires i < |Ice.Run(ice).shared.authors| && Ice.Run(ice).shared.authors[i] == c
    requires Carries(Ice.Run(ice), i, Stack.Run(client, events), d)
    requires Returned(Stack.Run(client, events), d) || d in Stack.Run(client, events).base
    ensures var m := Stack.Run(client, events).dtls.shared; m.started || m.closed
    ensures var w := Stack.Run(client, events).dtls.shared.ledger.writes;
      Dtls.Quiet(Stack.Run(client, events).dtls) ==> w != [] && (w[0] == Dtls.Connecting || w == [Dtls.Closed])
  {
    var dtls, _ := Stack.LayersRun(client, events);
    if Dtls.Quiet(Stack.Run(client, events).dtls) {
      DtlsOutcomes.StartedOrClosedAtRest(client, dtls);
    }
    hide Dtls.Run;
    Ice.ReportWrites(ice, k, c, report, i);
    Stack.BaseCalledOnce(client, events, d);
    hide Ice.Run, Stack.Run;
    Stack.StartedBeforeTold(client, events, d);
  }
}
