/** State writes and handler calls of a transport, and what it means that
    every write is announced once. */
module Ledgers {
  import opened Text

  /** The values written to a state cell after its initial one, and the indices
      of the writes whose handler call has been made, in call order. */
  datatype Ledger<S> = Ledger(writes: seq<S>, announced: seq<nat>)

  /** A call that is still to announce a write, with the write's index. */
  type Pending = map<nat, nat>

  predicate Once(indices: seq<nat>) {
    forall i, j :: 0 <= i < j < |indices| ==> indices[i] != indices[j]
  }

  /** Every write is either announced, once, or pending in exactly one call. */
  ghost predicate Balanced<S>(l: Ledger<S>, pending: Pending) {
    Once(l.announced)
    && (forall k :: 0 <= k < |l.announced| ==> l.announced[k] < |l.writes|)
    && (forall c :: c in pending ==> pending[c] < |l.writes| && pending[c] !in l.announced)
    && (forall c, d :: c in pending && d in pending && pending[c] == pending[d] ==> c == d)
    && (forall i :: 0 <= i < |l.writes| ==> i in l.announced || exists c :: c in pending && pending[c] == i)
  }

  function Write<S>(l: Ledger<S>, value: S): Ledger<S> {
    l.(writes := l.writes + [value])
  }

  function Announce<S>(l: Ledger<S>, index: nat): Ledger<S> {
    l.(announced := l.announced + [index])
  }

  /** One more value, written and announced at once. */
  function Told<S>(l: Ledger<S>, value: S): Ledger<S> {
    Ledger(l.writes + [value], l.announced + [|l.writes|])
  }

  lemma WriteKeeps<S>(l: Ledger<S>, pending: Pending, call: nat, value: S)
    requires Balanced(l, pending) && call !in pending
    ensures Balanced(Write(l, value), pending[call := |l.writes|])
  {
    var next := pending[call := |l.writes|];
    forall i | 0 <= i < |l.writes| + 1
      ensures i in l.announced || exists c :: c in next && next[c] == i
    {
      if i == |l.writes| {
        assert next[call] == i;
      } else if i !in l.announced {
        var c :| c in pending && pending[c] == i;
        assert next[c] == i;
      }
    }
  }

  lemma AnnounceKeeps<S>(l: Ledger<S>, pending: Pending, call: nat)
    requires Balanced(l, pending) && call in pending
    ensures Balanced(Announce(l, pending[call]), pending - {call})
  {
    var rest := pending - {call};
    var next := Announce(l, pending[call]);
    forall i | 0 <= i < |l.writes|
      ensures i in next.announced || exists c :: c in rest && rest[c] == i
    {
      if i in l.announced {
        var k :| 0 <= k < |l.announced| && l.announced[k] == i;
        assert next.announced[k] == i;
      } else {
        var c :| c in pending && pending[c] == i;
        if c == call {
          assert next.announced[|l.announced|] == i;
        } else {
          assert rest[c] == i;
        }
      }
    }
  }

  // ----- calls -----

  /** The announcements that a map of calls still owes, read off their program counters. */
  ghost function Waiting<P>(calls: map<nat, P>, owes: P -> Option<nat>): Pending {
    map c | c in calls && owes(calls[c]).Some? :: owes(calls[c]).value
  }

  /** What one step of a call may do to the ledger, given what the call owed
      before the step and owes after it. */
  predicate Follows<S(==)>(l: Ledger<S>, was: Option<nat>, owes: Option<nat>, next: Ledger<S>, value: S) {
    match was
    case None => if owes.Some? then owes == Some(|l.writes|) && next == Write(l, value) else next == l
    case Some(index) => if owes.Some? then owes == was && next == l else next == Announce(l, index)
  }

  lemma StepBalances<S, P>(l: Ledger<S>, calls: map<nat, P>, owes: P -> Option<nat>,
                           call: nat, pc: P, next: Ledger<S>, value: S)
    requires Balanced(l, Waiting(calls, owes))
    requires Follows(l, if call in calls then owes(calls[call]) else None, owes(pc), next, value)
    ensures Balanced(next, Waiting(calls[call := pc], owes))
  {
    var pending := Waiting(calls, owes);
    var after := Waiting(calls[call := pc], owes);
    hide Balanced;
    if owes(pc).Some? {
      assert after == pending[call := owes(pc).value];
      if call in pending {
        assert after == pending;
      } else {
        WriteKeeps(l, pending, call, value);
      }
    } else {
      assert after == pending - {call};
      if call in pending {
        AnnounceKeeps(l, pending, call);
      } else {
        assert after == pending;
      }
    }
  }

  // ----- counting -----

  ghost function WrittenAs<S>(l: Ledger<S>, value: S): set<nat> {
    set i: nat | i < |l.writes| && l.writes[i] == value
  }

  ghost function AnnouncedAs<S>(l: Ledger<S>, value: S): set<nat> {
    set i: nat | i < |l.writes| && l.writes[i] == value && i in l.announced
  }

  ghost function PendingAs<S>(l: Ledger<S>, pending: Pending, value: S): set<nat> {
    set i: nat | i < |l.writes| && l.writes[i] == value && exists c :: c in pending && pending[c] == i
  }

  lemma EveryWriteIsSomewhere<S>(l: Ledger<S>, pending: Pending, value: S)
    requires Balanced(l, pending)
    ensures WrittenAs(l, value) == AnnouncedAs(l, value) + PendingAs(l, pending, value)
  {
    hide Once;
  }

  lemma NotInTwoPlaces<S>(l: Ledger<S>, pending: Pending, value: S)
    requires Balanced(l, pending)
    ensures AnnouncedAs(l, value) !! PendingAs(l, pending, value)
  {
    hide Once;
  }

  /** Conservation: for each value, announcements made plus announcements still
      pending equal the writes of that value. */
  lemma Conservation<S>(l: Ledger<S>, pending: Pending, value: S)
    requires Balanced(l, pending)
    ensures |WrittenAs(l, value)| == |AnnouncedAs(l, value)| + |PendingAs(l, pending, value)|
    ensures pending == map[] ==> AnnouncedAs(l, value) == WrittenAs(l, value)
  {
    EveryWriteIsSomewhere(l, pending, value);
    NotInTwoPlaces(l, pending, value);
    if pending == map[] { assert PendingAs(l, pending, value) == {}; }
    hide Balanced, WrittenAs, AnnouncedAs, PendingAs;
  }

  /** With nothing pending there are as many announcements as writes. */
  lemma AllHeard<S>(l: Ledger<S>)
    requires Balanced(l, map[])
    ensures |l.announced| == |l.writes|
  {
    OnceSize(l.announced);
    assert Elems(l.announced) == Below(|l.writes|);
  }

  ghost function Below(n: nat): (s: set<nat>)
    ensures |s| == n
    ensures forall i: nat :: i in s <==> i < n
  {
    if n == 0 then {} else Below(n - 1) + {n - 1}
  }

  /** The values that handlers were called with, in call order. */
  ghost function Heard<S>(l: Ledger<S>): seq<S>
    requires forall k :: 0 <= k < |l.announced| ==> l.announced[k] < |l.writes|
  {
    seq(|l.announced|, k requires 0 <= k < |l.announced| => l.writes[l.announced[k]])
  }

  // ----- sequences -----

  /** No value is written over itself. */
  predicate NoRepeat<S(==)>(start: S, writes: seq<S>) {
    forall i :: 0 <= i < |writes| ==> writes[i] != Current(start, writes[..i])
  }

  function Current<S>(start: S, writes: seq<S>): S {
    if writes == [] then start else writes[|writes| - 1]
  }

  lemma NoRepeatAppend<S>(start: S, writes: seq<S>, value: S)
    requires NoRepeat(start, writes) && value != Current(start, writes)
    ensures NoRepeat(start, writes + [value])
  {
    var next := writes + [value];
    forall i | 0 <= i < |next| ensures next[i] != Current(start, next[..i]) {
      if i < |writes| { assert next[..i] == writes[..i]; } else { assert next[..i] == writes; }
    }
  }

  ghost function Elems(s: seq<nat>): set<nat> { set i | i in s }

  /** A sequence without repetition is as long as its set of elements is large. */
  lemma {:induction false} OnceSize(s: seq<nat>)
    requires Once(s)
    ensures |Elems(s)| == |s|
  {
    if s != [] {
      var front, last := s[..|s| - 1], s[|s| - 1];
      OnceSize(front);
      assert s == front + [last];
      assert last !in Elems(front);
      assert Elems(s) == Elems(front) + {last};
    }
  }
}
