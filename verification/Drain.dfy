/** Draining the outbound BIO into ICE. The BIO is a byte queue; whether ICE takes
    a datagram, refuses it as closed or fails is up to ICE. */
module Drain {
  import opened Text

  datatype Sent = Sent | IceClosed | IceError

  const CHUNK := 4096

  /** One datagram handed to ICE, with what ICE said. */
  datatype Handed = Handed(bytes: seq<Byte>, answer: Sent)

  function Flat(handed: seq<Handed>): seq<Byte> {
    if handed == [] then [] else Flat(handed[..|handed| - 1]) + handed[|handed| - 1].bytes
  }

  lemma {:induction false} FlatAppend(a: seq<Handed>, b: seq<Handed>)
    ensures Flat(a + b) == Flat(a) + Flat(b)
  {
    if b == [] {
      assert a + b == a;
    } else {
      var front, last := b[..|b| - 1], b[|b| - 1];
      FlatAppend(a, front);
      assert (a + b)[..|a + b| - 1] == a + front;
      assert (a + b)[|a + b| - 1] == last;
    }
  }

  /** What ICE did not take. */
  function Lost(handed: seq<Handed>): seq<Handed> {
    if handed == [] then []
    else Lost(handed[..|handed| - 1]) + if handed[|handed| - 1].answer == Sent then [] else handed[|handed| - 1..]
  }

  lemma {:induction false} LostAppend(a: seq<Handed>, b: seq<Handed>)
    ensures Lost(a + b) == Lost(a) + Lost(b)
  {
    if b == [] {
      assert a + b == a;
    } else {
      var front, last := b[..|b| - 1], b[|b| - 1];
      LostAppend(a, front);
      assert (a + b)[..|a + b| - 1] == a + front;
      assert (a + b)[|a + b| - 1..] == [last] == b[|b| - 1..];
    }
  }

  lemma {:induction false} NoneLost(handed: seq<Handed>)
    requires forall i :: 0 <= i < |handed| ==> handed[i].answer == Sent
    ensures Lost(handed) == []
  {
    if handed != [] { NoneLost(handed[..|handed| - 1]); }
  }

  /** One drain of `before`: full datagrams up to the last, every one but the last
      taken; it stops when the queue is empty or ICE refuses one. */
  predicate DrainedTo(before: seq<Byte>, handed: seq<Handed>, after: seq<Byte>) {
    before == Flat(handed) + after
    && (forall i :: 0 <= i < |handed| ==> 1 <= |handed[i].bytes| <= CHUNK)
    && (forall i :: 0 <= i < |handed| - 1 ==> handed[i].answer == Sent && |handed[i].bytes| == CHUNK)
    && (handed == [] || handed[|handed| - 1].answer == Sent ==> after == [])
    && (after != [] ==> |handed[|handed| - 1].bytes| == CHUNK)
  }

  /** A drain loses the last datagram handed over, or nothing. */
  lemma DrainLoses(before: seq<Byte>, handed: seq<Handed>, after: seq<Byte>)
    requires DrainedTo(before, handed, after)
    ensures Lost(handed)
      == if handed == [] || handed[|handed| - 1].answer == Sent then [] else [handed[|handed| - 1]]
  {
    if handed != [] {
      NoneLost(handed[..|handed| - 1]);
    }
  }

  lemma FirstOut(before: seq<Byte>, handed: seq<Handed>, after: seq<Byte>)
    requires DrainedTo(before, handed, after) && handed != []
    ensures |handed[0].bytes| <= |before| && before != []
    ensures |handed| == 1 ==> before == handed[0].bytes + after
    ensures |handed| > 1 ==> |handed[0].bytes| < |before|
    ensures handed[0].bytes == before[..if |before| < CHUNK then |before| else CHUNK]
  {
    FlatAppend(handed[..1], handed[1..]);
    assert handed == handed[..1] + handed[1..];
    assert handed[..1][..0] == [];
    if |handed| == 1 {
      assert Flat(handed[1..]) == [];
    } else {
      var rest := handed[1..];
      assert |Flat(rest)| >= |rest[|rest| - 1].bytes|;
    }
  }

  lemma RestDrains(before: seq<Byte>, handed: seq<Handed>, after: seq<Byte>)
    requires DrainedTo(before, handed, after) && |handed| > 1
    ensures |handed[0].bytes| <= |before| && DrainedTo(before[|handed[0].bytes|..], handed[1..], after)
  {
    FlatAppend(handed[..1], handed[1..]);
    assert handed == handed[..1] + handed[1..];
    assert handed[..1][..0] == [];
  }

  /** The queue and ICE's answers determine a drain. */
  lemma {:induction false} DrainDetermined(before: seq<Byte>, handed: seq<Handed>, after: seq<Byte>,
                                           others: seq<Handed>, left: seq<Byte>)
    requires DrainedTo(before, handed, after) && DrainedTo(before, others, left)
    requires forall i :: 0 <= i < |handed| && i < |others| ==> handed[i].answer == others[i].answer
    ensures handed == others && after == left
  {
    if handed == [] {
      if others != [] { FirstOut(before, others, left); }
    } else if others == [] {
      FirstOut(before, handed, after);
    } else {
      FirstOut(before, handed, after);
      FirstOut(before, others, left);
      assert handed[0] == others[0];
      if |handed| > 1 && |others| > 1 {
        RestDrains(before, handed, after);
        RestDrains(before, others, left);
        DrainDetermined(before[|handed[0].bytes|..], handed[1..], after, others[1..], left);
        assert handed == [handed[0]] + handed[1..] && others == [others[0]] + others[1..];
      }
    }
  }

  // ----- the queue over its life -----

  /** The outbound BIO, what OpenSSL ever wrote to it and what ever left it. */
  class Outbound {
    var queue: seq<Byte>
    ghost var written: seq<Byte>
    ghost var handed: seq<Handed>
    ghost var failures: nat    // drains that ICE cut short

    /** Nothing is lost but what was handed over and refused, one datagram a failed drain. */
    ghost predicate Valid()
      reads this
    {
      written == Flat(handed) + queue
      && |Lost(handed)| == failures
      && forall i :: 0 <= i < |handed| ==> 1 <= |handed[i].bytes| <= CHUNK
    }

    constructor ()
      ensures Valid() && queue == [] && written == [] && handed == [] && failures == 0
    {
      queue, written, handed, failures := [], [], [], 0;
    }

    /** OpenSSL queues a record. */
    method Push(record: seq<Byte>)
      requires Valid()
      modifies this`queue, this`written
      ensures Valid() && queue == old(queue) + record && written == old(written) + record
    {
      queue := queue + record;
      written := written + record;
      Assoc(Flat(handed), old(queue), record);
    }

    /** BIO_read: at most `CHUNK` bytes off the front. */
    method Read() returns (bytes: seq<Byte>)
      modifies this`queue
      ensures |bytes| == if |old(queue)| < CHUNK then |old(queue)| else CHUNK
      ensures old(queue) == bytes + queue
    {
      var n := if |queue| < CHUNK then |queue| else CHUNK;
      bytes, queue := queue[..n], queue[n..];
    }

    /** Drains into ICE, which gives `answer(k)` to the `k`th datagram of this drain.
        The result is an error exactly if ICE failed; closed counts as success. */
    method Run(answer: nat -> Sent) returns (ok: bool, ghost out: seq<Handed>)
      modifies this`queue
      ensures DrainedTo(old(queue), out, queue)
      ensures forall i :: 0 <= i < |out| ==> out[i].answer == answer(i)
      ensures ok <==> out == [] || out[|out| - 1].answer != IceError
    {
      var k := 0;
      out := [];
      while true
        invariant Draining(old(queue), out, queue, answer, k)
        decreases |queue|
      {
        var bytes := Read();
        if bytes == [] { return true, out; }
        ghost var before := out;
        out := out + [Handed(bytes, answer(k))];
        OneMore(old(queue), before, bytes, queue, answer, k);
        if answer(k) == IceClosed { return true, out; }
        if answer(k) == IceError { return false, out; }
        k := k + 1;
      }
    }

    /** A drain in the life of the queue. */
    method DrainOnce(answer: nat -> Sent) returns (ok: bool, ghost out: seq<Handed>)
      requires Valid()
      modifies this`queue, this`handed, this`failures
      ensures Valid() && handed == old(handed) + out
      ensures DrainedTo(old(queue), out, queue)
      ensures forall i :: 0 <= i < |out| ==> out[i].answer == answer(i)
      ensures failures == old(failures) + if out == [] || out[|out| - 1].answer == Sent then 0 else 1
      ensures ok <==> out == [] || out[|out| - 1].answer != IceError
    {
      ok, out := Run(answer);
      handed := handed + out;
      failures := failures + if out == [] || out[|out| - 1].answer == Sent then 0 else 1;
      FlatAppend(old(handed), out);
      LostAppend(old(handed), out);
      DrainLoses(old(queue), out, queue);
      Assoc(Flat(old(handed)), Flat(out), queue);
      hide Flat, Lost;
    }
  }

  /** Inside a drain: `k` full datagrams out and taken, unless the queue ran dry. */
  ghost predicate Draining(before: seq<Byte>, out: seq<Handed>, queue: seq<Byte>, answer: nat -> Sent, k: nat) {
    before == Flat(out) + queue && k == |out|
    && (forall i :: 0 <= i < k ==> 1 <= |out[i].bytes| <= CHUNK && out[i].answer == answer(i) == Sent)
    && (forall i :: 0 <= i < k - 1 ==> |out[i].bytes| == CHUNK)
    && (queue != [] && k > 0 ==> |out[k - 1].bytes| == CHUNK)
  }

  lemma OneMore(before: seq<Byte>, out: seq<Handed>, bytes: seq<Byte>, queue: seq<Byte>, answer: nat -> Sent, k: nat)
    requires Draining(before, out, bytes + queue, answer, k) && bytes != []
    requires |bytes| == if |bytes + queue| < CHUNK then |bytes + queue| else CHUNK
    ensures var more := out + [Handed(bytes, answer(k))];
      if answer(k) == Sent then Draining(before, more, queue, answer, k + 1) else DrainedTo(before, more, queue)
    ensures var more := out + [Handed(bytes, answer(k))];
      forall i :: 0 <= i <= k ==> more[i].answer == answer(i)
  {
    var more := out + [Handed(bytes, answer(k))];
    assert more[..|more| - 1] == out;
    Assoc(Flat(out), bytes, queue);
  }
}
