/** Lists of candidates without repetition in the repository's sense of equality. */
module CandidateLists {
  import opened Text
  import opened Ip
  import opened Candidates
  import opened Sdp

  predicate Distinct(cs: seq<Candidate>) {
    forall i, j :: 0 <= i < j < |cs| ==> !Same(cs[i], cs[j])
  }

  /** The offers that equal none of the offers before them, in order. */
  function Firsts(cs: seq<Candidate>): seq<Candidate> {
    if cs == [] then []
    else
      var front, last := cs[..|cs| - 1], cs[|cs| - 1];
      Firsts(front) + (if Has(front, last) then [] else [last])
  }

  lemma HasSnoc(cs: seq<Candidate>, c: Candidate, x: Candidate)
    ensures Has(cs + [c], x) <==> Has(cs, x) || Same(c, x)
  {
    var all := cs + [c];
    assert all[|cs|] == c && forall i :: 0 <= i < |cs| ==> all[i] == cs[i];
  }

  lemma SameHas(cs: seq<Candidate>, c: Candidate, x: Candidate)
    requires Has(cs, c) && Same(c, x)
    ensures Has(cs, x)
  {}

  /** Dropping repeated offers loses no candidate. */
  lemma {:induction false} HasFirsts(cs: seq<Candidate>, x: Candidate)
    ensures Has(Firsts(cs), x) <==> Has(cs, x)
  {
    if cs != [] {
      var front, last := cs[..|cs| - 1], cs[|cs| - 1];
      assert cs == front + [last];
      HasFirsts(front, x);
      HasSnoc(front, last, x);
      HasSnoc(Firsts(front), last, x);
      assert Firsts(front) + [] == Firsts(front);
      hide Has, Same;
      if Has(front, last) && Same(last, x) {
        SameHas(front, last, x);
      }
    }
  }

  lemma SnocDiffers(cs: seq<Candidate>, c: Candidate)
    requires Distinct(cs) && !Has(cs, c)
    ensures Distinct(cs + [c])
  {}

  lemma {:induction false} FirstsDiffer(cs: seq<Candidate>)
    ensures Distinct(Firsts(cs))
  {
    if cs != [] {
      hide Has, Distinct;
      var front, last := cs[..|cs| - 1], cs[|cs| - 1];
      FirstsDiffer(front);
      HasFirsts(front, last);
      if Has(front, last) {
        assert Firsts(front) + [] == Firsts(front);
      } else {
        SnocDiffers(Firsts(front), last);
      }
    } else {
      assert Distinct([]);
    }
  }

  /** Inserting against the kept candidates is the same as against all offers. */
  lemma InsertIsFirst(cs: seq<Candidate>, c: Candidate)
    ensures Insert(Firsts(cs), c) == Firsts(cs + [c])
  {
    hide Has;
    assert (cs + [c])[..|cs|] == cs;
    HasFirsts(cs, c);
    assert Firsts(cs) + [] == Firsts(cs);
  }

  lemma {:induction false} FirstsNoLonger(cs: seq<Candidate>)
    ensures |Firsts(cs)| <= |cs|
    ensures |Firsts(cs)| == |cs| ==> Firsts(cs) == cs
  {
    if cs != [] {
      hide Has;
      FirstsNoLonger(cs[..|cs| - 1]);
      assert cs == cs[..|cs| - 1] + [cs[|cs| - 1]];
    }
  }

  /** Nothing is dropped from a list exactly if its candidates differ. */
  lemma {:induction false} FirstsOfDistinct(cs: seq<Candidate>)
    ensures Distinct(cs) <==> Firsts(cs) == cs
    ensures Firsts(cs) == cs <==> |Firsts(cs)| == |cs|
  {
    FirstsNoLonger(cs);
    FirstsDiffer(cs);
    if Distinct(cs) && cs != [] {
      var front, last := cs[..|cs| - 1], cs[|cs| - 1];
      FirstsOfDistinct(front);
      assert !Has(front, last) by {
        assert forall i :: 0 <= i < |front| ==> front[i] == cs[i] && !Same(cs[i], cs[|cs| - 1]);
      }
      assert cs == front + [last];
    }
  }
}
