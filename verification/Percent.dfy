/** Percent-decoding (section 2.1 of RFC 3986) as `percent_decode` does it, on the
    UTF-8 bytes of the text. */
module Percent {
  import opened Fingerprints
  import opened Text
  import opened Utf8

  const PERCENT: Byte := 0x25

  function HexOf(b: Byte): (r: Option<nat>)
    ensures r.Some? ==> r.value < 16 && b != PERCENT
  {
    if b < 0x80 && IsHexDigit(b as char) then Some(HexValue(b as char)) else None
  }

  /** What the loop makes of the bytes: nothing if an escape is malformed. */
  function Unescape(bytes: seq<Byte>): Option<seq<Byte>> {
    if bytes == [] then Some([])
    else if bytes[0] == PERCENT then
      if |bytes| < 3 || HexOf(bytes[1]) == None || HexOf(bytes[2]) == None then None
      else
        match Unescape(bytes[3..])
        case Some(rest) => Some([16 * HexOf(bytes[1]).value + HexOf(bytes[2]).value] + rest)
        case None => None
    else
      match Unescape(bytes[1..])
      case Some(rest) => Some([bytes[0]] + rest)
      case None => None
  }

  function PercentDecode(s: string): Option<string> {
    if '%' !in s then Some(s)
    else
      match Unescape(Encode(s))
      case Some(out) => Decode(out)
      case None => None
  }

  /** `out` put before whatever the rest decodes to. */
  function After(out: seq<Byte>, rest: Option<seq<Byte>>): Option<seq<Byte>> {
    match rest case Some(tail) => Some(out + tail) case None => None
  }

  lemma AfterNext(out: seq<Byte>, b: Byte, rest: Option<seq<Byte>>)
    ensures After(out + [b], rest) == After(out, After([b], rest))
  {
    match rest
    case Some(tail) => Assoc(out, [b], tail);
    case None =>
  }

  lemma UnescapeAt(bytes: seq<Byte>, i: nat)
    requires i < |bytes|
    ensures Unescape(bytes[i..])
      == if bytes[i] != PERCENT then After([bytes[i]], Unescape(bytes[i + 1..]))
         else if i + 2 >= |bytes| || HexOf(bytes[i + 1]) == None || HexOf(bytes[i + 2]) == None then None
         else After([16 * HexOf(bytes[i + 1]).value + HexOf(bytes[i + 2]).value], Unescape(bytes[i + 3..]))
  {
    assert bytes[i..][1..] == bytes[i + 1..];
    if i + 2 < |bytes| { assert bytes[i..][3..] == bytes[i + 3..]; }
  }

  lemma UnescapeEnds(bytes: seq<Byte>, out: seq<Byte>)
    ensures bytes[0..] == bytes && After([], Unescape(bytes)) == Unescape(bytes)
    ensures After(out, Unescape(bytes[|bytes|..])) == Some(out)
  {
    if Unescape(bytes).Some? { assert [] + Unescape(bytes).value == Unescape(bytes).value; }
    assert bytes[|bytes|..] == [] && out + [] == out;
  }

  method PercentDecodeLoop(s: string) returns (r: Option<string>)
    ensures r == PercentDecode(s)
  {
    if '%' !in s { return Some(s); }
    var bytes := Encode(s);
    hide Unescape, Encode, Decode, HexOf;
    var out: seq<Byte> := [];
    var i := 0;
    UnescapeEnds(bytes, out);
    while i < |bytes|
      invariant 0 <= i <= |bytes|
      invariant Unescape(bytes) == After(out, Unescape(bytes[i..]))
    {
      UnescapeAt(bytes, i);
      var b := bytes[i];
      if b == PERCENT {
        if i + 2 >= |bytes| { return None; }
        var hi, lo := HexOf(bytes[i + 1]), HexOf(bytes[i + 2]);
        if hi == None || lo == None { return None; }
        AfterNext(out, 16 * hi.value + lo.value, Unescape(bytes[i + 3..]));
        out := out + [16 * hi.value + lo.value];
        i := i + 3;
      } else {
        AfterNext(out, b, Unescape(bytes[i + 1..]));
        out := out + [b];
        i := i + 1;
      }
    }
    UnescapeEnds(bytes, out);
    return Decode(out);
  }

  // ----- encoders -----

  /** What an encoder may put for one byte: the byte itself, or an escape with hex
      digits of either case. */
  datatype Unit = Raw(byte: Byte) | Escaped(byte: Byte, hi: Byte, lo: Byte)

  predicate UnitOk(u: Unit) {
    match u
    case Raw(b) => b != PERCENT
    case Escaped(b, hi, lo) => HexOf(hi) == Some(b / 16) && HexOf(lo) == Some(b % 16)
  }

  predicate UnitsOk(units: seq<Unit>) { forall i :: 0 <= i < |units| ==> UnitOk(units[i]) }

  function UnitText(u: Unit): seq<Byte> {
    match u case Raw(b) => [b] case Escaped(_, hi, lo) => [PERCENT, hi, lo]
  }

  function TextOf(units: seq<Unit>): seq<Byte> {
    if units == [] then [] else UnitText(units[0]) + TextOf(units[1..])
  }

  function ValueOf(units: seq<Unit>): (r: seq<Byte>)
    ensures |r| == |units|
  {
    seq(|units|, i requires 0 <= i < |units| => units[i].byte)
  }

  lemma UnescapeUnit(u: Unit, rest: seq<Byte>)
    requires UnitOk(u)
    ensures Unescape(UnitText(u) + rest) == After([u.byte], Unescape(rest))
  {
    var text := UnitText(u) + rest;
    assert text[|UnitText(u)|..] == rest;
  }

  /** Decoding inverts every encoder that escapes at least the percent sign. */
  lemma {:induction false} UnescapeInverts(units: seq<Unit>)
    requires UnitsOk(units)
    ensures Unescape(TextOf(units)) == Some(ValueOf(units))
  {
    if units != [] {
      UnescapeInverts(units[1..]);
      hide Unescape, UnitOk, UnitText;
      UnescapeUnit(units[0], TextOf(units[1..]));
      assert ValueOf(units) == [units[0].byte] + ValueOf(units[1..]);
    }
  }

  /** The first unit of bytes that decode. */
  lemma FirstUnit(bytes: seq<Byte>) returns (u: Unit)
    requires Unescape(bytes).Some? && bytes != []
    ensures UnitOk(u) && |UnitText(u)| <= |bytes| && bytes == UnitText(u) + bytes[|UnitText(u)|..]
    ensures Unescape(bytes) == After([u.byte], Unescape(bytes[|UnitText(u)|..]))
  {
    u := if bytes[0] == PERCENT
         then Escaped(16 * HexOf(bytes[1]).value + HexOf(bytes[2]).value, bytes[1], bytes[2])
         else Raw(bytes[0]);
  }

  /** What decodes was written by such an encoder. */
  lemma {:induction false} UnescapedUnits(bytes: seq<Byte>) returns (units: seq<Unit>)
    requires Unescape(bytes).Some?
    ensures UnitsOk(units) && TextOf(units) == bytes && Unescape(bytes) == Some(ValueOf(units))
  {
    if bytes == [] {
      units := [];
    } else {
      hide Unescape, UnitOk;
      var u := FirstUnit(bytes);
      var rest := UnescapedUnits(bytes[|UnitText(u)|..]);
      hide UnitText;
      units := [u] + rest;
      assert units[1..] == rest;
      assert ValueOf(units) == [u.byte] + ValueOf(rest);
    }
  }

  // ----- texts -----

  lemma {:induction false} PercentBytes(s: string)
    ensures Count(Encode(s), PERCENT) == Count(s, '%')
  {
    if s != "" {
      PercentBytes(s[1..]);
      var head := EncodeChar(s[0]);
      CountConcat(head, Encode(s[1..]), PERCENT);
      CountConcat([s[0]], s[1..], '%');
      assert s == [s[0]] + s[1..];
      assert [s[0]][..0] == "";
      CountHead(s[0]);
    }
  }

  lemma CountHead(c: char)
    ensures Count(EncodeChar(c), PERCENT) == if c == '%' then 1 else 0
  {
    if c == '%' {
      assert EncodeChar(c) == [PERCENT];
      assert [PERCENT][..0] == [];
    } else {
      assert PERCENT !in EncodeChar(c);
    }
  }

  lemma {:induction false} NothingToUnescape(bytes: seq<Byte>)
    requires PERCENT !in bytes
    ensures Unescape(bytes) == Some(bytes)
  {
    if bytes != [] {
      NothingToUnescape(bytes[1..]);
      assert bytes == [bytes[0]] + bytes[1..];
    }
  }

  lemma PercentDecodeByBytes(t: string, v: string)
    ensures PercentDecode(t) == Some(v) <==> Unescape(Encode(t)) == Some(Encode(v))
  {
    PercentBytes(t);
    if '%' !in t {
      NothingToUnescape(Encode(t));
      DecodeOfEncode(t);
      DecodeOfEncode(v);
    } else {
      match Unescape(Encode(t))
      case Some(out) => DecodesExactly(out, v);
      case None =>
    }
  }

  /** `v` is what `t` decodes to exactly if `t` is `v` under some encoder that
      escapes at least the percent sign, in either hex case. */
  lemma PercentDecodeExactly(t: string, v: string)
    ensures PercentDecode(t) == Some(v)
      <==> exists units :: UnitsOk(units) && TextOf(units) == Encode(t) && ValueOf(units) == Encode(v)
  {
    PercentDecodeByBytes(t, v);
    if PercentDecode(t) == Some(v) {
      var units := UnescapedUnits(Encode(t));
      assert UnitsOk(units) && TextOf(units) == Encode(t) && ValueOf(units) == Encode(v);
    }
    if units :| UnitsOk(units) && TextOf(units) == Encode(t) && ValueOf(units) == Encode(v) {
      UnescapeInverts(units);
    }
  }

  lemma {:induction false} TextLength(units: seq<Unit>)
    requires UnitsOk(units)
    ensures |TextOf(units)| == |units| + 2 * Count(TextOf(units), PERCENT)
  {
    if units != [] {
      TextLength(units[1..]);
      var u := units[0];
      assert UnitOk(u);
      CountConcat(UnitText(u), TextOf(units[1..]), PERCENT);
      match u
      case Raw(b) => assert PERCENT !in UnitText(u);
      case Escaped(_, hi, lo) =>
        CountConcat([PERCENT], [hi, lo], PERCENT);
        assert UnitText(u) == [PERCENT] + [hi, lo] && PERCENT !in [hi, lo];
        assert [PERCENT][..0] == [];
    }
  }

  /** In bytes, the text is longer than what it decodes to by twice its escapes. */
  lemma DecodedLength(t: string, v: string)
    requires PercentDecode(t) == Some(v)
    ensures |Encode(t)| == |Encode(v)| + 2 * Count(t, '%')
  {
    PercentDecodeByBytes(t, v);
    var units := UnescapedUnits(Encode(t));
    TextLength(units);
    PercentBytes(t);
  }

  /** Every percent sign starts a complete escape. */
  predicate EscapesComplete(bytes: seq<Byte>) {
    forall i :: 0 <= i < |bytes| && bytes[i] == PERCENT ==>
      i + 2 < |bytes| && HexOf(bytes[i + 1]).Some? && HexOf(bytes[i + 2]).Some?
  }

  lemma CompleteRest(bytes: seq<Byte>, n: nat)
    requires 1 <= n <= |bytes| && (forall i :: 1 <= i < n ==> bytes[i] != PERCENT)
    requires bytes[0] == PERCENT ==> n == 3 && HexOf(bytes[1]).Some? && HexOf(bytes[2]).Some?
    ensures EscapesComplete(bytes) <==> EscapesComplete(bytes[n..])
  {
    hide HexOf;
    var rest := bytes[n..];
    assert forall i :: 0 <= i < |rest| ==> rest[i] == bytes[i + n];
    assert forall i :: n <= i < |bytes| ==> bytes[i] == rest[i - n];
  }

  lemma {:induction false} UnescapesExactly(bytes: seq<Byte>)
    ensures Unescape(bytes).Some? <==> EscapesComplete(bytes)
  {
    hide HexOf;
    if bytes != [] {
      if bytes[0] != PERCENT {
        UnescapesExactly(bytes[1..]);
        CompleteRest(bytes, 1);
      } else if |bytes| >= 3 && HexOf(bytes[1]).Some? && HexOf(bytes[2]).Some? {
        UnescapesExactly(bytes[3..]);
        CompleteRest(bytes, 3);
      }
    }
  }

  /** It succeeds exactly when every percent sign starts a complete escape and the
      bytes that come out are well-formed UTF-8. */
  lemma DecodesWhen(t: string)
    ensures PercentDecode(t).Some?
      <==> EscapesComplete(Encode(t)) && exists v :: Unescape(Encode(t)) == Some(Encode(v))
  {
    UnescapesExactly(Encode(t));
    if PercentDecode(t).Some? {
      PercentDecodeByBytes(t, PercentDecode(t).value);
    }
    if v :| Unescape(Encode(t)) == Some(Encode(v)) {
      PercentDecodeByBytes(t, v);
    }
  }
}
