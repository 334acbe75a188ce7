/** UTF-8 (section 3 of RFC 3629): what `as_bytes` and `String::from_utf8` do. */
module Utf8 {
  import opened Text

  /** The bytes of a scalar value: six bits in every byte but the first. */
  function Bytes(n: nat): (r: seq<Byte>)
    requires n < 0x11_0000
    ensures |r| == if n < 0x80 then 1 else if n < 0x800 then 2 else if n < 0x1_0000 then 3 else 4
  {
    if n < 0x80 then [n]
    else if n < 0x800 then [0xC0 + n / 64, 0x80 + n % 64]
    else if n < 0x1_0000 then [0xE0 + n / 64 / 64, 0x80 + n / 64 % 64, 0x80 + n % 64]
    else [0xF0 + n / 64 / 64 / 64, 0x80 + n / 64 / 64 % 64, 0x80 + n / 64 % 64, 0x80 + n % 64]
  }

  function EncodeChar(c: char): (r: seq<Byte>)
    ensures 1 <= |r| <= 4
  {
    Bytes(c as int)
  }

  function Encode(s: string): (r: seq<Byte>)
    ensures |s| <= |r|
  {
    if s == "" then [] else EncodeChar(s[0]) + Encode(s[1..])
  }

  predicate Tail(b: Byte) { 0x80 <= b <= 0xBF }

  /** The length of the well-formed sequence that `bytes` begins with, or 0. */
  function FirstLen(bytes: seq<Byte>): (n: nat)
    ensures n <= |bytes| && n <= 4
  {
    if bytes == [] then 0
    else
      var b := bytes[0];
      if b < 0x80 then 1
      else if 0xC2 <= b <= 0xDF && |bytes| >= 2 && Tail(bytes[1]) then 2
      else if 0xE0 <= b <= 0xEF && |bytes| >= 3 && Tail(bytes[1]) && Tail(bytes[2])
              && (b == 0xE0 ==> bytes[1] >= 0xA0) && (b == 0xED ==> bytes[1] <= 0x9F) then 3
      else if 0xF0 <= b <= 0xF4 && |bytes| >= 4 && Tail(bytes[1]) && Tail(bytes[2]) && Tail(bytes[3])
              && (b == 0xF0 ==> bytes[1] >= 0x90) && (b == 0xF4 ==> bytes[1] <= 0x8F) then 4
      else 0
  }

  /** The number that the first `n` bytes spell. */
  function Number(bytes: seq<Byte>, n: nat): int
    requires 1 <= n <= 4 && n <= |bytes|
  {
    var b: int := bytes[0];
    if n == 1 then b
    else
      var c: int := bytes[1];
      if n == 2 then 64 * (b - 0xC0) + (c - 0x80)
      else
        var d: int := bytes[2];
        if n == 3 then 64 * (64 * (b - 0xE0) + (c - 0x80)) + (d - 0x80)
        else
          var e: int := bytes[3];
          64 * (64 * (64 * (b - 0xF0) + (c - 0x80)) + (d - 0x80)) + (e - 0x80)
  }

  lemma NumberIsScalar(bytes: seq<Byte>)
    requires FirstLen(bytes) > 0
    ensures var n := Number(bytes, FirstLen(bytes)); 0 <= n < 0xD800 || 0xE000 <= n < 0x11_0000
    ensures var n := Number(bytes, FirstLen(bytes));
      FirstLen(bytes) == if n < 0x80 then 1 else if n < 0x800 then 2 else if n < 0x1_0000 then 3 else 4
  {}

  function FirstChar(bytes: seq<Byte>): (c: char)
    requires FirstLen(bytes) > 0
    ensures c as int == Number(bytes, FirstLen(bytes))
  {
    NumberIsScalar(bytes);
    Number(bytes, FirstLen(bytes)) as char
  }

  /** `from_utf8`: nothing on ill-formed bytes. */
  function Decode(bytes: seq<Byte>): Option<string> {
    if bytes == [] then Some("")
    else if FirstLen(bytes) == 0 then None
    else
      match Decode(bytes[FirstLen(bytes)..])
      case Some(rest) => Some([FirstChar(bytes)] + rest)
      case None => None
  }

  lemma SplitOff(q: int, r: int)
    requires 0 <= r < 64
    ensures (64 * q + r) / 64 == q && (64 * q + r) % 64 == r
  {}

  lemma NumberOfBytes(n: nat)
    requires n < 0x11_0000
    ensures Number(Bytes(n), |Bytes(n)|) == n
  {
    assert n == 64 * (n / 64) + n % 64;
    assert n / 64 == 64 * (n / 64 / 64) + n / 64 % 64;
    assert n / 64 / 64 == 64 * (n / 64 / 64 / 64) + n / 64 / 64 % 64;
  }

  lemma LenOfBytes(n: nat)
    requires n < 0xD800 || 0xE000 <= n < 0x11_0000
    ensures FirstLen(Bytes(n)) == |Bytes(n)|
  {
    assert n == 64 * (n / 64) + n % 64;
    assert n / 64 == 64 * (n / 64 / 64) + n / 64 % 64;
    assert n / 64 / 64 == 64 * (n / 64 / 64 / 64) + n / 64 / 64 % 64;
  }

  lemma FirstLenLocal(bytes: seq<Byte>, rest: seq<Byte>)
    requires FirstLen(bytes) == |bytes| > 0
    ensures FirstLen(bytes + rest) == |bytes|
    ensures Number(bytes + rest, |bytes|) == Number(bytes, |bytes|)
  {
    assert forall i :: 0 <= i < |bytes| ==> (bytes + rest)[i] == bytes[i];
  }

  lemma FirstOfEncoded(c: char, rest: seq<Byte>)
    ensures FirstLen(EncodeChar(c) + rest) == |EncodeChar(c)| && FirstChar(EncodeChar(c) + rest) == c
  {
    NumberOfBytes(c as int);
    LenOfBytes(c as int);
    FirstLenLocal(EncodeChar(c), rest);
  }

  lemma {:induction false} DecodeOfEncode(s: string)
    ensures Decode(Encode(s)) == Some(s)
  {
    if s != "" {
      hide EncodeChar, FirstLen, FirstChar;
      FirstOfEncoded(s[0], Encode(s[1..]));
      assert Encode(s)[|EncodeChar(s[0])|..] == Encode(s[1..]);
      DecodeOfEncode(s[1..]);
      assert s == [s[0]] + s[1..];
    }
  }

  lemma BytesOfThree(b: int, c: int, d: int)
    requires 0 <= b < 16 && 0 <= c < 64 && 0 <= d < 64 && 0x800 <= 64 * (64 * b + c) + d
    ensures 64 * (64 * b + c) + d < 0x1_0000
    ensures Bytes(64 * (64 * b + c) + d) == [0xE0 + b, 0x80 + c, 0x80 + d]
  {
    SplitOff(b, c);
    SplitOff(64 * b + c, d);
  }

  lemma BytesOfFour(b: int, c: int, d: int, e: int)
    requires 0 <= b < 8 && 0 <= c < 64 && 0 <= d < 64 && 0 <= e < 64
    requires 0x1_0000 <= 64 * (64 * (64 * b + c) + d) + e < 0x11_0000
    ensures Bytes(64 * (64 * (64 * b + c) + d) + e) == [0xF0 + b, 0x80 + c, 0x80 + d, 0x80 + e]
  {
    SplitOff(b, c);
    SplitOff(64 * b + c, d);
    SplitOff(64 * (64 * b + c) + d, e);
  }

  lemma BytesOfNumber(bytes: seq<Byte>)
    requires FirstLen(bytes) > 0
    ensures var n := Number(bytes, FirstLen(bytes));
      0 <= n < 0x11_0000 && Bytes(n) == bytes[..FirstLen(bytes)]
  {
    NumberIsScalar(bytes);
    var b: int := bytes[0];
    match FirstLen(bytes)
    case 1 =>
    case 2 => SplitOff(b - 0xC0, bytes[1] - 0x80);
    case 3 =>
      BytesOfThree(b - 0xE0, bytes[1] - 0x80, bytes[2] - 0x80);
      hide Bytes;
    case _ =>
      BytesOfFour(b - 0xF0, bytes[1] - 0x80, bytes[2] - 0x80, bytes[3] - 0x80);
      hide Bytes;
  }

  lemma EncodedFirst(bytes: seq<Byte>)
    requires FirstLen(bytes) > 0
    ensures EncodeChar(FirstChar(bytes)) == bytes[..FirstLen(bytes)]
  {
    BytesOfNumber(bytes);
  }

  /** Exactly the well-formed byte sequences decode: those that encode some text. */
  lemma {:induction false} DecodesExactly(bytes: seq<Byte>, s: string)
    ensures Decode(bytes) == Some(s) <==> bytes == Encode(s)
  {
    DecodeOfEncode(s);
    if Decode(bytes) == Some(s) && bytes != [] {
      var n := FirstLen(bytes);
      EncodedFirst(bytes);
      hide EncodeChar, FirstLen, FirstChar;
      assert s[1..] == Decode(bytes[n..]).value;
      DecodesExactly(bytes[n..], s[1..]);
      assert bytes == bytes[..n] + bytes[n..];
    }
  }

  lemma {:induction false} EncodeAppend(s: string, t: string)
    ensures Encode(s + t) == Encode(s) + Encode(t)
  {
    if s == "" {
      assert s + t == t;
    } else {
      assert (s + t)[1..] == s[1..] + t;
      EncodeAppend(s[1..], t);
      hide EncodeChar;
      Assoc(EncodeChar(s[0]), Encode(s[1..]), Encode(t));
    }
  }
}
