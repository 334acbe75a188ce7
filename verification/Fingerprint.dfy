/** Certificate fingerprints (section 5 of RFC 8122): the formatter, the
    validity check and the comparison made when a peer certificate arrives. */
module Fingerprints {
  import opened Text

  datatype Algorithm = Sha1 | Sha224 | Sha256 | Sha384 | Sha512

  datatype Fingerprint = Fingerprint(algorithm: Algorithm, value: string)

  function AlgorithmToken(a: Algorithm): string {
    match a
    case Sha1 => "sha-1"
    case Sha224 => "sha-224"
    case Sha256 => "sha-256"
    case Sha384 => "sha-384"
    case Sha512 => "sha-512"
  }

  function AlgorithmSize(a: Algorithm): nat {
    match a
    case Sha1 => 20
    case Sha224 => 28
    case Sha256 => 32
    case Sha384 => 48
    case Sha512 => 64
  }

  function AlgorithmFromSdp(s: string): Option<Algorithm> {
    if s == "sha-1" then Some(Sha1)
    else if s == "sha-224" then Some(Sha224)
    else if s == "sha-256" then Some(Sha256)
    else if s == "sha-384" then Some(Sha384)
    else if s == "sha-512" then Some(Sha512)
    else None
  }

  lemma AlgorithmOfToken(a: Algorithm)
    ensures AlgorithmFromSdp(Lower(AlgorithmToken(a))) == Some(a)
    ensures Token(AlgorithmToken(a))
  {
    var t := AlgorithmToken(a);
    assert Lower(t) == t;
    assert "sha-224"[5] == '2' && "sha-224"[4] == '2' && "sha-256"[5] == '5' && "sha-384"[5] == '8';
    assert "sha-256"[4] == '2' && "sha-384"[4] == '3' && "sha-512"[4] == '5';
  }

  /** A name in any case is read as the algorithm whose token it is, and as no other. */
  lemma NameInAnyCase(s: string, a: Algorithm)
    ensures AlgorithmFromSdp(Lower(s)) == Some(a) <==> EqIgnoreCase(s, AlgorithmToken(a))
  {
    AlgorithmOfToken(a);
    LowerToken(a);
    hide Lower, Token;
  }

  lemma LowerToken(a: Algorithm)
    ensures Lower(AlgorithmToken(a)) == AlgorithmToken(a)
  {
    assert Lower(AlgorithmToken(a)) == AlgorithmToken(a);
  }

  // ----- hex digits -----

  predicate IsHexDigit(c: char) { '0' <= c <= '9' || 'a' <= c <= 'f' || 'A' <= c <= 'F' }

  function HexUpper(n: nat): (c: char)
    requires n < 16
    ensures IsHexDigit(c) && UpperChar(c) == c && HexValue(c) == n
  {
    if n < 10 then '0' + n as char else 'A' + (n - 10) as char
  }

  function HexValue(c: char): (n: nat)
    requires IsHexDigit(c)
    ensures n < 16
  {
    if c <= '9' then c as int - '0' as int
    else if c <= 'F' then c as int - 'A' as int + 10
    else c as int - 'a' as int + 10
  }

  // ----- formatting -----

  function HexPair(b: Byte): string { [HexUpper(b / 16), HexUpper(b % 16)] }

  function PairByte(pair: string): Byte
    requires |pair| == 2 && IsHexDigit(pair[0]) && IsHexDigit(pair[1])
  {
    16 * HexValue(pair[0]) + HexValue(pair[1])
  }

  function Format(bytes: seq<Byte>): string {
    if bytes == [] then ""
    else if |bytes| == 1 then HexPair(bytes[0])
    else Format(bytes[..|bytes| - 1]) + ":" + HexPair(bytes[|bytes| - 1])
  }

  /** The loop of `format_fingerprint`. */
  method FormatLoop(bytes: seq<Byte>) returns (s: string)
    ensures s == Format(bytes)
  {
    s := "";
    for i := 0 to |bytes|
      invariant s == Format(bytes[..i])
    {
      assert bytes[..i + 1][..i] == bytes[..i];
      if i > 0 { s := s + ":"; }
      s := s + [HexUpper(bytes[i] / 16)] + [HexUpper(bytes[i] % 16)];
    }
    assert bytes[..|bytes|] == bytes;
  }

  /** `n` hex pairs separated by colons. */
  predicate HexPairs(value: string, n: nat) {
    |value| == n * 3 - 1
    && forall i :: 0 <= i < |value| ==> if i % 3 == 2 then value[i] == ':' else IsHexDigit(value[i])
  }

  /** `is_valid`: hex pairs separated by colons, as many as the algorithm's size. */
  predicate ValidValue(a: Algorithm, value: string) {
    HexPairs(value, AlgorithmSize(a))
  }

  /** How long a valid value is, under each algorithm's token. */
  lemma ValidLengths(fp: Fingerprint)
    requires ValidValue(fp.algorithm, fp.value)
    ensures AlgorithmToken(fp.algorithm) == "sha-1" <==> |fp.value| == 59
    ensures AlgorithmToken(fp.algorithm) == "sha-224" <==> |fp.value| == 83
    ensures AlgorithmToken(fp.algorithm) == "sha-256" <==> |fp.value| == 95
    ensures AlgorithmToken(fp.algorithm) == "sha-384" <==> |fp.value| == 143
    ensures AlgorithmToken(fp.algorithm) == "sha-512" <==> |fp.value| == 191
  {
    var t := AlgorithmToken(fp.algorithm);
    assert "sha-224"[5] == '2' && "sha-224"[4] == '2' && "sha-256"[5] == '5' && "sha-384"[5] == '8';
    assert "sha-256"[4] == '2' && "sha-384"[4] == '3' && "sha-512"[4] == '5';
    hide HexPairs;
    assert |fp.value| == AlgorithmSize(fp.algorithm) * 3 - 1 by { PairsLength(fp.value, AlgorithmSize(fp.algorithm)); }
  }

  lemma PairsLength(value: string, n: nat)
    requires HexPairs(value, n)
    ensures |value| == n * 3 - 1
  {}

  method IsValid(fp: Fingerprint) returns (r: bool)
    ensures r == ValidValue(fp.algorithm, fp.value)
  {
    var expected := AlgorithmSize(fp.algorithm);
    if expected == 0 || |fp.value| != expected * 3 - 1 { return false; }
    for i := 0 to |fp.value|
      invariant forall j :: 0 <= j < i ==> if j % 3 == 2 then fp.value[j] == ':' else IsHexDigit(fp.value[j])
    {
      if i % 3 == 2 {
        if fp.value[i] != ':' { return false; }
      } else if !IsHexDigit(fp.value[i]) {
        return false;
      }
    }
    return true;
  }

  /** The digest of `n` bytes that a value spells, read pair by pair from the end. */
  function Digest(value: string, n: nat): (r: Option<seq<Byte>>)
    requires n >= 1
    ensures r.Some? ==> |r.value| == n && |value| == 3 * n - 1
    decreases n
  {
    var k := |value|;
    if k < 2 || !IsHexDigit(value[k - 2]) || !IsHexDigit(value[k - 1]) then None
    else
      var last := PairByte(value[k - 2..]);
      if n == 1 then (if k == 2 then Some([last]) else None)
      else if k < 3 || value[k - 3] != ':' then None
      else
        var front := Digest(value[..k - 3], n - 1);
        if front.None? then None else Some(front.value + [last])
  }

  lemma HexPairsStep(value: string, n: nat)
    requires n > 1 && |value| == 3 * n - 1
    ensures HexPairs(value, n) <==>
      HexPairs(value[..|value| - 3], n - 1) && value[|value| - 3] == ':'
      && IsHexDigit(value[|value| - 2]) && IsHexDigit(value[|value| - 1])
  {
    var k := |value|;
    assert (k - 3) % 3 == 2 && (k - 2) % 3 == 0 && (k - 1) % 3 == 1;
    assert forall i :: 0 <= i < k - 3 ==> value[i] == value[..k - 3][i];
  }

  /** The index-by-index check of `is_valid` accepts exactly the values that spell a digest. */
  lemma {:induction false} ValidMeansSpelling(value: string, n: nat)
    requires n >= 1
    ensures HexPairs(value, n) <==> Digest(value, n).Some?
    decreases n
  {
    if n > 1 && |value| >= 3 {
      ValidMeansSpelling(value[..|value| - 3], n - 1);
      if |value| == 3 * n - 1 { HexPairsStep(value, n); }
    }
  }

  lemma PairThere(b: Byte)
    ensures PairByte(HexPair(b)) == b && Upper(HexPair(b)) == HexPair(b)
  {}

  lemma PairBack(pair: string)
    requires |pair| == 2 && IsHexDigit(pair[0]) && IsHexDigit(pair[1]) && Upper(pair) == pair
    ensures HexPair(PairByte(pair)) == pair
  {
    assert UpperChar(pair[0]) == Upper(pair)[0] && UpperChar(pair[1]) == Upper(pair)[1];
  }

  lemma DigestSingle(pair: string)
    requires |pair| == 2 && IsHexDigit(pair[0]) && IsHexDigit(pair[1])
    ensures Digest(pair, 1) == Some([PairByte(pair)])
  {
    assert pair[|pair| - 2..] == pair;
  }

  lemma DigestAppend(front: string, pair: string, n: nat)
    requires n >= 1 && Digest(front, n).Some? && |pair| == 2 && IsHexDigit(pair[0]) && IsHexDigit(pair[1])
    ensures Digest(front + ":" + pair, n + 1) == Some(Digest(front, n).value + [PairByte(pair)])
  {
    var v := front + ":" + pair;
    assert v[..|v| - 3] == front && v[|v| - 2..] == pair;
  }

  lemma UpperAppend(s: string, t: string)
    ensures Upper(s + t) == Upper(s) + Upper(t)
  {}

  lemma {:induction false} FormatUpper(bytes: seq<Byte>)
    ensures Upper(Format(bytes)) == Format(bytes)
  {
    var n := |bytes|;
    if n >= 1 { PairThere(bytes[n - 1]); }
    if n > 1 {
      var front := Format(bytes[..n - 1]);
      FormatUpper(bytes[..n - 1]);
      UpperAppend(front + ":", HexPair(bytes[n - 1]));
      UpperAppend(front, ":");
      assert Upper(":") == ":";
    }
  }

  lemma FormatAppend(front: seq<Byte>, last: Byte)
    requires front != []
    ensures Format(front + [last]) == Format(front) + ":" + HexPair(last)
  {
    assert (front + [last])[..|front|] == front;
  }

  lemma {:induction false} DigestOfFormat(bytes: seq<Byte>)
    requires bytes != []
    ensures Digest(Format(bytes), |bytes|) == Some(bytes)
  {
    var last := bytes[|bytes| - 1];
    var pair := HexPair(last);
    PairThere(last);
    if |bytes| == 1 {
      assert bytes == [last];
      DigestSingle(pair);
    } else {
      var front := bytes[..|bytes| - 1];
      assert bytes == front + [last];
      FormatAppend(front, last);
      DigestOfFormat(front);
      DigestAppend(Format(front), pair, |front|);
    }
  }

  /** Formatting a digest of the algorithm's size gives a valid upper-case
      value from which the digest can be read back. */
  lemma FormatIsValid(a: Algorithm, digest: seq<Byte>)
    requires |digest| == AlgorithmSize(a)
    ensures ValidValue(a, Format(digest)) && Upper(Format(digest)) == Format(digest)
    ensures Digest(Format(digest), AlgorithmSize(a)) == Some(digest)
  {
    DigestOfFormat(digest);
    FormatUpper(digest);
    ValidMeansSpelling(Format(digest), AlgorithmSize(a));
  }

  lemma ValidIsToken(a: Algorithm, value: string)
    requires ValidValue(a, value)
    ensures Token(value)
  {}

  lemma UpperSlice(s: string, i: nat, j: nat)
    requires i <= j <= |s| && Upper(s) == s
    ensures Upper(s[i..j]) == s[i..j]
  {
    forall k | i <= k < j ensures Upper(s[i..j])[k - i] == s[k] {
      assert UpperChar(s[k]) == Upper(s)[k];
    }
  }

  lemma LastPair(value: string, n: nat)
    requires n >= 1 && Digest(value, n).Some? && Upper(value) == value
    ensures var pair := value[|value| - 2..];
      IsHexDigit(pair[0]) && IsHexDigit(pair[1]) && HexPair(PairByte(pair)) == pair
  {
    UpperSlice(value, |value| - 2, |value|);
    PairBack(value[|value| - 2..]);
  }

  lemma SpellingUnfolds(value: string, n: nat) returns (front: string, pair: string)
    requires n > 1 && Digest(value, n).Some? && Upper(value) == value
    ensures value == front + ":" + pair && Upper(front) == front
    ensures |pair| == 2 && IsHexDigit(pair[0]) && IsHexDigit(pair[1]) && HexPair(PairByte(pair)) == pair
    ensures Digest(front, n - 1).Some?
    ensures Digest(value, n).value == Digest(front, n - 1).value + [PairByte(pair)]
  {
    front, pair := value[..|value| - 3], value[|value| - 2..];
    LastPair(value, n);
    UpperSlice(value, 0, |value| - 3);
  }

  lemma {:induction false} FormatOfSpelling(value: string, n: nat)
    requires n >= 1 && Digest(value, n).Some? && Upper(value) == value
    ensures Format(Digest(value, n).value) == value
    decreases n
  {
    if n == 1 {
      LastPair(value, n);
      assert value == value[|value| - 2..];
    } else {
      var front, pair := SpellingUnfolds(value, n);
      FormatOfSpelling(front, n - 1);
      FormatAppend(Digest(front, n - 1).value, PairByte(pair));
    }
  }

  /** Every valid upper-case value is the format of the digest it spells. */
  lemma FormatOfDigest(a: Algorithm, value: string)
    requires ValidValue(a, value) && Upper(value) == value
    ensures Digest(value, AlgorithmSize(a)).Some?
    ensures Format(Digest(value, AlgorithmSize(a)).value) == value
  {
    ValidMeansSpelling(value, AlgorithmSize(a));
    FormatOfSpelling(value, AlgorithmSize(a));
  }

  /** The verify callback: nothing pinned rejects, otherwise the peer digest is
      formatted and compared without regard to case. */
  predicate Accepts(pinned: Option<Fingerprint>, peerDigest: seq<Byte>) {
    pinned.Some? && EqIgnoreCase(Format(peerDigest), pinned.value.value)
  }

  lemma LowerOfUpper(s: string)
    ensures Lower(Upper(s)) == Lower(s)
  {}

  lemma UpperOfSameCase(s: string, t: string)
    requires EqIgnoreCase(s, t)
    ensures Upper(s) == Upper(t)
  {
    assert |Lower(s)| == |Lower(t)|;
    forall i | 0 <= i < |s| ensures Upper(s)[i] == Upper(t)[i] {
      assert Lower(s)[i] == Lower(t)[i];
    }
  }

  /** A pin made from one digest, in any spelling of its hex digits, accepts a
      peer digest of the same algorithm exactly when the digests are equal. */
  lemma PinAccepts(a: Algorithm, mine: seq<Byte>, spelled: string, peer: seq<Byte>)
    requires |mine| == AlgorithmSize(a) == |peer|
    requires EqIgnoreCase(spelled, Format(mine))
    ensures Upper(spelled) == Format(mine)
    ensures Accepts(Some(Fingerprint(a, spelled)), peer) <==> peer == mine
    ensures Accepts(Some(Fingerprint(a, Upper(spelled))), peer) <==> peer == mine
  {
    FormatIsValid(a, mine);
    FormatIsValid(a, peer);
    UpperOfSameCase(spelled, Format(mine));
    LowerOfUpper(spelled);
    if EqIgnoreCase(Format(peer), Format(mine)) {
      UpperOfSameCase(Format(peer), Format(mine));
    }
  }
}
