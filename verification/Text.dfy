/** The string operations of Rust's standard library that the parsers rely on,
    over sequences of Unicode scalar values, with the facts that make
    printing and parsing undo each other. */
module Text {
  datatype Option<+T> = None | Some(value: T)

  datatype Result<+T, +E> = Ok(value: T) | Err(error: E)

  type Byte = b: int | 0 <= b < 256

  // ----- characters -----

  /** The five characters that `split_ascii_whitespace` separates on. */
  predicate IsAsciiWs(c: char) {
    c == ' ' || c == '\t' || c == '\n' || c == '\r' || c == '\U{0C}'
  }

  /** Unicode White_Space, which is what `trim` removes. */
  predicate IsWs(c: char) {
    '\U{09}' <= c <= '\U{0D}' || c == ' ' || c == '\U{85}' || c == '\U{A0}' || c == '\U{1680}'
    || '\U{2000}' <= c <= '\U{200A}' || c == '\U{2028}' || c == '\U{2029}' || c == '\U{202F}'
    || c == '\U{205F}' || c == '\U{3000}'
  }

  predicate IsDigit(c: char) { '0' <= c <= '9' }

  function UpperChar(c: char): (r: char) {
    if 'a' <= c <= 'z' then c - 'a' + 'A' else c
  }

  function LowerChar(c: char): (r: char) {
    if 'A' <= c <= 'Z' then c - 'A' + 'a' else c
  }

  function Upper(s: string): (r: string)
    ensures |r| == |s|
    ensures forall i :: 0 <= i < |s| ==> r[i] == UpperChar(s[i])
  {
    seq(|s|, i requires 0 <= i < |s| => UpperChar(s[i]))
  }

  function Lower(s: string): (r: string)
    ensures |r| == |s|
    ensures forall i :: 0 <= i < |s| ==> r[i] == LowerChar(s[i])
  {
    seq(|s|, i requires 0 <= i < |s| => LowerChar(s[i]))
  }

  predicate EqIgnoreCase(a: string, b: string) { Lower(a) == Lower(b) }

  // ----- shapes of strings -----

  /** Non-empty and free of ASCII whitespace. */
  predicate Token(s: string) {
    s != "" && forall i :: 0 <= i < |s| ==> !IsAsciiWs(s[i])
  }

  /** Survives being printed as the end of a line: no line feed inside, no carriage return last. */
  predicate LineSafe(s: string) {
    '\n' !in s && (s != "" ==> s[|s| - 1] != '\r')
  }

  predicate IsEol(eol: string) { eol == "\r\n" || eol == "\n" }

  // ----- searching and slicing -----

  /** Position of the first `c`, or the length when there is none. */
  function IndexOf(s: string, c: char): (n: nat)
    ensures n <= |s|
    ensures forall i :: 0 <= i < n ==> s[i] != c
    ensures n < |s| ==> s[n] == c
  {
    if s == "" || s[0] == c then 0 else 1 + IndexOf(s[1..], c)
  }

  lemma IndexOfUnique(s: string, c: char, n: nat)
    requires n <= |s| && (forall i :: 0 <= i < n ==> s[i] != c) && (n < |s| ==> s[n] == c)
    ensures IndexOf(s, c) == n
  {}

  function TrimEol(s: string): (r: string)
    ensures r <= s
    ensures r != "" ==> r[|r| - 1] != '\r' && r[|r| - 1] != '\n'
  {
    if s != "" && (s[|s| - 1] == '\r' || s[|s| - 1] == '\n') then TrimEol(s[..|s| - 1]) else s
  }

  function TrimStart(s: string): (r: string)
    ensures |r| <= |s| && r == s[|s| - |r|..]
    ensures r != "" ==> !IsWs(r[0])
  {
    if s != "" && IsWs(s[0]) then TrimStart(s[1..]) else s
  }

  function TrimEnd(s: string): (r: string)
    ensures r <= s
    ensures r != "" ==> !IsWs(r[|r| - 1])
  {
    if s != "" && IsWs(s[|s| - 1]) then TrimEnd(s[..|s| - 1]) else s
  }

  function Trim(s: string): (r: string)
    ensures forall c :: c in r ==> c in s
    ensures r != "" ==> !IsWs(r[0]) && !IsWs(r[|r| - 1])
  {
    var e := TrimEnd(s);
    assert forall c :: c in e ==> c in s;
    TrimStart(e)
  }

  lemma TrimFixed(s: string)
    requires s != "" ==> !IsWs(s[0]) && !IsWs(s[|s| - 1])
    ensures Trim(s) == s
  {}

  // ----- counting -----

  /** Values in a sequence equal to one value. */
  function Count<S(==)>(s: seq<S>, value: S): (n: nat)
    ensures n <= |s|
    ensures n == 0 <==> value !in s
  {
    if s == [] then 0 else Count(s[..|s| - 1], value) + (if s[|s| - 1] == value then 1 else 0)
  }

  lemma CountAppend<S>(s: seq<S>, x: S, value: S)
    ensures Count(s + [x], value) == Count(s, value) + if x == value then 1 else 0
  {
    assert (s + [x])[..|s|] == s;
  }

  lemma {:induction false} CountConcat<S>(a: seq<S>, b: seq<S>, value: S)
    ensures Count(a + b, value) == Count(a, value) + Count(b, value)
  {
    if b == [] {
      assert a + b == a;
    } else {
      var front, last := b[..|b| - 1], b[|b| - 1];
      CountConcat(a, front, value);
      CountAppend(a + front, last, value);
      CountAppend(front, last, value);
      assert a + b == a + front + [last] && b == front + [last];
    }
  }

  // ----- lines -----

  function StripCr(s: string): (r: string)
    ensures r <= s
  {
    if s != "" && s[|s| - 1] == '\r' then s[..|s| - 1] else s
  }

  /** Rust's `lines`: segments ended by a line feed lose it and one carriage
      return before it; a last segment without a line feed is kept as it is. */
  function Lines(s: string): (r: seq<string>)
    ensures forall i :: 0 <= i < |r| ==> '\n' !in r[i]
    decreases |s|
  {
    if s == "" then [] else
      var n := IndexOf(s, '\n');
      if n == |s| then [s[..n]] else
        [StripCr(s[..n])] + Lines(s[n + 1..])
  }

  lemma FirstLine(head: string, rest: string)
    requires '\n' !in head
    ensures Lines(head + "\n" + rest) == [StripCr(head)] + Lines(rest)
  {
    hide StripCr;
    var s := head + "\n" + rest;
    assert forall i :: 0 <= i < |head| ==> s[i] == head[i];
    IndexOfUnique(s, '\n', |head|);
    assert s[..|head|] == head && s[|head| + 1..] == rest;
    hide IndexOf;
  }

  /** A line-safe line printed with its terminator comes back as the first line. */
  lemma LinesCons(line: string, eol: string, rest: string)
    requires LineSafe(line) && IsEol(eol)
    ensures Lines(line + eol + rest) == [line] + Lines(rest)
  {
    hide Lines;
    if eol == "\r\n" {
      var head := line + "\r";
      assert line + eol + rest == head + "\n" + rest;
      assert head[..|head| - 1] == line;
      FirstLine(head, rest);
    } else {
      FirstLine(line, rest);
    }
  }

  /** Every line followed by the terminator. */
  function JoinEol(lines: seq<string>, eol: string): string {
    if lines == [] then "" else lines[0] + eol + JoinEol(lines[1..], eol)
  }

  lemma Assoc<T>(a: seq<T>, b: seq<T>, c: seq<T>)
    ensures (a + b) + c == a + (b + c)
  {}

  lemma HeadTail<T>(s: seq<T>)
    requires s != []
    ensures [s[0]] + s[1..] == s
  {}

  lemma TailOfSum<T>(a: seq<T>, b: seq<T>)
    requires a != []
    ensures (a + b)[0] == a[0] && (a + b)[1..] == a[1..] + b
  {}

  lemma {:induction false} JoinEolAppend(a: seq<string>, b: seq<string>, eol: string)
    ensures JoinEol(a + b, eol) == JoinEol(a, eol) + JoinEol(b, eol)
  {
    if a == [] {
      assert a + b == b;
    } else {
      TailOfSum(a, b);
      JoinEolAppend(a[1..], b, eol);
      Assoc(a[0] + eol, JoinEol(a[1..], eol), JoinEol(b, eol));
    }
  }

  lemma JoinEolCons(lines: seq<string>, eol: string, rest: string)
    requires lines != []
    ensures JoinEol(lines, eol) + rest == lines[0] + eol + (JoinEol(lines[1..], eol) + rest)
  {
    Assoc(lines[0] + eol, JoinEol(lines[1..], eol), rest);
  }

  lemma {:induction false} LinesOfJoin(lines: seq<string>, eol: string, rest: string)
    requires IsEol(eol)
    requires forall i :: 0 <= i < |lines| ==> LineSafe(lines[i])
    ensures Lines(JoinEol(lines, eol) + rest) == lines + Lines(rest)
  {
    if lines == [] {
      assert "" + rest == rest;
    } else {
      hide Lines, JoinEol, LineSafe;
      JoinEolCons(lines, eol, rest);
      LinesCons(lines[0], eol, JoinEol(lines[1..], eol) + rest);
      LinesOfJoin(lines[1..], eol, rest);
      Assoc([lines[0]], lines[1..], Lines(rest));
      HeadTail(lines);
    }
  }

  lemma TrimEolOfSafe(s: string)
    requires LineSafe(s)
    ensures TrimEol(s) == s
  {
    if s != "" { assert s[|s| - 1] in s; }
  }

  lemma TrimEolIsSafe(s: string)
    requires '\n' !in s
    ensures LineSafe(TrimEol(s))
  {}

  lemma SuffixSafe(s: string, k: nat)
    requires LineSafe(s) && k <= |s|
    ensures LineSafe(s[k..])
  {}

  // ----- whitespace-separated tokens -----

  function TokenLen(s: string): (n: nat)
    ensures n <= |s|
    ensures forall i :: 0 <= i < n ==> !IsAsciiWs(s[i])
    ensures n < |s| ==> IsAsciiWs(s[n])
  {
    if s == "" || IsAsciiWs(s[0]) then 0 else 1 + TokenLen(s[1..])
  }

  function SplitWs(s: string): (r: seq<string>)
    ensures forall i :: 0 <= i < |r| ==> Token(r[i])
    decreases |s|
  {
    if s == "" then []
    else if IsAsciiWs(s[0]) then SplitWs(s[1..])
    else [s[..TokenLen(s)]] + SplitWs(s[TokenLen(s)..])
  }

  lemma SplitWsToken(t: string, rest: string)
    requires Token(t) && (rest != "" ==> IsAsciiWs(rest[0]))
    ensures SplitWs(t + rest) == [t] + SplitWs(rest)
  {
    var s := t + rest;
    var n := TokenLen(s);
    assert forall i :: 0 <= i < |t| ==> s[i] == t[i];
    assert rest != "" ==> s[|t|] == rest[0];
    assert s[..n] == t && s[n..] == rest;
  }

  lemma SplitWsSpace(rest: string)
    ensures SplitWs(" " + rest) == SplitWs(rest)
  {
    assert (" " + rest)[1..] == rest;
  }

  /** Whitespace keeps the tokens on its two sides apart. */
  lemma {:induction false} SplitWsSum(s: string, t: string)
    requires t != "" ==> IsAsciiWs(t[0])
    ensures SplitWs(s + t) == SplitWs(s) + SplitWs(t)
    decreases |s|
  {
    if s == "" {
      assert s + t == t;
    } else if IsAsciiWs(s[0]) {
      assert (s + t)[1..] == s[1..] + t;
      SplitWsSum(s[1..], t);
    } else {
      var n := TokenLen(s);
      var token := s[..n];
      assert s + t == token + (s[n..] + t) && s == token + s[n..];
      SplitWsToken(token, s[n..] + t);
      SplitWsToken(token, s[n..]);
      SplitWsSum(s[n..], t);
      Assoc([token], SplitWs(s[n..]), SplitWs(t));
    }
  }

  /** Items separated by a character. */
  function Join(items: seq<string>, sep: char): string {
    if items == [] then "" else if |items| == 1 then items[0]
    else items[0] + [sep] + Join(items[1..], sep)
  }

  lemma {:induction false} SplitWsJoin(ts: seq<string>)
    requires forall i :: 0 <= i < |ts| ==> Token(ts[i])
    ensures SplitWs(Join(ts, ' ')) == ts
  {
    if ts == [] {
    } else if |ts| == 1 {
      SplitWsToken(ts[0], "");
      assert ts[0] + "" == ts[0];
    } else {
      var rest := Join(ts[1..], ' ');
      SplitWsJoin(ts[1..]);
      SplitWsSpace(rest);
      SplitWsToken(ts[0], " " + rest);
      assert Join(ts, ' ') == ts[0] + (" " + rest);
    }
  }

  // ----- separator-split items -----

  function SplitOn(s: string, sep: char): (r: seq<string>)
    ensures |r| >= 1
    ensures forall i :: 0 <= i < |r| ==> sep !in r[i]
    decreases |s|
  {
    var n := IndexOf(s, sep);
    if n == |s| then [s[..n]] else [s[..n]] + SplitOn(s[n + 1..], sep)
  }

  lemma {:induction false} SplitOnChars(s: string, sep: char, c: char)
    requires c !in s
    ensures forall i :: 0 <= i < |SplitOn(s, sep)| ==> c !in SplitOn(s, sep)[i]
    decreases |s|
  {
    var n := IndexOf(s, sep);
    if n < |s| { SplitOnChars(s[n + 1..], sep, c); }
  }

  lemma SplitOnCons(item: string, sep: char, rest: string)
    requires sep !in item
    ensures SplitOn(item + [sep] + rest, sep) == [item] + SplitOn(rest, sep)
    ensures SplitOn(item, sep) == [item]
  {
    var s := item + [sep] + rest;
    assert forall i :: 0 <= i < |item| ==> s[i] == item[i];
    IndexOfUnique(s, sep, |item|);
    assert s[..|item|] == item && s[|item| + 1..] == rest;
    IndexOfUnique(item, sep, |item|);
    assert item[..|item|] == item;
  }

  lemma {:induction false} SplitOnJoin(items: seq<string>, sep: char)
    requires items != []
    requires forall i :: 0 <= i < |items| ==> sep !in items[i]
    ensures SplitOn(Join(items, sep), sep) == items
  {
    hide SplitOn;
    SplitOnCons(items[0], sep, Join(items[1..], sep));
    if |items| == 1 {
      assert items == [items[0]];
    } else {
      SplitOnJoin(items[1..], sep);
      assert items == [items[0]] + items[1..];
    }
  }

  lemma {:induction false} JoinChars(items: seq<string>, sep: char, c: char)
    requires c != sep && forall i :: 0 <= i < |items| ==> c !in items[i]
    ensures c !in Join(items, sep)
  {
    if |items| > 1 { JoinChars(items[1..], sep, c); }
  }

  // ----- decimal numbers -----

  function Digit(d: nat): (c: char)
    requires d < 10
    ensures IsDigit(c) && c as int - '0' as int == d
  {
    '0' + d as char
  }

  function Decimal(n: nat): (s: string)
    ensures s != "" && forall i :: 0 <= i < |s| ==> IsDigit(s[i])
    ensures Token(s) && LineSafe(s)
  {
    if n < 10 then [Digit(n)] else Decimal(n / 10) + [Digit(n % 10)]
  }

  function DigitsValue(s: string): nat
    requires forall i :: 0 <= i < |s| ==> IsDigit(s[i])
  {
    if s == "" then 0 else
      assert IsDigit(s[|s| - 1]);
      10 * DigitsValue(s[..|s| - 1]) + (s[|s| - 1] as int - '0' as int)
  }

  lemma {:induction false} DigitsOfDecimal(n: nat)
    ensures DigitsValue(Decimal(n)) == n
  {
    if n >= 10 {
      DigitsOfDecimal(n / 10);
      assert Decimal(n)[..|Decimal(n)| - 1] == Decimal(n / 10);
    } else {
      assert Decimal(n)[..0] == "";
    }
  }

  /** Rust's unsigned `parse`: an optional plus sign, then at least one digit,
      leading zeros allowed, and a value of at most `max`. */
  function ParseUint(s: string, max: nat): (r: Option<nat>)
    ensures r.Some? ==> r.value <= max && Token(s)
  {
    var digits := if s != "" && s[0] == '+' then s[1..] else s;
    if digits != "" && (forall i :: 0 <= i < |digits| ==> IsDigit(digits[i])) && DigitsValue(digits) <= max
    then
      assert forall i :: 0 <= i < |s| ==> s[i] == '+' || (|digits| < |s| && s[i] == digits[i - 1]) || s[i] == digits[i];
      Some(DigitsValue(digits))
    else None
  }

  lemma ParseUintOfDecimal(n: nat, max: nat)
    requires n <= max
    ensures ParseUint(Decimal(n), max) == Some(n)
  {
    DigitsOfDecimal(n);
  }
}
