/** Text as UTF-8 bytes (RFC 3629): one encoding for each text, and exactly the well-formed byte sequences are one. */
module Utf8 {
  import opened Base

  /** The UTF-8 form of one character (section 3 of RFC 3629). */
  function CharBytes(c: char): Bytes {
    var n := c as int;
    if n < 0x80 then [n]
    else if n < 0x800 then [0xC0 + n / 64, 0x80 + n % 64]
    else if n < 0x10000 then [0xE0 + n / 4096, 0x80 + n / 64 % 64, 0x80 + n % 64]
    else [0xF0 + n / 262144, 0x80 + n / 4096 % 64, 0x80 + n / 64 % 64, 0x80 + n % 64]
  }

  function TextBytes(s: string): Bytes { if s == "" then [] else CharBytes(s[0]) + TextBytes(s[1..]) }

  lemma SplitHead(a: Bytes, x: Bytes, b: Bytes, y: Bytes)
    requires a + x == b + y && |a| == |b|
    ensures a == b && x == y
  {
    assert a == (a + x)[..|a|] && b == (b + y)[..|b|];
    assert x == (a + x)[|a|..] && y == (b + y)[|b|..];
  }

  lemma Digits(n: nat)
    ensures n == n / 64 * 64 + n % 64
    ensures n / 64 == n / 4096 * 64 + n / 64 % 64
    ensures n / 4096 == n / 262144 * 64 + n / 4096 % 64
  {
    assert n / 64 / 64 == n / 4096;
    assert n / 4096 / 64 == n / 262144;
  }

  lemma SameWidth(c: char, d: char)
    requires CharBytes(c)[0] == CharBytes(d)[0]
    ensures |CharBytes(c)| == |CharBytes(d)|
  {
  }

  lemma CharReadable(c: char, d: char, x: Bytes, y: Bytes)
    requires CharBytes(c) + x == CharBytes(d) + y
    ensures c == d && x == y
  {
    assert CharBytes(c)[0] == (CharBytes(c) + x)[0] && CharBytes(d)[0] == (CharBytes(d) + y)[0];
    SameWidth(c, d);
    SplitHead(CharBytes(c), x, CharBytes(d), y);
    Digits(c as int);
    Digits(d as int);
    assert c as int == d as int;
  }

  lemma {:induction false} TextReadable(a: string, b: string)
    requires TextBytes(a) == TextBytes(b)
    ensures a == b
    decreases |a|
  {
    hide CharBytes;
    if a == "" || b == "" {
      if a != "" { CharIsNotEmpty(a[0]); }
      if b != "" { CharIsNotEmpty(b[0]); }
    } else {
      CharReadable(a[0], b[0], TextBytes(a[1..]), TextBytes(b[1..]));
      TextReadable(a[1..], b[1..]);
      assert a == [a[0]] + a[1..] && b == [b[0]] + b[1..];
    }
  }

  lemma CharIsNotEmpty(c: char)
    ensures CharBytes(c) != []
  {
  }

  // ---- well-formed bytes ---------------------------------------------------------------------------

  predicate Tail(b: byte) { 0x80 <= b <= 0xBF }

  /** Well-formed UTF-8 (section 4 of RFC 3629). */
  predicate WellFormed(s: Bytes) {
    if s == [] then true
    else if s[0] <= 0x7F then WellFormed(s[1..])
    else if 0xC2 <= s[0] <= 0xDF then |s| >= 2 && Tail(s[1]) && WellFormed(s[2..])
    else if 0xE0 <= s[0] <= 0xEF then
      && |s| >= 3 && Tail(s[1]) && Tail(s[2])
      && (s[0] == 0xE0 ==> s[1] >= 0xA0) && (s[0] == 0xED ==> s[1] <= 0x9F)
      && WellFormed(s[3..])
    else if 0xF0 <= s[0] <= 0xF4 then
      && |s| >= 4 && Tail(s[1]) && Tail(s[2]) && Tail(s[3])
      && (s[0] == 0xF0 ==> s[1] >= 0x90) && (s[0] == 0xF4 ==> s[1] <= 0x8F)
      && WellFormed(s[4..])
    else false
  }

  lemma EncodedChar(c: char, rest: Bytes)
    ensures WellFormed(CharBytes(c) + rest) <==> WellFormed(rest)
  {
    var n, b := c as int, CharBytes(c);
    Digits(n);
    assert (b + rest)[|b|..] == rest;
    assert forall i :: 0 <= i < |b| ==> (b + rest)[i] == b[i];
  }

  lemma {:induction false} TextIsWellFormed(s: string)
    ensures WellFormed(TextBytes(s))
  {
    hide CharBytes;
    if s != "" {
      TextIsWellFormed(s[1..]);
      EncodedChar(s[0], TextBytes(s[1..]));
    }
  }

  function Two(a: byte, b: byte): (x: char)
    requires 0xC2 <= a <= 0xDF && Tail(b)
    ensures CharBytes(x) == [a, b]
  {
    var n: int := (a as int - 0xC0) * 64 + (b as int - 0x80);
    n as char
  }

  function Three(a: byte, b: byte, c: byte): (x: char)
    requires 0xE0 <= a <= 0xEF && Tail(b) && Tail(c) && (a == 0xE0 ==> b >= 0xA0) && (a == 0xED ==> b <= 0x9F)
    ensures CharBytes(x) == [a, b, c]
  {
    var high: int := (a as int - 0xE0) * 64 + (b as int - 0x80);
    var n: int := high * 64 + (c as int - 0x80);
    assert n / 64 == high && n % 64 == c as int - 0x80 && n / 4096 == high / 64;
    n as char
  }

  function Four(a: byte, b: byte, c: byte, d: byte): (x: char)
    requires 0xF0 <= a <= 0xF4 && Tail(b) && Tail(c) && Tail(d) && (a == 0xF0 ==> b >= 0x90) && (a == 0xF4 ==> b <= 0x8F)
    ensures CharBytes(x) == [a, b, c, d]
  {
    var top: int := (a as int - 0xF0) * 64 + (b as int - 0x80);
    var high: int := top * 64 + (c as int - 0x80);
    var n: int := high * 64 + (d as int - 0x80);
    assert n / 64 == high && n % 64 == d as int - 0x80 && n / 4096 == high / 64 == top && n / 262144 == top / 64;
    n as char
  }

  /** The character at the front of well-formed bytes. */
  function FirstChar(s: Bytes): (x: char)
    requires s != [] && WellFormed(s)
    ensures |CharBytes(x)| <= |s| && s[..|CharBytes(x)|] == CharBytes(x) && WellFormed(s[|CharBytes(x)|..])
  {
    if s[0] <= 0x7F then
      assert s[..1] == [s[0]] == CharBytes(s[0] as char);
      s[0] as char
    else if s[0] <= 0xDF then
      assert s[..2] == [s[0], s[1]];
      Two(s[0], s[1])
    else if s[0] <= 0xEF then
      assert s[..3] == [s[0], s[1], s[2]];
      Three(s[0], s[1], s[2])
    else
      assert s[..4] == [s[0], s[1], s[2], s[3]];
      Four(s[0], s[1], s[2], s[3])
  }

  function DecodeText(s: Bytes): (text: string)
    requires WellFormed(s)
    ensures TextBytes(text) == s
    decreases |s|
  {
    if s == [] then ""
    else
      var c := FirstChar(s);
      CharIsNotEmpty(c);
      var text := [c] + DecodeText(s[|CharBytes(c)|..]);
      assert text[1..] == DecodeText(s[|CharBytes(c)|..]);
      text
  }

  /** Exactly the encodings of texts are well formed. */
  lemma WellFormedIsText(s: Bytes)
    ensures WellFormed(s) <==> exists text :: TextBytes(text) == s
  {
    hide WellFormed, TextBytes;
    if WellFormed(s) { assert TextBytes(DecodeText(s)) == s; }
    if text :| TextBytes(text) == s { TextIsWellFormed(text); }
  }
}
