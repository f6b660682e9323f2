/** UTF-8 as the journal uses it: the encoder of strings, and the decoder that replaces malformed input. */
module Utf8 {
  type byte = b: int | 0 <= b < 256

  const NEWLINE: byte := 10
  const REPLACEMENT: char := '\U{FFFD}'

  function EncodeChar(c: char): seq<byte> {
    var n := c as int;
    if n < 0x80 then [n]
    else if n < 0x800 then [0xC0 + n / 64, 0x80 + n % 64]
    else if n < 0x10000 then [0xE0 + n / 64 / 64, 0x80 + n / 64 % 64, 0x80 + n % 64]
    else [0xF0 + n / 64 / 64 / 64, 0x80 + n / 64 / 64 % 64, 0x80 + n / 64 % 64, 0x80 + n % 64]
  }

  function Encode(s: string): seq<byte> {
    if s == [] then [] else EncodeChar(s[0]) + Encode(s[1..])
  }

  /** Continuation bytes a lead byte asks for; none for ASCII and for bytes that cannot lead. */
  function Trailing(lead: byte): nat {
    if lead < 0xC2 || lead > 0xF4 then 0 else if lead < 0xE0 then 1 else if lead < 0xF0 then 2 else 3
  }

  /** The range of the first continuation byte excludes overlong forms, surrogates and values past U+10FFFF. */
  predicate SecondOk(lead: byte, b: byte) {
    (if lead == 0xE0 then 0xA0 else if lead == 0xF0 then 0x90 else 0x80) <= b <=
    (if lead == 0xED then 0x9F else if lead == 0xF4 then 0x8F else 0xBF)
  }

  predicate Continues(b: byte) {
    0x80 <= b < 0xC0
  }

  function Bits(b: byte): nat
    requires Continues(b)
  {
    b as int - 0x80
  }

  /** How many bytes of a well-formed character are at the start. */
  function WellFormed(bytes: seq<byte>): (n: nat)
    requires bytes != []
    ensures 1 <= n <= |bytes| && n <= 1 + Trailing(bytes[0])
    ensures forall i | 1 <= i < n :: bytes[i] >= 0x80
  {
    var t := Trailing(bytes[0]);
    if t == 0 || |bytes| < 2 || !SecondOk(bytes[0], bytes[1]) then 1
    else if t == 1 || |bytes| < 3 || !Continues(bytes[2]) then 2
    else if t == 2 || |bytes| < 4 || !Continues(bytes[3]) then 3
    else 4
  }

  /** A character at the start of the input, or the replacement character for a malformed start. */
  function DecodeChar(bytes: seq<byte>): char
    requires bytes != []
  {
    var lead := bytes[0];
    var n := WellFormed(bytes);
    if lead < 0x80 then lead as char
    else if Trailing(lead) == 0 || n < 1 + Trailing(lead) then REPLACEMENT
    else if n == 2 then ((lead as int - 0xC0) * 64 + Bits(bytes[1])) as char
    else if n == 3 then (((lead as int - 0xE0) * 64 + Bits(bytes[1])) * 64 + Bits(bytes[2])) as char
    else ((((lead as int - 0xF0) * 64 + Bits(bytes[1])) * 64 + Bits(bytes[2])) * 64 + Bits(bytes[3])) as char
  }

  function Decode(bytes: seq<byte>): string {
    if bytes == [] then [] else [DecodeChar(bytes)] + Decode(bytes[WellFormed(bytes)..])
  }

  lemma CharRoundTrip(c: char, rest: seq<byte>)
    ensures EncodeChar(c) != []
    ensures WellFormed(EncodeChar(c) + rest) == |EncodeChar(c)| && DecodeChar(EncodeChar(c) + rest) == c
  {
    if c as int >= 0x10000 {
      WideRoundTrip(c, rest);
    } else {
      var n, bytes := c as int, EncodeChar(c) + rest;
      assert bytes[0] == EncodeChar(c)[0];
      if n >= 0x80 {
        assert bytes[1] == EncodeChar(c)[1];
        if n >= 0x800 {
          assert bytes[2] == EncodeChar(c)[2];
        }
      }
    }
  }

  /** The four-byte form. */
  lemma WideRoundTrip(c: char, rest: seq<byte>)
    requires c as int >= 0x10000
    ensures WellFormed(EncodeChar(c) + rest) == |EncodeChar(c)| && DecodeChar(EncodeChar(c) + rest) == c
  {
    var n, bytes := c as int, EncodeChar(c) + rest;
    var a, b, d, e := n / 64 / 64 / 64, n / 64 / 64 % 64, n / 64 % 64, n % 64;
    assert bytes[0] == 0xF0 + a && bytes[1] == 0x80 + b && bytes[2] == 0x80 + d && bytes[3] == 0x80 + e;
    assert n == ((a * 64 + b) * 64 + d) * 64 + e;
  }

  lemma {:induction false} RoundTrip(s: string)
    ensures Decode(Encode(s)) == s
  {
    if s != [] {
      CharRoundTrip(s[0], Encode(s[1..]));
      assert (EncodeChar(s[0]) + Encode(s[1..]))[|EncodeChar(s[0])|..] == Encode(s[1..]);
      RoundTrip(s[1..]);
    }
  }

  lemma {:induction false} EncodeAppends(a: string, b: string)
    ensures Encode(a + b) == Encode(a) + Encode(b)
  {
    if a == [] {
      assert a + b == b;
    } else {
      assert (a + b)[1..] == a[1..] + b;
      EncodeAppends(a[1..], b);
    }
  }

  /** A newline does not complete a character, nor does it change how one before it is read. */
  lemma FirstBeforeNewLine(a: seq<byte>, b: seq<byte>)
    requires a != []
    ensures WellFormed(a + [NEWLINE] + b) == WellFormed(a) && DecodeChar(a + [NEWLINE] + b) == DecodeChar(a)
  {
    var all := a + [NEWLINE] + b;
    assert all[0] == a[0] && all[|a|] == NEWLINE;
    assert |a| > 1 ==> all[1] == a[1];
    assert |a| > 2 ==> all[2] == a[2];
    assert |a| > 3 ==> all[3] == a[3];
  }

  /**
    A newline byte is always a character of its own, whatever surrounds it: decoding works line by
    line, even on a file that ends inside a character.
   */
  lemma {:induction false} DecodeLines(a: seq<byte>, b: seq<byte>)
    ensures Decode(a + [NEWLINE] + b) == Decode(a) + "\n" + Decode(b)
  {
    hide WellFormed, DecodeChar;
    var all := a + [NEWLINE] + b;
    if a == [] {
      DecodeNewLine(b);
      assert all == [NEWLINE] + b;
      assert Decode(all) == "\n" + Decode(b);
    } else {
      var n := WellFormed(a);
      FirstBeforeNewLine(a, b);
      DropBeforeNewLine(a, b, n);
      DecodeLines(a[n..], b);
      Regroup(DecodeChar(a), Decode(a[n..]), Decode(b));
    }
  }

  lemma DecodeNewLine(b: seq<byte>)
    ensures Decode([NEWLINE] + b) == "\n" + Decode(b)
  {
    assert ([NEWLINE] + b)[1..] == b;
  }

  lemma DropBeforeNewLine(a: seq<byte>, b: seq<byte>, n: nat)
    requires n <= |a|
    ensures (a + [NEWLINE] + b)[n..] == a[n..] + [NEWLINE] + b
  {
  }

  lemma Regroup(c: char, s: string, t: string)
    ensures [c] + (s + "\n" + t) == [c] + s + "\n" + t
  {
  }

  /** Text has a line break only where the bytes have one. */
  lemma {:induction false} NoNewLine(bytes: seq<byte>)
    requires NEWLINE !in bytes
    ensures '\n' !in Decode(bytes)
  {
    if bytes != [] {
      var n := WellFormed(bytes);
      assert bytes[0] != NEWLINE && DecodeChar(bytes) != '\n';
      NoNewLine(bytes[n..]);
    }
  }

  lemma {:induction false} EncodedHasNoNewLine(s: string)
    requires '\n' !in s
    ensures NEWLINE !in Encode(s)
  {
    if s != [] {
      assert s[0] != '\n' && NEWLINE !in EncodeChar(s[0]);
      EncodedHasNoNewLine(s[1..]);
    }
  }
}
