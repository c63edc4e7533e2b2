/** UTF-8 (RFC 3629) as `Encoding.UTF8.GetBytes` applies it to a string of
    Unicode scalar values, with the matching decoder so that the encoding
    is known to be injective. */
module Utf8 {
  import opened Common

  newtype byte = x: int | 0 <= x < 256

  /** Code points that are Unicode scalar values (no surrogates). */
  predicate IsScalar(cp: int)
  {
    0 <= cp < 0xD800 || 0xE000 <= cp < 0x110000
  }

  predicate IsContinuation(b: byte) { 0x80 <= b < 0xC0 }

  /** The one to four bytes of a single scalar value. */
  function EncodeChar(c: char): (r: seq<byte>)
    ensures 1 <= |r| <= 4
    ensures |r| == EncodedLength(c as int)
  {
    var cp := c as int;
    if cp < 0x80 then [cp as byte]
    else if cp < 0x800 then [(0xC0 + cp / 0x40) as byte, (0x80 + cp % 0x40) as byte]
    else if cp < 0x10000 then
      [(0xE0 + cp / 0x1000) as byte, (0x80 + cp / 0x40 % 0x40) as byte, (0x80 + cp % 0x40) as byte]
    else
      [(0xF0 + cp / 0x40000) as byte, (0x80 + cp / 0x1000 % 0x40) as byte,
       (0x80 + cp / 0x40 % 0x40) as byte, (0x80 + cp % 0x40) as byte]
  }

  /** The number of bytes RFC 3629 uses for a code point. */
  function EncodedLength(cp: int): nat
  {
    if cp < 0x80 then 1 else if cp < 0x800 then 2 else if cp < 0x10000 then 3 else 4
  }

  function Encode(s: string): (r: seq<byte>)
    ensures |s| <= |r| <= 4 * |s|
    ensures s == [] <==> r == []
  {
    if s == [] then [] else EncodeChar(s[0]) + Encode(s[1..])
  }

  /** The sequence length announced by a lead byte, 0 for a byte that cannot lead. */
  function LeadLength(b0: byte): (n: nat)
    ensures n <= 4
  {
    if b0 < 0x80 then 1 else if 0xC0 <= b0 < 0xE0 then 2
    else if 0xE0 <= b0 < 0xF0 then 3 else if 0xF0 <= b0 < 0xF8 then 4 else 0
  }

  predicate ContinuationsOk(b: seq<byte>, n: nat)
    requires n <= |b|
  {
    forall k :: 1 <= k < n ==> IsContinuation(b[k])
  }

  /** The code point carried by the first n bytes. */
  function CodePoint(b: seq<byte>, n: nat): int
    requires 1 <= n <= 4 && n <= |b|
  {
    if n == 1 then b[0] as int
    else if n == 2 then (b[0] as int - 0xC0) * 0x40 + (b[1] as int - 0x80)
    else if n == 3 then (b[0] as int - 0xE0) * 0x1000 + (b[1] as int - 0x80) * 0x40 + (b[2] as int - 0x80)
    else (b[0] as int - 0xF0) * 0x40000 + (b[1] as int - 0x80) * 0x1000
         + (b[2] as int - 0x80) * 0x40 + (b[3] as int - 0x80)
  }

  /** Decodes one scalar value at the front of `b`: its length from the
      lead byte, continuation bytes, no over-long form, no surrogate. */
  function DecodeChar(b: seq<byte>): (r: Option<(char, nat)>)
    ensures r.Some? ==> 1 <= r.value.1 <= |b|
  {
    if b == [] then None
    else
      var n := LeadLength(b[0]);
      if n == 0 || |b| < n || !ContinuationsOk(b, n) then None
      else
        var cp := CodePoint(b, n);
        if !IsScalar(cp) || EncodedLength(cp) != n then None
        else Some((cp as char, n))
  }

  function Decode(b: seq<byte>): (r: Option<string>)
    decreases |b|
  {
    if b == [] then Some([])
    else match DecodeChar(b)
      case None => None
      case Some((c, n)) =>
        match Decode(b[n..])
        case None => None
        case Some(rest) => Some([c] + rest)
  }

  // ---------------------------------------------------------------------
  // Round trip

  lemma DecodeEncodeChar(c: char, rest: seq<byte>)
    ensures DecodeChar(EncodeChar(c) + rest) == Some((c, |EncodeChar(c)|))
  {
    var cp := c as int;
    var b := EncodeChar(c) + rest;
    var n := |EncodeChar(c)|;
    if cp < 0x80 {
      assert b[0] as int == cp;
    } else if cp < 0x800 {
      OneContinuation(cp, b);
    } else if cp < 0x10000 {
      TwoContinuations(cp, b);
    } else {
      ThreeContinuations(cp, b);
    }
    assert LeadLength(b[0]) == n && ContinuationsOk(b, n) && CodePoint(b, n) == cp;
  }

  lemma OneContinuation(cp: int, b: seq<byte>)
    requires 0x80 <= cp < 0x800 && |b| >= 2
    requires b[0] as int == 0xC0 + cp / 0x40 && b[1] as int == 0x80 + cp % 0x40
    ensures LeadLength(b[0]) == 2 && ContinuationsOk(b, 2) && CodePoint(b, 2) == cp
  {
  }

  lemma TwoContinuations(cp: int, b: seq<byte>)
    requires 0x800 <= cp < 0x10000 && |b| >= 3
    requires b[0] as int == 0xE0 + cp / 0x1000 && b[1] as int == 0x80 + cp / 0x40 % 0x40
    requires b[2] as int == 0x80 + cp % 0x40
    ensures LeadLength(b[0]) == 3 && ContinuationsOk(b, 3) && CodePoint(b, 3) == cp
  {
    var hi, mid, lo := cp / 0x1000, cp / 0x40 % 0x40, cp % 0x40;
    assert cp / 0x40 == hi * 0x40 + mid;
    assert cp == hi * 0x1000 + mid * 0x40 + lo;
  }

  lemma ThreeContinuations(cp: int, b: seq<byte>)
    requires 0x10000 <= cp < 0x110000 && |b| >= 4
    requires b[0] as int == 0xF0 + cp / 0x40000 && b[1] as int == 0x80 + cp / 0x1000 % 0x40
    requires b[2] as int == 0x80 + cp / 0x40 % 0x40 && b[3] as int == 0x80 + cp % 0x40
    ensures LeadLength(b[0]) == 4 && ContinuationsOk(b, 4) && CodePoint(b, 4) == cp
  {
    var top, hi, mid, lo := cp / 0x40000, cp / 0x1000 % 0x40, cp / 0x40 % 0x40, cp % 0x40;
    assert cp / 0x1000 == top * 0x40 + hi;
    assert cp / 0x40 == (cp / 0x1000) * 0x40 + mid;
    assert cp == top * 0x40000 + hi * 0x1000 + mid * 0x40 + lo;
  }

  /** Decoding an encoding gives the string back. */
  lemma {:induction false} DecodeEncode(s: string)
    ensures Decode(Encode(s)) == Some(s)
  {
    if s != [] {
      var e := EncodeChar(s[0]);
      var rest := Encode(s[1..]);
      DecodeEncodeChar(s[0], rest);
      assert (e + rest)[|e|..] == rest;
      DecodeEncode(s[1..]);
      assert [s[0]] + s[1..] == s;
    }
  }

  /** Different strings never share an encoding. */
  lemma EncodeInjective(a: string, b: string)
    ensures Encode(a) == Encode(b) <==> a == b
  {
    if Encode(a) == Encode(b) {
      DecodeEncode(a);
      DecodeEncode(b);
    }
  }
}
