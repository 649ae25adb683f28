/** message.getBytes(StandardCharsets.UTF_8): the encoding the sender puts
    into its buffer. A Dafny char is a Unicode scalar value, so every string
    here is well formed and each char becomes one to four bytes. */
module Utf8 {
  import opened Wire

  /** The UTF-8 bytes of one scalar value. */
  function EncodeChar(c: char): (r: seq<byte>)
    ensures 1 <= |r| <= 4
    ensures |r| == 1 <==> c as int < 0x80
    ensures |r| == 1 ==> r[0] == c as int
    ensures |r| > 1 ==> 0xC0 <= r[0] && forall k :: 1 <= k < |r| ==> 0x80 <= r[k] < 0xC0
  {
    var cp := c as int;
    if cp < 0x80 then [cp]
    else if cp < 0x800 then [0xC0 + cp / 0x40, 0x80 + cp % 0x40]
    else if cp < 0x1_0000 then
      [0xE0 + cp / 0x1000, 0x80 + cp / 0x40 % 0x40, 0x80 + cp % 0x40]
    else
      [0xF0 + cp / 0x4_0000, 0x80 + cp / 0x1000 % 0x40, 0x80 + cp / 0x40 % 0x40, 0x80 + cp % 0x40]
  }

  /** The UTF-8 bytes of a string, char by char: every char takes at
      least one and at most four bytes. */
  function Encode(s: string): (r: seq<byte>)
    ensures |s| <= |r| <= 4 * |s|
  {
    if s == [] then [] else EncodeChar(s[0]) + Encode(s[1..])
  }

  /** Encoding distributes over concatenation. */
  lemma {:induction false} EncodeAppend(a: string, b: string)
    ensures Encode(a + b) == Encode(a) + Encode(b)
  {
    if a == [] {
      assert a + b == b;
    } else {
      assert (a + b)[1..] == a[1..] + b;
      EncodeAppend(a[1..], b);
    }
  }

  /** A string of ASCII chars encodes to its own code units. */
  lemma {:induction false} EncodeAscii(s: string)
    requires forall k :: 0 <= k < |s| ==> s[k] as int < 0x80
    ensures |Encode(s)| == |s|
    ensures forall k :: 0 <= k < |s| ==> Encode(s)[k] == s[k] as int
  {
    if s != [] {
      EncodeAscii(s[1..]);
    }
  }

  /** Messages of at most capacity / 4 chars always fit a buffer of that
      capacity; messages longer than the capacity never do. */
  lemma FitsBuffer(s: string, capacity: nat)
    ensures 4 * |s| <= capacity ==> |Encode(s)| <= capacity
    ensures |s| > capacity ==> |Encode(s)| > capacity
  {
  }

  predicate IsContinuation(b: byte)
  {
    0x80 <= b < 0xC0
  }

  /** The scalar value a lead byte and its continuation bytes spell, read
      back from the head of bytes, with the number of bytes read; None when
      bytes do not start with a sequence EncodeChar can produce: a stray
      continuation byte, a missing or wrong continuation byte, an overlong
      form, a surrogate or a value past U+10FFFF. */
  function DecodeChar(bytes: seq<byte>): (r: Option<(char, nat)>)
    ensures r.Some? ==> 1 <= r.value.1 <= 4 && r.value.1 <= |bytes|
    ensures bytes != [] && bytes[0] < 0x80 ==> r == Some((bytes[0] as char, 1))
    ensures bytes != [] && IsContinuation(bytes[0]) ==> r.None?
  {
    if bytes == [] then None
    else
      var b0 := bytes[0] as int;
      if b0 < 0x80 then Some((b0 as char, 1))
      else if b0 < 0xC0 then None
      else if b0 < 0xE0 then
        if |bytes| < 2 || !IsContinuation(bytes[1]) then None
        else ScalarOf((b0 - 0xC0) * 0x40 + (bytes[1] as int - 0x80), 2, 0x80)
      else if b0 < 0xF0 then
        if |bytes| < 3 || !IsContinuation(bytes[1]) || !IsContinuation(bytes[2]) then None
        else ScalarOf((b0 - 0xE0) * 0x1000 + (bytes[1] as int - 0x80) * 0x40 + (bytes[2] as int - 0x80), 3, 0x800)
      else
        if |bytes| < 4 || !IsContinuation(bytes[1]) || !IsContinuation(bytes[2]) || !IsContinuation(bytes[3]) then None
        else ScalarOf((b0 - 0xF0) * 0x4_0000 + (bytes[1] as int - 0x80) * 0x1000
                      + (bytes[2] as int - 0x80) * 0x40 + (bytes[3] as int - 0x80), 4, 0x1_0000)
  }

  /** cp as a char read from width bytes, unless it is below the least value
      that needs that many bytes, a surrogate, or past U+10FFFF. */
  function ScalarOf(cp: int, width: nat, least: int): Option<(char, nat)>
  {
    if least <= cp && (0 <= cp < 0xD800 || 0xE000 <= cp < 0x11_0000) then Some((cp as char, width)) else None
  }

  /** The digits, in base 0x40, of a value spelled by two bytes. */
  lemma Digits2(cp: int, d1: int, d0: int)
    requires 0 <= d1 && 0 <= d0 < 0x40 && cp == d1 * 0x40 + d0
    ensures cp / 0x40 == d1 && cp % 0x40 == d0
  {
  }

  lemma Digits3(cp: int, d2: int, d1: int, d0: int)
    requires 0 <= d2 && 0 <= d1 < 0x40 && 0 <= d0 < 0x40
    requires cp == d2 * 0x1000 + d1 * 0x40 + d0
    ensures cp / 0x1000 == d2 && cp / 0x40 % 0x40 == d1 && cp % 0x40 == d0
  {
    Digits2(cp, d2 * 0x40 + d1, d0);
    Digits2(d2 * 0x40 + d1, d2, d1);
  }

  lemma Digits4(cp: int, d3: int, d2: int, d1: int, d0: int)
    requires 0 <= d3 && 0 <= d2 < 0x40 && 0 <= d1 < 0x40 && 0 <= d0 < 0x40
    requires cp == d3 * 0x4_0000 + d2 * 0x1000 + d1 * 0x40 + d0
    ensures cp / 0x4_0000 == d3 && cp / 0x1000 % 0x40 == d2
    ensures cp / 0x40 % 0x40 == d1 && cp % 0x40 == d0
  {
    Digits2(cp, d3 * 0x1000 + d2 * 0x40 + d1, d0);
    Digits3(d3 * 0x1000 + d2 * 0x40 + d1, d3, d2, d1);
    Digits2(cp, d3 * 0x1000 + d2 * 0x40 + d1, d0);
    assert cp / 0x1000 == (cp / 0x40) / 0x40;
    assert cp / 0x4_0000 == (cp / 0x40) / 0x1000;
  }

  /** DecodeChar accepts exactly the encodings of chars: whatever it reads
      is the encoding of the char it returns. */
  lemma DecodeCharReadsEncoding(bytes: seq<byte>)
    ensures DecodeChar(bytes).Some? ==>
      var (c, width) := DecodeChar(bytes).value;
      1 <= width <= |bytes| && bytes[..width] == EncodeChar(c)
  {
    if DecodeChar(bytes).Some? {
      var (c, width) := DecodeChar(bytes).value;
      var cp := c as int;
      var b0 := bytes[0] as int;
      if width == 2 {
        Digits2(cp, b0 - 0xC0, bytes[1] as int - 0x80);
      } else if width == 3 {
        Digits3(cp, b0 - 0xE0, bytes[1] as int - 0x80, bytes[2] as int - 0x80);
      } else if width == 4 {
        Digits4(cp, b0 - 0xF0, bytes[1] as int - 0x80, bytes[2] as int - 0x80, bytes[3] as int - 0x80);
      }
    }
  }

  /** The inverse of Encode on the byte strings it produces. */
  function Decode(bytes: seq<byte>): (r: Option<string>)
    ensures r.Some? ==> |r.value| <= |bytes| <= 4 * |r.value|
    decreases |bytes|
  {
    if bytes == [] then Some([])
    else match DecodeChar(bytes)
      case None => None
      case Some((c, width)) =>
        match Decode(bytes[width..])
        case None => None
        case Some(rest) => Some([c] + rest)
  }

  /** Reading one char back from its encoding, followed by anything. */
  lemma DecodeEncodeChar(c: char, tail: seq<byte>)
    ensures DecodeChar(EncodeChar(c) + tail) == Some((c, |EncodeChar(c)|))
  {
    var cp := c as int;
    var e := EncodeChar(c);
    var bytes := e + tail;
    assert bytes[..|e|] == e;
    if cp < 0x80 {
    } else if cp < 0x800 {
      assert bytes[0] == e[0] && bytes[1] == e[1];
      assert cp == cp / 0x40 * 0x40 + cp % 0x40;
    } else if cp < 0x1_0000 {
      assert bytes[0] == e[0] && bytes[1] == e[1] && bytes[2] == e[2];
      Recompose3(cp);
    } else {
      assert bytes[0] == e[0] && bytes[1] == e[1] && bytes[2] == e[2] && bytes[3] == e[3];
      Recompose4(cp);
    }
  }

  /** A value is its three six-bit digits put back together. */
  lemma Recompose3(cp: nat)
    ensures cp == cp / 0x1000 * 0x1000 + cp / 0x40 % 0x40 * 0x40 + cp % 0x40
  {
    assert cp / 0x40 == cp / 0x1000 * 0x40 + cp / 0x40 % 0x40;
  }

  /** A value is its four six-bit digits put back together. */
  lemma Recompose4(cp: nat)
    ensures cp == cp / 0x4_0000 * 0x4_0000 + cp / 0x1000 % 0x40 * 0x1000 + cp / 0x40 % 0x40 * 0x40 + cp % 0x40
  {
    Recompose3(cp);
    assert cp / 0x1000 == cp / 0x4_0000 * 0x40 + cp / 0x1000 % 0x40;
  }


  /** Decoding undoes encoding. */
  lemma {:induction false} DecodeEncode(s: string)
    ensures Decode(Encode(s)) == Some(s)
  {
    if s != [] {
      var e := EncodeChar(s[0]);
      DecodeEncodeChar(s[0], Encode(s[1..]));
      assert (e + Encode(s[1..]))[|e|..] == Encode(s[1..]);
      DecodeEncode(s[1..]);
      assert [s[0]] + s[1..] == s;
    }
  }

  /** Decode accepts only what Encode produces, so with DecodeEncode it is
      the exact inverse of Encode. */
  lemma {:induction false} DecodeReadsEncoding(bytes: seq<byte>)
    ensures Decode(bytes).Some? ==> bytes == Encode(Decode(bytes).value)
    decreases |bytes|
  {
    if bytes != [] && Decode(bytes).Some? {
      DecodeCharReadsEncoding(bytes);
      var (c, width) := DecodeChar(bytes).value;
      DecodeReadsEncoding(bytes[width..]);
      var rest := Decode(bytes[width..]).value;
      var decoded := [c] + rest;
      assert Decode(bytes) == Some(decoded);
      assert decoded[0] == c && decoded[1..] == rest;
      assert Encode(decoded) == EncodeChar(c) + Encode(rest);
      assert bytes == bytes[..width] + bytes[width..];
    }
  }

  /** A lead byte followed by a byte that is not a continuation byte, as a
      malformed datagram from some other sender can hold, is refused. */
  lemma DecodeRefusesMissingContinuation()
    ensures DecodeChar([0xC2, 0x41]) == None
  {
  }

  /** The overlong two-byte form of 'A' is refused. */
  lemma DecodeRefusesOverlong()
    ensures Decode([0xC1, 0x81]) == None
  {
  }
}
