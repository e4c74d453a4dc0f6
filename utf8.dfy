/**
  Bytes and the UTF-8 encoding form of RFC 3629, section 4.

  The terminal moves raw bytes between the PTY and the connection. Rust's
  `str::as_bytes` turns a text message into the bytes written to the PTY, and
  `String::from_utf8` decides whether PTY output is sent as text or as binary.
  This module gives both a definition: `Encode` (what `as_bytes` yields for a
  string), `IsValid` (the RFC's well-formedness grammar) and `Decode` (what
  `from_utf8` accepts and produces), with the round trips between them.
*/
module Utf8 {

  newtype byte = b: int | 0 <= b < 0x100

  type Bytes = seq<byte>

  datatype Option<+T> = None | Some(value: T)

  // ---------------------------------------------------------------------
  // Encoding (Rust strings are stored as UTF-8; `as_bytes` exposes them)
  // ---------------------------------------------------------------------

  /** The UTF-8 bytes of one Unicode scalar value. */
  function EncodeChar(c: char): (r: Bytes)
    ensures 1 <= |r| <= 4
    ensures |r| == 1 <==> (c as int) < 0x80
  {
    var cp := c as int;
    if cp < 0x80 then
      [cp as byte]
    else if cp < 0x800 then
      [(0xC0 + cp / 64) as byte, (0x80 + cp % 64) as byte]
    else if cp < 0x10000 then
      [(0xE0 + cp / 4096) as byte, (0x80 + (cp % 4096) / 64) as byte, (0x80 + cp % 64) as byte]
    else
      [(0xF0 + cp / 262144) as byte, (0x80 + (cp % 262144) / 4096) as byte,
       (0x80 + (cp % 4096) / 64) as byte, (0x80 + cp % 64) as byte]
  }

  /** The UTF-8 bytes of a string, character by character. */
  function Encode(s: string): (r: Bytes)
    ensures |r| >= |s|
  {
    if s == [] then [] else EncodeChar(s[0]) + Encode(s[1..])
  }

  // ---------------------------------------------------------------------
  // Well-formedness (RFC 3629, section 4, "Syntax of UTF-8 Byte Sequences")
  // ---------------------------------------------------------------------

  predicate IsTail(b: byte) { 0x80 <= b <= 0xBF }

  /**
    The length of the well-formed character (UTF8-1 .. UTF8-4 in the RFC's
    grammar) at the front of `b`, or 0 when `b` does not start with one.
  */
  function CharWidth(b: Bytes): (n: nat)
    ensures n <= 4 && n <= |b|
    ensures n == 0 <== b == []
  {
    if |b| == 0 then 0
    else
      var b0 := b[0];
      if b0 <= 0x7F then 1
      else if 0xC2 <= b0 <= 0xDF then
        (if 2 <= |b| && IsTail(b[1]) then 2 else 0)
      else if b0 == 0xE0 then
        (if 3 <= |b| && 0xA0 <= b[1] <= 0xBF && IsTail(b[2]) then 3 else 0)
      else if 0xE1 <= b0 <= 0xEC || 0xEE <= b0 <= 0xEF then
        (if 3 <= |b| && IsTail(b[1]) && IsTail(b[2]) then 3 else 0)
      else if b0 == 0xED then
        (if 3 <= |b| && 0x80 <= b[1] <= 0x9F && IsTail(b[2]) then 3 else 0)
      else if b0 == 0xF0 then
        (if 4 <= |b| && 0x90 <= b[1] <= 0xBF && IsTail(b[2]) && IsTail(b[3]) then 4 else 0)
      else if 0xF1 <= b0 <= 0xF3 then
        (if 4 <= |b| && IsTail(b[1]) && IsTail(b[2]) && IsTail(b[3]) then 4 else 0)
      else if b0 == 0xF4 then
        (if 4 <= |b| && 0x80 <= b[1] <= 0x8F && IsTail(b[2]) && IsTail(b[3]) then 4 else 0)
      else 0
  }

  /** `b` is a sequence of well-formed UTF-8 characters (the RFC's UTF8-octets). */
  predicate IsValid(b: Bytes)
    decreases |b|
  {
    b == [] || (CharWidth(b) > 0 && IsValid(b[CharWidth(b)..]))
  }

  // ---------------------------------------------------------------------
  // Decoding (`String::from_utf8`)
  // ---------------------------------------------------------------------

  /** The scalar value of the well-formed character at the front of `b`. */
  function ScalarAt(b: Bytes): char
    requires CharWidth(b) > 0
  {
    var n := CharWidth(b);
    var cp :=
      if n == 1 then b[0] as int
      else if n == 2 then (b[0] as int - 0xC0) * 64 + (b[1] as int - 0x80)
      else if n == 3 then
        (b[0] as int - 0xE0) * 4096 + (b[1] as int - 0x80) * 64 + (b[2] as int - 0x80)
      else
        (b[0] as int - 0xF0) * 262144 + (b[1] as int - 0x80) * 4096
        + (b[2] as int - 0x80) * 64 + (b[3] as int - 0x80);
    cp as char
  }

  /** The string `b` encodes, or None when `b` is not well-formed UTF-8. */
  function Decode(b: Bytes): Option<string>
    decreases |b|
  {
    if b == [] then Some([])
    else
      var n := CharWidth(b);
      if n == 0 then None
      else
        match Decode(b[n..])
        case None => None
        case Some(rest) => Some([ScalarAt(b)] + rest)
  }

  // ---------------------------------------------------------------------
  // Properties
  // ---------------------------------------------------------------------

  /** `from_utf8` succeeds exactly on the RFC's well-formed sequences. */
  lemma {:induction false} DecodeSucceedsIffValid(b: Bytes)
    ensures Decode(b).Some? <==> IsValid(b)
    decreases |b|
  {
    if b != [] && CharWidth(b) > 0 {
      DecodeSucceedsIffValid(b[CharWidth(b)..]);
    }
  }

  /** The encoding of one character is recognised as exactly one character, with the same value. */
  lemma EncodeCharReadsBack(c: char, rest: Bytes)
    ensures CharWidth(EncodeChar(c) + rest) == |EncodeChar(c)|
    ensures ScalarAt(EncodeChar(c) + rest) == c
  {
    var cp := c as int;
    if cp < 0x80 {
    } else if cp < 0x800 {
      TwoByteReadsBack(c, rest);
    } else if cp < 0x10000 {
      ThreeByteReadsBack(c, rest);
    } else {
      FourByteReadsBack(c, rest);
    }
  }

  lemma TwoByteReadsBack(c: char, rest: Bytes)
    requires 0x80 <= c as int < 0x800
    ensures CharWidth(EncodeChar(c) + rest) == 2
    ensures ScalarAt(EncodeChar(c) + rest) == c
  {
    var cp := c as int;
    var x0, x1 := cp / 64, cp % 64;
    assert cp == x0 * 64 + x1;
    var b := EncodeChar(c) + rest;
    assert b[0] as int == 0xC0 + x0 && b[1] as int == 0x80 + x1;
  }

  lemma ThreeByteReadsBack(c: char, rest: Bytes)
    requires 0x800 <= c as int < 0x10000
    ensures CharWidth(EncodeChar(c) + rest) == 3
    ensures ScalarAt(EncodeChar(c) + rest) == c
  {
    var cp := c as int;
    var x0, x1, x2 := cp / 4096, (cp % 4096) / 64, cp % 64;
    assert cp % 4096 == x1 * 64 + x2;
    assert cp == x0 * 4096 + x1 * 64 + x2;
    var b := EncodeChar(c) + rest;
    assert b[0] as int == 0xE0 + x0 && b[1] as int == 0x80 + x1 && b[2] as int == 0x80 + x2;
    assert x0 == 0 ==> x1 >= 32;
    assert x0 == 13 ==> x1 < 32;
  }

  lemma FourByteReadsBack(c: char, rest: Bytes)
    requires 0x10000 <= c as int
    ensures CharWidth(EncodeChar(c) + rest) == 4
    ensures ScalarAt(EncodeChar(c) + rest) == c
  {
    var cp := c as int;
    var x0, x1, x2, x3 := cp / 262144, (cp % 262144) / 4096, (cp % 4096) / 64, cp % 64;
    assert cp % 4096 == x2 * 64 + x3;
    assert cp % 262144 == x1 * 4096 + cp % 4096;
    assert cp == x0 * 262144 + x1 * 4096 + x2 * 64 + x3;
    var b := EncodeChar(c) + rest;
    assert b[0] as int == 0xF0 + x0 && b[1] as int == 0x80 + x1;
    assert b[2] as int == 0x80 + x2 && b[3] as int == 0x80 + x3;
    assert x0 == 0 ==> x1 >= 16;
    assert x0 == 4 ==> x1 < 16;
  }

  /** Two base-64 digits, as in a two-byte character. */
  lemma Digits2(x0: int, x1: int)
    requires 0 <= x1 < 64
    ensures (x0 * 64 + x1) / 64 == x0 && (x0 * 64 + x1) % 64 == x1
  {
  }

  /** Three base-64 digits, as in a three-byte character. */
  lemma Digits3(x0: int, x1: int, x2: int)
    requires 0 <= x0 < 16 && 0 <= x1 < 64 && 0 <= x2 < 64
    ensures var cp := x0 * 4096 + x1 * 64 + x2;
      cp / 4096 == x0 && (cp % 4096) / 64 == x1 && cp % 64 == x2
  {
    var cp := x0 * 4096 + x1 * 64 + x2;
    assert cp / 4096 == x0;
    assert cp % 4096 == x1 * 64 + x2;
    Digits2(x1, x2);
    Digits2(x0 * 64 + x1, x2);
  }

  /** Four base-64 digits, as in a four-byte character. */
  lemma Digits4(x0: int, x1: int, x2: int, x3: int)
    requires 0 <= x0 < 8 && 0 <= x1 < 64 && 0 <= x2 < 64 && 0 <= x3 < 64
    ensures var cp := x0 * 262144 + x1 * 4096 + x2 * 64 + x3;
      cp / 262144 == x0 && (cp % 262144) / 4096 == x1 && (cp % 4096) / 64 == x2 && cp % 64 == x3
  {
    var cp := x0 * 262144 + x1 * 4096 + x2 * 64 + x3;
    assert cp / 262144 == x0;
    assert cp % 262144 == x1 * 4096 + (x2 * 64 + x3);
    assert (x1 * 4096 + (x2 * 64 + x3)) / 4096 == x1;
    var hi := x0 * 64 + x1;
    assert cp == hi * 4096 + x2 * 64 + x3;
    assert cp % 4096 == x2 * 64 + x3;
    Digits2(x2, x3);
    Digits2(hi * 64 + x2, x3);
  }

  /** A well-formed character re-encodes to the very bytes it was read from. */
  lemma ScalarAtEncodesBack(b: Bytes)
    requires CharWidth(b) > 0
    ensures EncodeChar(ScalarAt(b)) == b[..CharWidth(b)]
  {
    var n := CharWidth(b);
    if n == 2 {
      TwoByteEncodesBack(b);
    } else if n == 3 {
      ThreeByteEncodesBack(b);
    } else if n == 4 {
      FourByteEncodesBack(b);
    }
  }

  lemma TwoByteEncodesBack(b: Bytes)
    requires CharWidth(b) == 2
    ensures EncodeChar(ScalarAt(b)) == b[..2]
  {
    Digits2(b[0] as int - 0xC0, b[1] as int - 0x80);
  }

  lemma ThreeByteEncodesBack(b: Bytes)
    requires CharWidth(b) == 3
    ensures EncodeChar(ScalarAt(b)) == b[..3]
  {
    Digits3(b[0] as int - 0xE0, b[1] as int - 0x80, b[2] as int - 0x80);
  }

  lemma FourByteEncodesBack(b: Bytes)
    requires CharWidth(b) == 4
    ensures EncodeChar(ScalarAt(b)) == b[..4]
  {
    Digits4(b[0] as int - 0xF0, b[1] as int - 0x80, b[2] as int - 0x80, b[3] as int - 0x80);
  }

  /** Round trip: decoding the UTF-8 of a string gives the string back. */
  lemma {:induction false} DecodeEncode(s: string)
    ensures Decode(Encode(s)) == Some(s)
  {
    if s != [] {
      var e := EncodeChar(s[0]);
      EncodeCharReadsBack(s[0], Encode(s[1..]));
      assert (e + Encode(s[1..]))[|e|..] == Encode(s[1..]);
      DecodeEncode(s[1..]);
      assert [s[0]] + s[1..] == s;
    }
  }

  /** Round trip: a successfully decoded string encodes to the bytes it came from. */
  lemma {:induction false} EncodeDecode(b: Bytes)
    requires Decode(b).Some?
    ensures Encode(Decode(b).value) == b
    decreases |b|
  {
    if b != [] {
      var n := CharWidth(b);
      var s := Decode(b).value;
      EncodeDecode(b[n..]);
      ScalarAtEncodesBack(b);
      assert s[0] == ScalarAt(b) && s[1..] == Decode(b[n..]).value;
      assert b[..n] + b[n..] == b;
    }
  }

  /** The bytes of any string are well-formed UTF-8. */
  lemma EncodeIsValid(s: string)
    ensures IsValid(Encode(s))
  {
    DecodeEncode(s);
    DecodeSucceedsIffValid(Encode(s));
  }

  /** Encoding distributes over concatenation. */
  lemma {:induction false} EncodeAppend(s: string, t: string)
    ensures Encode(s + t) == Encode(s) + Encode(t)
  {
    if s != [] {
      assert (s + t)[0] == s[0] && (s + t)[1..] == s[1..] + t;
      EncodeAppend(s[1..], t);
      var e := EncodeChar(s[0]);
      assert Encode(s + t) == e + (Encode(s[1..]) + Encode(t));
    } else {
      assert s + t == t;
    }
  }

  /**
    Splitting a multi-byte character at a read boundary yields bytes that are
    not UTF-8: the first two bytes of U+20AC (EURO SIGN) do not decode.
  */
  lemma SplitCharacterDoesNotDecode()
    ensures Encode("€") == [0xE2, 0x82, 0xAC]
    ensures Decode([0xE2, 0x82]) == None
    ensures Decode([0xE2, 0x82, 0xAC]) == Some("€")
  {
    assert Encode("€") == EncodeChar('€');
    var b: Bytes := [0xE2, 0x82, 0xAC];
    assert CharWidth(b) == 3 && ScalarAt(b) == '€';
    assert b[3..] == [] && Decode(b[3..]) == Some([]);
    assert [ScalarAt(b)] + [] == "€";
  }

  // ---------------------------------------------------------------------
  // Lossy decoding (`String::from_utf8_lossy`)
  // ---------------------------------------------------------------------

  /** U+FFFD REPLACEMENT CHARACTER. */
  const Replacement: char := '\U{FFFD}'

  /** The allowed range of the second byte of a character led by `b0`. */
  predicate SecondFits(b0: byte, b1: byte) {
    if b0 == 0xE0 then 0xA0 <= b1 <= 0xBF
    else if b0 == 0xED then 0x80 <= b1 <= 0x9F
    else if b0 == 0xF0 then 0x90 <= b1 <= 0xBF
    else if b0 == 0xF4 then 0x80 <= b1 <= 0x8F
    else IsTail(b1)
  }

  /**
    The length of the maximal subpart of an ill-formed sequence at the front of
    `b`: the longest prefix that could still begin a well-formed character, or
    one byte when none could. Each such subpart becomes one U+FFFD.
  */
  function InvalidLength(b: Bytes): (n: nat)
    requires b != [] && CharWidth(b) == 0
    ensures 1 <= n <= 3 && n <= |b|
  {
    var b0 := b[0];
    if 0xC2 <= b0 <= 0xDF then 1
    else if 0xE0 <= b0 <= 0xEF then
      (if 2 <= |b| && SecondFits(b0, b[1]) then 2 else 1)
    else if 0xF0 <= b0 <= 0xF4 then
      (if 2 <= |b| && SecondFits(b0, b[1]) then
         (if 3 <= |b| && IsTail(b[2]) then 3 else 2)
       else 1)
    else 1
  }

  /** The string `from_utf8_lossy` makes of `b`: ill-formed parts become U+FFFD. */
  function LossyDecode(b: Bytes): (s: string)
    ensures |s| <= |b|
    decreases |b|
  {
    if b == [] then []
    else if CharWidth(b) > 0 then [ScalarAt(b)] + LossyDecode(b[CharWidth(b)..])
    else [Replacement] + LossyDecode(b[InvalidLength(b)..])
  }

  /** On well-formed input the lossy decoder agrees with the strict one. */
  lemma {:induction false} LossyDecodeOfValid(b: Bytes)
    requires Decode(b).Some?
    ensures LossyDecode(b) == Decode(b).value
    decreases |b|
  {
    if b != [] {
      LossyDecodeOfValid(b[CharWidth(b)..]);
    }
  }

  /** Lossy decoding of a string's own bytes gives the string back. */
  lemma LossyDecodeEncode(s: string)
    ensures LossyDecode(Encode(s)) == s
  {
    DecodeEncode(s);
    LossyDecodeOfValid(Encode(s));
  }

  /**
    A truncated character is one maximal subpart, however many of its bytes
    arrived; a byte that can never start a character is one subpart on its own.
  */
  lemma LossyReplacementExamples()
    ensures LossyDecode([0xE2, 0x82]) == [Replacement]
    ensures LossyDecode([0xFF, 0x41]) == [Replacement, 'A']
  {
    var a: Bytes := [0xE2, 0x82];
    assert CharWidth(a) == 0 && InvalidLength(a) == 2 && a[2..] == [];
    var c: Bytes := [0xFF, 0x41];
    var d: Bytes := [0x41];
    assert CharWidth(c) == 0 && InvalidLength(c) == 1 && c[1..] == d;
    assert CharWidth(d) == 1 && ScalarAt(d) == 'A' && d[1..] == [];
  }
}
