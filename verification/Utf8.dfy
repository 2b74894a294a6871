/**
 Bytes, and which of them are text in UTF-8: exactly those that encode a sequence of Unicode
 scalar values (sections 3 and 4 of RFC 3629).
 */
module Utf8 {
  type Byte = b: nat | b < 256

  predicate Continues(b: Byte) { 0x80 <= b <= 0xBF }

  /** Well-formed UTF-8 (table 3-7 of the Unicode Standard). */
  predicate IsUtf8(s: seq<Byte>) {
    if s == [] then true
    else if s[0] <= 0x7F then IsUtf8(s[1..])
    else if |s| >= 2 && 0xC2 <= s[0] <= 0xDF && Continues(s[1]) then IsUtf8(s[2..])
    else if |s| >= 3 && Continues(s[2]) &&
            ((s[0] == 0xE0 && 0xA0 <= s[1] <= 0xBF) || (0xE1 <= s[0] <= 0xEC && Continues(s[1])) ||
             (s[0] == 0xED && 0x80 <= s[1] <= 0x9F) || (0xEE <= s[0] <= 0xEF && Continues(s[1]))) then IsUtf8(s[3..])
    else if |s| >= 4 && Continues(s[2]) && Continues(s[3]) &&
            ((s[0] == 0xF0 && 0x90 <= s[1] <= 0xBF) || (0xF1 <= s[0] <= 0xF3 && Continues(s[1])) ||
             (s[0] == 0xF4 && 0x80 <= s[1] <= 0x8F)) then IsUtf8(s[4..])
    else false
  }

  lemma {:induction false} AsciiIsUtf8(s: seq<Byte>)
    requires forall i | 0 <= i < |s| :: s[i] <= 0x7F
    ensures IsUtf8(s)
  {
    if s != [] {
      AsciiIsUtf8(s[1..]);
    }
  }

  // ---- What it encodes -------------------------------------------------------------------------

  /** A Unicode scalar value: a code point that is not a surrogate. */
  type Scalar = c: nat | c < 0xD800 || 0xE000 <= c < 0x110000

  function Encode(c: Scalar): (s: seq<Byte>)
    ensures 1 <= |s| <= 4
  {
    if c < 0x80 then [c]
    else if c < 0x800 then [0xC0 + c / 64, 0x80 + c % 64]
    else if c < 0x10000 then [0xE0 + c / 4096, 0x80 + c / 64 % 64, 0x80 + c % 64]
    else [0xF0 + c / 262144, 0x80 + c / 4096 % 64, 0x80 + c / 64 % 64, 0x80 + c % 64]
  }

  function EncodeAll(text: seq<Scalar>): seq<Byte> {
    if text == [] then [] else Encode(text[0]) + EncodeAll(text[1..])
  }

  lemma EncodedFirst(c: Scalar, rest: seq<Byte>)
    ensures IsUtf8(Encode(c) + rest) <==> IsUtf8(rest)
  {
    var e, s := Encode(c), Encode(c) + rest;
    assert s[|e|..] == rest && forall i | 0 <= i < |e| :: s[i] == e[i];
    Bytes(c);
    hide Encode;
  }

  /** The bytes of a scalar value, as the table has them. */
  lemma Bytes(c: Scalar)
    ensures var e := Encode(c);
            match |e|
            case 1 => e[0] <= 0x7F
            case 2 => 0xC2 <= e[0] <= 0xDF && Continues(e[1])
            case 3 =>
              && Continues(e[1]) && Continues(e[2]) && 0xE0 <= e[0] <= 0xEF
              && (e[0] == 0xE0 ==> 0xA0 <= e[1]) && (e[0] == 0xED ==> e[1] <= 0x9F)
            case 4 =>
              && Continues(e[1]) && Continues(e[2]) && Continues(e[3]) && 0xF0 <= e[0] <= 0xF4
              && (e[0] == 0xF0 ==> 0x90 <= e[1]) && (e[0] == 0xF4 ==> e[1] <= 0x8F)
            case _ => false
  {
  }

  lemma {:induction false} EncodedIsUtf8(text: seq<Scalar>)
    ensures IsUtf8(EncodeAll(text))
  {
    if text != [] {
      EncodedIsUtf8(text[1..]);
      EncodedFirst(text[0], EncodeAll(text[1..]));
    }
  }

  lemma DecodeTwo(b0: Byte, b1: Byte) returns (c: Scalar)
    requires 0xC2 <= b0 <= 0xDF && Continues(b1)
    ensures Encode(c) == [b0, b1]
  {
    var x: int, y: int := b0 - 0xC0, b1 - 0x80;
    c := x * 64 + y;
    assert c / 64 == x && c % 64 == y;
  }

  lemma DecodeThree(b0: Byte, b1: Byte, b2: Byte) returns (c: Scalar)
    requires 0xE0 <= b0 <= 0xEF && Continues(b1) && Continues(b2)
    requires (b0 == 0xE0 ==> 0xA0 <= b1) && (b0 == 0xED ==> b1 <= 0x9F)
    ensures Encode(c) == [b0, b1, b2]
  {
    var x: int, y: int, z: int := b0 - 0xE0, b1 - 0x80, b2 - 0x80;
    c := x * 4096 + y * 64 + z;
    assert c / 4096 == x && c / 64 == x * 64 + y && c % 64 == z;
  }

  lemma DecodeFour(b0: Byte, b1: Byte, b2: Byte, b3: Byte) returns (c: Scalar)
    requires 0xF0 <= b0 <= 0xF4 && Continues(b1) && Continues(b2) && Continues(b3)
    requires (b0 == 0xF0 ==> 0x90 <= b1) && (b0 == 0xF4 ==> b1 <= 0x8F)
    ensures Encode(c) == [b0, b1, b2, b3]
  {
    var x: int, y: int, z: int, w: int := b0 - 0xF0, b1 - 0x80, b2 - 0x80, b3 - 0x80;
    c := x * 262144 + y * 4096 + z * 64 + w;
    assert c / 262144 == x && c / 4096 == x * 64 + y && c / 64 == x * 4096 + y * 64 + z && c % 64 == w;
  }

  /** The first scalar value of well-formed text. */
  lemma DecodeFirst(s: seq<Byte>) returns (c: Scalar, rest: seq<Byte>)
    requires s != [] && IsUtf8(s)
    ensures s == Encode(c) + rest && IsUtf8(rest)
  {
    hide Encode;
    if s[0] <= 0x7F {
      c, rest := s[0], s[1..];
      assert Encode(c) == [c] by { EncodeOne(c); }
    } else if s[0] <= 0xDF {
      c := DecodeTwo(s[0], s[1]);
      rest := s[2..];
    } else if s[0] <= 0xEF {
      c := DecodeThree(s[0], s[1], s[2]);
      rest := s[3..];
    } else {
      c := DecodeFour(s[0], s[1], s[2], s[3]);
      rest := s[4..];
    }
  }

  lemma EncodeOne(c: Scalar)
    requires c < 0x80
    ensures Encode(c) == [c]
  {
  }

  lemma {:induction false} Decode(s: seq<Byte>) returns (text: seq<Scalar>)
    requires IsUtf8(s)
    ensures EncodeAll(text) == s
    decreases |s|
  {
    if s == [] {
      text := [];
    } else {
      var c, rest := DecodeFirst(s);
      var more := Decode(rest);
      text := [c] + more;
      assert text[1..] == more;
    }
  }

  /** Bytes are text exactly when they encode some sequence of scalar values. */
  lemma Utf8IsEncodedText(s: seq<Byte>)
    ensures IsUtf8(s) <==> exists text: seq<Scalar> :: EncodeAll(text) == s
  {
    if IsUtf8(s) {
      var text := Decode(s);
      assert EncodeAll(text) == s;
    }
    if text: seq<Scalar> :| EncodeAll(text) == s {
      EncodedIsUtf8(text);
    }
  }
}
