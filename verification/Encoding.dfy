/** Strings made of bytes: what is valid UTF-8, and what becomes of bytes that are not. */
module Encoding {
  import opened LittleEndian

  predicate Ascii(s: seq<Octet>) { forall i :: 0 <= i < |s| ==> s[i] < 0x80 }

  /** A check of byte strings, as the string library makes it; the least that is assumed of it is that ASCII passes. */
  type Validity = v: seq<Octet> -> bool | forall s :: Ascii(s) ==> v(s) witness (s => true)

  /** The length of the character that starts with a byte; 0 if none does. */
  function CharLength(b: Octet): (n: nat)
    ensures n <= 4
  {
    if b < 0x80 then 1
    else if 0xC2 <= b <= 0xDF then 2
    else if 0xE0 <= b <= 0xEF then 3
    else if 0xF0 <= b <= 0xF4 then 4
    else 0
  }

  /** No character is encoded longer than need be, none is a surrogate, and none is beyond 0x10FFFF. */
  predicate SecondByte(b: Octet, c: Octet) {
    && (b == 0xE0 ==> c >= 0xA0) && (b == 0xED ==> c < 0xA0)
    && (b == 0xF0 ==> c >= 0x90) && (b == 0xF4 ==> c < 0x90)
  }

  predicate Continuation(b: Octet) { 0x80 <= b < 0xC0 }

  /** Whether s starts with a character. */
  predicate StartsWithChar(s: seq<Octet>)
    requires s != []
  {
    var n := CharLength(s[0]);
    && 0 < n <= |s| && (forall i :: 1 <= i < n ==> Continuation(s[i])) && (n > 1 ==> SecondByte(s[0], s[1]))
  }

  /** RFC 3629, section 4. */
  predicate Utf8(s: seq<Octet>) {
    s == [] || (StartsWithChar(s) && Utf8(s[CharLength(s[0])..]))
  }

  lemma {:induction false} AsciiIsUtf8(s: seq<Octet>)
    requires Ascii(s)
    ensures Utf8(s)
  {
    if s == [] {
    } else {
      AsciiIsUtf8(s[1..]);
    }
  }

  /** The check of RFC 3629. */
  function Standard(): (v: Validity)
    ensures forall s :: v(s) == Utf8(s)
  {
    assert forall s :: Ascii(s) ==> Utf8(s) by {
      forall s | Ascii(s) ensures Utf8(s) {
        AsciiIsUtf8(s);
      }
    }
    s => Utf8(s)
  }

  /** Whether s starts with a character does not depend on what follows it. */
  lemma CharIsLocal(a: seq<Octet>, b: seq<Octet>)
    requires a != []
    ensures StartsWithChar(a) ==> StartsWithChar(a + b)
    ensures StartsWithChar(a + b) && CharLength(a[0]) <= |a| ==> StartsWithChar(a)
    ensures CharLength(a[0]) <= |a| ==> (a + b)[CharLength(a[0])..] == a[CharLength(a[0])..] + b
  {
    assert forall i :: 0 <= i < |a| ==> (a + b)[i] == a[i];
  }

  /** Text may be cut before a byte that continues no character, and joined anywhere. */
  lemma {:induction false} Utf8OfSum(a: seq<Octet>, b: seq<Octet>)
    ensures Utf8(a) && Utf8(b) ==> Utf8(a + b)
    ensures Utf8(a + b) && (b == [] || !Continuation(b[0])) ==> Utf8(a) && Utf8(b)
  {
    hide StartsWithChar, Continuation, CharLength;
    if a == [] {
      assert a + b == b;
    } else {
      var n := CharLength(a[0]);
      CharIsLocal(a, b);
      CharEnds(a, b);
      if 0 < n <= |a| {
        Utf8OfSum(a[n..], b);
      }
    }
  }

  lemma CharEnds(a: seq<Octet>, b: seq<Octet>)
    requires a != []
    ensures StartsWithChar(a) ==> 0 < CharLength(a[0]) <= |a|
    ensures StartsWithChar(a + b) && (b == [] || !Continuation(b[0])) ==> 0 < CharLength(a[0]) <= |a|
  {
    if b != [] && |a| < CharLength(a[0]) {
      assert (a + b)[|a|] == b[0];
    }
  }

  /** The encoding of a character of Latin-1. */
  function LatinChar(b: Octet): (r: seq<Octet>)
    ensures Utf8(r)
  {
    if b < 0x80 then [b] else [0xC0 + b / 64, 0x80 + b % 64]
  }

  /** The text whose characters are the bytes. */
  function FromLatin1(s: seq<Octet>): (r: seq<Octet>)
    ensures s != [] && s[0] < 0x80 ==> r != [] && r[0] == s[0]
  {
    if s == [] then [] else LatinChar(s[0]) + FromLatin1(s[1..])
  }

  /** Every byte beyond ASCII takes one more. */
  lemma {:induction false} LatinSize(s: seq<Octet>)
    ensures |s| <= |FromLatin1(s)| <= 2 * |s|
    ensures |FromLatin1(s)| == |s| <==> Ascii(s)
  {
    if s == [] {
    } else {
      LatinSize(s[1..]);
      assert Ascii(s) <==> s[0] < 0x80 && Ascii(s[1..]) by {
        assert forall i :: 1 <= i < |s| ==> s[i] == s[1..][i - 1];
      }
    }
  }

  lemma {:induction false} LatinIsUtf8(s: seq<Octet>)
    ensures Utf8(FromLatin1(s))
  {
    hide Utf8, LatinChar;
    if s == [] {
      AsciiIsUtf8([]);
    } else {
      LatinIsUtf8(s[1..]);
      Utf8OfSum(LatinChar(s[0]), FromLatin1(s[1..]));
    }
  }

  /** What is made of bytes that should be text: the text itself, or that of Latin-1 if it is not valid. */
  function Decoded(valid: Validity, s: seq<Octet>): seq<Octet> {
    if valid(s) then s else FromLatin1(s)
  }

  /** A text is decoded as it is if and only if it is valid; otherwise it gets longer, at most twice as long. */
  lemma DecodedIsText(valid: Validity, s: seq<Octet>)
    ensures Decoded(valid, s) == s <==> valid(s)
    ensures !valid(s) ==> |s| < |Decoded(valid, s)|
    ensures |s| <= |Decoded(valid, s)| <= 2 * |s|
    ensures s != [] && s[0] < 0x80 ==> Decoded(valid, s) != [] && Decoded(valid, s)[0] == s[0]
  {
    hide FromLatin1;
    LatinSize(s);
  }

  /** The inverted ending .py ends no text. */
  lemma InvertedEnding(t: seq<Octet>)
    ensures !Utf8(t + [0xD1, 0x8F, 0x86])
  {
    var b: seq<Octet> := [0xD1, 0x8F, 0x86];
    Utf8OfSum(t, b);
    assert !StartsWithChar(b[2..]);
  }

  /** The characters that RFC 3629 encodes: no surrogates, and nothing beyond 0x10FFFF. */
  type Scalar = c: int | 0 <= c < 0xD800 || 0xE000 <= c < 0x11_0000 witness 0

  /** RFC 3629, section 3: the bytes of a character. */
  function Encoded(c: Scalar): (b: seq<Octet>)
    ensures b != []
  {
    if c < 0x80 then [c]
    else if c < 0x800 then [0xC0 + c / 0x40, 0x80 + c % 0x40]
    else if c < 0x1_0000 then [0xE0 + c / 0x1000, 0x80 + c / 0x40 % 0x40, 0x80 + c % 0x40]
    else [0xF0 + c / 0x4_0000, 0x80 + c / 0x1000 % 0x40, 0x80 + c / 0x40 % 0x40, 0x80 + c % 0x40]
  }

  function EncodedText(cs: seq<Scalar>): seq<Octet> {
    if cs == [] then [] else Encoded(cs[0]) + EncodedText(cs[1..])
  }

  lemma EncodedIsChar(c: Scalar, rest: seq<Octet>)
    ensures StartsWithChar(Encoded(c) + rest) && CharLength((Encoded(c) + rest)[0]) == |Encoded(c)|
    ensures (Encoded(c) + rest)[|Encoded(c)|..] == rest
  {
  }

  /** The digits of a number in base 64. */
  lemma Digits64(w: nat, x: nat, y: nat, z: nat)
    requires x < 0x40 && y < 0x40 && z < 0x40
    ensures var c := 0x4_0000 * w + 0x1000 * x + 0x40 * y + z;
      c / 0x4_0000 == w && c / 0x1000 % 0x40 == x && c / 0x40 % 0x40 == y && c % 0x40 == z
  {
    var c := 0x4_0000 * w + 0x1000 * x + 0x40 * y + z;
    assert c / 0x40 == 0x1000 * w + 0x40 * x + y;
    assert c / 0x1000 == 0x40 * w + x;
  }

  lemma TwoBytes(b0: nat, b1: nat) returns (c: Scalar)
    requires 0xC2 <= b0 <= 0xDF && 0x80 <= b1 < 0xC0
    ensures Encoded(c) == [b0, b1]
  {
    Digits64(0, 0, b0 - 0xC0, b1 - 0x80);
    c := 0x40 * (b0 - 0xC0) + (b1 - 0x80);
    assert c / 0x40 == b0 - 0xC0;
  }

  lemma ThreeBytes(b0: nat, b1: nat, b2: nat) returns (c: Scalar)
    requires 0xE0 <= b0 <= 0xEF && 0x80 <= b1 < 0xC0 && 0x80 <= b2 < 0xC0
    requires (b0 == 0xE0 ==> b1 >= 0xA0) && (b0 == 0xED ==> b1 < 0xA0)
    ensures Encoded(c) == [b0, b1, b2]
  {
    var x, y, z := b0 - 0xE0, b1 - 0x80, b2 - 0x80;
    Digits64(0, x, y, z);
    var n := 0x1000 * x + 0x40 * y + z;
    assert n / 0x1000 == x;
    assert 0x800 <= n < 0x1_0000 && (n < 0xD800 || n >= 0xE000);
    c := n;
  }

  lemma FourBytes(b0: nat, b1: nat, b2: nat, b3: nat) returns (c: Scalar)
    requires 0xF0 <= b0 <= 0xF4 && 0x80 <= b1 < 0xC0 && 0x80 <= b2 < 0xC0 && 0x80 <= b3 < 0xC0
    requires (b0 == 0xF0 ==> b1 >= 0x90) && (b0 == 0xF4 ==> b1 < 0x90)
    ensures Encoded(c) == [b0, b1, b2, b3]
  {
    var w, x, y, z := b0 - 0xF0, b1 - 0x80, b2 - 0x80, b3 - 0x80;
    Digits64(w, x, y, z);
    c := 0x4_0000 * w + 0x1000 * x + 0x40 * y + z;
  }

  /** The character at the front of a text. */
  lemma CharIsEncoded(s: seq<Octet>) returns (c: Scalar)
    requires s != [] && StartsWithChar(s)
    ensures 0 < CharLength(s[0]) <= |s| && s == Encoded(c) + s[CharLength(s[0])..]
  {
    hide Encoded;
    var n := CharLength(s[0]);
    if n == 1 {
      c := s[0];
      OneByte(c);
    } else if n == 2 {
      c := TwoBytes(s[0], s[1]);
    } else if n == 3 {
      c := ThreeBytes(s[0], s[1], s[2]);
    } else {
      c := FourBytes(s[0], s[1], s[2], s[3]);
    }
    assert s[..n] == Encoded(c);
    assert s == s[..n] + s[n..];
  }

  lemma OneByte(c: Scalar)
    ensures c < 0x80 ==> Encoded(c) == [c]
  {
  }

  lemma {:induction false} EncodedTextIsUtf8(cs: seq<Scalar>)
    ensures Utf8(EncodedText(cs))
  {
    hide Encoded, StartsWithChar;
    if cs == [] {
    } else {
      EncodedIsChar(cs[0], EncodedText(cs[1..]));
      EncodedTextIsUtf8(cs[1..]);
    }
  }

  lemma {:induction false} Utf8IsEncodedText(s: seq<Octet>) returns (cs: seq<Scalar>)
    requires Utf8(s)
    ensures s == EncodedText(cs)
  {
    hide Encoded, StartsWithChar;
    if s == [] {
      cs := [];
    } else {
      var c := CharIsEncoded(s);
      var rest := Utf8IsEncodedText(s[CharLength(s[0])..]);
      cs := [c] + rest;
      assert cs[1..] == rest;
    }
  }

  /** The check accepts exactly the encodings of sequences of characters. */
  lemma Utf8IsEncoding(s: seq<Octet>)
    ensures Utf8(s) <==> exists cs :: s == EncodedText(cs)
  {
    hide Utf8, EncodedText;
    if Utf8(s) {
      var cs := Utf8IsEncodedText(s);
    }
    forall cs | s == EncodedText(cs) ensures Utf8(s) {
      EncodedTextIsUtf8(cs);
    }
  }

  /** The Latin-1 reading of bytes is the text whose characters have the numbers of the bytes. */
  lemma {:induction false} LatinIsEncoding(s: seq<Octet>)
    ensures FromLatin1(s) == EncodedText(seq(|s|, i requires 0 <= i < |s| => s[i] as Scalar))
  {
    var cs: seq<Scalar> := seq(|s|, i requires 0 <= i < |s| => s[i] as Scalar);
    if s == [] {
    } else {
      LatinIsEncoding(s[1..]);
      assert cs[1..] == seq(|s[1..]|, i requires 0 <= i < |s[1..]| => s[1..][i] as Scalar);
      assert LatinChar(s[0]) == Encoded(cs[0]);
    }
  }
}
