/**
  * The scrambled strings of streams, in the two forms that archives use: with every byte inverted (Prime), and with
  * every byte combined with a key (Eoa). Strings are sequences of bytes.
  */
module SafeString {
  import opened LittleEndian
  import opened Encoding
  import opened Wrappers

  /** The form of a stream's strings, with the check that they undergo when they are read. */
  datatype Version = Prime(valid: Validity) | Eoa(valid: Validity)

  /** The low bit of the exclusive or. */
  function XorBit(a: nat, b: nat): (r: nat)
    ensures r < 2
  {
    (a % 2 + b % 2) % 2
  }

  /** The exclusive or of two numbers of n bits. */
  function Xor(n: nat, a: nat, b: nat): (r: nat)
  {
    if n == 0 then 0 else XorBit(a, b) + 2 * Xor(n - 1, a / 2, b / 2)
  }

  function Pow2(n: nat): nat { if n == 0 then 1 else 2 * Pow2(n - 1) }

  lemma {:induction false} XorTwice(n: nat, a: nat, b: nat)
    requires a < Pow2(n)
    ensures Xor(n, a, b) < Pow2(n) && Xor(n, Xor(n, a, b), b) == a
  {
    hide *;
    HalfOfPow2(n, a);
    if n == 0 {
    } else {
      var tail := Xor(n - 1, a / 2, b / 2);
      XorTwice(n - 1, a / 2, b / 2);
      XorStep(n, a, b);
      Digits(XorBit(a, b), tail);
      XorStep(n, XorBit(a, b) + 2 * tail, b);
      XorBitTwice(a, b);
    }
  }

  lemma XorStep(n: nat, a: nat, b: nat)
    requires n > 0
    ensures Xor(n, a, b) == XorBit(a, b) + 2 * Xor(n - 1, a / 2, b / 2)
    ensures Xor(n - 1, a / 2, b / 2) < Pow2(n - 1) ==> Xor(n, a, b) < Pow2(n)
  {
  }

  lemma HalfOfPow2(n: nat, a: nat)
    requires a < Pow2(n)
    ensures n > 0 ==> a / 2 < Pow2(n - 1)
    ensures n == 0 ==> a == 0 && forall b :: Xor(n, a, b) == 0 < Pow2(n)
  {
  }

  lemma XorBitTwice(a: nat, b: nat)
    ensures XorBit(XorBit(a, b), b) + 2 * (a / 2) == a
  {
  }

  lemma Digits(bit: nat, tail: nat)
    requires bit < 2
    ensures (bit + 2 * tail) / 2 == tail
    ensures forall b :: XorBit(bit + 2 * tail, b) == XorBit(bit, b)
  {
  }

  function XorOctet(a: Octet, b: Octet): (r: Octet)
    ensures XorOctetRaw(r, b) == a
  {
    assert Pow2(8) == 0x100 by {
      assert Pow2(4) == 16;
    }
    XorTwice(8, a, b);
    Xor(8, a, b)
  }

  function XorOctetRaw(a: Octet, b: Octet): nat { Xor(8, a, b) }

  /** The characters m, y, s, t, n, e, r, d. */
  const KEY: seq<Octet> := [0x6d, 0x79, 0x73, 0x74, 0x6e, 0x65, 0x72, 0x64]

  function Keyed(s: seq<Octet>): (r: seq<Octet>)
    ensures |r| == |s|
  {
    seq(|s|, i requires 0 <= i < |s| => XorOctet(s[i], KEY[i % 8]))
  }

  function Inverted(s: seq<Octet>): (r: seq<Octet>)
    ensures |r| == |s|
  {
    seq(|s|, i requires 0 <= i < |s| => 0xFF - s[i])
  }

  lemma KeyedTwice(s: seq<Octet>)
    ensures Keyed(Keyed(s)) == s
  {
    hide Xor;
  }

  lemma InvertedTwice(s: seq<Octet>)
    ensures Inverted(Inverted(s)) == s
    ensures s != [] ==> Inverted(s) != s
  {
    if s != [] {
      assert Inverted(s)[0] == 0xFF - s[0];
    }
  }

  /** The longest string that the length field can tell. */
  function Limit(ver: Version): nat { if ver.Prime? then 0xFFF else 0xFFFF }

  /** What is written of a string: its length field cuts it. */
  function Told(ver: Version, s: seq<Octet>): (r: seq<Octet>)
    ensures r == s <==> |s| <= Limit(ver)
    ensures |r| <= |s| && |r| <= Limit(ver)
  {
    s[..|s| % (Limit(ver) + 1)]
  }

  /** writeSafeStr */
  function StrBytes(ver: Version, s: seq<Octet>): (r: seq<Octet>)
    ensures |r| == 2 + |Told(ver, s)|
  {
    var t := Told(ver, s);
    if ver.Prime? then PutInt(2, 0xF000 + |t|) + Inverted(t) else PutInt(2, |t|) + Keyed(t)
  }

  /** The inversion is undone only where the first byte shows it. */
  function Revealed(s: seq<Octet>): (r: seq<Octet>)
    ensures |r| == |s|
  {
    if s != [] && s[0] >= 0x80 then Inverted(s) else s
  }

  /** readSafeStr: the string at the front of a stream and what follows it; None past the end. */
  function StrFront(ver: Version, s: seq<Octet>): Option<(seq<Octet>, seq<Octet>)> {
    match Take(s, 2)
    case None => None
    case Some((b, rest)) =>
      var info := Short(b);
      if info == 0 then Some(([], rest))
      else if ver.Eoa? then
        match Take(rest, info)
        case None => None
        case Some((t, rest')) => Some((Decoded(ver.valid, Keyed(t)), rest'))
      else
        match Take(rest, if info < 0x1000 then 2 else 0)
        case None => None
        case Some((_, rest')) =>
          match Take(rest', info % 0x1000)
          case None => None
          case Some((t, rest'')) => Some((Decoded(ver.valid, Revealed(t)), rest''))
  }

  /** The strings that are read as they were written. */
  predicate Readable(ver: Version, s: seq<Octet>) {
    |s| <= Limit(ver) && ver.valid(s) && (ver.Prime? && s != [] ==> s[0] < 0x80)
  }

  /** The bytes that reading recovers of a written string. */
  function Recovered(ver: Version, s: seq<Octet>): (r: seq<Octet>)
    ensures |r| == |Told(ver, s)|
  {
    if ver.Prime? then Revealed(Told(ver, s)) else Told(ver, s)
  }

  /** What becomes of a string that is written and read again. */
  function Heard(ver: Version, s: seq<Octet>): seq<Octet> {
    Decoded(ver.valid, Recovered(ver, s))
  }

  /** What is read of a length field, the bytes that it announces, and what follows. */
  lemma StrFrontOf(ver: Version, body: seq<Octet>, rest: seq<Octet>)
    requires |body| <= Limit(ver)
    ensures var info := if ver.Prime? then 0xF000 + |body| else |body|;
      var read := if ver.Prime? then Revealed(body) else Keyed(body);
      StrFront(ver, PutInt(2, info) + (body + rest)) == Some((Decoded(ver.valid, read), rest))
  {
    hide Inverted, Keyed, PutInt, GetInt, Take, Decoded;
    var info := if ver.Prime? then 0xF000 + |body| else |body|;
    TakeFront(PutInt(2, info), body + rest);
    WidthRoundTrip(info);
    TakeFront([], body + rest);
    assert [] + (body + rest) == body + rest;
    TakeFront(body, rest);
    DecodedNothing(ver.valid);
    if body == [] {
      assert body + rest == rest;
    }
  }

  lemma DecodedNothing(valid: Validity)
    ensures Decoded(valid, []) == []
  {
    assert Ascii([]);
  }

  lemma InvertedFirst(s: seq<Octet>)
    requires s != []
    ensures Inverted(s)[0] == 0xFF - s[0]
  {
  }

  lemma RevealedInverted(s: seq<Octet>)
    ensures Revealed(Inverted(s)) == Revealed(s)
  {
    hide Inverted;
    InvertedTwice(s);
    if s != [] {
      InvertedFirst(s);
    }
  }

  /** Any string is read back as what is heard of it, with nothing of what follows. */
  lemma StrTrip(ver: Version, s: seq<Octet>, rest: seq<Octet>)
    ensures StrFront(ver, StrBytes(ver, s) + rest) == Some((Heard(ver, s), rest))
  {
    hide StrFront, Inverted, Revealed, Keyed, PutInt, Decoded;
    var t := Told(ver, s);
    var info := if ver.Prime? then 0xF000 + |t| else |t|;
    var body := if ver.Prime? then Inverted(t) else Keyed(t);
    Chain(PutInt(2, info), body, rest);
    StrFrontOf(ver, body, rest);
    KeyedTwice(t);
    RevealedInverted(t);
  }

  lemma RecoveredIsText(ver: Version, s: seq<Octet>)
    ensures |Recovered(ver, s)| <= |s| % (Limit(ver) + 1)
    ensures |s| <= Limit(ver) && (ver.Prime? && s != [] ==> s[0] < 0x80) ==> Recovered(ver, s) == s
    ensures |s| <= Limit(ver) && ver.Prime? && s != [] && s[0] >= 0x80 ==>
      Recovered(ver, s) == Inverted(s) && Recovered(ver, s) != [] && Recovered(ver, s)[0] < 0x80
    ensures ver.Prime? && Recovered(ver, s) != [] ==> Recovered(ver, s)[0] < 0x80
  {
    var t := Told(ver, s);
    if t != [] {
      InvertedFirst(t);
    }
  }

  /**
    * A string comes back unchanged if and only if it is short enough, valid, and, in the inverted form, does not begin
    * beyond ASCII.
    */
  lemma StrRoundTrip(ver: Version, s: seq<Octet>, rest: seq<Octet>)
    ensures StrFront(ver, StrBytes(ver, s) + rest) == Some((s, rest)) <==> Readable(ver, s)
    ensures Heard(ver, s) == s <==> Readable(ver, s)
  {
    hide Decoded, Recovered, StrFront, StrBytes;
    StrTrip(ver, s, rest);
    RecoveredIsText(ver, s);
    DecodedIsText(ver.valid, Recovered(ver, s));
  }

  /** A string that is not read as it was written is written differently from then on. */
  lemma SpoiledIsSeen(ver: Version, s: seq<Octet>)
    requires |s| <= Limit(ver) && StrBytes(ver, Heard(ver, s)) == StrBytes(ver, s)
    ensures Heard(ver, s) == s
  {
    hide Decoded, Recovered, StrBytes;
    RecoveredIsText(ver, s);
    DecodedIsText(ver.valid, Recovered(ver, s));
    ToldIsWritten(ver, Heard(ver, s), s);
  }

  lemma ToldIsWritten(ver: Version, s: seq<Octet>, t: seq<Octet>)
    requires StrBytes(ver, s) == StrBytes(ver, t)
    ensures Told(ver, s) == Told(ver, t)
  {
    hide Inverted, Keyed, PutInt, Told;
    var x, y := Told(ver, s), Told(ver, t);
    InvertedTwice(x);
    InvertedTwice(y);
    KeyedTwice(x);
    KeyedTwice(y);
    assert StrBytes(ver, s)[2..] == if ver.Prime? then Inverted(x) else Keyed(x);
    assert StrBytes(ver, t)[2..] == if ver.Prime? then Inverted(y) else Keyed(y);
  }

  /** No written string is a proper beginning of another one. */
  lemma StrBytesPrefix(ver: Version, s: seq<Octet>, x: seq<Octet>, t: seq<Octet>, y: seq<Octet>)
    requires StrBytes(ver, s) + x == StrBytes(ver, t) + y
    ensures StrBytes(ver, s) == StrBytes(ver, t) && x == y
  {
    hide Inverted, Keyed, PutInt, GetInt;
    var a, b := StrBytes(ver, s), StrBytes(ver, t);
    LengthField(ver, s);
    LengthField(ver, t);
    assert a[..2] == (a + x)[..2] == (b + y)[..2] == b[..2];
    assert a == (a + x)[..|a|] && b == (b + y)[..|b|];
    assert x == (a + x)[|a|..] && y == (b + y)[|b|..];
  }

  lemma LengthField(ver: Version, s: seq<Octet>)
    ensures GetInt(StrBytes(ver, s)[..2]) == |Told(ver, s)| + if ver.Prime? then 0xF000 else 0
  {
    hide Inverted, Keyed, PutInt, GetInt;
    var info := |Told(ver, s)| + if ver.Prime? then 0xF000 else 0;
    WidthRoundTrip(info);
    assert StrBytes(ver, s)[..2] == PutInt(2, info);
  }

  /** Whatever is read is read unchanged from then on, if it still fits: a second trip changes nothing. */
  lemma HeardSettles(ver: Version, s: seq<Octet>)
    requires forall t :: ver.valid(FromLatin1(t))
    ensures |Heard(ver, s)| <= Limit(ver) ==> Readable(ver, Heard(ver, s))
  {
    hide FromLatin1, Recovered, Limit;
    RecoveredIsText(ver, s);
    DecodedIsText(ver.valid, Recovered(ver, s));
  }

  /** Different strings that are not too long are written differently. */
  lemma StrBytesInjective(ver: Version, s: seq<Octet>, t: seq<Octet>)
    requires |s| <= Limit(ver) && |t| <= Limit(ver) && StrBytes(ver, s) == StrBytes(ver, t)
    ensures s == t
  {
    hide StrBytes;
    ToldIsWritten(ver, s, t);
  }

  /** The letter e with an acute accent, in UTF-8, does not survive in the inverted form. */
  lemma AccentIsLost(valid: Validity)
    ensures StrFront(Prime(valid), StrBytes(Prime(valid), [0xC3, 0xA9])) == Some(([0x3C, 0x56], []))
  {
    hide StrFront, StrBytes;
    var ver, s: seq<Octet> := Prime(valid), [0xC3, 0xA9];
    StrTrip(ver, s, []);
    assert Told(ver, s) == s;
    assert StrBytes(ver, s) + [] == StrBytes(ver, s);
    assert Inverted(s) == [0x3C, 0x56] && Ascii([0x3C, 0x56]);
  }

  /** Bit k of a byte. */
  function Bit(a: Octet, k: nat): nat
    requires k < 8
  {
    var power := match k
      case 0 => 1 case 1 => 2 case 2 => 4 case 3 => 8 case 4 => 16 case 5 => 32 case 6 => 64 case _ => 128;
    a / power % 2
  }

  /** The byte c is the exclusive or of a and b, bit by bit. */
  predicate IsXor(c: Octet, a: Octet, b: Octet) {
    forall k :: 0 <= k < 8 ==> (Bit(c, k) == 1 <==> Bit(a, k) != Bit(b, k))
  }

  /** Xor at width n in terms of the first, second, ... digits. */
  lemma {:induction false} XorDigit(n: nat, a: nat, b: nat, k: nat)
    requires k < n
    ensures Half(Xor(n, a, b), k) % 2 == (if Half(a, k) % 2 == Half(b, k) % 2 then 0 else 1)
  {
    hide XorBit;
    XorStep(n, a, b);
    XorBitIs(a, b);
    if k == 0 {
    } else {
      Digits(XorBit(a, b), Xor(n - 1, a / 2, b / 2));
      XorDigit(n - 1, a / 2, b / 2, k - 1);
    }
  }

  lemma XorBitIs(a: nat, b: nat)
    ensures XorBit(a, b) == if a % 2 == b % 2 then 0 else 1
  {
  }

  /** a halved k times. */
  function Half(a: nat, k: nat): nat {
    if k == 0 then a else Half(a / 2, k - 1)
  }

  lemma BitIsHalf(a: Octet, k: nat)
    requires k < 8
    ensures Bit(a, k) == Half(a, k) % 2
  {
    assert a / 2 / 2 == a / 4 && a / 4 / 2 == a / 8 && a / 8 / 2 == a / 16 && a / 16 / 2 == a / 32;
    assert a / 32 / 2 == a / 64 && a / 64 / 2 == a / 128;
    if k == 0 {
    } else if k == 1 {
      assert Half(a, 1) == Half(a / 2, 0);
    } else if k == 2 {
      assert Half(a, 2) == Half(a / 2, 1) == Half(a / 4, 0);
    } else if k == 3 {
      assert Half(a, 3) == Half(a / 2, 2) == Half(a / 4, 1) == Half(a / 8, 0);
    } else if k == 4 {
      assert Half(a, 4) == Half(a / 2, 3) == Half(a / 4, 2) == Half(a / 8, 1) == Half(a / 16, 0);
    } else if k == 5 {
      assert Half(a, 5) == Half(a / 2, 4) == Half(a / 4, 3) == Half(a / 8, 2) == Half(a / 16, 1) == Half(a / 32, 0);
    } else if k == 6 {
      assert Half(a, 6) == Half(a / 2, 5) == Half(a / 4, 4) == Half(a / 8, 3) == Half(a / 16, 2);
      assert Half(a / 16, 2) == Half(a / 32, 1) == Half(a / 64, 0);
    } else {
      assert Half(a, 7) == Half(a / 2, 6) == Half(a / 4, 5) == Half(a / 8, 4) == Half(a / 16, 3);
      assert Half(a / 16, 3) == Half(a / 32, 2) == Half(a / 64, 1) == Half(a / 128, 0);
    }
  }

  /** The bytes of the Eoa form are combined bit by bit. */
  lemma XorByBits(a: Octet, b: Octet)
    ensures IsXor(XorOctet(a, b), a, b)
  {
    hide Xor, Half, Bit;
    forall k | 0 <= k < 8 ensures Bit(XorOctet(a, b), k) == 1 <==> Bit(a, k) != Bit(b, k) {
      BitIsHalf(XorOctet(a, b), k);
      BitIsHalf(a, k);
      BitIsHalf(b, k);
      XorDigit(8, a, b, k);
    }
  }

  /** The key of the Eoa form, as text. */
  const KEY_TEXT := "mystnerd"

  lemma KeyIsText(i: nat)
    requires i < 8
    ensures KEY[i] == KEY_TEXT[i] as int
  {
  }

  /** t is s with every byte scrambled in the form of the version; either form undoes itself. */
  predicate AreScrambled(ver: Version, s: seq<Octet>, t: seq<Octet>) {
    |t| == |s| && forall i :: 0 <= i < |s| ==>
      if ver.Prime? then t[i] == 0xFF - s[i] else IsXor(t[i], s[i], KEY_TEXT[i % 8] as int)
  }

  lemma ScrambledByBytes(ver: Version, s: seq<Octet>)
    ensures AreScrambled(ver, s, if ver.Prime? then Inverted(s) else Keyed(s))
  {
    hide IsXor;
    if ver.Prime? {
    } else {
      forall i | 0 <= i < |s| ensures IsXor(Keyed(s)[i], s[i], KEY_TEXT[i % 8] as int) {
        KeyedByte(s, i);
      }
    }
  }

  lemma KeyedByte(s: seq<Octet>, i: nat)
    requires i < |s|
    ensures IsXor(Keyed(s)[i], s[i], KEY_TEXT[i % 8] as int)
  {
    hide XorOctet, IsXor;
    XorByBits(s[i], KEY[i % 8]);
    KeyIsText(i % 8);
  }

  /** What writeSafeStr writes, by bytes: the length in 12 or 16 bits, marked in the Prime form, and the bytes. */
  lemma WrittenByBytes(ver: Version, s: seq<Octet>)
    ensures var b, n := StrBytes(ver, s), |s| % (if ver.Prime? then 0x1000 else 0x1_0000);
      && |b| == 2 + n && b[0] == n % 0x100 && b[1] == n / 0x100 + (if ver.Prime? then 0xF0 else 0)
      && AreScrambled(ver, s[..n], b[2..])
  {
    hide Inverted, Keyed, AreScrambled;
    var t := Told(ver, s);
    var info := if ver.Prime? then 0xF000 + |t| else |t|;
    ScrambledByBytes(ver, t);
    TwoBytes(info);
    assert StrBytes(ver, s)[2..] == if ver.Prime? then Inverted(t) else Keyed(t);
  }

  lemma TwoBytes(n: UInt16)
    ensures PutInt(2, n) == [n % 0x100, n / 0x100]
  {
    assert PutInt(2, n) == [n % 0x100] + PutInt(1, n / 0x100);
    assert PutInt(1, n / 0x100) == [n / 0x100] + PutInt(0, n / 0x100 / 0x100);
  }

  /** u is what reading recovers of the bytes t of a string: in the Prime form they are as they are or inverted. */
  predicate AreRecovered(ver: Version, t: seq<Octet>, u: seq<Octet>) {
    if ver.Prime? && (t == [] || t[0] < 0x80) then u == t else AreScrambled(ver, t, u)
  }

  /**
    * What readSafeStr makes of any bytes: of an unmarked Prime length two more bytes are dropped, and the string is
    * recovered from as many bytes as the length tells.
    */
  lemma ReadByBytes(ver: Version, lo: Octet, hi: Octet, dropped: seq<Octet>, t: seq<Octet>, rest: seq<Octet>)
    requires lo > 0 || hi > 0
    requires |dropped| == if ver.Prime? && hi < 0x10 then 2 else 0
    requires |t| == lo + 0x100 * (if ver.Prime? then hi % 0x10 else hi)
    ensures exists u ::
      && AreRecovered(ver, t, u)
      && StrFront(ver, [lo, hi] + dropped + t + rest) == Some((if ver.valid(u) then u else FromLatin1(u), rest))
  {
    hide Inverted, Keyed, AreScrambled, Take, GetInt, FromLatin1;
    var u := if ver.Prime? then Revealed(t) else Keyed(t);
    ScrambledByBytes(ver, t);
    ShortOf(lo, hi);
    Chain([lo, hi] + dropped, t, rest);
    Chain([lo, hi], dropped, t + rest);
    TakeFront([lo, hi], dropped + (t + rest));
    TakeFront(dropped, t + rest);
    TakeFront(t, rest);
    assert ver.Eoa? ==> dropped + (t + rest) == t + rest;
    assert AreRecovered(ver, t, u);
  }

  lemma ShortOf(lo: Octet, hi: Octet)
    ensures Short([lo, hi]) == lo + 0x100 * hi
    ensures (lo + 0x100 * hi) % 0x1000 == lo + 0x100 * (hi % 0x10) && (lo + 0x100 * hi < 0x1000 <==> hi < 0x10)
  {
    assert [lo, hi][1..] == [hi] && [hi][1..] == [];
    assert GetInt([hi]) == hi + 0x100 * GetInt([]);
    assert GetInt([lo, hi]) == lo + 0x100 * GetInt([hi]);
  }

  /** How many bytes stand behind a length that is not zero. */
  function Following(ver: Version, lo: Octet, hi: Octet): nat {
    var low, high: nat := lo, hi;
    if ver.Eoa? then low + 0x100 * high else low + 0x100 * (high % 0x10) + if high < 0x10 then 2 else 0
  }

  /** Without a length there is no string, and a stream that is too short for the length has none, either. */
  lemma ReadNothing(ver: Version, lo: Octet, hi: Octet, s: seq<Octet>)
    ensures lo == 0 && hi == 0 ==> StrFront(ver, [lo, hi] + s) == Some(([], s))
    ensures (lo > 0 || hi > 0) && |s| < Following(ver, lo, hi) ==> StrFront(ver, [lo, hi] + s) == None
    ensures StrFront(ver, []) == StrFront(ver, [lo]) == None
  {
    hide Inverted, Keyed, Decoded, GetInt;
    ShortOf(lo, hi);
    TakeFront([lo, hi], s);
  }
}
