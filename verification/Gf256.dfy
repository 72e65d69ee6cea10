/** Arithmetic in GF(2^8) and on four-byte columns, after FIPS 197, sections 4.2, 5.1.3 and 5.3.3. */
module Gf256 {
  type Byte = bv8

  /** Four bytes that the program reads and XORs as one unsigned word; byte 0 is the most significant. */
  type Word = bv32

  function MakeWord(b0: Byte, b1: Byte, b2: Byte, b3: Byte): Word {
    (b0 as Word << 24) | (b1 as Word << 16) | (b2 as Word << 8) | b3 as Word
  }

  function Byte0(w: Word): Byte { ((w >> 24) & 0xff) as Byte }

  function Byte1(w: Word): Byte { ((w >> 16) & 0xff) as Byte }

  function Byte2(w: Word): Byte { ((w >> 8) & 0xff) as Byte }

  function Byte3(w: Word): Byte { (w & 0xff) as Byte }

  function Xor(v: Word, w: Word): Word { v ^ w }

  function Xor4(t: Word, u: Word, v: Word, w: Word): Word { Xor(Xor(t, u), Xor(v, w)) }

  lemma WordOfItsBytes(w: Word)
    ensures MakeWord(Byte0(w), Byte1(w), Byte2(w), Byte3(w)) == w
  {
  }

  lemma BytesOfWord(b0: Byte, b1: Byte, b2: Byte, b3: Byte)
    ensures Byte0(MakeWord(b0, b1, b2, b3)) == b0
    ensures Byte1(MakeWord(b0, b1, b2, b3)) == b1
    ensures Byte2(MakeWord(b0, b1, b2, b3)) == b2
    ensures Byte3(MakeWord(b0, b1, b2, b3)) == b3
  {
  }

  /** The sum in GF(2^8) (section 4.1). */
  function Add(a: Byte, b: Byte): Byte { a ^ b }

  function Sum4(a: Byte, b: Byte, c: Byte, d: Byte): Byte { Add(Add(a, b), Add(c, d)) }

  /** Multiplication by x modulo x^8 + x^4 + x^3 + x + 1 (section 4.2.1). */
  function Xtime(a: Byte): Byte {
    (a << 1) ^ ((a >> 7) * 0x1b)
  }

  /** The product in GF(2^8): the sum of a * x^i over the bits i of b (section 4.2). */
  function Mul(a: Byte, b: Byte): Byte {
    var a1 := Xtime(a);
    var a2 := Xtime(a1);
    var a3 := Xtime(a2);
    var a4 := Xtime(a3);
    var a5 := Xtime(a4);
    var a6 := Xtime(a5);
    var a7 := Xtime(a6);
    ((b & 1) * a) ^ (((b >> 1) & 1) * a1) ^ (((b >> 2) & 1) * a2) ^ (((b >> 3) & 1) * a3) ^
    (((b >> 4) & 1) * a4) ^ (((b >> 5) & 1) * a5) ^ (((b >> 6) & 1) * a6) ^ ((b >> 7) * a7)
  }

  /** The coefficients of MixColumns and InvMixColumns other than 1. */
  predicate IsCoefficient(k: Byte) { k in {0x02, 0x03, 0x09, 0x0b, 0x0d, 0x0e} }

  lemma AddCommutes(a: Byte, b: Byte)
    ensures Add(a, b) == Add(b, a)
  {
  }

  lemma AddAssociates(a: Byte, b: Byte, c: Byte)
    ensures Add(Add(a, b), c) == Add(a, Add(b, c))
  {
  }

  lemma Medial(a: Byte, b: Byte, c: Byte, d: Byte)
    ensures Add(Add(a, b), Add(c, d)) == Add(Add(a, c), Add(b, d))
  {
    hide Add;
    AddAssociates(a, b, Add(c, d));
    AddAssociates(b, c, d);
    AddCommutes(b, c);
    AddAssociates(c, b, d);
    AddAssociates(a, c, Add(b, d));
  }

  lemma XtimeIsLinear(a: Byte, b: Byte)
    ensures Xtime(Add(a, b)) == Add(Xtime(a), Xtime(b))
  {
  }

  /** a * k as a sum of at most three powers of x times a. */
  lemma MulByCoefficient(a: Byte, k: Byte)
    requires IsCoefficient(k)
    ensures
      var a1 := Xtime(a);
      var a2 := Xtime(a1);
      var a3 := Xtime(a2);
      Mul(a, k) == (if k == 0x02 then a1 else if k == 0x03 then Add(a1, a)
                    else if k == 0x09 then Add(a3, a) else if k == 0x0b then Add(Add(a3, a1), a)
                    else if k == 0x0d then Add(Add(a3, a2), a) else Add(Add(a3, a2), a1))
  {
    hide Xtime;
    if k == 0x02 {
    } else if k == 0x03 {
    } else if k == 0x09 {
    } else if k == 0x0b {
    } else if k == 0x0d {
    } else {
    }
  }

  lemma MulIsLinear(a: Byte, b: Byte, k: Byte)
    requires IsCoefficient(k)
    ensures Mul(Add(a, b), k) == Add(Mul(a, k), Mul(b, k))
  {
    hide Add, Mul, Xtime;
    var s := Add(a, b);
    var a1, b1, s1 := Xtime(a), Xtime(b), Xtime(s);
    var a2, b2, s2 := Xtime(a1), Xtime(b1), Xtime(s1);
    var a3, b3 := Xtime(a2), Xtime(b2);
    XtimeIsLinear(a, b);
    XtimeIsLinear(a1, b1);
    XtimeIsLinear(a2, b2);
    MulByCoefficient(a, k);
    MulByCoefficient(b, k);
    MulByCoefficient(s, k);
    Medial(a1, b1, a, b);
    Medial(a3, b3, a, b);
    Medial(a3, b3, a1, b1);
    Medial(a3, b3, a2, b2);
    Medial(Add(a3, a1), Add(b3, b1), a, b);
    Medial(Add(a3, a2), Add(b3, b2), a, b);
    Medial(Add(a3, a2), Add(b3, b2), a1, b1);
  }

  lemma MulOfSum(a: Byte, b: Byte, c: Byte, d: Byte, k: Byte)
    requires IsCoefficient(k)
    ensures Mul(Sum4(a, b, c, d), k) == Sum4(Mul(a, k), Mul(b, k), Mul(c, k), Mul(d, k))
  {
    hide Add, Mul;
    MulIsLinear(Add(a, b), Add(c, d), k);
    MulIsLinear(a, b, k);
    MulIsLinear(c, d, k);
  }

  lemma AddOfSums(a: Byte, b: Byte, c: Byte, d: Byte, e: Byte, f: Byte, g: Byte, h: Byte)
    ensures Add(Sum4(a, b, c, d), Sum4(e, f, g, h)) == Sum4(Add(a, e), Add(b, f), Add(c, g), Add(d, h))
  {
    hide Add;
    Medial(Add(a, b), Add(c, d), Add(e, f), Add(g, h));
    Medial(a, b, e, f);
    Medial(c, d, g, h);
  }

  /** One row of the product of a column with the MixColumns matrix. */
  function MixRow(a: Byte, b: Byte, c: Byte, d: Byte): Byte {
    Sum4(Mul(a, 0x02), Mul(b, 0x03), c, d)
  }

  function InvMixRow(a: Byte, b: Byte, c: Byte, d: Byte): Byte {
    Sum4(Mul(a, 0x0e), Mul(b, 0x0b), Mul(c, 0x0d), Mul(d, 0x09))
  }

  /** One column of MixColumns (section 5.1.3). */
  function MixColumn(w: Word): Word {
    var a, b, c, d := Byte0(w), Byte1(w), Byte2(w), Byte3(w);
    MakeWord(MixRow(a, b, c, d), MixRow(b, c, d, a), MixRow(c, d, a, b), MixRow(d, a, b, c))
  }

  /** One column of InvMixColumns (section 5.3.3). */
  function InvMixColumn(w: Word): Word {
    var a, b, c, d := Byte0(w), Byte1(w), Byte2(w), Byte3(w);
    MakeWord(InvMixRow(a, b, c, d), InvMixRow(b, c, d, a), InvMixRow(c, d, a, b), InvMixRow(d, a, b, c))
  }

  lemma InvMixRowIsLinear(a: Byte, b: Byte, c: Byte, d: Byte, e: Byte, f: Byte, g: Byte, h: Byte)
    ensures InvMixRow(Add(a, e), Add(b, f), Add(c, g), Add(d, h))
         == Add(InvMixRow(a, b, c, d), InvMixRow(e, f, g, h))
  {
    hide Add, Mul, Sum4;
    MulIsLinear(a, e, 0x0e);
    MulIsLinear(b, f, 0x0b);
    MulIsLinear(c, g, 0x0d);
    MulIsLinear(d, h, 0x09);
    AddOfSums(Mul(a, 0x0e), Mul(b, 0x0b), Mul(c, 0x0d), Mul(d, 0x09),
              Mul(e, 0x0e), Mul(f, 0x0b), Mul(g, 0x0d), Mul(h, 0x09));
  }

  lemma BytesOfXorExpression(v: Word, w: Word)
    ensures Byte0(v ^ w) == Add(Byte0(v), Byte0(w))
    ensures Byte1(v ^ w) == Add(Byte1(v), Byte1(w))
    ensures Byte2(v ^ w) == Add(Byte2(v), Byte2(w))
    ensures Byte3(v ^ w) == Add(Byte3(v), Byte3(w))
  {
  }

  lemma BytesOfXor(v: Word, w: Word)
    ensures Byte0(Xor(v, w)) == Add(Byte0(v), Byte0(w))
    ensures Byte1(Xor(v, w)) == Add(Byte1(v), Byte1(w))
    ensures Byte2(Xor(v, w)) == Add(Byte2(v), Byte2(w))
    ensures Byte3(Xor(v, w)) == Add(Byte3(v), Byte3(w))
  {
    hide Add, Byte0, Byte1, Byte2, Byte3;
    BytesOfXorExpression(v, w);
  }

  lemma MakeWordIsLinear(a: Byte, b: Byte, c: Byte, d: Byte, e: Byte, f: Byte, g: Byte, h: Byte)
    ensures MakeWord(Add(a, e), Add(b, f), Add(c, g), Add(d, h)) == Xor(MakeWord(a, b, c, d), MakeWord(e, f, g, h))
  {
  }

  lemma InvMixColumnIsLinear(v: Word, w: Word)
    ensures InvMixColumn(Xor(v, w)) == Xor(InvMixColumn(v), InvMixColumn(w))
  {
    hide Xor, Add, InvMixRow, Byte0, Byte1, Byte2, Byte3, MakeWord;
    var a, b, c, d := Byte0(v), Byte1(v), Byte2(v), Byte3(v);
    var e, f, g, h := Byte0(w), Byte1(w), Byte2(w), Byte3(w);
    BytesOfXor(v, w);
    InvMixRowIsLinear(a, b, c, d, e, f, g, h);
    InvMixRowIsLinear(b, c, d, a, f, g, h, e);
    InvMixRowIsLinear(c, d, a, b, g, h, e, f);
    InvMixRowIsLinear(d, a, b, c, h, e, f, g);
    MakeWordIsLinear(InvMixRow(a, b, c, d), InvMixRow(b, c, d, a), InvMixRow(c, d, a, b), InvMixRow(d, a, b, c),
                     InvMixRow(e, f, g, h), InvMixRow(f, g, h, e), InvMixRow(g, h, e, f), InvMixRow(h, e, f, g));
  }

  /** The first row of InvMixColumns times MixColumns: 1 for the byte itself, 0 for the other three. */
  lemma InvMixCoef0(s: Byte)
    ensures Sum4(Mul(Mul(s, 0x02), 0x0e), Mul(s, 0x0b), Mul(s, 0x0d), Mul(Mul(s, 0x03), 0x09)) == s
  {
    hide Mul;
    MulByCoefficient(s, 0x02);
    MulByCoefficient(Mul(s, 0x02), 0x0e);
    MulByCoefficient(s, 0x03);
    MulByCoefficient(Mul(s, 0x03), 0x09);
    MulByCoefficient(s, 0x0b);
    MulByCoefficient(s, 0x0d);
  }

  lemma InvMixCoef1(s: Byte)
    ensures Sum4(Mul(Mul(s, 0x03), 0x0e), Mul(Mul(s, 0x02), 0x0b), Mul(s, 0x0d), Mul(s, 0x09)) == 0
  {
    hide Mul;
    MulByCoefficient(s, 0x03);
    MulByCoefficient(Mul(s, 0x03), 0x0e);
    MulByCoefficient(s, 0x02);
    MulByCoefficient(Mul(s, 0x02), 0x0b);
    MulByCoefficient(s, 0x0d);
    MulByCoefficient(s, 0x09);
  }

  lemma InvMixCoef2(s: Byte)
    ensures Sum4(Mul(s, 0x0e), Mul(Mul(s, 0x03), 0x0b), Mul(Mul(s, 0x02), 0x0d), Mul(s, 0x09)) == 0
  {
    hide Mul;
    MulByCoefficient(s, 0x03);
    MulByCoefficient(Mul(s, 0x03), 0x0b);
    MulByCoefficient(s, 0x02);
    MulByCoefficient(Mul(s, 0x02), 0x0d);
    MulByCoefficient(s, 0x0e);
    MulByCoefficient(s, 0x09);
  }

  lemma InvMixCoef3(s: Byte)
    ensures Sum4(Mul(s, 0x0e), Mul(s, 0x0b), Mul(Mul(s, 0x03), 0x0d), Mul(Mul(s, 0x02), 0x09)) == 0
  {
    hide Mul;
    MulByCoefficient(s, 0x03);
    MulByCoefficient(Mul(s, 0x03), 0x0d);
    MulByCoefficient(s, 0x02);
    MulByCoefficient(Mul(s, 0x02), 0x09);
    MulByCoefficient(s, 0x0e);
    MulByCoefficient(s, 0x0b);
  }

  /** The first row of MixColumns times InvMixColumns. */
  lemma MixInvCoef0(s: Byte)
    ensures Sum4(Mul(Mul(s, 0x0e), 0x02), Mul(Mul(s, 0x09), 0x03), Mul(s, 0x0d), Mul(s, 0x0b)) == s
  {
    hide Mul;
    MulByCoefficient(s, 0x0e);
    MulByCoefficient(Mul(s, 0x0e), 0x02);
    MulByCoefficient(s, 0x09);
    MulByCoefficient(Mul(s, 0x09), 0x03);
    MulByCoefficient(s, 0x0d);
    MulByCoefficient(s, 0x0b);
  }

  lemma MixInvCoef1(s: Byte)
    ensures Sum4(Mul(Mul(s, 0x0b), 0x02), Mul(Mul(s, 0x0e), 0x03), Mul(s, 0x09), Mul(s, 0x0d)) == 0
  {
    hide Mul;
    MulByCoefficient(s, 0x0b);
    MulByCoefficient(Mul(s, 0x0b), 0x02);
    MulByCoefficient(s, 0x0e);
    MulByCoefficient(Mul(s, 0x0e), 0x03);
    MulByCoefficient(s, 0x09);
    MulByCoefficient(s, 0x0d);
  }

  lemma MixInvCoef2(s: Byte)
    ensures Sum4(Mul(Mul(s, 0x0d), 0x02), Mul(Mul(s, 0x0b), 0x03), Mul(s, 0x0e), Mul(s, 0x09)) == 0
  {
    hide Mul;
    MulByCoefficient(s, 0x0d);
    MulByCoefficient(Mul(s, 0x0d), 0x02);
    MulByCoefficient(s, 0x0b);
    MulByCoefficient(Mul(s, 0x0b), 0x03);
    MulByCoefficient(s, 0x0e);
    MulByCoefficient(s, 0x09);
  }

  lemma MixInvCoef3(s: Byte)
    ensures Sum4(Mul(Mul(s, 0x09), 0x02), Mul(Mul(s, 0x0d), 0x03), Mul(s, 0x0b), Mul(s, 0x0e)) == 0
  {
    hide Mul;
    MulByCoefficient(s, 0x09);
    MulByCoefficient(Mul(s, 0x09), 0x02);
    MulByCoefficient(s, 0x0d);
    MulByCoefficient(Mul(s, 0x0d), 0x03);
    MulByCoefficient(s, 0x0b);
    MulByCoefficient(s, 0x0e);
  }

  lemma SumRotates(a: Byte, b: Byte, c: Byte, d: Byte)
    ensures Sum4(b, c, d, a) == Sum4(a, b, c, d)
    ensures Sum4(c, d, a, b) == Sum4(a, b, c, d)
    ensures Sum4(d, a, b, c) == Sum4(a, b, c, d)
  {
    hide Add;
    AddCommutes(Add(a, b), Add(c, d));
    AddCommutes(d, a);
    Medial(b, c, a, d);
    AddCommutes(b, a);
    AddCommutes(Add(b, c), Add(d, a));
  }

  /** Summing a 4 by 4 square by rows or by columns. */
  lemma SumTransposes(a0: Byte, b0: Byte, c0: Byte, d0: Byte, a1: Byte, b1: Byte, c1: Byte, d1: Byte,
                      a2: Byte, b2: Byte, c2: Byte, d2: Byte, a3: Byte, b3: Byte, c3: Byte, d3: Byte)
    ensures Sum4(Sum4(a0, b0, c0, d0), Sum4(a1, b1, c1, d1), Sum4(a2, b2, c2, d2), Sum4(a3, b3, c3, d3))
         == Sum4(Sum4(a0, a1, a2, a3), Sum4(b0, b1, b2, b3), Sum4(c0, c1, c2, c3), Sum4(d0, d1, d2, d3))
  {
    hide Add;
    AddOfSums(a0, b0, c0, d0, a1, b1, c1, d1);
    AddOfSums(a2, b2, c2, d2, a3, b3, c3, d3);
    AddOfSums(Add(a0, a1), Add(b0, b1), Add(c0, c1), Add(d0, d1),
              Add(a2, a3), Add(b2, b3), Add(c2, c3), Add(d2, d3));
  }

  lemma SumWithZeros(a: Byte)
    ensures Sum4(a, 0, 0, 0) == a
  {
  }

  lemma InvMixRowUndoesMixRow(a: Byte, b: Byte, c: Byte, d: Byte)
    ensures InvMixRow(MixRow(a, b, c, d), MixRow(b, c, d, a), MixRow(c, d, a, b), MixRow(d, a, b, c)) == a
  {
    hide Sum4, Mul;
    MulOfSum(Mul(a, 0x02), Mul(b, 0x03), c, d, 0x0e);
    MulOfSum(Mul(b, 0x02), Mul(c, 0x03), d, a, 0x0b);
    MulOfSum(Mul(c, 0x02), Mul(d, 0x03), a, b, 0x0d);
    MulOfSum(Mul(d, 0x02), Mul(a, 0x03), b, c, 0x09);
    SumRotates(Mul(a, 0x0b), Mul(Mul(b, 0x02), 0x0b), Mul(Mul(c, 0x03), 0x0b), Mul(d, 0x0b));
    SumRotates(Mul(a, 0x0d), Mul(b, 0x0d), Mul(Mul(c, 0x02), 0x0d), Mul(Mul(d, 0x03), 0x0d));
    SumRotates(Mul(Mul(a, 0x03), 0x09), Mul(b, 0x09), Mul(c, 0x09), Mul(Mul(d, 0x02), 0x09));
    SumTransposes(Mul(Mul(a, 0x02), 0x0e), Mul(Mul(b, 0x03), 0x0e), Mul(c, 0x0e), Mul(d, 0x0e),
                  Mul(a, 0x0b), Mul(Mul(b, 0x02), 0x0b), Mul(Mul(c, 0x03), 0x0b), Mul(d, 0x0b),
                  Mul(a, 0x0d), Mul(b, 0x0d), Mul(Mul(c, 0x02), 0x0d), Mul(Mul(d, 0x03), 0x0d),
                  Mul(Mul(a, 0x03), 0x09), Mul(b, 0x09), Mul(c, 0x09), Mul(Mul(d, 0x02), 0x09));
    InvMixCoef0(a);
    InvMixCoef1(b);
    InvMixCoef2(c);
    InvMixCoef3(d);
    SumWithZeros(a);
  }

  lemma MixRowUndoesInvMixRow(a: Byte, b: Byte, c: Byte, d: Byte)
    ensures MixRow(InvMixRow(a, b, c, d), InvMixRow(b, c, d, a), InvMixRow(c, d, a, b), InvMixRow(d, a, b, c)) == a
  {
    hide Sum4, Mul;
    MulOfSum(Mul(a, 0x0e), Mul(b, 0x0b), Mul(c, 0x0d), Mul(d, 0x09), 0x02);
    MulOfSum(Mul(b, 0x0e), Mul(c, 0x0b), Mul(d, 0x0d), Mul(a, 0x09), 0x03);
    SumRotates(Mul(Mul(a, 0x09), 0x03), Mul(Mul(b, 0x0e), 0x03), Mul(Mul(c, 0x0b), 0x03), Mul(Mul(d, 0x0d), 0x03));
    SumRotates(Mul(a, 0x0d), Mul(b, 0x09), Mul(c, 0x0e), Mul(d, 0x0b));
    SumRotates(Mul(a, 0x0b), Mul(b, 0x0d), Mul(c, 0x09), Mul(d, 0x0e));
    SumTransposes(Mul(Mul(a, 0x0e), 0x02), Mul(Mul(b, 0x0b), 0x02), Mul(Mul(c, 0x0d), 0x02), Mul(Mul(d, 0x09), 0x02),
                  Mul(Mul(a, 0x09), 0x03), Mul(Mul(b, 0x0e), 0x03), Mul(Mul(c, 0x0b), 0x03), Mul(Mul(d, 0x0d), 0x03),
                  Mul(a, 0x0d), Mul(b, 0x09), Mul(c, 0x0e), Mul(d, 0x0b),
                  Mul(a, 0x0b), Mul(b, 0x0d), Mul(c, 0x09), Mul(d, 0x0e));
    MixInvCoef0(a);
    MixInvCoef1(b);
    MixInvCoef2(c);
    MixInvCoef3(d);
    SumWithZeros(a);
  }

  /** InvMixColumns inverts MixColumns on every column, and conversely. */
  lemma MixColumnInverse(w: Word)
    ensures InvMixColumn(MixColumn(w)) == w
    ensures MixColumn(InvMixColumn(w)) == w
  {
    hide MixRow, InvMixRow, MakeWord, Byte0, Byte1, Byte2, Byte3;
    var a, b, c, d := Byte0(w), Byte1(w), Byte2(w), Byte3(w);
    WordOfItsBytes(w);
    BytesOfWord(MixRow(a, b, c, d), MixRow(b, c, d, a), MixRow(c, d, a, b), MixRow(d, a, b, c));
    BytesOfWord(InvMixRow(a, b, c, d), InvMixRow(b, c, d, a), InvMixRow(c, d, a, b), InvMixRow(d, a, b, c));
    InvMixRowUndoesMixRow(a, b, c, d);
    InvMixRowUndoesMixRow(b, c, d, a);
    InvMixRowUndoesMixRow(c, d, a, b);
    InvMixRowUndoesMixRow(d, a, b, c);
    MixRowUndoesInvMixRow(a, b, c, d);
    MixRowUndoesInvMixRow(b, c, d, a);
    MixRowUndoesInvMixRow(c, d, a, b);
    MixRowUndoesInvMixRow(d, a, b, c);
  }
}
