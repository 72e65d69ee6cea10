/** What the table entries are: the S-box, its inverse, and the columns of the two mixing matrices times them. */
module TableFacts {
  import opened Gf256
  import opened RijndaelTables

  /** The two byte tables are mutually inverse permutations. */
  lemma S5UndoesS(x: Byte)
    ensures S5(S(x)) == x
  {
  }

  lemma SUndoesS5(x: Byte)
    ensures S(S5(x)) == x
  {
  }

  /** The affine map of FIPS 197, section 5.1.1, and its inverse. */
  function Affine(y: Byte): Byte {
    y ^ y.RotateLeft(1) ^ y.RotateLeft(2) ^ y.RotateLeft(3) ^ y.RotateLeft(4) ^ 0x63
  }

  function InvAffine(y: Byte): Byte {
    y.RotateLeft(1) ^ y.RotateLeft(3) ^ y.RotateLeft(6) ^ 0x05
  }

  lemma AffineInverse(y: Byte)
    ensures Affine(InvAffine(y)) == y
    ensures InvAffine(Affine(y)) == y
  {
  }

  /** S[x] is the affine image of a byte y: the inverse of x in GF(2^8), or 0 for x = 0. */
  lemma SBoxIsAffineOfInverse(x: Byte)
    ensures exists y :: S(x) == Affine(y) && Mul(x, y) == (if x == 0 then 0 else 1) && (x == 0 ==> y == 0)
  {
    var y := InvAffine(S(x));
    AffineInverse(S(x));
    InverseInSBox(x);
    assert S(0) == 0x63;
    hide S, Mul;
    assert S(x) == Affine(y);
  }

  lemma InverseInSBox(x: Byte)
    ensures Mul(x, InvAffine(S(x))) == (if x == 0 then 0 else 1)
  {
  }

  function Fold(w: Word): Byte { Sum4(Byte0(w), Byte1(w), Byte2(w), Byte3(w)) }

  lemma FoldInWord(w: Word)
    ensures (w >> 24) ^ ((w >> 16) & 0xff) ^ ((w >> 8) & 0xff) ^ (w & 0xff) == Fold(w) as Word
  {
  }

  lemma MixWord1IsColumn(s: Byte)
    ensures MixWord1(s as Word) == MakeWord(Mul(s, 0x02), s, s, Mul(s, 0x03))
  {
  }

  lemma MixWord2IsColumn(s: Byte)
    ensures MixWord2(s as Word) == MakeWord(Mul(s, 0x03), Mul(s, 0x02), s, s)
  {
  }

  lemma MixWord3IsColumn(s: Byte)
    ensures MixWord3(s as Word) == MakeWord(s, Mul(s, 0x03), Mul(s, 0x02), s)
  {
  }

  lemma MixWord4IsColumn(s: Byte)
    ensures MixWord4(s as Word) == MakeWord(s, s, Mul(s, 0x03), Mul(s, 0x02))
  {
  }

  lemma InvMixWord1IsColumn(s: Byte)
    ensures InvMixWord1(s as Word) == MakeWord(Mul(s, 0x0e), Mul(s, 0x09), Mul(s, 0x0d), Mul(s, 0x0b))
  {
    hide Mul;
    MulByCoefficient(s, 0x09);
    MulByCoefficient(s, 0x0b);
    MulByCoefficient(s, 0x0d);
    MulByCoefficient(s, 0x0e);
  }

  lemma InvMixWord2IsColumn(s: Byte)
    ensures InvMixWord2(s as Word) == MakeWord(Mul(s, 0x0b), Mul(s, 0x0e), Mul(s, 0x09), Mul(s, 0x0d))
  {
    hide Mul;
    MulByCoefficient(s, 0x09);
    MulByCoefficient(s, 0x0b);
    MulByCoefficient(s, 0x0d);
    MulByCoefficient(s, 0x0e);
  }

  lemma InvMixWord3IsColumn(s: Byte)
    ensures InvMixWord3(s as Word) == MakeWord(Mul(s, 0x0d), Mul(s, 0x0b), Mul(s, 0x0e), Mul(s, 0x09))
  {
    hide Mul;
    MulByCoefficient(s, 0x09);
    MulByCoefficient(s, 0x0b);
    MulByCoefficient(s, 0x0d);
    MulByCoefficient(s, 0x0e);
  }

  lemma InvMixWord4IsColumn(s: Byte)
    ensures InvMixWord4(s as Word) == MakeWord(Mul(s, 0x09), Mul(s, 0x0d), Mul(s, 0x0b), Mul(s, 0x0e))
  {
    hide Mul;
    MulByCoefficient(s, 0x09);
    MulByCoefficient(s, 0x0b);
    MulByCoefficient(s, 0x0d);
    MulByCoefficient(s, 0x0e);
  }

  lemma T1Sums(x: Byte)
    ensures S5(Fold(T1(x))) == x
  {
  }

  lemma T1Entry(x: Byte)
    ensures var s := S(x); T1(x) == MakeWord(Mul(s, 0x02), s, s, Mul(s, 0x03))
  {
    hide T1, S, S5, Fold, Mul, MakeWord, MixWord1;
    T1Sums(x);
    SUndoesS5(Fold(T1(x)));
    FoldInWord(T1(x));
    MixWord1IsColumn(Fold(T1(x)));
  }

  lemma T2Sums(x: Byte)
    ensures S5(Fold(T2(x))) == x
  {
  }

  lemma T2Entry(x: Byte)
    ensures var s := S(x); T2(x) == MakeWord(Mul(s, 0x03), Mul(s, 0x02), s, s)
  {
    hide T2, S, S5, Fold, Mul, MakeWord, MixWord2;
    T2Sums(x);
    SUndoesS5(Fold(T2(x)));
    FoldInWord(T2(x));
    MixWord2IsColumn(Fold(T2(x)));
  }

  lemma T3Sums(x: Byte)
    ensures S5(Fold(T3(x))) == x
  {
  }

  lemma T3Entry(x: Byte)
    ensures var s := S(x); T3(x) == MakeWord(s, Mul(s, 0x03), Mul(s, 0x02), s)
  {
    hide T3, S, S5, Fold, Mul, MakeWord, MixWord3;
    T3Sums(x);
    SUndoesS5(Fold(T3(x)));
    FoldInWord(T3(x));
    MixWord3IsColumn(Fold(T3(x)));
  }

  lemma T4Sums(x: Byte)
    ensures S5(Fold(T4(x))) == x
  {
  }

  lemma T4Entry(x: Byte)
    ensures var s := S(x); T4(x) == MakeWord(s, s, Mul(s, 0x03), Mul(s, 0x02))
  {
    hide T4, S, S5, Fold, Mul, MakeWord, MixWord4;
    T4Sums(x);
    SUndoesS5(Fold(T4(x)));
    FoldInWord(T4(x));
    MixWord4IsColumn(Fold(T4(x)));
  }

  lemma T5Sums(x: Byte)
    ensures S(Fold(T5(x))) == x
  {
  }

  lemma T5Entry(x: Byte)
    ensures var s := S5(x); T5(x) == MakeWord(Mul(s, 0x0e), Mul(s, 0x09), Mul(s, 0x0d), Mul(s, 0x0b))
  {
    hide T5, S, S5, Fold, Mul, MakeWord, InvMixWord1;
    T5Sums(x);
    S5UndoesS(Fold(T5(x)));
    FoldInWord(T5(x));
    InvMixWord1IsColumn(Fold(T5(x)));
  }

  lemma T6Sums(x: Byte)
    ensures S(Fold(T6(x))) == x
  {
  }

  lemma T6Entry(x: Byte)
    ensures var s := S5(x); T6(x) == MakeWord(Mul(s, 0x0b), Mul(s, 0x0e), Mul(s, 0x09), Mul(s, 0x0d))
  {
    hide T6, S, S5, Fold, Mul, MakeWord, InvMixWord2;
    T6Sums(x);
    S5UndoesS(Fold(T6(x)));
    FoldInWord(T6(x));
    InvMixWord2IsColumn(Fold(T6(x)));
  }

  lemma T7Sums(x: Byte)
    ensures S(Fold(T7(x))) == x
  {
  }

  lemma T7Entry(x: Byte)
    ensures var s := S5(x); T7(x) == MakeWord(Mul(s, 0x0d), Mul(s, 0x0b), Mul(s, 0x0e), Mul(s, 0x09))
  {
    hide T7, S, S5, Fold, Mul, MakeWord, InvMixWord3;
    T7Sums(x);
    S5UndoesS(Fold(T7(x)));
    FoldInWord(T7(x));
    InvMixWord3IsColumn(Fold(T7(x)));
  }

  lemma T8Sums(x: Byte)
    ensures S(Fold(T8(x))) == x
  {
  }

  lemma T8Entry(x: Byte)
    ensures var s := S5(x); T8(x) == MakeWord(Mul(s, 0x09), Mul(s, 0x0d), Mul(s, 0x0b), Mul(s, 0x0e))
  {
    hide T8, S, S5, Fold, Mul, MakeWord, InvMixWord4;
    T8Sums(x);
    S5UndoesS(Fold(T8(x)));
    FoldInWord(T8(x));
    InvMixWord4IsColumn(Fold(T8(x)));
  }

  lemma U1Sums(x: Byte)
    ensures Fold(U1(x)) == x
  {
  }

  lemma U1Entry(x: Byte)
    ensures U1(x) == MakeWord(Mul(x, 0x0e), Mul(x, 0x09), Mul(x, 0x0d), Mul(x, 0x0b))
  {
    hide U1, Fold, Mul, MakeWord, InvMixWord1;
    U1Sums(x);
    FoldInWord(U1(x));
    InvMixWord1IsColumn(Fold(U1(x)));
  }

  lemma U2Sums(x: Byte)
    ensures Fold(U2(x)) == x
  {
  }

  lemma U2Entry(x: Byte)
    ensures U2(x) == MakeWord(Mul(x, 0x0b), Mul(x, 0x0e), Mul(x, 0x09), Mul(x, 0x0d))
  {
    hide U2, Fold, Mul, MakeWord, InvMixWord2;
    U2Sums(x);
    FoldInWord(U2(x));
    InvMixWord2IsColumn(Fold(U2(x)));
  }

  lemma U3Sums(x: Byte)
    ensures Fold(U3(x)) == x
  {
  }

  lemma U3Entry(x: Byte)
    ensures U3(x) == MakeWord(Mul(x, 0x0d), Mul(x, 0x0b), Mul(x, 0x0e), Mul(x, 0x09))
  {
    hide U3, Fold, Mul, MakeWord, InvMixWord3;
    U3Sums(x);
    FoldInWord(U3(x));
    InvMixWord3IsColumn(Fold(U3(x)));
  }

  lemma U4Sums(x: Byte)
    ensures Fold(U4(x)) == x
  {
  }

  lemma U4Entry(x: Byte)
    ensures U4(x) == MakeWord(Mul(x, 0x09), Mul(x, 0x0d), Mul(x, 0x0b), Mul(x, 0x0e))
  {
    hide U4, Fold, Mul, MakeWord, InvMixWord4;
    U4Sums(x);
    FoldInWord(U4(x));
    InvMixWord4IsColumn(Fold(U4(x)));
  }

  lemma XorOfWords(a: Byte, b: Byte, c: Byte, d: Byte, e: Byte, f: Byte, g: Byte, h: Byte,
                   i: Byte, j: Byte, k: Byte, l: Byte, m: Byte, n: Byte, o: Byte, p: Byte)
    ensures Xor4(MakeWord(a, b, c, d), MakeWord(e, f, g, h), MakeWord(i, j, k, l), MakeWord(m, n, o, p))
         == MakeWord(Sum4(a, e, i, m), Sum4(b, f, j, n), Sum4(c, g, k, o), Sum4(d, h, l, p))
  {
    hide Add, MakeWord, Xor;
    MakeWordIsLinear(a, b, c, d, e, f, g, h);
    MakeWordIsLinear(i, j, k, l, m, n, o, p);
    MakeWordIsLinear(Add(a, e), Add(b, f), Add(c, g), Add(d, h), Add(i, m), Add(j, n), Add(k, o), Add(l, p));
  }

  /** One step of encrypt: four table words XORed are MixColumn of the substituted bytes. */
  lemma EncryptColumn(a: Byte, b: Byte, c: Byte, d: Byte)
    ensures Xor4(T1(a), T2(b), T3(c), T4(d)) == MixColumn(MakeWord(S(a), S(b), S(c), S(d)))
  {
    hide Xor4, T1, T2, T3, T4, S, Mul, Sum4, MakeWord, Byte0, Byte1, Byte2, Byte3;
    T1Entry(a);
    T2Entry(b);
    T3Entry(c);
    T4Entry(d);
    var p, q, r, s := S(a), S(b), S(c), S(d);
    BytesOfWord(p, q, r, s);
    XorOfWords(Mul(p, 0x02), p, p, Mul(p, 0x03), Mul(q, 0x03), Mul(q, 0x02), q, q,
               r, Mul(r, 0x03), Mul(r, 0x02), r, s, s, Mul(s, 0x03), Mul(s, 0x02));
    SumRotates(p, Mul(q, 0x02), Mul(r, 0x03), s);
    SumRotates(p, q, Mul(r, 0x02), Mul(s, 0x03));
    SumRotates(Mul(p, 0x03), q, r, Mul(s, 0x02));
  }

  lemma InvColumn(p: Byte, q: Byte, r: Byte, s: Byte)
    ensures Xor4(MakeWord(Mul(p, 0x0e), Mul(p, 0x09), Mul(p, 0x0d), Mul(p, 0x0b)),
                 MakeWord(Mul(q, 0x0b), Mul(q, 0x0e), Mul(q, 0x09), Mul(q, 0x0d)),
                 MakeWord(Mul(r, 0x0d), Mul(r, 0x0b), Mul(r, 0x0e), Mul(r, 0x09)),
                 MakeWord(Mul(s, 0x09), Mul(s, 0x0d), Mul(s, 0x0b), Mul(s, 0x0e)))
         == InvMixColumn(MakeWord(p, q, r, s))
  {
    hide Xor4, Mul, Sum4, MakeWord, Byte0, Byte1, Byte2, Byte3;
    BytesOfWord(p, q, r, s);
    XorOfWords(Mul(p, 0x0e), Mul(p, 0x09), Mul(p, 0x0d), Mul(p, 0x0b),
               Mul(q, 0x0b), Mul(q, 0x0e), Mul(q, 0x09), Mul(q, 0x0d),
               Mul(r, 0x0d), Mul(r, 0x0b), Mul(r, 0x0e), Mul(r, 0x09),
               Mul(s, 0x09), Mul(s, 0x0d), Mul(s, 0x0b), Mul(s, 0x0e));
    SumRotates(Mul(p, 0x09), Mul(q, 0x0e), Mul(r, 0x0b), Mul(s, 0x0d));
    SumRotates(Mul(p, 0x0d), Mul(q, 0x09), Mul(r, 0x0e), Mul(s, 0x0b));
    SumRotates(Mul(p, 0x0b), Mul(q, 0x0d), Mul(r, 0x09), Mul(s, 0x0e));
  }

  /** One step of decrypt: four table words XORed are InvMixColumn of the inversely substituted bytes. */
  lemma DecryptColumn(a: Byte, b: Byte, c: Byte, d: Byte)
    ensures Xor4(T5(a), T6(b), T7(c), T8(d)) == InvMixColumn(MakeWord(S5(a), S5(b), S5(c), S5(d)))
  {
    hide Xor4, T5, T6, T7, T8, S5, Mul, MakeWord, InvMixColumn;
    T5Entry(a);
    T6Entry(b);
    T7Entry(c);
    T8Entry(d);
    InvColumn(S5(a), S5(b), S5(c), S5(d));
  }

  /** One word of keyEncToDec: the U tables apply InvMixColumn. */
  lemma KeyColumn(w: Word)
    ensures Xor4(U1(Byte0(w)), U2(Byte1(w)), U3(Byte2(w)), U4(Byte3(w))) == InvMixColumn(w)
  {
    hide Xor4, U1, U2, U3, U4, Mul, MakeWord, InvMixColumn, Byte0, Byte1, Byte2, Byte3;
    U1Entry(Byte0(w));
    U2Entry(Byte1(w));
    U3Entry(Byte2(w));
    U4Entry(Byte3(w));
    InvColumn(Byte0(w), Byte1(w), Byte2(w), Byte3(w));
    WordOfItsBytes(w);
  }

  /** The last round of encrypt reads S out of the second byte of a T1 entry. */
  lemma SecondByteOfT1(x: Byte)
    ensures Byte1(T1(x)) == S(x)
  {
    hide T1, S, Mul, MakeWord, Byte1;
    T1Entry(x);
    BytesOfWord(Mul(S(x), 0x02), S(x), S(x), Mul(S(x), 0x03));
  }

  /** x to the power i in GF(2^8). */
  function XPower(i: nat): Byte {
    if i == 0 then 1 else Xtime(XPower(i - 1))
  }

  /** The round constants of FIPS 197, section 5.2. */
  lemma RconIsPower(i: nat)
    requires i < |RCON|
    ensures RCON[i] == XPower(i)
  {
    if i == 0 {
    } else {
      RconIsPower(i - 1);
      RconSteps(i);
    }
  }

  lemma RconSteps(i: nat)
    requires 0 < i < |RCON|
    ensures RCON[i] == Xtime(RCON[i - 1])
  {
    if i < 10 {
    } else if i < 20 {
    } else {
    }
  }
}
