/** Key expansion: FIPS 197, section 5.2. */
module KeySchedule {
  import opened Gf256
  import opened RijndaelTables
  import opened TableFacts
  import opened Aes

  /** A cipher key of Nk = 4, 6 or 8 words. */
  type Key = k: seq<Word> | |k| == 4 || |k| == 6 || |k| == 8 witness [0, 0, 0, 0]

  function RotWord(w: Word): Word {
    MakeWord(Byte1(w), Byte2(w), Byte3(w), Byte0(w))
  }

  /** What is added to word i - Nk to give word i; prev is word i - 1. */
  function KeyTerm(nk: nat, i: nat, prev: Word): Word
    requires 0 < nk <= i
  {
    if i % nk == 0 then Xor(SubWord(RotWord(prev)), MakeWord(XPower(i / nk - 1), 0, 0, 0))
    else if nk > 6 && i % nk == 4 then SubWord(prev)
    else prev
  }

  /** Word i of the expanded key. */
  function KeyWord(key: Key, i: nat): Word {
    if i < |key| then key[i]
    else Xor(KeyWord(key, i - |key|), KeyTerm(|key|, i, KeyWord(key, i - 1)))
  }

  /** The Nr + 1 round keys, Nr = Nk + 6. */
  function ExpandKey(key: Key): (ks: Schedule)
    ensures |ks| == |key| + 7
  {
    seq(|key| + 7, r requires 0 <= r => RoundKey(key, r))
  }

  function RoundKey(key: Key, r: nat): State {
    State(KeyWord(key, 4 * r), KeyWord(key, 4 * r + 1), KeyWord(key, 4 * r + 2), KeyWord(key, 4 * r + 3))
  }

  /** Words of the p-th pass over the key-sized window: position, remainder and quotient. */
  lemma WindowIndex(nk: nat, p: nat, j: nat)
    requires nk == 4 || nk == 6 || nk == 8
    requires j < nk
    ensures (nk * p + j) % nk == j
    ensures (nk * p + j) / nk == p
  {
  }

  /** One word of the next window in terms of the current one. */
  lemma NextWindow(key: Key, p: nat, j: nat)
    requires j < |key|
    ensures var nk := |key|;
      var prev := KeyWord(key, nk * (p + 1) + j - 1);
      KeyWord(key, nk * (p + 1) + j) == Xor(KeyWord(key, nk * p + j),
        if j == 0 then Xor(SubWord(RotWord(prev)), MakeWord(XPower(p), 0, 0, 0))
        else if nk == 8 && j == 4 then SubWord(prev)
        else prev)
  {
    hide SubWord, RotWord, Xor, MakeWord, XPower;
    WindowIndex(|key|, p + 1, j);
  }

  /** w with its first byte, respectively second, third, fourth, XORed with b. */
  function XorByte(w: Word, i: nat, b: Byte): Word
    requires i < 4
  {
    if i == 0 then MakeWord(Add(Byte0(w), b), Byte1(w), Byte2(w), Byte3(w))
    else if i == 1 then MakeWord(Byte0(w), Add(Byte1(w), b), Byte2(w), Byte3(w))
    else if i == 2 then MakeWord(Byte0(w), Byte1(w), Add(Byte2(w), b), Byte3(w))
    else MakeWord(Byte0(w), Byte1(w), Byte2(w), Add(Byte3(w), b))
  }

  lemma XorBytes(w: Word, a: Byte, b: Byte, c: Byte, d: Byte)
    ensures XorByte(XorByte(XorByte(XorByte(w, 0, a), 1, b), 2, c), 3, d) == Xor(w, MakeWord(a, b, c, d))
  {
    hide Xor, Add, MakeWord, Byte0, Byte1, Byte2, Byte3;
    var w0, w1, w2, w3 := Byte0(w), Byte1(w), Byte2(w), Byte3(w);
    BytesOfWord(Add(w0, a), w1, w2, w3);
    BytesOfWord(Add(w0, a), Add(w1, b), w2, w3);
    BytesOfWord(Add(w0, a), Add(w1, b), Add(w2, c), w3);
    MakeWordIsLinear(w0, w1, w2, w3, a, b, c, d);
    WordOfItsBytes(w);
  }

  lemma XorFirstByte(v: Word, w: Word, b: Byte)
    ensures XorByte(Xor(v, w), 0, b) == Xor(v, Xor(w, MakeWord(b, 0, 0, 0)))
  {
    hide Xor, MakeWord, Byte0, Byte1, Byte2, Byte3, Add;
    var u := Xor(v, w);
    MakeWordIsLinear(Byte0(u), Byte1(u), Byte2(u), Byte3(u), b, 0, 0, 0);
    AddZero(Byte1(u));
    AddZero(Byte2(u));
    AddZero(Byte3(u));
    WordOfItsBytes(u);
    XorAssociates(v, w, MakeWord(b, 0, 0, 0));
  }

  lemma AddZero(a: Byte)
    ensures Add(a, 0) == a
  {
  }

  lemma XorAssociates(u: Word, v: Word, w: Word)
    ensures Xor(Xor(u, v), w) == Xor(u, Xor(v, w))
  {
  }

  /** The five byte updates that start a pass of keySched add the rotated, substituted word and the round constant. */
  lemma FirstWordOfPass(w: Word, last: Word, rc: Byte)
    ensures XorByte(XorByte(XorByte(XorByte(XorByte(w, 0, S(Byte1(last))), 1, S(Byte2(last))), 2, S(Byte3(last))),
                            3, S(Byte0(last))), 0, rc)
         == Xor(w, Xor(SubWord(RotWord(last)), MakeWord(rc, 0, 0, 0)))
  {
    hide S, XorByte, Xor, MakeWord, Byte0, Byte1, Byte2, Byte3;
    BytesOfWord(Byte1(last), Byte2(last), Byte3(last), Byte0(last));
    XorBytes(w, S(Byte1(last)), S(Byte2(last)), S(Byte3(last)), S(Byte0(last)));
    XorFirstByte(w, SubWord(RotWord(last)), rc);
  }

  /** The middle word of a pass over an eight-word key. */
  lemma MiddleWordOfPass(w: Word, prev: Word)
    ensures XorByte(XorByte(XorByte(XorByte(w, 0, S(Byte0(prev))), 1, S(Byte1(prev))), 2, S(Byte2(prev))),
                    3, S(Byte3(prev)))
         == Xor(w, SubWord(prev))
  {
    hide S, XorByte, Xor, MakeWord, Byte0, Byte1, Byte2, Byte3;
    XorBytes(w, S(Byte0(prev)), S(Byte1(prev)), S(Byte2(prev)), S(Byte3(prev)));
  }
}
