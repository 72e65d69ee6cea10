/**
  * FIPS 197 once more, byte by byte and without words, columns or tables of products: what key expansion and cipher
  * make of the bytes of a key and of a block. Byte r + 4c of a block is row r of column c of the state (section 3.4).
  */
module Fips197 {
  import opened Gf256
  import opened RijndaelTables
  import opened TableFacts
  import opened Aes
  import opened KeySchedule
  import opened Blocks
  import opened TableRounds

  /** Byte j of a word, the first one being the most significant. */
  function ByteAt(w: Word, j: nat): Byte
    requires j < 4
  {
    if j == 0 then Byte0(w) else if j == 1 then Byte1(w) else if j == 2 then Byte2(w) else Byte3(w)
  }

  type CipherKey = k: seq<Byte> | |k| == 16 || |k| == 24 || |k| == 32
    witness [0, 0, 0, 0, 0, 0, 0, 0, 0, 0, 0, 0, 0, 0, 0, 0]

  /** Byte j of word w of the expanded key (section 5.2). */
  function KeyByte(key: CipherKey, w: nat, j: nat): Byte
    requires j < 4
    decreases w
  {
    var nk := |key| / 4;
    if w < nk then key[4 * w + j]
    else if w % nk == 0 then
      Add(KeyByte(key, w - nk, j),
          Add(S(KeyByte(key, w - 1, (j + 1) % 4)), if j == 0 then XPower(w / nk - 1) else 0))
    else if nk == 8 && w % 8 == 4 then Add(KeyByte(key, w - nk, j), S(KeyByte(key, w - 1, j)))
    else Add(KeyByte(key, w - nk, j), KeyByte(key, w - 1, j))
  }

  /** Row r of column c after SubBytes and ShiftRows (sections 5.1.1 and 5.1.2). */
  function Shifted(s: Block, r: nat, c: nat): Byte
    requires r < 4 && c < 4
  {
    S(s[r + 4 * ((c + r) % 4)])
  }

  /** Row r of column c after MixColumns (section 5.1.3). */
  function Mixed(s: Block, r: nat, c: nat): Byte
    requires r < 4 && c < 4
  {
    var a, b := Shifted(s, r, c), Shifted(s, (r + 1) % 4, c);
    Sum4(Xtime(a), Add(Xtime(b), b), Shifted(s, (r + 2) % 4, c), Shifted(s, (r + 3) % 4, c))
  }

  /** The state after a number of rounds (section 5.1). */
  function StateAfter(key: CipherKey, input: Block, round: nat): Block {
    if round == 0 then seq(16, i requires 0 <= i < 16 => Add(input[i], KeyByte(key, i / 4, i % 4)))
    else
      var s := StateAfter(key, input, round - 1);
      seq(16, i requires 0 <= i < 16 => Add(Mixed(s, i % 4, i / 4), KeyByte(key, 4 * round + i / 4, i % 4)))
  }

  /** The cipher: Nr - 1 rounds with MixColumns and a last one without, Nr = Nk + 6. */
  function Ciphertext(key: CipherKey, input: Block): Block {
    var nr := |key| / 4 + 6;
    var s := StateAfter(key, input, nr - 1);
    seq(16, i requires 0 <= i < 16 => Add(Shifted(s, i % 4, i / 4), KeyByte(key, 4 * nr + i / 4, i % 4)))
  }

  lemma ByteOfWord(b0: Byte, b1: Byte, b2: Byte, b3: Byte, j: nat)
    requires j < 4
    ensures ByteAt(MakeWord(b0, b1, b2, b3), j)
         == if j == 0 then b0 else if j == 1 then b1 else if j == 2 then b2 else b3
  {
    hide MakeWord, Byte0, Byte1, Byte2, Byte3;
    BytesOfWord(b0, b1, b2, b3);
  }

  lemma ByteOfXor(v: Word, w: Word, j: nat)
    requires j < 4
    ensures ByteAt(Xor(v, w), j) == Add(ByteAt(v, j), ByteAt(w, j))
  {
    hide Xor, Add, Byte0, Byte1, Byte2, Byte3;
    BytesOfXor(v, w);
  }

  lemma ByteOfSubWord(w: Word, j: nat)
    requires j < 4
    ensures ByteAt(SubWord(w), j) == S(ByteAt(w, j))
    ensures ByteAt(SubWord(RotWord(w)), j) == S(ByteAt(w, (j + 1) % 4))
  {
    hide S, MakeWord, Byte0, Byte1, Byte2, Byte3;
    ByteOfWord(S(Byte0(w)), S(Byte1(w)), S(Byte2(w)), S(Byte3(w)), j);
    BytesOfWord(Byte1(w), Byte2(w), Byte3(w), Byte0(w));
    ByteOfWord(S(Byte1(w)), S(Byte2(w)), S(Byte3(w)), S(Byte0(w)), j);
  }

  /** The words of a key are its bytes, four by four. */
  lemma ByteOfKey(key: CipherKey, w: nat, j: nat)
    requires 4 * w < |key| && j < 4
    ensures |KeyOfBytes(key)| == |key| / 4 && ByteAt(KeyOfBytes(key)[w], j) == key[4 * w + j]
  {
    hide MakeWord, ByteAt;
    ByteOfWord(key[4 * w], key[4 * w + 1], key[4 * w + 2], key[4 * w + 3], j);
  }

  lemma KeyByteStep(key: CipherKey, w: nat, j: nat)
    requires j < 4
    ensures w < |key| / 4 ==> KeyByte(key, w, j) == key[4 * w + j]
    ensures w >= |key| / 4 ==>
      KeyByte(key, w, j) == Add(KeyByte(key, w - |key| / 4, j), ByteTerm(|key| / 4, w, j,
        KeyByte(key, w - 1, j), KeyByte(key, w - 1, (j + 1) % 4)))
  {
    hide S, XPower, Add;
  }

  /** What is added to byte j of word w - nk; a and b are bytes j and j + 1 of word w - 1. */
  function ByteTerm(nk: nat, w: nat, j: nat, a: Byte, b: Byte): Byte
    requires 0 < nk <= w
  {
    if w % nk == 0 then Add(S(b), if j == 0 then XPower(w / nk - 1) else 0)
    else if nk == 8 && w % 8 == 4 then S(a)
    else a
  }

  lemma ByteOfTerm(nk: nat, w: nat, j: nat, prev: Word)
    requires j < 4 && w >= nk && (nk == 4 || nk == 6 || nk == 8)
    ensures ByteAt(KeyTerm(nk, w, prev), j) == ByteTerm(nk, w, j, ByteAt(prev, j), ByteAt(prev, (j + 1) % 4))
  {
    hide S, XPower, ByteAt, SubWord, RotWord, Xor, Add, MakeWord;
    ByteOfSubWord(prev, j);
    if w % nk == 0 {
      var rc := XPower(w / nk - 1);
      ByteOfXor(SubWord(RotWord(prev)), MakeWord(rc, 0, 0, 0), j);
      ByteOfWord(rc, 0, 0, 0, j);
    }
  }

  lemma KeyWordStep(k: Key, w: nat)
    ensures w < |k| ==> KeyWord(k, w) == k[w]
    ensures w >= |k| ==> KeyWord(k, w) == Xor(KeyWord(k, w - |k|), KeyTerm(|k|, w, KeyWord(k, w - 1)))
  {
    hide Xor, KeyTerm;
  }

  /** The key expansion on words computes that on bytes. */
  lemma {:induction false} ExpansionByBytes(key: CipherKey, w: nat, j: nat)
    requires j < 4
    ensures ByteAt(KeyWord(KeyOfBytes(key), w), j) == KeyByte(key, w, j)
    decreases w
  {
    hide *;
    var k := KeyOfBytes(key);
    KeyByteStep(key, w, j);
    KeyWordStep(k, w);
    ByteOfKey(key, 0, 0);
    if w < |key| / 4 {
      ByteOfKey(key, w, j);
    } else {
      var prev := KeyWord(k, w - 1);
      ExpansionByBytes(key, w - |k|, j);
      ExpansionByBytes(key, w - 1, j);
      ExpansionByBytes(key, w - 1, (j + 1) % 4);
      ByteOfXor(KeyWord(k, w - |k|), KeyTerm(|k|, w, prev), j);
      ByteOfTerm(|k|, w, j, prev);
    }
  }

  function Column(s: State, c: nat): Word
    requires c < 4
  {
    if c == 0 then s.c0 else if c == 1 then s.c1 else if c == 2 then s.c2 else s.c3
  }

  lemma WordBytes(w: Word, j: nat)
    requires j < 4
    ensures BytesOfWord4(w)[j] == ByteAt(w, j)
  {
    hide Byte0, Byte1, Byte2, Byte3;
  }

  lemma ByteOfBlock(s: State, i: nat)
    requires i < 16
    ensures BlockOf(s)[i] == ByteAt(Column(s, i / 4), i % 4)
  {
    hide BytesOfWord4, ByteAt;
    WordBytes(Column(s, i / 4), i % 4);
    if i < 4 {
    } else if i < 8 {
    } else if i < 12 {
    } else {
    }
  }

  lemma ByteOfState(b: Block, i: nat)
    requires i < 16
    ensures ByteAt(Column(StateOf(b), i / 4), i % 4) == b[i]
  {
    hide StateOf, BlockOf;
    BlockOfStateOf(b);
    ByteOfBlock(StateOf(b), i);
  }

  lemma ColumnOfSum(s: State, k: State, c: nat)
    requires c < 4
    ensures Column(AddRoundKey(s, k), c) == Xor(Column(s, c), Column(k, c))
  {
    hide Xor;
  }

  lemma Columns(s: State)
    ensures Column(s, 0) == s.c0 && Column(s, 1) == s.c1 && Column(s, 2) == s.c2 && Column(s, 3) == s.c3
  {
  }

  lemma ColumnsOfRound(s: State)
    ensures var t := ShiftRows(SubBytes(s));
      && t.c0 == Diagonal(SubWord(s.c0), SubWord(s.c1), SubWord(s.c2), SubWord(s.c3))
      && t.c1 == Diagonal(SubWord(s.c1), SubWord(s.c2), SubWord(s.c3), SubWord(s.c0))
      && t.c2 == Diagonal(SubWord(s.c2), SubWord(s.c3), SubWord(s.c0), SubWord(s.c1))
      && t.c3 == Diagonal(SubWord(s.c3), SubWord(s.c0), SubWord(s.c1), SubWord(s.c2))
      && MixColumns(t) == State(MixColumn(t.c0), MixColumn(t.c1), MixColumn(t.c2), MixColumn(t.c3))
  {
    hide Diagonal, SubWord, MixColumn;
  }

  lemma ColumnOfShifted(s: State, c: nat)
    requires c < 4
    ensures Column(ShiftRows(SubBytes(s)), c)
         == Diagonal(SubWord(Column(s, c)), SubWord(Column(s, (c + 1) % 4)), SubWord(Column(s, (c + 2) % 4)),
                     SubWord(Column(s, (c + 3) % 4)))
    ensures Column(MixColumns(ShiftRows(SubBytes(s))), c) == MixColumn(Column(ShiftRows(SubBytes(s)), c))
  {
    hide *;
    Columns(s);
    Columns(ShiftRows(SubBytes(s)));
    Columns(MixColumns(ShiftRows(SubBytes(s))));
    ColumnsOfRound(s);
    Turns(c);
  }

  lemma Turns(c: nat)
    requires c < 4
    ensures c == 0 ==> (c + 1) % 4 == 1 && (c + 2) % 4 == 2 && (c + 3) % 4 == 3
    ensures c == 1 ==> (c + 1) % 4 == 2 && (c + 2) % 4 == 3 && (c + 3) % 4 == 0
    ensures c == 2 ==> (c + 1) % 4 == 3 && (c + 2) % 4 == 0 && (c + 3) % 4 == 1
    ensures c == 3 ==> (c + 1) % 4 == 0 && (c + 2) % 4 == 1 && (c + 3) % 4 == 2
  {
  }

  /** Byte r of a diagonal comes from the r-th word. */
  lemma ByteOfDiagonal(p: Word, q: Word, t: Word, u: Word, r: nat)
    requires r < 4
    ensures ByteAt(Diagonal(SubWord(p), SubWord(q), SubWord(t), SubWord(u)), r)
         == S(ByteAt(if r == 0 then p else if r == 1 then q else if r == 2 then t else u, r))
  {
    hide *;
    SubstitutedDiagonal(p, q, t, u);
    ByteOfWord(S(Byte0(p)), S(Byte1(q)), S(Byte2(t)), S(Byte3(u)), r);
    ByteCases(p);
    ByteCases(q);
    ByteCases(t);
    ByteCases(u);
  }

  lemma ByteCases(w: Word)
    ensures ByteAt(w, 0) == Byte0(w) && ByteAt(w, 1) == Byte1(w) && ByteAt(w, 2) == Byte2(w) && ByteAt(w, 3) == Byte3(w)
  {
    hide Byte0, Byte1, Byte2, Byte3;
  }

  lemma ShiftedIs(b: Block, r: nat, c: nat)
    requires r < 4 && c < 4
    ensures Shifted(b, r, c) == S(b[r + 4 * ((c + r) % 4)])
  {
    hide S;
  }

  lemma Place(r: nat, c: nat)
    requires r < 4 && c < 4
    ensures (r + 4 * c) / 4 == c && (r + 4 * c) % 4 == r && r + 4 * c < 16
  {
  }

  lemma ByteOfShifted(s: State, r: nat, c: nat)
    requires r < 4 && c < 4
    ensures ByteAt(Column(ShiftRows(SubBytes(s)), c), r) == Shifted(BlockOf(s), r, c)
  {
    hide *;
    ShiftedIs(BlockOf(s), r, c);
    ColumnOfShifted(s, c);
    ByteOfDiagonal(Column(s, c), Column(s, (c + 1) % 4), Column(s, (c + 2) % 4), Column(s, (c + 3) % 4), r);
    Place(r, (c + r) % 4);
    ByteOfBlock(s, r + 4 * ((c + r) % 4));
  }

  lemma ByteOfMixColumn(w: Word, r: nat)
    requires r < 4
    ensures ByteAt(MixColumn(w), r)
         == Sum4(Xtime(ByteAt(w, r)), Add(Xtime(ByteAt(w, (r + 1) % 4)), ByteAt(w, (r + 1) % 4)),
                 ByteAt(w, (r + 2) % 4), ByteAt(w, (r + 3) % 4))
  {
    hide MakeWord, Byte0, Byte1, Byte2, Byte3, Mul, Xtime, Sum4, Add, MixRow;
    var a, b, c, d := Byte0(w), Byte1(w), Byte2(w), Byte3(w);
    ByteOfWord(MixRow(a, b, c, d), MixRow(b, c, d, a), MixRow(c, d, a, b), MixRow(d, a, b, c), r);
    MixRowByXtime(ByteAt(w, r), ByteAt(w, (r + 1) % 4), ByteAt(w, (r + 2) % 4), ByteAt(w, (r + 3) % 4));
  }

  lemma MixRowByXtime(a: Byte, b: Byte, c: Byte, d: Byte)
    ensures MixRow(a, b, c, d) == Sum4(Xtime(a), Add(Xtime(b), b), c, d)
  {
    hide Mul, Xtime, Sum4, Add;
    MulByCoefficient(a, 0x02);
    MulByCoefficient(b, 0x03);
  }

  lemma ByteOfMixed(s: State, r: nat, c: nat)
    requires r < 4 && c < 4
    ensures ByteAt(Column(MixColumns(ShiftRows(SubBytes(s))), c), r) == Mixed(BlockOf(s), r, c)
  {
    hide ByteAt, Column, BlockOf, ShiftRows, SubBytes, MixColumns, MixColumn, Shifted, Xtime, Sum4, Add;
    var w := Column(ShiftRows(SubBytes(s)), c);
    ColumnOfShifted(s, c);
    ByteOfMixColumn(w, r);
    ByteOfShifted(s, r, c);
    ByteOfShifted(s, (r + 1) % 4, c);
    ByteOfShifted(s, (r + 2) % 4, c);
    ByteOfShifted(s, (r + 3) % 4, c);
  }

  /** Adding a round key, by bytes. */
  lemma ByteOfAddedKey(key: CipherKey, s: State, round: nat, i: nat)
    requires i < 16
    ensures BlockOf(AddRoundKey(s, RoundKey(KeyOfBytes(key), round)))[i]
         == Add(ByteAt(Column(s, i / 4), i % 4), KeyByte(key, 4 * round + i / 4, i % 4))
  {
    hide ByteAt, BlockOf, AddRoundKey, Xor, Add, KeyWord, KeyOfBytes, KeyByte;
    var k := RoundKey(KeyOfBytes(key), round);
    ByteOfBlock(AddRoundKey(s, k), i);
    ColumnOfSum(s, k, i / 4);
    ByteOfXor(Column(s, i / 4), Column(k, i / 4), i % 4);
    ExpansionByBytes(key, 4 * round + i / 4, i % 4);
  }

  lemma RoundKeyIs(key: CipherKey, r: nat)
    requires r < |key| / 4 + 7
    ensures |ExpandKey(KeyOfBytes(key))| == |key| / 4 + 7
    ensures ExpandKey(KeyOfBytes(key))[r] == RoundKey(KeyOfBytes(key), r)
  {
    hide RoundKey;
  }

  lemma StateAfterByte(key: CipherKey, input: Block, round: nat, i: nat)
    requires i < 16
    ensures round == 0 ==> StateAfter(key, input, round)[i] == Add(input[i], KeyByte(key, i / 4, i % 4))
    ensures round > 0 ==>
      StateAfter(key, input, round)[i]
      == Add(Mixed(StateAfter(key, input, round - 1), i % 4, i / 4), KeyByte(key, 4 * round + i / 4, i % 4))
  {
    hide KeyByte, Mixed, Add;
  }

  lemma {:induction false} RoundsByBytes(key: CipherKey, input: Block, round: nat)
    requires round < |key| / 4 + 7
    ensures |ExpandKey(KeyOfBytes(key))| == |key| / 4 + 7
    ensures BlockOf(Rounds(ExpandKey(KeyOfBytes(key)), StateOf(input), round)) == StateAfter(key, input, round)
  {
    hide *;
    RoundKeyIs(key, round);
    var ks, s := ExpandKey(KeyOfBytes(key)), StateOf(input);
    RoundsStep(ks, s, round);
    if round == 0 {
      forall i | 0 <= i < 16 ensures BlockOf(Rounds(ks, s, 0))[i] == StateAfter(key, input, 0)[i] {
        StateAfterByte(key, input, 0, i);
        ByteOfAddedKey(key, s, 0, i);
        ByteOfState(input, i);
      }
    } else {
      RoundsByBytes(key, input, round - 1);
      var t := Rounds(ks, s, round - 1);
      forall i | 0 <= i < 16 ensures BlockOf(Rounds(ks, s, round))[i] == StateAfter(key, input, round)[i] {
        StateAfterByte(key, input, round, i);
        ByteOfAddedKey(key, MixColumns(ShiftRows(SubBytes(t))), round, i);
        ByteOfMixed(t, i % 4, i / 4);
      }
    }
  }

  /** The cipher that the object computes, with the round keys that it derives, is that of FIPS 197 on bytes. */
  lemma CipherByBytes(key: CipherKey, input: Block)
    ensures Encryptor(ExpandKey(KeyOfBytes(key)))(input) == Ciphertext(key, input)
  {
    hide *;
    var nr := |key| / 4 + 6;
    RoundKeyIs(key, nr);
    var ks := ExpandKey(KeyOfBytes(key));
    var t := Rounds(ks, StateOf(input), nr - 1);
    LastRoundIs(ks, key, input);
    RoundsByBytes(key, input, nr - 1);
    forall i | 0 <= i < 16 ensures Encryptor(ks)(input)[i] == Ciphertext(key, input)[i] {
      ByteOfAddedKey(key, ShiftRows(SubBytes(t)), nr, i);
      ByteOfShifted(t, i % 4, i / 4);
      LastByte(key, input, i);
    }
  }

  lemma LastRoundIs(ks: Schedule, key: CipherKey, input: Block)
    requires |ks| == |key| / 4 + 7
    ensures Encryptor(ks)(input)
         == BlockOf(AddRoundKey(ShiftRows(SubBytes(Rounds(ks, StateOf(input), |ks| - 2))), ks[|ks| - 1]))
  {
    hide StateOf, BlockOf, AddRoundKey, ShiftRows, SubBytes, Rounds;
  }

  lemma LastByte(key: CipherKey, input: Block, i: nat)
    requires i < 16
    ensures var nr := |key| / 4 + 6;
      Ciphertext(key, input)[i]
      == Add(Shifted(StateAfter(key, input, nr - 1), i % 4, i / 4), KeyByte(key, 4 * nr + i / 4, i % 4))
  {
    hide StateAfter, Shifted, KeyByte, Add;
  }

  /** The round keys hold the expanded key; its beginning is the key. */
  lemma KeyHeld(key: CipherKey, w: nat, j: nat)
    requires w < |key| + 28 && j < 4
    ensures |ExpandKey(KeyOfBytes(key))| == |key| / 4 + 7
    ensures ByteAt(Column(ExpandKey(KeyOfBytes(key))[w / 4], w % 4), j) == KeyByte(key, w, j)
    ensures w < |key| / 4 ==> KeyByte(key, w, j) == key[4 * w + j]
  {
    hide *;
    RoundKeyIs(key, w / 4);
    RoundKeyColumn(KeyOfBytes(key), w);
    ExpansionByBytes(key, w, j);
    KeyByteStep(key, w, j);
  }

  lemma RoundKeyColumn(k: Key, w: nat)
    ensures Column(RoundKey(k, w / 4), w % 4) == KeyWord(k, w)
  {
    hide *;
    RoundKeyWords(k, w / 4);
    Columns(RoundKey(k, w / 4));
  }

  lemma RoundKeyWords(k: Key, r: nat)
    ensures RoundKey(k, r)
         == State(KeyWord(k, 4 * r), KeyWord(k, 4 * r + 1), KeyWord(k, 4 * r + 2), KeyWord(k, 4 * r + 3))
  {
    hide KeyWord;
  }
}
