/** The cipher of FIPS 197, its inverse, and the equivalent inverse cipher, for any sequence of round keys. */
module Aes {
  import opened Gf256
  import opened RijndaelTables
  import opened TableFacts

  /** The state of section 3.4: four columns of four bytes. */
  datatype State = State(c0: Word, c1: Word, c2: Word, c3: Word)

  /** The round keys 0 to Nr. */
  type Schedule = ks: seq<State> | |ks| >= 2 witness [State(0, 0, 0, 0), State(0, 0, 0, 0)]

  function AddRoundKey(s: State, k: State): State {
    State(Xor(s.c0, k.c0), Xor(s.c1, k.c1), Xor(s.c2, k.c2), Xor(s.c3, k.c3))
  }

  function SubWord(w: Word): Word {
    MakeWord(S(Byte0(w)), S(Byte1(w)), S(Byte2(w)), S(Byte3(w)))
  }

  function InvSubWord(w: Word): Word {
    MakeWord(S5(Byte0(w)), S5(Byte1(w)), S5(Byte2(w)), S5(Byte3(w)))
  }

  function SubBytes(s: State): State {
    State(SubWord(s.c0), SubWord(s.c1), SubWord(s.c2), SubWord(s.c3))
  }

  function InvSubBytes(s: State): State {
    State(InvSubWord(s.c0), InvSubWord(s.c1), InvSubWord(s.c2), InvSubWord(s.c3))
  }

  /** Byte r of the result comes from the r-th argument. */
  function Diagonal(p: Word, q: Word, r: Word, s: Word): Word {
    MakeWord(Byte0(p), Byte1(q), Byte2(r), Byte3(s))
  }

  /** Row r moves r columns to the left (section 5.1.2). */
  function ShiftRows(s: State): State {
    State(Diagonal(s.c0, s.c1, s.c2, s.c3), Diagonal(s.c1, s.c2, s.c3, s.c0),
          Diagonal(s.c2, s.c3, s.c0, s.c1), Diagonal(s.c3, s.c0, s.c1, s.c2))
  }

  /** Row r moves r columns to the right (section 5.3.1). */
  function InvShiftRows(s: State): State {
    State(Diagonal(s.c0, s.c3, s.c2, s.c1), Diagonal(s.c1, s.c0, s.c3, s.c2),
          Diagonal(s.c2, s.c1, s.c0, s.c3), Diagonal(s.c3, s.c2, s.c1, s.c0))
  }

  function MixColumns(s: State): State {
    State(MixColumn(s.c0), MixColumn(s.c1), MixColumn(s.c2), MixColumn(s.c3))
  }

  function InvMixColumns(s: State): State {
    State(InvMixColumn(s.c0), InvMixColumn(s.c1), InvMixColumn(s.c2), InvMixColumn(s.c3))
  }

  /** The state after round r of the cipher (section 5.1), r = 0 being the initial key addition. */
  function Rounds(ks: Schedule, s: State, r: nat): State
    requires r < |ks|
  {
    if r == 0 then AddRoundKey(s, ks[0])
    else AddRoundKey(MixColumns(ShiftRows(SubBytes(Rounds(ks, s, r - 1)))), ks[r])
  }

  function Cipher(ks: Schedule, s: State): State {
    var nr := |ks| - 1;
    AddRoundKey(ShiftRows(SubBytes(Rounds(ks, s, nr - 1))), ks[nr])
  }

  /** The cipher one round at a time. */
  lemma RoundsStep(ks: Schedule, s: State, r: nat)
    requires r < |ks|
    ensures r == 0 ==> Rounds(ks, s, r) == AddRoundKey(s, ks[0])
    ensures r > 0 ==> Rounds(ks, s, r) == AddRoundKey(MixColumns(ShiftRows(SubBytes(Rounds(ks, s, r - 1)))), ks[r])
  {
    hide AddRoundKey, MixColumns, ShiftRows, SubBytes;
  }

  /** The state after round r of the inverse cipher (section 5.3), counting down from Nr. */
  function InvRounds(ks: Schedule, s: State, r: nat): State
    requires 1 <= r < |ks|
    decreases |ks| - r
  {
    if r == |ks| - 1 then AddRoundKey(s, ks[r])
    else InvMixColumns(AddRoundKey(InvSubBytes(InvShiftRows(InvRounds(ks, s, r + 1))), ks[r]))
  }

  lemma InvRoundsStep(ks: Schedule, s: State, r: nat)
    requires 1 <= r < |ks|
    ensures r == |ks| - 1 ==> InvRounds(ks, s, r) == AddRoundKey(s, ks[r])
    ensures r < |ks| - 1 ==>
      var below := InvRounds(ks, s, r + 1);
      InvRounds(ks, s, r) == InvMixColumns(AddRoundKey(InvSubBytes(InvShiftRows(below)), ks[r]))
  {
    hide AddRoundKey, InvMixColumns, InvShiftRows, InvSubBytes;
  }

  function InvCipher(ks: Schedule, s: State): State {
    AddRoundKey(InvSubBytes(InvShiftRows(InvRounds(ks, s, 1))), ks[0])
  }

  /** The state after round r of the equivalent inverse cipher (section 5.3.5). */
  function EqInvRounds(dks: Schedule, s: State, r: nat): State
    requires 1 <= r < |dks|
    decreases |dks| - r
  {
    if r == |dks| - 1 then AddRoundKey(s, dks[r])
    else AddRoundKey(InvMixColumns(InvShiftRows(InvSubBytes(EqInvRounds(dks, s, r + 1)))), dks[r])
  }

  lemma EqInvRoundsStep(dks: Schedule, s: State, r: nat)
    requires 1 <= r < |dks|
    ensures r == |dks| - 1 ==> EqInvRounds(dks, s, r) == AddRoundKey(s, dks[r])
    ensures r < |dks| - 1 ==>
      var below := EqInvRounds(dks, s, r + 1);
      EqInvRounds(dks, s, r) == AddRoundKey(InvMixColumns(InvShiftRows(InvSubBytes(below))), dks[r])
  {
    hide AddRoundKey, InvMixColumns, InvShiftRows, InvSubBytes;
  }

  function EqInvCipher(dks: Schedule, s: State): State {
    AddRoundKey(InvShiftRows(InvSubBytes(EqInvRounds(dks, s, 1))), dks[0])
  }

  /** The round keys for the equivalent inverse cipher: InvMixColumns applied to all but the first and the last. */
  function InverseSchedule(ks: Schedule): (dks: Schedule)
    ensures |dks| == |ks|
  {
    seq(|ks|, r requires 0 <= r < |ks| => if r == 0 || r == |ks| - 1 then ks[r] else InvMixColumns(ks[r]))
  }

  lemma InverseScheduleAt(ks: Schedule, r: nat)
    requires r < |ks|
    ensures InverseSchedule(ks)[r] == if r == 0 || r == |ks| - 1 then ks[r] else InvMixColumns(ks[r])
  {
    hide InvMixColumns;
  }

  lemma AddRoundKeyTwice(s: State, k: State)
    ensures AddRoundKey(AddRoundKey(s, k), k) == s
  {
    XorTwice(s.c0, k.c0);
    XorTwice(s.c1, k.c1);
    XorTwice(s.c2, k.c2);
    XorTwice(s.c3, k.c3);
    hide Xor;
  }

  lemma XorTwice(v: Word, w: Word)
    ensures Xor(Xor(v, w), w) == v
  {
  }

  lemma SubWordInverse(w: Word)
    ensures InvSubWord(SubWord(w)) == w
    ensures SubWord(InvSubWord(w)) == w
  {
    hide S, S5, MakeWord, Byte0, Byte1, Byte2, Byte3;
    var a, b, c, d := Byte0(w), Byte1(w), Byte2(w), Byte3(w);
    WordOfItsBytes(w);
    BytesOfWord(S(a), S(b), S(c), S(d));
    BytesOfWord(S5(a), S5(b), S5(c), S5(d));
    S5UndoesS(a);
    S5UndoesS(b);
    S5UndoesS(c);
    S5UndoesS(d);
    SUndoesS5(a);
    SUndoesS5(b);
    SUndoesS5(c);
    SUndoesS5(d);
  }

  lemma SubBytesInverse(s: State)
    ensures InvSubBytes(SubBytes(s)) == s
    ensures SubBytes(InvSubBytes(s)) == s
  {
    hide SubWord, InvSubWord;
    SubWordInverse(s.c0);
    SubWordInverse(s.c1);
    SubWordInverse(s.c2);
    SubWordInverse(s.c3);
  }

  lemma BytesOfDiagonal(p: Word, q: Word, r: Word, s: Word)
    ensures Byte0(Diagonal(p, q, r, s)) == Byte0(p)
    ensures Byte1(Diagonal(p, q, r, s)) == Byte1(q)
    ensures Byte2(Diagonal(p, q, r, s)) == Byte2(r)
    ensures Byte3(Diagonal(p, q, r, s)) == Byte3(s)
  {
    hide MakeWord, Byte0, Byte1, Byte2, Byte3;
    BytesOfWord(Byte0(p), Byte1(q), Byte2(r), Byte3(s));
  }

  lemma ShiftRowsInverse(s: State)
    ensures InvShiftRows(ShiftRows(s)) == s
    ensures ShiftRows(InvShiftRows(s)) == s
  {
    hide MakeWord, Byte0, Byte1, Byte2, Byte3;
    BytesOfDiagonal(s.c0, s.c1, s.c2, s.c3);
    BytesOfDiagonal(s.c1, s.c2, s.c3, s.c0);
    BytesOfDiagonal(s.c2, s.c3, s.c0, s.c1);
    BytesOfDiagonal(s.c3, s.c0, s.c1, s.c2);
    BytesOfDiagonal(s.c0, s.c3, s.c2, s.c1);
    BytesOfDiagonal(s.c1, s.c0, s.c3, s.c2);
    BytesOfDiagonal(s.c2, s.c1, s.c0, s.c3);
    BytesOfDiagonal(s.c3, s.c2, s.c1, s.c0);
    WordOfItsBytes(s.c0);
    WordOfItsBytes(s.c1);
    WordOfItsBytes(s.c2);
    WordOfItsBytes(s.c3);
  }

  lemma InvSubOfDiagonal(p: Word, q: Word, r: Word, s: Word)
    ensures InvSubWord(Diagonal(p, q, r, s)) == Diagonal(InvSubWord(p), InvSubWord(q), InvSubWord(r), InvSubWord(s))
  {
    hide S5, MakeWord, Byte0, Byte1, Byte2, Byte3;
    BytesOfDiagonal(p, q, r, s);
    BytesOfWord(S5(Byte0(p)), S5(Byte1(p)), S5(Byte2(p)), S5(Byte3(p)));
    BytesOfWord(S5(Byte0(q)), S5(Byte1(q)), S5(Byte2(q)), S5(Byte3(q)));
    BytesOfWord(S5(Byte0(r)), S5(Byte1(r)), S5(Byte2(r)), S5(Byte3(r)));
    BytesOfWord(S5(Byte0(s)), S5(Byte1(s)), S5(Byte2(s)), S5(Byte3(s)));
  }

  lemma InvSubAndShiftCommute(s: State)
    ensures InvSubBytes(InvShiftRows(s)) == InvShiftRows(InvSubBytes(s))
  {
    hide InvSubWord, Diagonal;
    InvSubOfDiagonal(s.c0, s.c3, s.c2, s.c1);
    InvSubOfDiagonal(s.c1, s.c0, s.c3, s.c2);
    InvSubOfDiagonal(s.c2, s.c1, s.c0, s.c3);
    InvSubOfDiagonal(s.c3, s.c2, s.c1, s.c0);
  }

  lemma MixColumnsInverse(s: State)
    ensures InvMixColumns(MixColumns(s)) == s
    ensures MixColumns(InvMixColumns(s)) == s
  {
    hide MixColumn, InvMixColumn;
    MixColumnInverse(s.c0);
    MixColumnInverse(s.c1);
    MixColumnInverse(s.c2);
    MixColumnInverse(s.c3);
  }

  lemma InvMixColumnsOfSum(s: State, k: State)
    ensures InvMixColumns(AddRoundKey(s, k)) == AddRoundKey(InvMixColumns(s), InvMixColumns(k))
  {
    hide InvMixColumn, Xor;
    InvMixColumnIsLinear(s.c0, k.c0);
    InvMixColumnIsLinear(s.c1, k.c1);
    InvMixColumnIsLinear(s.c2, k.c2);
    InvMixColumnIsLinear(s.c3, k.c3);
  }

  /** Round by round, the equivalent inverse cipher with the transformed keys passes through the same states. */
  lemma {:induction false} EqInvRoundsRefine(ks: Schedule, s: State, r: nat)
    requires 1 <= r < |ks|
    ensures EqInvRounds(InverseSchedule(ks), s, r) == InvRounds(ks, s, r)
    decreases |ks| - r
  {
    hide *;
    InvRoundsStep(ks, s, r);
    EqInvRoundsStep(InverseSchedule(ks), s, r);
    InverseScheduleAt(ks, r);
    if r == |ks| - 1 {
    } else {
      EqInvRoundsRefine(ks, s, r + 1);
      var t := InvRounds(ks, s, r + 1);
      InvSubAndShiftCommute(t);
      InvMixColumnsOfSum(InvShiftRows(InvSubBytes(t)), ks[r]);
    }
  }

  /** FIPS 197, section 5.3.5: decrypting with the keys of keyEncToDec computes the inverse cipher. */
  lemma EquivalentInverseCipher(ks: Schedule, s: State)
    ensures EqInvCipher(InverseSchedule(ks), s) == InvCipher(ks, s)
  {
    hide InvMixColumns, AddRoundKey, InvSubBytes, InvShiftRows;
    EqInvRoundsRefine(ks, s, 1);
    InvSubAndShiftCommute(InvRounds(ks, s, 1));
  }

  lemma {:induction false} InvRoundsUndoRounds(ks: Schedule, s: State, r: nat)
    requires 1 <= r < |ks|
    ensures InvRounds(ks, Cipher(ks, s), r) == ShiftRows(SubBytes(Rounds(ks, s, r - 1)))
    decreases |ks| - r
  {
    hide MixColumns, InvMixColumns, AddRoundKey, SubBytes, ShiftRows, InvSubBytes, InvShiftRows;
    var t := ShiftRows(SubBytes(Rounds(ks, s, r - 1)));
    if r == |ks| - 1 {
      AddRoundKeyTwice(t, ks[r]);
    } else {
      InvRoundsUndoRounds(ks, s, r + 1);
      ShiftRowsInverse(SubBytes(Rounds(ks, s, r)));
      SubBytesInverse(Rounds(ks, s, r));
      AddRoundKeyTwice(MixColumns(t), ks[r]);
      MixColumnsInverse(t);
    }
  }

  lemma {:induction false} RoundsUndoInvRounds(ks: Schedule, s: State, r: nat)
    requires 1 <= r < |ks|
    ensures Rounds(ks, InvCipher(ks, s), r - 1) == InvSubBytes(InvShiftRows(InvRounds(ks, s, r)))
  {
    hide MixColumns, InvMixColumns, AddRoundKey, SubBytes, ShiftRows, InvSubBytes, InvShiftRows;
    var t := InvSubBytes(InvShiftRows(InvRounds(ks, s, r)));
    if r == 1 {
      AddRoundKeyTwice(t, ks[0]);
    } else {
      RoundsUndoInvRounds(ks, s, r - 1);
      var u := AddRoundKey(t, ks[r - 1]);
      SubBytesInverse(InvShiftRows(InvMixColumns(u)));
      ShiftRowsInverse(InvMixColumns(u));
      MixColumnsInverse(u);
      AddRoundKeyTwice(t, ks[r - 1]);
    }
  }

  /** The cipher and the inverse cipher undo each other, for any round keys. */
  lemma CipherInverse(ks: Schedule, s: State)
    ensures InvCipher(ks, Cipher(ks, s)) == s
    ensures Cipher(ks, InvCipher(ks, s)) == s
  {
    hide MixColumns, InvMixColumns, AddRoundKey, SubBytes, ShiftRows, InvSubBytes, InvShiftRows;
    InvRoundsUndoRounds(ks, s, 1);
    var t := Rounds(ks, s, 0);
    ShiftRowsInverse(SubBytes(t));
    SubBytesInverse(t);
    AddRoundKeyTwice(s, ks[0]);
    var nr := |ks| - 1;
    RoundsUndoInvRounds(ks, s, nr);
    var u := InvRounds(ks, s, nr);
    SubBytesInverse(InvShiftRows(u));
    ShiftRowsInverse(u);
    AddRoundKeyTwice(s, ks[nr]);
  }
}
