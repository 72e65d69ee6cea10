/** The table rounds of encrypt and decrypt refine the rounds of FIPS 197. */
module TableRounds {
  import opened Gf256
  import opened RijndaelTables
  import opened TableFacts
  import opened Aes

  /** The sixteen look-ups of an encryption round, on the four words of temp. */
  function EncryptStep(t: State): State {
    State(Xor4(T1(Byte0(t.c0)), T2(Byte1(t.c1)), T3(Byte2(t.c2)), T4(Byte3(t.c3))),
          Xor4(T1(Byte0(t.c1)), T2(Byte1(t.c2)), T3(Byte2(t.c3)), T4(Byte3(t.c0))),
          Xor4(T1(Byte0(t.c2)), T2(Byte1(t.c3)), T3(Byte2(t.c0)), T4(Byte3(t.c1))),
          Xor4(T1(Byte0(t.c3)), T2(Byte1(t.c0)), T3(Byte2(t.c1)), T4(Byte3(t.c2))))
  }

  function EncryptLastWord(p: Word, q: Word, r: Word, s: Word): Word {
    MakeWord(Byte1(T1(Byte0(p))), Byte1(T1(Byte1(q))), Byte1(T1(Byte2(r))), Byte1(T1(Byte3(s))))
  }

  function EncryptLastStep(t: State): State {
    State(EncryptLastWord(t.c0, t.c1, t.c2, t.c3), EncryptLastWord(t.c1, t.c2, t.c3, t.c0),
          EncryptLastWord(t.c2, t.c3, t.c0, t.c1), EncryptLastWord(t.c3, t.c0, t.c1, t.c2))
  }

  function DecryptStep(t: State): State {
    State(Xor4(T5(Byte0(t.c0)), T6(Byte1(t.c3)), T7(Byte2(t.c2)), T8(Byte3(t.c1))),
          Xor4(T5(Byte0(t.c1)), T6(Byte1(t.c0)), T7(Byte2(t.c3)), T8(Byte3(t.c2))),
          Xor4(T5(Byte0(t.c2)), T6(Byte1(t.c1)), T7(Byte2(t.c0)), T8(Byte3(t.c3))),
          Xor4(T5(Byte0(t.c3)), T6(Byte1(t.c2)), T7(Byte2(t.c1)), T8(Byte3(t.c0))))
  }

  function DecryptLastWord(p: Word, q: Word, r: Word, s: Word): Word {
    MakeWord(S5(Byte0(p)), S5(Byte1(q)), S5(Byte2(r)), S5(Byte3(s)))
  }

  function DecryptLastStep(t: State): State {
    State(DecryptLastWord(t.c0, t.c3, t.c2, t.c1), DecryptLastWord(t.c1, t.c0, t.c3, t.c2),
          DecryptLastWord(t.c2, t.c1, t.c0, t.c3), DecryptLastWord(t.c3, t.c2, t.c1, t.c0))
  }

  lemma SubstitutedDiagonal(p: Word, q: Word, r: Word, s: Word)
    ensures Diagonal(SubWord(p), SubWord(q), SubWord(r), SubWord(s))
         == MakeWord(S(Byte0(p)), S(Byte1(q)), S(Byte2(r)), S(Byte3(s)))
    ensures Diagonal(InvSubWord(p), InvSubWord(q), InvSubWord(r), InvSubWord(s))
         == MakeWord(S5(Byte0(p)), S5(Byte1(q)), S5(Byte2(r)), S5(Byte3(s)))
  {
    hide S, S5, MakeWord, Byte0, Byte1, Byte2, Byte3;
    BytesOfWord(S(Byte0(p)), S(Byte1(p)), S(Byte2(p)), S(Byte3(p)));
    BytesOfWord(S(Byte0(q)), S(Byte1(q)), S(Byte2(q)), S(Byte3(q)));
    BytesOfWord(S(Byte0(r)), S(Byte1(r)), S(Byte2(r)), S(Byte3(r)));
    BytesOfWord(S(Byte0(s)), S(Byte1(s)), S(Byte2(s)), S(Byte3(s)));
    BytesOfWord(S5(Byte0(p)), S5(Byte1(p)), S5(Byte2(p)), S5(Byte3(p)));
    BytesOfWord(S5(Byte0(q)), S5(Byte1(q)), S5(Byte2(q)), S5(Byte3(q)));
    BytesOfWord(S5(Byte0(r)), S5(Byte1(r)), S5(Byte2(r)), S5(Byte3(r)));
    BytesOfWord(S5(Byte0(s)), S5(Byte1(s)), S5(Byte2(s)), S5(Byte3(s)));
  }

  lemma EncryptWord(p: Word, q: Word, r: Word, s: Word)
    ensures Xor4(T1(Byte0(p)), T2(Byte1(q)), T3(Byte2(r)), T4(Byte3(s)))
         == MixColumn(Diagonal(SubWord(p), SubWord(q), SubWord(r), SubWord(s)))
    ensures EncryptLastWord(p, q, r, s) == Diagonal(SubWord(p), SubWord(q), SubWord(r), SubWord(s))
  {
    hide Xor4, T1, T2, T3, T4, S, MixColumn, Diagonal, SubWord, MakeWord, Byte0, Byte1, Byte2, Byte3;
    SubstitutedDiagonal(p, q, r, s);
    EncryptColumn(Byte0(p), Byte1(q), Byte2(r), Byte3(s));
    SecondByteOfT1(Byte0(p));
    SecondByteOfT1(Byte1(q));
    SecondByteOfT1(Byte2(r));
    SecondByteOfT1(Byte3(s));
  }

  lemma DecryptWord(p: Word, q: Word, r: Word, s: Word)
    ensures Xor4(T5(Byte0(p)), T6(Byte1(q)), T7(Byte2(r)), T8(Byte3(s)))
         == InvMixColumn(Diagonal(InvSubWord(p), InvSubWord(q), InvSubWord(r), InvSubWord(s)))
    ensures DecryptLastWord(p, q, r, s) == Diagonal(InvSubWord(p), InvSubWord(q), InvSubWord(r), InvSubWord(s))
  {
    hide Xor4, T5, T6, T7, T8, S5, InvMixColumn, Diagonal, InvSubWord, MakeWord, Byte0, Byte1, Byte2, Byte3;
    SubstitutedDiagonal(p, q, r, s);
    DecryptColumn(Byte0(p), Byte1(q), Byte2(r), Byte3(s));
  }

  /** A table round of encrypt is SubBytes, ShiftRows and MixColumns; the last one is without MixColumns. */
  lemma EncryptStepRefines(t: State)
    ensures EncryptStep(t) == MixColumns(ShiftRows(SubBytes(t)))
    ensures EncryptLastStep(t) == ShiftRows(SubBytes(t))
  {
    hide Xor4, T1, T2, T3, T4, EncryptLastWord, MixColumn, Diagonal, SubWord, Byte0, Byte1, Byte2, Byte3;
    EncryptWord(t.c0, t.c1, t.c2, t.c3);
    EncryptWord(t.c1, t.c2, t.c3, t.c0);
    EncryptWord(t.c2, t.c3, t.c0, t.c1);
    EncryptWord(t.c3, t.c0, t.c1, t.c2);
  }

  /** A table round of decrypt is InvSubBytes, InvShiftRows and InvMixColumns. */
  lemma DecryptStepRefines(t: State)
    ensures DecryptStep(t) == InvMixColumns(InvShiftRows(InvSubBytes(t)))
    ensures DecryptLastStep(t) == InvShiftRows(InvSubBytes(t))
  {
    hide Xor4, T5, T6, T7, T8, DecryptLastWord, InvMixColumn, Diagonal, InvSubWord, Byte0, Byte1, Byte2, Byte3;
    DecryptWord(t.c0, t.c3, t.c2, t.c1);
    DecryptWord(t.c1, t.c0, t.c3, t.c2);
    DecryptWord(t.c2, t.c1, t.c0, t.c3);
    DecryptWord(t.c3, t.c2, t.c1, t.c0);
  }
}
