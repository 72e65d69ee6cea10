/**
  * A worked example in full: the key of sixteen zero bytes and the block of sixteen zero bytes, with the round keys of
  * either direction.
  */
module ZeroKey {
  import opened Gf256
  import opened RijndaelTables
  import opened TableFacts
  import opened Aes
  import opened KeySchedule
  import opened Blocks

  const ZERO_KEY: Key := [0, 0, 0, 0]

  const ZERO_STATE := State(0, 0, 0, 0)

  /** The round key after k, for a key of four words. */
  function NextRoundKey(k: State, rc: Byte): State {
    var c0 := Xor(k.c0, Xor(SubWord(RotWord(k.c3)), MakeWord(rc, 0, 0, 0)));
    var c1 := Xor(k.c1, c0);
    var c2 := Xor(k.c2, c1);
    State(c0, c1, c2, Xor(k.c3, c2))
  }

  lemma RoundKeyStep(r: nat)
    requires r < 10
    ensures RoundKey(ZERO_KEY, r + 1) == NextRoundKey(RoundKey(ZERO_KEY, r), RCON[r])
  {
    hide KeyWord, SubWord, RotWord, Xor, MakeWord, XPower;
    RconIsPower(r);
    NextWindow(ZERO_KEY, r, 0);
    NextWindow(ZERO_KEY, r, 1);
    NextWindow(ZERO_KEY, r, 2);
    NextWindow(ZERO_KEY, r, 3);
  }

  function Round(s: State, k: State): State {
    AddRoundKey(MixColumns(ShiftRows(SubBytes(s))), k)
  }

  function LastRound(s: State, k: State): State {
    AddRoundKey(ShiftRows(SubBytes(s)), k)
  }

  /** The round keys; those of decryption; and the states when the block is encrypted with either. */
  const K1 := State(0x62636363, 0x62636363, 0x62636363, 0x62636363)
  const K2 := State(0x9b9898c9, 0xf9fbfbaa, 0x9b9898c9, 0xf9fbfbaa)
  const K3 := State(0x90973450, 0x696ccffa, 0xf2f45733, 0x0b0fac99)
  const K4 := State(0xee06da7b, 0x876a1581, 0x759e42b2, 0x7e91ee2b)
  const K5 := State(0x7f2e2b88, 0xf8443e09, 0x8dda7cbb, 0xf34b9290)
  const K6 := State(0xec614b85, 0x1425758c, 0x99ff0937, 0x6ab49ba7)
  const K7 := State(0x21751787, 0x3550620b, 0xacaf6b3c, 0xc61bf09b)
  const K8 := State(0x0ef90333, 0x3ba96138, 0x97060a04, 0x511dfa9f)
  const K9 := State(0xb1d4d8e2, 0x8a7db9da, 0x1d7bb3de, 0x4c664941)
  const K10 := State(0xb4ef5bcb, 0x3e92e211, 0x23e951cf, 0x6f8f188e)
  const D1 := State(0x6d6a6e68, 0x6d6a6e68, 0x6d6a6e68, 0x6d6a6e68)
  const D2 := State(0x6533c2c6, 0x0859acae, 0x6533c2c6, 0x0859acae)
  const D3 := State(0x6ead0cac, 0x66f4a002, 0x03c762c4, 0x0b9ece6a)
  const D4 := State(0xc27d6492, 0xa489c490, 0xa74ea654, 0xacd0683e)
  const D5 := State(0xb5a91ef0, 0x1120da60, 0xb66e7c34, 0x1abe140a)
  const D6 := State(0x2ae50b87, 0x3bc5d1e7, 0x8dabadd3, 0x9715b9d9)
  const D7 := State(0xefea4a8b, 0xd42f9b6c, 0x598436bf, 0xce918f66)
  const D8 := State(0x6ab6f2e9, 0xbe996985, 0xe71d5f3a, 0x298cd05c)
  const D9 := State(0x5585820d, 0xeb1ceb88, 0x0c01b4b2, 0x258d64ee)
  const P1 := State(0x01000000, 0x01000000, 0x01000000, 0x01000000)
  const P2 := State(0xc6e4e48b, 0xa48787e8, 0xc6e4e48b, 0xa48787e8)
  const P3 := State(0x282df3c4, 0x6af38625, 0x4a4e90a7, 0x0890e546)
  const P4 := State(0xabd2cdfe, 0x375ab549, 0x50a0afc0, 0x759a6a5f)
  const P5 := State(0xd46f4f6c, 0x55b89633, 0x7e05bb3d, 0x7979de23)
  const P6 := State(0x04f2ca97, 0x07782845, 0xe22f0196, 0x49c5d710)
  const P7 := State(0xb7aae4c5, 0x1d252d4f, 0x6c920f81, 0x94e58150)
  const P8 := State(0x23e78c3c, 0x132163db, 0xaac0c657, 0x2e03cb95)
  const P9 := State(0x7ffe0e95, 0x51a56635, 0x0e347c47, 0x2929eccb)
  const Q1 := State(0x0e090d0b, 0x0e090d0b, 0x0e090d0b, 0x0e090d0b)
  const Q2 := State(0xd7d3a0a0, 0xbab9cec8, 0xd7d3a0a0, 0xbab9cec8)
  const Q3 := State(0x80dcacc3, 0x54aa0433, 0xedb6c2ab, 0x39c06a5b)
  const Q4 := State(0xb0a50425, 0x1a1ddce0, 0x8a1f2e1d, 0x89baa5b8)
  const Q5 := State(0xca228b8f, 0x2c2cf525, 0x5e0f3169, 0x6720552b)
  const Q6 := State(0x67d09354, 0xcc34a018, 0xfdfe79cf, 0x376568d1)
  const Q7 := State(0x5ea0e2cd, 0xf1e6810f, 0x57986093, 0x1b5a3b4c)
  const Q8 := State(0xaaabe40d, 0x72348db8, 0x66e40b1d, 0x8730f8f9)
  const Q9 := State(0x8cfdd0f8, 0x469a22d5, 0x63ede552, 0x541d5cbb)
  const ENCRYPTED := State(0x66e94bd4, 0xef8a2c3b, 0x884cfa59, 0xca342b2e)
  const MISTAKEN := State(0xd0578221, 0x64c7a850, 0xd84d21cc, 0x4fdb8b8e)

  lemma Key1()
    ensures NextRoundKey(ZERO_STATE, RCON[0]) == K1
  {
  }

  lemma Key2()
    ensures NextRoundKey(K1, RCON[1]) == K2
  {
  }

  lemma Key3()
    ensures NextRoundKey(K2, RCON[2]) == K3
  {
  }

  lemma Key4()
    ensures NextRoundKey(K3, RCON[3]) == K4
  {
  }

  lemma Key5()
    ensures NextRoundKey(K4, RCON[4]) == K5
  {
  }

  lemma Key6()
    ensures NextRoundKey(K5, RCON[5]) == K6
  {
  }

  lemma Key7()
    ensures NextRoundKey(K6, RCON[6]) == K7
  {
  }

  lemma Key8()
    ensures NextRoundKey(K7, RCON[7]) == K8
  {
  }

  lemma Key9()
    ensures NextRoundKey(K8, RCON[8]) == K9
  {
  }

  lemma Key10()
    ensures NextRoundKey(K9, RCON[9]) == K10
  {
  }

  lemma Round1()
    ensures Round(ZERO_STATE, K1) == P1
    ensures InvMixColumns(K1) == D1
    ensures Round(ZERO_STATE, D1) == Q1
  {
  }

  lemma Round2()
    ensures Round(P1, K2) == P2
    ensures InvMixColumns(K2) == D2
    ensures Round(Q1, D2) == Q2
  {
  }

  lemma Round3()
    ensures Round(P2, K3) == P3
    ensures InvMixColumns(K3) == D3
    ensures Round(Q2, D3) == Q3
  {
  }

  lemma Round4()
    ensures Round(P3, K4) == P4
    ensures InvMixColumns(K4) == D4
    ensures Round(Q3, D4) == Q4
  {
  }

  lemma Round5()
    ensures Round(P4, K5) == P5
    ensures InvMixColumns(K5) == D5
    ensures Round(Q4, D5) == Q5
  {
  }

  lemma Round6()
    ensures Round(P5, K6) == P6
    ensures InvMixColumns(K6) == D6
    ensures Round(Q5, D6) == Q6
  {
  }

  lemma Round7()
    ensures Round(P6, K7) == P7
    ensures InvMixColumns(K7) == D7
    ensures Round(Q6, D7) == Q7
  {
  }

  lemma Round8()
    ensures Round(P7, K8) == P8
    ensures InvMixColumns(K8) == D8
    ensures Round(Q7, D8) == Q8
  {
  }

  lemma Round9()
    ensures Round(P8, K9) == P9
    ensures InvMixColumns(K9) == D9
    ensures Round(Q8, D9) == Q9
  {
  }

  lemma Round10()
    ensures LastRound(P9, K10) == ENCRYPTED
    ensures LastRound(Q9, K10) == MISTAKEN
  {
  }

  const KEYS: Schedule := [ZERO_STATE, K1, K2, K3, K4, K5, K6, K7, K8, K9, K10]

  const DECRYPTION_KEYS: Schedule := [ZERO_STATE, D1, D2, D3, D4, D5, D6, D7, D8, D9, K10]

  lemma Key0()
    ensures RoundKey(ZERO_KEY, 0) == ZERO_STATE
  {
  }

  lemma FirstKeys()
    ensures RoundKey(ZERO_KEY, 0) == ZERO_STATE && RoundKey(ZERO_KEY, 1) == K1 && RoundKey(ZERO_KEY, 2) == K2
    ensures RoundKey(ZERO_KEY, 3) == K3 && RoundKey(ZERO_KEY, 4) == K4 && RoundKey(ZERO_KEY, 5) == K5
  {
    hide NextRoundKey, RoundKey;
    Key0();
    RoundKeyStep(0);
    Key1();
    RoundKeyStep(1);
    Key2();
    RoundKeyStep(2);
    Key3();
    RoundKeyStep(3);
    Key4();
    RoundKeyStep(4);
    Key5();
  }

  lemma LastKeys()
    ensures RoundKey(ZERO_KEY, 6) == K6 && RoundKey(ZERO_KEY, 7) == K7 && RoundKey(ZERO_KEY, 8) == K8
    ensures RoundKey(ZERO_KEY, 9) == K9 && RoundKey(ZERO_KEY, 10) == K10
  {
    hide NextRoundKey, RoundKey;
    FirstKeys();
    RoundKeyStep(5);
    Key6();
    RoundKeyStep(6);
    Key7();
    RoundKeyStep(7);
    Key8();
    RoundKeyStep(8);
    Key9();
    RoundKeyStep(9);
    Key10();
  }

  lemma ExpandedZeroKey()
    ensures ExpandKey(ZERO_KEY) == KEYS
  {
    hide RoundKey;
    FirstKeys();
    LastKeys();
  }

  lemma DecryptionKeys()
    ensures InverseSchedule(KEYS) == DECRYPTION_KEYS
  {
    hide InvMixColumns, Round;
    Round1();
    Round2();
    Round3();
    Round4();
    Round5();
    Round6();
    Round7();
    Round8();
    Round9();
  }

  lemma FirstState(ks: Schedule)
    requires ks[0] == ZERO_STATE
    ensures Rounds(ks, ZERO_STATE, 0) == ZERO_STATE
  {
  }

  lemma LastStep(ks: Schedule)
    ensures Cipher(ks, ZERO_STATE) == LastRound(Rounds(ks, ZERO_STATE, |ks| - 2), ks[|ks| - 1])
  {
  }

  lemma RoundStep(ks: Schedule, r: nat)
    requires 0 < r < |ks|
    ensures Rounds(ks, ZERO_STATE, r) == Round(Rounds(ks, ZERO_STATE, r - 1), ks[r])
  {
  }

  lemma EncryptedHalf()
    ensures Rounds(KEYS, ZERO_STATE, 5) == P5
  {
    hide Rounds, Round;
    FirstState(KEYS);
    RoundStep(KEYS, 1);
    Round1();
    RoundStep(KEYS, 2);
    Round2();
    RoundStep(KEYS, 3);
    Round3();
    RoundStep(KEYS, 4);
    Round4();
    RoundStep(KEYS, 5);
    Round5();
  }

  lemma Encrypted()
    ensures Cipher(KEYS, ZERO_STATE) == ENCRYPTED
  {
    hide Rounds, Round, LastRound, Cipher;
    EncryptedHalf();
    RoundStep(KEYS, 6);
    Round6();
    RoundStep(KEYS, 7);
    Round7();
    RoundStep(KEYS, 8);
    Round8();
    RoundStep(KEYS, 9);
    Round9();
    Round10();
    LastStep(KEYS);
  }

  lemma MistakenHalf()
    ensures Rounds(DECRYPTION_KEYS, ZERO_STATE, 5) == Q5
  {
    hide Rounds, Round;
    FirstState(DECRYPTION_KEYS);
    RoundStep(DECRYPTION_KEYS, 1);
    Round1();
    RoundStep(DECRYPTION_KEYS, 2);
    Round2();
    RoundStep(DECRYPTION_KEYS, 3);
    Round3();
    RoundStep(DECRYPTION_KEYS, 4);
    Round4();
    RoundStep(DECRYPTION_KEYS, 5);
    Round5();
  }

  lemma Mistaken()
    ensures Cipher(DECRYPTION_KEYS, ZERO_STATE) == MISTAKEN
  {
    hide Rounds, Round, LastRound, Cipher;
    MistakenHalf();
    RoundStep(DECRYPTION_KEYS, 6);
    Round6();
    RoundStep(DECRYPTION_KEYS, 7);
    Round7();
    RoundStep(DECRYPTION_KEYS, 8);
    Round8();
    RoundStep(DECRYPTION_KEYS, 9);
    Round9();
    Round10();
    LastStep(DECRYPTION_KEYS);
  }

  /** The cipher text of the zero block under the zero key, and what the same block gives with the decryption keys. */
  lemma KnownAnswer()
    ensures Encryptor(ExpandKey(ZERO_KEY))(BlockOf(ZERO_STATE)) == BlockOf(ENCRYPTED)
    ensures Encryptor(InverseSchedule(ExpandKey(ZERO_KEY)))(BlockOf(ZERO_STATE)) == BlockOf(MISTAKEN)
  {
    hide Cipher, ExpandKey, InverseSchedule, BlockOf, StateOf;
    ExpandedZeroKey();
    DecryptionKeys();
    StateOfBlockOf(ZERO_STATE);
    Encrypted();
    Mistaken();
  }
}
