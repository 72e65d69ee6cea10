/** The cipher on 16-byte blocks. */
module Blocks {
  import opened Gf256
  import opened Aes
  import opened KeySchedule

  type Block = b: seq<Byte> | |b| == 16 witness [0, 0, 0, 0, 0, 0, 0, 0, 0, 0, 0, 0, 0, 0, 0, 0]

  /** Four bytes of a buffer read as one word. */
  function WordAt(b: seq<Byte>, i: nat): Word
    requires i + 4 <= |b|
  {
    MakeWord(b[i], b[i + 1], b[i + 2], b[i + 3])
  }

  function BytesOfWord4(w: Word): (b: seq<Byte>)
    ensures |b| == 4
  {
    [Byte0(w), Byte1(w), Byte2(w), Byte3(w)]
  }

  /** A block fills the state column by column (FIPS 197, section 3.4). */
  function StateOf(b: Block): State {
    State(WordAt(b, 0), WordAt(b, 4), WordAt(b, 8), WordAt(b, 12))
  }

  function BlockOf(s: State): Block {
    BytesOfWord4(s.c0) + BytesOfWord4(s.c1) + BytesOfWord4(s.c2) + BytesOfWord4(s.c3)
  }

  lemma StateOfBlockOf(s: State)
    ensures StateOf(BlockOf(s)) == s
  {
    hide MakeWord, Byte0, Byte1, Byte2, Byte3;
    WordOfItsBytes(s.c0);
    WordOfItsBytes(s.c1);
    WordOfItsBytes(s.c2);
    WordOfItsBytes(s.c3);
  }

  lemma BlockOfStateOf(b: Block)
    ensures BlockOf(StateOf(b)) == b
  {
    hide MakeWord, Byte0, Byte1, Byte2, Byte3;
    BytesOfWord(b[0], b[1], b[2], b[3]);
    BytesOfWord(b[4], b[5], b[6], b[7]);
    BytesOfWord(b[8], b[9], b[10], b[11]);
    BytesOfWord(b[12], b[13], b[14], b[15]);
  }

  /** What encrypt computes with the given round keys. */
  function Encryptor(ks: Schedule): Block -> Block {
    (b: Block) => BlockOf(Cipher(ks, StateOf(b)))
  }

  /** What decrypt computes with the given round keys. */
  function Decryptor(dks: Schedule): Block -> Block {
    (b: Block) => BlockOf(EqInvCipher(dks, StateOf(b)))
  }

  ghost predicate Inverses(f: Block -> Block, g: Block -> Block) {
    forall b: Block :: g(f(b)) == b && f(g(b)) == b
  }

  lemma DecryptorInvertsEncryptorAt(ks: Schedule, b: Block)
    ensures Decryptor(InverseSchedule(ks))(Encryptor(ks)(b)) == b
    ensures Encryptor(ks)(Decryptor(InverseSchedule(ks))(b)) == b
  {
    hide Cipher, EqInvCipher, InvCipher, InverseSchedule, StateOf, BlockOf;
    var s := StateOf(b);
    BlockOfStateOf(b);
    StateOfBlockOf(Cipher(ks, s));
    EquivalentInverseCipher(ks, Cipher(ks, s));
    StateOfBlockOf(EqInvCipher(InverseSchedule(ks), s));
    EquivalentInverseCipher(ks, s);
    CipherInverse(ks, s);
  }

  /** decrypt with the transformed keys and encrypt with the plain ones undo each other on every block. */
  lemma DecryptorInvertsEncryptor(ks: Schedule)
    ensures Inverses(Encryptor(ks), Decryptor(InverseSchedule(ks)))
  {
    hide Encryptor, Decryptor, InverseSchedule;
    forall b: Block
      ensures Decryptor(InverseSchedule(ks))(Encryptor(ks)(b)) == b
      ensures Encryptor(ks)(Decryptor(InverseSchedule(ks))(b)) == b
    {
      DecryptorInvertsEncryptorAt(ks, b);
    }
  }

  /** The words of a key given as 16, 24 or 32 bytes. */
  function KeyOfBytes(key: seq<Byte>): Key
    requires |key| == 16 || |key| == 24 || |key| == 32
  {
    seq(|key| / 4, i requires 0 <= i < |key| / 4 => WordAt(key, 4 * i))
  }
}
