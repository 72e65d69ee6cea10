/** What the cipher object promises over several calls: round trips, converses, and where a mode falls short. */
module Sessions {
  import opened Gf256
  import opened Aes
  import opened KeySchedule
  import opened Blocks
  import opened BlockModes
  import opened Cfb
  import opened Rijndael
  import opened ZeroKey

  /** Padding in CBC mode: padDecrypt returns exactly what padEncrypt was given, and accepts nothing else. */
  lemma CbcPaddedRoundTrip(ks: Schedule, iv: Block, m: seq<Byte>, was: seq<Byte>, now: seq<Byte>, r: int)
    requires 16 * (|m| / 16 + 1) <= |was|
    ensures PadDecrypted(CBC, Decryptor(InverseSchedule(ks)), iv, PadEncrypted(CBC, Encryptor(ks), iv, m), was, now, r)
       <==> r == |m| && now == Splice(was, 0, m)
  {
    hide Encryptor, Decryptor, InverseSchedule, CbcEncrypt, CbcDecrypt, Splice, Pad, UnpadCbc;
    var e, d := Encryptor(ks), Decryptor(InverseSchedule(ks));
    DecryptorInvertsEncryptor(ks);
    CbcRoundTrip(e, d, iv, Pad(m));
    UnpadCbcOfPad(m);
  }

  /** Whatever padDecrypt accepts in CBC mode, padEncrypt of the accepted text reproduces. */
  lemma CbcPaddedConverse(ks: Schedule, iv: Block, c: seq<Byte>, was: seq<Byte>, now: seq<Byte>, r: int)
    requires 0 < |c| <= |was| && |c| % 16 == 0
    ensures PadDecrypted(CBC, Decryptor(InverseSchedule(ks)), iv, c, was, now, r) ==>
      && (r >= 0 <==> exists m :: c == PadEncrypted(CBC, Encryptor(ks), iv, m))
      && (r >= 0 ==> r <= |now| && c == PadEncrypted(CBC, Encryptor(ks), iv, now[..r]))
  {
    hide Encryptor, Decryptor, InverseSchedule, CbcEncrypt, CbcDecrypt, Pad, UnpadCbc;
    var e, d := Encryptor(ks), Decryptor(InverseSchedule(ks));
    var text := CbcDecrypt(d, iv, c);
    DecryptorInvertsEncryptor(ks);
    CbcConverse(e, d, iv, c);
    PadOfUnpadCbc(text);
    if PadDecrypted(CBC, d, iv, c, was, now, r) {
      if r >= 0 {
        var m := UnpadCbc(text).bytes;
        assert now[..r] == m;
        assert c == PadEncrypted(CBC, e, iv, m);
      }
      forall m | c == PadEncrypted(CBC, e, iv, m) ensures r >= 0 {
        CbcRoundTrip(e, d, iv, Pad(m));
        UnpadCbcOfPad(m);
      }
    }
  }

  /** Padding in ECB mode survives exactly when the length is not a multiple of 16; otherwise padDecrypt rejects it. */
  lemma EcbPaddedRoundTrip(ks: Schedule, iv: Block, m: seq<Byte>, was: seq<Byte>, now: seq<Byte>, r: int)
    requires 16 * (|m| / 16 + 1) <= |was|
    ensures PadDecrypted(ECB, Decryptor(InverseSchedule(ks)), iv, PadEncrypted(ECB, Encryptor(ks), iv, m), was, now, r)
      ==> (r == |m| && now == Splice(was, 0, m) <==> |m| % 16 != 0) && (|m| % 16 == 0 ==> r == CORRUPTED_DATA)
  {
    hide Encryptor, Decryptor, InverseSchedule, Ecb, Splice, Pad, UnpadEcb;
    var e, d := Encryptor(ks), Decryptor(InverseSchedule(ks));
    DecryptorInvertsEncryptor(ks);
    EcbRoundTrip(e, d, Pad(m));
    UnpadEcbOfPad(m);
  }

  /**
    * In ECB mode padDecrypt accepts what padEncrypt makes of messages with an incomplete block, and any text that ends
    * in a zero byte; re-encrypting an accepted text gives the ciphertext back if and only if it does not.
    */
  lemma EcbPaddedConverse(ks: Schedule, iv: Block, c: seq<Byte>, was: seq<Byte>, now: seq<Byte>, r: int)
    requires 0 < |c| <= |was| && |c| % 16 == 0
    ensures PadDecrypted(ECB, Decryptor(InverseSchedule(ks)), iv, c, was, now, r) ==>
      var text := Ecb(Decryptor(InverseSchedule(ks)), c);
      var zero := ByteValue(text[|text| - 1]) == 0;
      && (r >= 0 <==> zero || exists m :: |m| % 16 != 0 && c == PadEncrypted(ECB, Encryptor(ks), iv, m))
      && (r >= 0 ==> r <= |now| && (c == PadEncrypted(ECB, Encryptor(ks), iv, now[..r]) <==> !zero))
  {
    hide Encryptor, Decryptor, InverseSchedule, Ecb, Pad, UnpadEcb;
    var e, d := Encryptor(ks), Decryptor(InverseSchedule(ks));
    var text := Ecb(d, c);
    DecryptorInvertsEncryptor(ks);
    EcbRoundTrip(d, e, c);
    PadOfUnpadEcb(text);
    if PadDecrypted(ECB, d, iv, c, was, now, r) {
      if r >= 0 {
        assert now[..r] == UnpadEcb(text).bytes;
        EcbRoundTrip(e, d, Pad(now[..r]));
        if m :| text == Pad(m) && |m| % 16 != 0 {
          assert c == PadEncrypted(ECB, e, iv, m);
        }
      }
      forall m | |m| % 16 != 0 && c == PadEncrypted(ECB, e, iv, m) ensures r >= 0 {
        EcbRoundTrip(e, d, Pad(m));
      }
    }
  }

  /** The whole blocks of a padded CBC message encrypt as blockEncrypt would encrypt them. */
  lemma PaddedPrefixIsBlockEncryption(e: Block -> Block, iv: Block, m: seq<Byte>, n: nat)
    requires 16 * n <= |m|
    ensures PadEncrypted(CBC, e, iv, m)[..16 * n] == CbcEncrypt(e, iv, FirstBlocks(m, n))
  {
    var a: seq<Byte> := FirstBlocks(m, n);
    var b := Pad(m)[16 * n..];
    assert Pad(m) == a + b;
    CbcEncryptAppend(e, iv, a, b);
  }

  /** blockDecrypt undoes blockEncrypt on whole blocks, in ECB and CBC mode. */
  lemma BlockRoundTrip(ks: Schedule, iv: Block, m: seq<Byte>)
    requires Whole(m)
    ensures Ecb(Decryptor(InverseSchedule(ks)), Ecb(Encryptor(ks), m)) == m
    ensures CbcDecrypt(Decryptor(InverseSchedule(ks)), iv, CbcEncrypt(Encryptor(ks), iv, m)) == m
  {
    hide Encryptor, Decryptor, InverseSchedule, Ecb, CbcEncrypt, CbcDecrypt;
    DecryptorInvertsEncryptor(ks);
    EcbRoundTrip(Encryptor(ks), Decryptor(InverseSchedule(ks)), m);
    CbcRoundTrip(Encryptor(ks), Decryptor(InverseSchedule(ks)), iv, m);
  }

  /** One block of 1-bit CFB is the standard's, and decrypting in place restores it. */
  lemma CfbOneBlock(e: Block -> Block, iv: Block, was: seq<Byte>, now: seq<Byte>, again: seq<Byte>)
    requires 16 <= |was|
    requires CfbEncrypted(e, iv, was, now, 1) && CfbDecrypted(e, iv, now, now, again, 1, true)
    ensures Bits(now[..16]) == CfbEncrypt(e, iv, Bits(was[..16]))
    ensures again == was
  {
    hide Bits, Register, CfbEncrypt, KeyStream, XorBits;
    var p, c := Bits(was[..16]), Bits(now[..16]);
    OnePass(e, iv, p, c, c, true);
    CfbRoundTrip(e, iv, p);
    BitsDetermineBuffer(again[..16], was[..16]);
    assert again == again[..16] + again[16..] && was == was[..16] + was[16..];
  }

  /** What a call makes of the first block of its buffer, however many blocks it is given, by bytes and masks. */
  lemma PassesByMasks(e: Block -> Block, iv: Block, was: seq<Byte>, now: seq<Byte>, n: nat) returns (blocks: seq<Block>)
    requires n > 0 && 16 <= |was| && CfbEncrypted(e, iv, was, now, n)
    ensures |now| == |was| && now[16..] == was[16..]
    ensures |blocks| == n + 1 && blocks[0] == was[..16] && blocks[n] == now[..16] && ArePasses(e, iv, blocks)
  {
    hide Bits, CfbEncryptPasses, ArePasses;
    blocks := EncryptPasses(e, iv, was[..16], n);
    BitsDetermineBuffer(blocks[n], now[..16]);
  }

  /** The same for decryption. */
  lemma ReversePassesByMasks(e: Block -> Block, iv: Block, input: seq<Byte>, was: seq<Byte>, now: seq<Byte>, n: nat,
                             inPlace: bool)
    returns (blocks: seq<Block>)
    requires n > 0 && 16 <= |was| && 16 <= |input| && (inPlace ==> input == was)
    requires CfbDecrypted(e, iv, input, was, now, n, inPlace)
    ensures |now| == |was| && now[16..] == was[16..]
    ensures |blocks| == n + 1 && blocks[0] == was[..16] && blocks[n] == now[..16]
    ensures AreReversePasses(e, iv, input[..16], blocks, inPlace)
  {
    hide Bits, CfbDecryptPasses, AreReversePasses;
    blocks := DecryptPasses(e, iv, input[..16], was[..16], n, inPlace);
    BitsDetermineBuffer(blocks[n], now[..16]);
  }

  lemma OnePass(e: Block -> Block, iv: Block, p: seq<bool>, c: seq<bool>, o: seq<bool>, inPlace: bool)
    requires |c| == |o|
    ensures CfbEncryptPasses(e, iv, p, 1) == CfbEncrypt(e, iv, p)
    ensures CfbDecryptPasses(e, iv, c, o, 1, inPlace) == XorBits(o, KeyStream(e, iv, c))
  {
    hide Register, CfbEncrypt, KeyStream, XorBits;
    var x := CfbEncrypt(e, iv, p);
    assert CfbEncryptPasses(e, Register(iv, x), x, 0) == x;
  }

  /**
    * With more than one block the mode is not the standard's: the pointers never advance, so the result is right only
    * if the key stream for all later blocks happens to be zero.
    */
  lemma CfbBeyondOneBlock(e: Block -> Block, iv: Block, was: seq<Byte>, now: seq<Byte>, n: nat, k: nat)
    requires 2 <= n && 16 * n <= |was| && 128 <= k < 128 * n
    requires CfbEncrypted(e, iv, was, now, n)
    ensures now[16..] == was[16..]
    ensures Bits(now[..16 * n]) == CfbEncrypt(e, iv, Bits(was[..16 * n])) ==>
      !KeyBit(e, Register(iv, CfbEncrypt(e, iv, Bits(was[..16 * n]))[..k]))
  {
    hide ByteBit, Register, CfbEncrypt, CfbEncryptPasses;
    var p := Bits(was[..16 * n]);
    CfbEncryptBit(e, iv, p, k);
    assert now[..16 * n][k / 8] == now[16..][k / 8 - 16] == was[..16 * n][k / 8];
  }

  lemma FewBlocks(e: Block -> Block, iv: Block, was: seq<Byte>, now: seq<Byte>, n: nat)
    requires n <= 1 && |was| == 16 * n && CfbEncrypted(e, iv, was, now, n)
    ensures Bits(now) == CfbEncrypt(e, iv, Bits(was))
  {
    hide ByteBit, Register, KeyStream, XorBits;
    if n == 1 {
      OnePass(e, iv, Bits(was), Bits(was), Bits(was), true);
      assert was[..16] == was && now[..16] == now;
    }
  }

  /** A first block whose encryption leaves the register where the next key stream bit is 1. */
  lemma BlockBeforeOne(ks: Schedule, iv: Block) returns (first: Block)
    ensures KeyBit(Encryptor(ks), Register(iv, CfbEncrypt(Encryptor(ks), iv, Bits(first))))
  {
    hide Encryptor, Decryptor, InverseSchedule, Bits, Register, CfbEncrypt, CfbDecrypt, ByteBit;
    var one: Block := [0x80, 0, 0, 0, 0, 0, 0, 0, 0, 0, 0, 0, 0, 0, 0, 0];
    DecryptorInvertsEncryptor(ks);
    var reg := Decryptor(InverseSchedule(ks))(one);
    var c := Bits(reg);
    first := Packed128(CfbDecrypt(Encryptor(ks), iv, c));
    CfbConverse(Encryptor(ks), iv, c);
    RegisterHolds(iv, c);
    assert Bits(iv)[128..] + c == c;
    BitsDetermineBuffer(Register(iv, c), reg);
    TopBit();
  }

  lemma ManyBlocks(ks: Schedule, iv: Block, n: nat) returns (was: seq<Byte>, now: seq<Byte>)
    requires n >= 2
    ensures |was| == 16 * n && CfbEncrypted(Encryptor(ks), iv, was, now, n)
    ensures Bits(now) != CfbEncrypt(Encryptor(ks), iv, Bits(was))
  {
    hide Encryptor, Bits, Register, CfbEncrypt, CfbEncryptPasses, KeyBit;
    var e := Encryptor(ks);
    var first := BlockBeforeOne(ks, iv);
    var rest: seq<Byte> := seq(16 * n - 16, _ => 0);
    was := first + rest;
    assert was[..16] == first && was[16..] == rest && was[..16 * n] == was;
    var block := Packed128(CfbEncryptPasses(e, iv, Bits(first), n));
    now := block + rest;
    assert now[..16] == block && now[16..] == rest && now[..16 * n] == now;
    FirstBits(first, rest);
    CfbEncryptPrefix(e, iv, Bits(was), 128);
    CfbBeyondOneBlock(e, iv, was, now, n, 128);
  }

  lemma FirstBits(first: Block, rest: seq<Byte>)
    ensures Bits(first + rest)[..128] == Bits(first)
  {
    hide ByteBit;
  }

  /** With any key and IV, blockEncrypt encrypts n blocks as the standard says, for all data, only for n up to 1. */
  lemma CfbStandardForOneBlock(ks: Schedule, iv: Block, n: nat)
    ensures (forall was: seq<Byte>, now: seq<Byte> ::
              |was| == 16 * n && CfbEncrypted(Encryptor(ks), iv, was, now, n) ==>
                Bits(now) == CfbEncrypt(Encryptor(ks), iv, Bits(was)))
       <==> n <= 1
  {
    hide Encryptor, Bits, CfbEncrypt, CfbEncrypted;
    if n <= 1 {
      forall was: seq<Byte>, now: seq<Byte> | |was| == 16 * n && CfbEncrypted(Encryptor(ks), iv, was, now, n)
        ensures Bits(now) == CfbEncrypt(Encryptor(ks), iv, Bits(was))
      {
        FewBlocks(Encryptor(ks), iv, was, now, n);
      }
    } else {
      var was, now := ManyBlocks(ks, iv, n);
    }
  }

  /** One block is encrypted with block function e and decrypted in place with f. */
  ghost predicate RoundTrips(e: Block -> Block, f: Block -> Block, iv: Block, was: seq<Byte>, now: seq<Byte>,
                             again: seq<Byte>)
    requires 16 <= |was|
  {
    CfbEncrypted(e, iv, was, now, 1) && CfbDecrypted(f, iv, now, now, again, 1, true)
  }

  /** Two block functions give the same key bit on the register after ciphertext bits c. */
  predicate SameKeyBit(e: Block -> Block, f: Block -> Block, iv: Block, c: seq<bool>) {
    KeyBit(e, Register(iv, c)) == KeyBit(f, Register(iv, c))
  }

  /** Decrypting one block with a key stream that differs from that of encryption in bit k spoils that bit. */
  lemma WrongKeyBit(e: Block -> Block, f: Block -> Block, iv: Block, was: seq<Byte>, now: seq<Byte>, again: seq<Byte>,
                    k: nat)
    requires k < 128 && 16 <= |was| && RoundTrips(e, f, iv, was, now, again)
    requires var reg := Register(iv, Bits(now[..16])[..k]); KeyBit(e, reg) != KeyBit(f, reg)
    ensures again != was
  {
    hide Bits, CfbEncrypt, KeyBit, Register;
    var p, c := Bits(was[..16]), Bits(now[..16]);
    OnePass(e, iv, p, c, c, true);
    OnePass(f, iv, p, c, c, true);
    CfbEncryptBit(e, iv, p, k);
    assert Bits(again[..16])[k] == (c[k] != KeyStream(f, iv, c)[k]);
  }

  lemma SameKeyStream(e: Block -> Block, f: Block -> Block, iv: Block, c: seq<bool>)
    requires |c| == 128 && forall b: seq<bool> :: |b| < 128 ==> SameKeyBit(e, f, iv, b)
    ensures KeyStream(e, iv, c) == KeyStream(f, iv, c)
  {
    hide KeyBit, Register;
    assert forall k :: 0 <= k < 128 ==> SameKeyBit(e, f, iv, c[..k]);
  }

  /** A round trip with a ciphertext that begins with given bits. */
  lemma SomeRoundTrip(e: Block -> Block, f: Block -> Block, iv: Block, c: seq<bool>)
    returns (was: Block, now: Block, again: Block)
    requires |c| < 128
    ensures RoundTrips(e, f, iv, was, now, again) && Bits(now[..16])[..|c|] == c
  {
    hide Bits, CfbEncrypt, CfbDecrypt, KeyStream, XorBits, Register;
    var bits := c + seq(128 - |c|, _ => false);
    CfbConverse(e, iv, bits);
    was := Packed128(CfbDecrypt(e, iv, bits));
    now := Packed128(bits);
    assert was[..16] == was && now[..16] == now;
    again := Packed128(CfbDecryptPasses(f, iv, Bits(now[..16]), Bits(now[..16]), 1, true));
    assert again[..16] == again;
    OnePass(e, iv, Bits(was[..16]), bits, bits, true);
  }

  /**
    * From an IV, every block of 1-bit CFB that is encrypted with one set of round keys and decrypted with that of the
    * other direction comes back if and only if the two agree in the first bit on every register that a block can lead
    * to.
    */
  lemma CfbWithDecryptionKeys(ks: Schedule, iv: Block)
    ensures var e, f := Encryptor(ks), Encryptor(InverseSchedule(ks));
      (forall was: seq<Byte>, now: seq<Byte>, again: seq<Byte> ::
        16 <= |was| && RoundTrips(e, f, iv, was, now, again) ==> again == was)
      <==> forall c: seq<bool> :: |c| < 128 ==> SameKeyBit(e, f, iv, c)
  {
    hide Encryptor, InverseSchedule, KeyBit, Register, CfbEncrypted, CfbDecrypted, Bits;
    var e, f := Encryptor(ks), Encryptor(InverseSchedule(ks));
    if c: seq<bool> :| |c| < 128 && !SameKeyBit(e, f, iv, c) {
      var was, now, again := SomeRoundTrip(e, f, iv, c);
      WrongKeyBit(e, f, iv, was, now, again, |c|);
      assert 16 <= |was| && RoundTrips(e, f, iv, was, now, again);
    } else {
      forall was: seq<Byte>, now: seq<Byte>, again: seq<Byte> | 16 <= |was| && RoundTrips(e, f, iv, was, now, again)
        ensures again == was
      {
        AgreeingKeys(e, f, iv, was, now, again);
      }
    }
  }

  lemma AgreeingKeys(e: Block -> Block, f: Block -> Block, iv: Block, was: seq<Byte>, now: seq<Byte>, again: seq<Byte>)
    requires 16 <= |was| && RoundTrips(e, f, iv, was, now, again)
    requires forall c: seq<bool> :: |c| < 128 ==> SameKeyBit(e, f, iv, c)
    ensures again == was
  {
    hide Bits, SameKeyBit, CfbEncrypt, KeyStream, XorBits;
    var c := Bits(now[..16]);
    SameKeyStream(e, f, iv, c);
    OnePass(e, iv, c, c, c, true);
    OnePass(f, iv, c, c, c, true);
    CfbOneBlock(e, iv, was, now, again);
  }

  /** With the zero key they do not: an object set up for decryption spoils every block at the zero IV. */
  lemma ZeroKeyDirections()
    ensures var ks := ExpandKey(ZERO_KEY);
      KeyBit(Encryptor(ks), ZeroBlock()) != KeyBit(Encryptor(InverseSchedule(ks)), ZeroBlock())
  {
    hide Encryptor, ExpandKey, InverseSchedule;
    KnownAnswer();
    assert BlockOf(ZERO_STATE) == ZeroBlock();
  }

  /** The IV that init takes. */
  function IvOf(initVector: array?<Byte>): Block
    requires initVector != null ==> initVector.Length >= 16
    reads if initVector == null then {} else {initVector}
  {
    if initVector == null then ZeroBlock() else initVector[..16]
  }

  ghost function RoundKeysOf(key: array<Byte>, keyLen: KeyLength): Schedule
    requires keyLen != OtherLength && key.Length >= KeyBytes(keyLen)
    reads key
  {
    ExpandKey(KeyOfBytes(key[..KeyBytes(keyLen)]))
  }

  /** The encrypting half of the example. */
  method EncryptMessage(rin: Rijndael, mode: Mode, key: array<Byte>, keyLen: KeyLength, initVector: array?<Byte>,
                        message: array<Byte>, n: nat)
    returns (output: array<Byte>, length: nat)
    requires rin.Shape() && (mode == ECB || mode == CBC)
    requires keyLen != OtherLength && key.Length >= KeyBytes(keyLen)
    requires initVector != null ==> initVector.Length >= 16
    requires key != rin.m_initVector && initVector != rin.m_initVector && message != rin.m_initVector
    requires 0 < n <= message.Length
    modifies rin, rin.m_initVector, rin.m_expandedKey
    ensures fresh(output) && length <= output.Length && length == 16 * (n / 16 + 1)
    ensures output[..length] == PadEncrypted(mode, Encryptor(RoundKeysOf(key, keyLen)), IvOf(initVector), message[..n])
  {
    hide Encryptor, InverseSchedule, ExpandKey, KeyOfBytes, PadEncrypted, Splice;
    output := new Byte[n + 16];
    var r := rin.Init(mode, Encrypt, key, keyLen, initVector);
    ghost var c := PadEncrypted(mode, Encryptor(RoundKeysOf(key, keyLen)), IvOf(initVector), message[..n]);
    ghost var blank := output[..];
    length := rin.PadEncrypt(message, n, output);
    SpliceTail(blank, c);
  }

  /** The decrypting half, with the same object. */
  method DecryptMessage(rin: Rijndael, mode: Mode, key: array<Byte>, keyLen: KeyLength, initVector: array?<Byte>,
                        output: array<Byte>, length: nat)
    returns (r: int, text: array<Byte>, ghost was: seq<Byte>)
    requires rin.Shape() && (mode == ECB || mode == CBC)
    requires keyLen != OtherLength && key.Length >= KeyBytes(keyLen)
    requires initVector != null ==> initVector.Length >= 16
    requires key != rin.m_initVector && initVector != rin.m_initVector && output != rin.m_initVector
    requires 0 < length <= output.Length && length % 16 == 0
    modifies rin, rin.m_initVector, rin.m_expandedKey
    ensures fresh(text) && text.Length == |was| == length
    ensures PadDecrypted(mode, Decryptor(InverseSchedule(RoundKeysOf(key, keyLen))), IvOf(initVector),
                         output[..length], was, text[..], r)
  {
    hide Decryptor, InverseSchedule, ExpandKey, KeyOfBytes, PadDecrypted;
    text := new Byte[length];
    was := text[..];
    r := rin.Init(mode, Decrypt, key, keyLen, initVector);
    r := rin.PadDecrypt(output, length, text);
  }

  /** The usage example of the header: an object encrypts a message and, set up again with the key, decrypts it. */
  method EncryptThenDecrypt(mode: Mode, key: array<Byte>, keyLen: KeyLength, initVector: array?<Byte>,
                            message: array<Byte>, n: nat)
    returns (r: int, text: array<Byte>)
    requires mode == ECB || mode == CBC
    requires keyLen != OtherLength && key.Length >= KeyBytes(keyLen)
    requires initVector != null ==> initVector.Length >= 16
    requires 0 < n <= message.Length
    ensures mode == CBC ==> r == n && n <= text.Length && text[..n] == message[..n]
    ensures mode == ECB ==> (r == n && n <= text.Length && text[..n] == message[..n] <==> n % 16 != 0)
  {
    hide Encryptor, Decryptor, InverseSchedule, RoundKeysOf, IvOf, PadEncrypted, PadDecrypted;
    ghost var m, ks, iv := message[..n], RoundKeysOf(key, keyLen), IvOf(initVector);
    var rin := new Rijndael();
    var output, length := EncryptMessage(rin, mode, key, keyLen, initVector, message, n);
    ghost var was;
    r, text, was := DecryptMessage(rin, mode, key, keyLen, initVector, output, length);
    if mode == CBC {
      CbcPaddedRoundTrip(ks, iv, m, was, text[..], r);
    } else {
      EcbPaddedRoundTrip(ks, iv, m, was, text[..], r);
    }
    SpliceTail(was, m);
  }

  /** The same in 1-bit CFB mode for one block, where both directions are set up for encryption. */
  method EncryptThenDecryptCfb(key: array<Byte>, keyLen: KeyLength, initVector: array?<Byte>, buffer: array<Byte>)
    requires keyLen != OtherLength && key.Length >= KeyBytes(keyLen)
    requires initVector != null ==> initVector.Length >= 16
    requires buffer.Length >= 16 && buffer != key && buffer != initVector
    modifies buffer
    ensures buffer[..] == old(buffer[..])
  {
    hide Encryptor, InverseSchedule, ExpandKey, KeyOfBytes, CfbEncrypted, CfbDecrypted;
    ghost var e := Encryptor(ExpandKey(KeyOfBytes(key[..KeyBytes(keyLen)])));
    var rin := new Rijndael();
    var r := rin.Init(CFB1, Encrypt, key, keyLen, initVector);
    ghost var iv, was := rin.InitVector(), buffer[..];
    r := rin.BlockEncrypt(buffer, 128, buffer);
    ghost var now := buffer[..];
    r := rin.Init(CFB1, Encrypt, key, keyLen, initVector);
    r := rin.BlockDecrypt(buffer, 128, buffer);
    CfbOneBlock(e, iv, was, now, buffer[..]);
  }

  /** Set up for decryption instead, with the zero key and no IV, the object never gives the block back. */
  method EncryptThenDecryptCfbWithDecryptionKeys(buffer: array<Byte>)
    requires buffer.Length >= 16
    modifies buffer
    ensures buffer[..] != old(buffer[..])
  {
    hide Encryptor, InverseSchedule, ExpandKey, KeyOfBytes, CfbEncrypted, CfbDecrypted, KeyBit;
    var key := new Byte[16](_ => 0);
    ghost var ks := ExpandKey(ZERO_KEY);
    KeyOfZeroBytes(key[..16]);
    var rin := new Rijndael();
    var r := rin.Init(CFB1, Encrypt, key, Key16Bytes, null);
    ghost var was := buffer[..];
    r := rin.BlockEncrypt(buffer, 128, buffer);
    ghost var now := buffer[..];
    r := rin.Init(CFB1, Decrypt, key, Key16Bytes, null);
    r := rin.BlockDecrypt(buffer, 128, buffer);
    ZeroKeyDirections();
    CfbNothing(Encryptor(ks), ZeroBlock());
    assert Bits(now[..16])[..0] == [];
    WrongKeyBit(Encryptor(ks), Encryptor(InverseSchedule(ks)), ZeroBlock(), was, now, buffer[..], 0);
  }

  lemma KeyOfZeroBytes(key: seq<Byte>)
    requires |key| == 16 && forall i :: 0 <= i < 16 ==> key[i] == 0
    ensures KeyOfBytes(key) == ZERO_KEY
  {
  }
}
