/** The 1-bit CFB mode of NIST SP 800-38A, section 6.3, over any block function, on bits. */
module Cfb {
  import opened Gf256
  import opened Blocks

  /** x shifted right by n bits. */
  function ShiftRight(x: Byte, n: nat): Byte
    requires n < 8
  {
    if n == 0 then x else if n == 1 then x >> 1 else if n == 2 then x >> 2 else if n == 3 then x >> 3
    else if n == 4 then x >> 4 else if n == 5 then x >> 5 else if n == 6 then x >> 6 else x >> 7
  }

  /** Bit j of a byte, counted from the most significant: the shift and mask by which the source isolates it. */
  predicate ByteBit(x: Byte, j: nat)
    requires j < 8
  {
    ShiftRight(x, 7 - j) & 1 == 1
  }

  function BitByte(bit: bool): Byte { if bit then 1 else 0 }

  /** The bits of a buffer, most significant bit of each byte first. */
  function Bits(b: seq<Byte>): (bits: seq<bool>)
    ensures |bits| == 8 * |b|
  {
    seq(8 * |b|, k requires 0 <= k < 8 * |b| => ByteBit(b[k / 8], k % 8))
  }

  /** The bit as the source feeds it to the register. */
  lemma SerialBit(x: Byte, j: nat)
    requires j < 8
    ensures ShiftRight(x, 7 - j) & 1 == BitByte(ByteBit(x, j))
  {
  }

  lemma BitOfXor(x: Byte, y: Byte, i: nat)
    requires i < 8
    ensures ByteBit(x ^ y, i) <==> ByteBit(x, i) != ByteBit(y, i)
  {
    ShiftOfXor(x, y, 7 - i);
    hide ShiftRight;
    LowBitOfXor(ShiftRight(x, 7 - i), ShiftRight(y, 7 - i));
  }

  lemma ShiftOfXor(x: Byte, y: Byte, n: nat)
    requires n < 8
    ensures ShiftRight(x ^ y, n) == ShiftRight(x, n) ^ ShiftRight(y, n)
  {
    if n == 0 {
    } else if n == 1 {
      assert (x ^ y) >> 1 == (x >> 1) ^ (y >> 1);
    } else if n == 2 {
      assert (x ^ y) >> 2 == (x >> 2) ^ (y >> 2);
    } else if n == 3 {
      assert (x ^ y) >> 3 == (x >> 3) ^ (y >> 3);
    } else if n == 4 {
      assert (x ^ y) >> 4 == (x >> 4) ^ (y >> 4);
    } else if n == 5 {
      assert (x ^ y) >> 5 == (x >> 5) ^ (y >> 5);
    } else if n == 6 {
      assert (x ^ y) >> 6 == (x >> 6) ^ (y >> 6);
    } else {
      assert (x ^ y) >> 7 == (x >> 7) ^ (y >> 7);
    }
  }

  lemma LowBitOfXor(a: Byte, b: Byte)
    ensures (a ^ b) & 1 == 1 <==> (a & 1 == 1) != (b & 1 == 1)
  {
  }

  lemma TopBitMoved(x: Byte, j: nat, i: nat)
    requires j < 8 && i < 8
    ensures ByteBit(ShiftRight(x & 0x80, j), i) <==> i == j && ByteBit(x, 0)
  {
  }

  /** XORing the top bit of x, moved to position j, into y changes bit j of y and no other. */
  lemma XorTopBitAt(x: Byte, y: Byte, j: nat, i: nat)
    requires j < 8 && i < 8
    ensures ByteBit(y ^ ShiftRight(x & 0x80, j), i)
         == (if i == j then ByteBit(y, i) != ByteBit(x, 0) else ByteBit(y, i))
  {
    hide ByteBit, ShiftRight;
    BitOfXor(y, ShiftRight(x & 0x80, j), i);
    TopBitMoved(x, j, i);
  }

  /** x shifted left by one bit, the top bit of y moving in. */
  function ShiftLeft(x: Byte, y: Byte): Byte { (x << 1) | (y >> 7) }

  /** x shifted left by one bit, a single bit moving in. */
  function ShiftLeftBit(x: Byte, bit: Byte): Byte { (x << 1) | bit }

  /** The feedback register after one step: the sixteen byte shifts of the source. */
  function ShiftIn(reg: Block, bit: bool): Block {
    seq(16, i requires 0 <= i < 16 =>
      if i < 15 then ShiftLeft(reg[i], reg[i + 1]) else ShiftLeftBit(reg[15], BitByte(bit)))
  }

  lemma ShiftedByte(x: Byte, y: Byte, j: nat)
    requires j < 8
    ensures ByteBit(ShiftLeft(x, y), j) == (if j < 7 then ByteBit(x, j + 1) else ByteBit(y, 0))
  {
  }

  lemma ShiftedLastByte(x: Byte, bit: bool, j: nat)
    requires j < 8
    ensures ByteBit(ShiftLeftBit(x, BitByte(bit)), j) == (if j < 7 then ByteBit(x, j + 1) else bit)
  {
  }

  /** Together they are a shift of 128 bits by one place, the new bit entering at the end. */
  lemma ShiftInIsShift(reg: Block, bit: bool)
    ensures Bits(ShiftIn(reg, bit)) == Bits(reg)[1..] + [bit]
  {
    hide ByteBit, ShiftLeft, ShiftLeftBit;
    var s := ShiftIn(reg, bit);
    forall k | 0 <= k < 128
      ensures Bits(s)[k] == (if k < 127 then Bits(reg)[k + 1] else bit)
    {
      var i, j := k / 8, k % 8;
      if i < 15 {
        ShiftedByte(reg[i], reg[i + 1], j);
      } else {
        ShiftedLastByte(reg[15], bit, j);
      }
    }
  }

  /** The bit of key stream for the current register: the first bit of its encryption. */
  predicate KeyBit(e: Block -> Block, reg: Block) { ByteBit(e(reg)[0], 0) }

  /** The register after the ciphertext bits c have entered. */
  function Register(reg: Block, c: seq<bool>): Block {
    if c == [] then reg else ShiftIn(Register(reg, c[..|c| - 1]), c[|c| - 1])
  }

  /** The key stream that goes with ciphertext bits c. */
  function KeyStream(e: Block -> Block, reg: Block, c: seq<bool>): (s: seq<bool>)
    ensures |s| == |c|
  {
    seq(|c|, k requires 0 <= k < |c| => KeyBit(e, Register(reg, c[..k])))
  }

  function XorBits(a: seq<bool>, b: seq<bool>): (c: seq<bool>)
    requires |a| == |b|
    ensures |c| == |a|
  {
    seq(|a|, k requires 0 <= k < |a| => a[k] != b[k])
  }

  /** SP 800-38A, section 6.3: each ciphertext bit is the plaintext bit XOR the key stream bit. */
  function CfbEncrypt(e: Block -> Block, iv: Block, p: seq<bool>): (c: seq<bool>)
    ensures |c| == |p|
  {
    if p == [] then [] else
      var c := CfbEncrypt(e, iv, p[..|p| - 1]);
      c + [p[|p| - 1] != KeyBit(e, Register(iv, c))]
  }

  function CfbDecrypt(e: Block -> Block, iv: Block, c: seq<bool>): (p: seq<bool>)
    ensures |p| == |c|
  {
    XorBits(c, KeyStream(e, iv, c))
  }

  lemma {:induction false} CfbEncryptPrefix(e: Block -> Block, iv: Block, p: seq<bool>, n: nat)
    requires n <= |p|
    ensures CfbEncrypt(e, iv, p)[..n] == CfbEncrypt(e, iv, p[..n])
  {
    if n < |p| {
      CfbEncryptPrefix(e, iv, p[..|p| - 1], n);
      assert p[..|p| - 1][..n] == p[..n];
    } else {
      assert p[..n] == p;
    }
  }

  /** Bit by bit: C_k = P_k XOR the first bit of E(register holding C_(k-128) .. C_(k-1)). */
  lemma CfbEncryptBit(e: Block -> Block, iv: Block, p: seq<bool>, k: nat)
    requires k < |p|
    ensures var c := CfbEncrypt(e, iv, p); c[k] == (p[k] != KeyBit(e, Register(iv, c[..k])))
  {
    CfbEncryptPrefix(e, iv, p, k + 1);
    CfbEncryptPrefix(e, iv, p, k);
    assert p[..k + 1][..k] == p[..k];
  }

  /** Decryption, which uses the same block function, undoes encryption. */
  lemma CfbRoundTrip(e: Block -> Block, iv: Block, p: seq<bool>)
    ensures CfbDecrypt(e, iv, CfbEncrypt(e, iv, p)) == p
  {
    var c := CfbEncrypt(e, iv, p);
    forall k | 0 <= k < |p| ensures CfbDecrypt(e, iv, c)[k] == p[k] {
      CfbEncryptBit(e, iv, p, k);
    }
  }

  lemma CfbEncryptStep(e: Block -> Block, iv: Block, p: seq<bool>, k: nat)
    requires k < |p|
    ensures var c := CfbEncrypt(e, iv, p[..k]);
      var bit := p[k] != KeyBit(e, Register(iv, c));
      CfbEncrypt(e, iv, p[..k + 1]) == c + [bit] && Register(iv, c + [bit]) == ShiftIn(Register(iv, c), bit)
  {
    var c := CfbEncrypt(e, iv, p[..k]);
    var bit := p[k] != KeyBit(e, Register(iv, c));
    assert p[..k + 1][..k] == p[..k];
    assert (c + [bit])[..k] == c;
  }

  lemma RegisterStep(iv: Block, c: seq<bool>, k: nat)
    requires k < |c|
    ensures Register(iv, c[..k + 1]) == ShiftIn(Register(iv, c[..k]), c[k])
  {
    assert c[..k + 1][..k] == c[..k];
  }

  /** Decryption is the inverse of encryption the other way round, too. */
  lemma {:induction false} CfbConverse(e: Block -> Block, iv: Block, c: seq<bool>)
    ensures CfbEncrypt(e, iv, CfbDecrypt(e, iv, c)) == c
  {
    hide Register, KeyBit;
    if c == [] {
      assert CfbDecrypt(e, iv, c) == [];
    } else {
      var n := |c| - 1;
      CfbConverse(e, iv, c[..n]);
      CfbDecryptPrefix(e, iv, c, n);
      assert c == c[..n] + [c[n]];
    }
  }

  lemma CfbDecryptPrefix(e: Block -> Block, iv: Block, c: seq<bool>, n: nat)
    requires n <= |c|
    ensures CfbDecrypt(e, iv, c)[..n] == CfbDecrypt(e, iv, c[..n])
  {
    hide Register, KeyBit;
    forall k | 0 <= k < n ensures CfbDecrypt(e, iv, c)[k] == CfbDecrypt(e, iv, c[..n])[k] {
      assert c[..n][..k] == c[..k];
    }
  }

  /** Up to 128 ciphertext bits push out as many bits of the register. */
  lemma {:induction false} RegisterHolds(iv: Block, c: seq<bool>)
    requires |c| <= 128
    ensures Bits(Register(iv, c)) == Bits(iv)[|c|..] + c
  {
    hide Bits, ShiftIn;
    if c == [] {
      assert Bits(iv)[0..] + [] == Bits(iv);
    } else {
      var n := |c| - 1;
      RegisterHolds(iv, c[..n]);
      ShiftInIsShift(Register(iv, c[..n]), c[n]);
      assert c == c[..n] + [c[n]];
      assert (Bits(iv)[n..] + c[..n])[1..] + [c[n]] == Bits(iv)[n + 1..] + c;
    }
  }

  /** The update of one bit of a buffer. */
  lemma FlipBit(b: seq<Byte>, k: nat, x: Byte)
    requires k < 8 * |b|
    ensures Bits(b[k / 8 := b[k / 8] ^ ShiftRight(x & 0x80, k % 8)]) == Bits(b)[k := Bits(b)[k] != ByteBit(x, 0)]
  {
    hide ByteBit, ShiftRight;
    var c := b[k / 8 := b[k / 8] ^ ShiftRight(x & 0x80, k % 8)];
    forall i | 0 <= i < 8 * |b| ensures Bits(c)[i] == Bits(b)[k := Bits(b)[k] != ByteBit(x, 0)][i] {
      XorTopBitAt(x, b[k / 8], k % 8, i % 8);
    }
  }

  /**
    * What a call leaves in the first block: the source goes over the same 128 bits once per block of input, the
    * register running on.
    */
  function CfbEncryptPasses(e: Block -> Block, reg: Block, p: seq<bool>, n: nat): (c: seq<bool>)
    ensures |c| == |p|
    decreases n
  {
    if n == 0 then p else
      var c := CfbEncrypt(e, reg, p);
      CfbEncryptPasses(e, Register(reg, c), c, n - 1)
  }

  /** The same for decryption of input bits c into a buffer holding o; the two are one if inPlace. */
  function CfbDecryptPasses(e: Block -> Block, reg: Block, c: seq<bool>, o: seq<bool>, n: nat, inPlace: bool)
    : (p: seq<bool>)
    requires |c| == |o|
    ensures |p| == |o|
    decreases n
  {
    if n == 0 then o else
      var p := XorBits(o, KeyStream(e, reg, c));
      CfbDecryptPasses(e, Register(reg, c), if inPlace then p else c, p, n - 1, inPlace)
  }

  /** A buffer is determined by its bits. */
  lemma BitsDetermineByte(x: Byte, y: Byte)
    requires forall j :: 0 <= j < 8 ==> ByteBit(x, j) == ByteBit(y, j)
    ensures x == y
  {
    assert ByteBit(x, 0) == ByteBit(y, 0);
    assert ByteBit(x, 1) == ByteBit(y, 1);
    assert ByteBit(x, 2) == ByteBit(y, 2);
    assert ByteBit(x, 3) == ByteBit(y, 3);
    assert ByteBit(x, 4) == ByteBit(y, 4);
    assert ByteBit(x, 5) == ByteBit(y, 5);
    assert ByteBit(x, 6) == ByteBit(y, 6);
    assert ByteBit(x, 7) == ByteBit(y, 7);
  }

  lemma BitsDetermineBuffer(a: seq<Byte>, b: seq<Byte>)
    requires Bits(a) == Bits(b)
    ensures a == b
  {
    hide ByteBit;
    assert |a| == |b|;
    forall i | 0 <= i < |a| ensures a[i] == b[i] {
      forall j | 0 <= j < 8 ensures ByteBit(a[i], j) == ByteBit(b[i], j) {
        assert Bits(a)[8 * i + j] == Bits(b)[8 * i + j];
      }
      BitsDetermineByte(a[i], b[i]);
    }
  }

  /** The bits of a byte by value, the most significant first. */
  const MASKS: seq<Byte> := [0x80, 0x40, 0x20, 0x10, 0x08, 0x04, 0x02, 0x01]

  predicate IsSet(b: seq<Byte>, k: nat)
    requires k < 8 * |b|
  {
    b[k / 8] & MASKS[k % 8] != 0
  }

  lemma BitByMask(x: Byte, j: nat)
    requires j < 8
    ensures ByteBit(x, j) <==> x & MASKS[j] != 0
    ensures ByteBit(x, 0) <==> x >= 0x80
  {
  }

  lemma BitsByMask(b: seq<Byte>, k: nat)
    requires k < 8 * |b|
    ensures Bits(b)[k] <==> IsSet(b, k)
  {
    hide ByteBit;
    BitByMask(b[k / 8], k % 8);
  }

  /** reg holds the last 128 of the bits of iv and the first k bits of c. */
  predicate ShiftedIn(reg: Block, iv: Block, c: seq<Byte>, k: nat)
    requires k <= 128 <= 8 * |c|
  {
    forall i :: 0 <= i < 128 ==> (IsSet(reg, i) <==> if i + k < 128 then IsSet(iv, i + k) else IsSet(c, i + k - 128))
  }

  lemma RegisterByMask(iv: Block, c: seq<Byte>, k: nat)
    requires k <= 128 && |c| == 16
    ensures ShiftedIn(Register(iv, Bits(c)[..k]), iv, c, k)
  {
    hide Bits, Register, IsSet;
    var reg := Register(iv, Bits(c)[..k]);
    RegisterHolds(iv, Bits(c)[..k]);
    forall i | 0 <= i < 128 ensures IsSet(reg, i) <==> if i + k < 128 then IsSet(iv, i + k) else IsSet(c, i + k - 128) {
      BitsByMask(reg, i);
      if i + k < 128 {
        BitsByMask(iv, i + k);
        assert Bits(iv)[k..][i] == Bits(iv)[i + k];
      } else {
        BitsByMask(c, i + k - 128);
        assert (Bits(iv)[k..] + Bits(c)[..k])[i] == Bits(c)[i + k - 128];
      }
    }
  }

  /**
    * 1-bit CFB of one block by bytes and masks: at every bit, after differs from before if and only if the encryption
    * of the register, which holds the last of the bits of iv and the first ones of c, begins with a byte of 128 or
    * more.
    */
  ghost predicate IsPass(e: Block -> Block, iv: Block, c: Block, before: Block, after: Block) {
    forall k :: 0 <= k < 128 ==> IsPassAt(e, iv, c, before, after, k)
  }

  ghost predicate IsPassAt(e: Block -> Block, iv: Block, c: Block, before: Block, after: Block, k: nat)
    requires k < 128
  {
    exists reg: Block :: ShiftedIn(reg, iv, c, k) && (IsSet(after, k) != IsSet(before, k) <==> e(reg)[0] >= 0x80)
  }

  /** The ciphertext of a block enters its own register. */
  lemma CfbByMasks(e: Block -> Block, iv: Block, p: Block, c: Block)
    requires Bits(c) == CfbEncrypt(e, iv, Bits(p))
    ensures IsPass(e, iv, c, p, c)
  {
    hide Bits, CfbEncrypt, KeyStream, XorBits, IsPass;
    EncryptIsXor(e, iv, Bits(p));
    PassOfBits(e, iv, c, p, c);
  }

  /** Every sequence of bits is the content of some buffer. */
  lemma {:induction false} Packed(bits: seq<bool>, n: nat) returns (b: seq<Byte>)
    requires |bits| % 8 == 0 && n <= |bits|
    ensures |b| == |bits| / 8 && Bits(b)[..n] == bits[..n]
  {
    hide Bits;
    if n == 0 {
      b := seq(|bits| / 8, _ => 0);
    } else {
      b := Packed(bits, n - 1);
      if Bits(b)[n - 1] != bits[n - 1] {
        b := Flipped(b, n - 1);
      }
      assert bits[..n] == bits[..n - 1] + [bits[n - 1]];
      assert Bits(b)[..n] == Bits(b)[..n - 1] + [Bits(b)[n - 1]];
    }
  }

  lemma Flipped(b: seq<Byte>, k: nat) returns (c: seq<Byte>)
    requires k < 8 * |b|
    ensures |c| == |b| && Bits(c)[..k] == Bits(b)[..k] && Bits(c)[k] != Bits(b)[k]
  {
    hide Bits, ByteBit, ShiftRight;
    c := b[k / 8 := b[k / 8] ^ ShiftRight(0x80 & 0x80, k % 8)];
    FlipBit(b, k, 0x80);
    TopBit();
  }

  lemma TopBit()
    ensures ByteBit(0x80, 0)
  {
  }

  /** The buffer with the given bits. */
  lemma Packed128(bits: seq<bool>) returns (b: Block)
    requires |bits| == 128
    ensures Bits(b) == bits
  {
    hide Bits;
    b := Packed(bits, 128);
    assert Bits(b)[..128] == Bits(b) && bits[..128] == bits;
  }

  lemma PassOfBits(e: Block -> Block, iv: Block, c: Block, before: Block, after: Block)
    requires Bits(after) == XorBits(Bits(before), KeyStream(e, iv, Bits(c)))
    ensures IsPass(e, iv, c, before, after)
  {
    hide Bits, Register, IsSet, ShiftedIn, ByteBit;
    forall k | 0 <= k < 128 ensures IsPassAt(e, iv, c, before, after, k) {
      var reg := Register(iv, Bits(c)[..k]);
      RegisterByMask(iv, c, k);
      BitsByMask(after, k);
      BitsByMask(before, k);
      BitByMask(e(reg)[0], 0);
      assert ShiftedIn(reg, iv, c, k);
    }
  }

  /** The register after a whole block is that block. */
  lemma RegisterOfBlock(iv: Block, c: Block)
    ensures Register(iv, Bits(c)) == c
  {
    hide Bits, Register;
    RegisterHolds(iv, Bits(c));
    assert Bits(iv)[128..] + Bits(c) == Bits(c);
    BitsDetermineBuffer(Register(iv, Bits(c)), c);
  }

  lemma EncryptIsXor(e: Block -> Block, iv: Block, p: seq<bool>)
    ensures var c := CfbEncrypt(e, iv, p); c == XorBits(p, KeyStream(e, iv, c))
  {
    hide Register, KeyBit, CfbEncrypt;
    var c := CfbEncrypt(e, iv, p);
    forall k | 0 <= k < |p| ensures c[k] == XorBits(p, KeyStream(e, iv, c))[k] {
      CfbEncryptBit(e, iv, p, k);
    }
  }

  /**
    * What the code makes of one block in several passes: each pass is 1-bit CFB over the result of the one before, and
    * with it as its IV, the first one with the IV of the object.
    */
  ghost predicate ArePasses(e: Block -> Block, iv: Block, blocks: seq<Block>) {
    forall i :: 0 <= i < |blocks| - 1 ==>
      IsPass(e, if i == 0 then iv else blocks[i], blocks[i + 1], blocks[i], blocks[i + 1])
  }

  lemma {:induction false} EncryptPasses(e: Block -> Block, iv: Block, p: Block, n: nat) returns (blocks: seq<Block>)
    ensures |blocks| == n + 1 && blocks[0] == p && ArePasses(e, iv, blocks)
    ensures Bits(blocks[n]) == CfbEncryptPasses(e, iv, Bits(p), n)
    decreases n
  {
    hide Bits, CfbEncrypt, Register, IsPass, KeyStream, XorBits;
    if n == 0 {
      blocks := [p];
    } else {
      var bits := CfbEncrypt(e, iv, Bits(p));
      var c := Packed128(bits);
      CfbByMasks(e, iv, p, c);
      RegisterOfBlock(iv, c);
      var rest := EncryptPasses(e, c, c, n - 1);
      blocks := [p] + rest;
      forall i | 0 <= i < n
        ensures IsPass(e, if i == 0 then iv else blocks[i], blocks[i + 1], blocks[i], blocks[i + 1])
      {
        if i > 0 {
          assert IsPass(e, if i == 1 then c else rest[i - 1], rest[i], rest[i - 1], rest[i]);
        }
      }
    }
  }

  /** The same for decryption of block c, or in place: what is read enters the register. */
  ghost predicate AreReversePasses(e: Block -> Block, iv: Block, c: Block, blocks: seq<Block>, inPlace: bool) {
    forall i :: 0 <= i < |blocks| - 1 ==> IsReversePass(e, iv, c, blocks, inPlace, i)
  }

  ghost predicate IsReversePass(e: Block -> Block, iv: Block, c: Block, blocks: seq<Block>, inPlace: bool, i: nat)
    requires i < |blocks| - 1
  {
    var read := if inPlace then blocks[i] else c;
    var chained := if i == 0 then iv else if inPlace then blocks[i - 1] else c;
    IsPass(e, chained, read, blocks[i], blocks[i + 1])
  }

  lemma LaterPass(e: Block -> Block, iv: Block, c: Block, d: Block, o: Block, rest: seq<Block>, inPlace: bool, i: nat)
    requires 0 < i < |rest| && d == (if inPlace then rest[0] else c) && (inPlace ==> c == o)
    requires IsReversePass(e, c, d, rest, inPlace, i - 1)
    ensures IsReversePass(e, iv, c, [o] + rest, inPlace, i)
  {
    hide IsPass;
    var blocks := [o] + rest;
    assert blocks[i] == rest[i - 1] && blocks[i + 1] == rest[i];
    assert blocks[i - 1] == if i == 1 then o else rest[i - 2];
  }

  lemma {:induction false} DecryptPasses(e: Block -> Block, iv: Block, c: Block, o: Block, n: nat, inPlace: bool)
    returns (blocks: seq<Block>)
    requires inPlace ==> c == o
    ensures |blocks| == n + 1 && blocks[0] == o && AreReversePasses(e, iv, c, blocks, inPlace)
    ensures Bits(blocks[n]) == CfbDecryptPasses(e, iv, Bits(c), Bits(o), n, inPlace)
    decreases n
  {
    hide Bits, Register, IsPass, KeyStream, XorBits;
    if n == 0 {
      blocks := [o];
    } else {
      var p := Packed128(XorBits(Bits(o), KeyStream(e, iv, Bits(c))));
      PassOfBits(e, iv, c, o, p);
      RegisterOfBlock(iv, c);
      var d := if inPlace then p else c;
      var rest := DecryptPasses(e, c, d, p, n - 1, inPlace);
      blocks := [o] + rest;
      forall i | 0 <= i < n ensures IsReversePass(e, iv, c, blocks, inPlace, i) {
        if i > 0 {
          LaterPass(e, iv, c, d, o, rest, inPlace, i);
        }
      }
    }
  }
}
