/**
  * The ECB and CBC modes of NIST SP 800-38A (sections 6.1 and 6.2) and the padding of RFC 5652 (section 6.3),
  * over any block permutation.
  */
module BlockModes {
  import opened Gf256
  import opened Blocks

  predicate Whole(m: seq<Byte>) { |m| % 16 == 0 }

  function BlockAt(m: seq<Byte>, i: nat): Block
    requires 16 * i + 16 <= |m|
  {
    m[16 * i..16 * i + 16]
  }

  /** The first n blocks of a buffer. */
  function FirstBlocks(m: seq<Byte>, n: nat): (r: seq<Byte>)
    requires 16 * n <= |m|
    ensures Whole(r) && |r| == 16 * n
  {
    m[..16 * n]
  }

  function XorBlocks(a: Block, b: Block): Block {
    seq(16, i requires 0 <= i < 16 => a[i] ^ b[i])
  }

  lemma XorByteTwice(x: Byte, y: Byte)
    ensures (x ^ y) ^ y == x
  {
  }

  lemma XorBlocksTwice(a: Block, b: Block)
    ensures XorBlocks(XorBlocks(a, b), b) == a
  {
    forall i | 0 <= i < 16 ensures XorBlocks(XorBlocks(a, b), b)[i] == a[i] {
      XorByteTwice(a[i], b[i]);
    }
  }

  /** Each block on its own; this is ECB in both directions. */
  function Ecb(f: Block -> Block, m: seq<Byte>): (c: seq<Byte>)
    requires Whole(m)
    ensures |c| == |m|
  {
    if m == [] then [] else f(m[..16]) + Ecb(f, m[16..])
  }

  function CbcEncrypt(e: Block -> Block, iv: Block, m: seq<Byte>): (c: seq<Byte>)
    requires Whole(m)
    ensures |c| == |m|
    decreases |m|
  {
    if m == [] then [] else
      var c := e(XorBlocks(m[..16], iv));
      c + CbcEncrypt(e, c, m[16..])
  }

  function CbcDecrypt(d: Block -> Block, iv: Block, c: seq<Byte>): (m: seq<Byte>)
    requires Whole(c)
    ensures |m| == |c|
    decreases |c|
  {
    if c == [] then [] else XorBlocks(d(c[..16]), iv) + CbcDecrypt(d, c[..16], c[16..])
  }

  /** The block the next CBC step chains to, after ciphertext c. */
  function Chain(iv: Block, c: seq<Byte>): Block
    requires Whole(c)
  {
    if c == [] then iv else c[|c| - 16..]
  }

  lemma {:induction false} EcbAppend(f: Block -> Block, a: seq<Byte>, b: seq<Byte>)
    requires Whole(a) && Whole(b)
    ensures Whole(a + b)
    ensures Ecb(f, a + b) == Ecb(f, a) + Ecb(f, b)
  {
    if a == [] {
      assert a + b == b;
    } else {
      assert (a + b)[..16] == a[..16] && (a + b)[16..] == a[16..] + b;
      EcbAppend(f, a[16..], b);
    }
  }

  lemma {:induction false} CbcEncryptAppend(e: Block -> Block, iv: Block, a: seq<Byte>, b: seq<Byte>)
    requires Whole(a) && Whole(b)
    ensures Whole(a + b)
    ensures CbcEncrypt(e, iv, a + b) == CbcEncrypt(e, iv, a) + CbcEncrypt(e, Chain(iv, CbcEncrypt(e, iv, a)), b)
    decreases |a|
  {
    if a == [] {
      assert a + b == b;
    } else {
      assert (a + b)[..16] == a[..16] && (a + b)[16..] == a[16..] + b;
      var c := e(XorBlocks(a[..16], iv));
      CbcEncryptAppend(e, c, a[16..], b);
      ChainOfAppend(iv, c, CbcEncrypt(e, c, a[16..]));
    }
  }

  lemma ChainOfAppend(iv: Block, c: Block, rest: seq<Byte>)
    requires Whole(rest)
    ensures Whole(c + rest) && Chain(iv, c + rest) == Chain(c, rest)
  {
    if rest == [] {
      assert c + rest == c;
    } else {
      assert (c + rest)[|c + rest| - 16..] == rest[|rest| - 16..];
    }
  }

  lemma {:induction false} CbcDecryptAppend(d: Block -> Block, iv: Block, a: seq<Byte>, b: seq<Byte>)
    requires Whole(a) && Whole(b)
    ensures Whole(a + b)
    ensures CbcDecrypt(d, iv, a + b) == CbcDecrypt(d, iv, a) + CbcDecrypt(d, Chain(iv, a), b)
    decreases |a|
  {
    hide XorBlocks, Chain, CbcDecrypt;
    CbcDecryptFirst(d, iv, a);
    CbcDecryptFirst(d, iv, a + b);
    ChainOfNothing(iv);
    if a == [] {
      assert a + b == b && [] + CbcDecrypt(d, iv, b) == CbcDecrypt(d, iv, b);
    } else {
      assert (a + b)[..16] == a[..16] && (a + b)[16..] == a[16..] + b;
      CbcDecryptAppend(d, a[..16], a[16..], b);
      ChainOfAppend(iv, a[..16], a[16..]);
      assert a[..16] + a[16..] == a;
    }
  }

  lemma CbcDecryptFirst(d: Block -> Block, iv: Block, c: seq<Byte>)
    requires Whole(c)
    ensures c == [] ==> CbcDecrypt(d, iv, c) == []
    ensures c != [] ==> CbcDecrypt(d, iv, c) == XorBlocks(d(c[..16]), iv) + CbcDecrypt(d, c[..16], c[16..])
  {
    hide XorBlocks;
  }

  lemma ChainOfNothing(iv: Block)
    ensures Chain(iv, []) == iv
  {
  }

  /** SP 800-38A, section 6.2: C_i is the encryption of P_i XOR C_(i-1), with the IV standing in for C_(-1). */
  lemma {:induction false} CbcChaining(e: Block -> Block, iv: Block, m: seq<Byte>, i: nat)
    requires Whole(m) && 16 * i + 16 <= |m|
    ensures var c := CbcEncrypt(e, iv, m);
      BlockAt(c, i) == e(XorBlocks(BlockAt(m, i), if i == 0 then iv else BlockAt(c, i - 1)))
    decreases i
  {
    var c0 := e(XorBlocks(m[..16], iv));
    var c := CbcEncrypt(e, iv, m);
    var rest := CbcEncrypt(e, c0, m[16..]);
    assert c == c0 + rest;
    if i == 0 {
    } else {
      CbcChaining(e, c0, m[16..], i - 1);
      assert BlockAt(c, i) == BlockAt(rest, i - 1);
      assert BlockAt(m, i) == BlockAt(m[16..], i - 1);
      if i > 1 {
        assert BlockAt(c, i - 1) == BlockAt(rest, i - 2);
      }
    }
  }

  lemma {:induction false} EcbRoundTrip(e: Block -> Block, d: Block -> Block, m: seq<Byte>)
    requires Whole(m)
    requires Inverses(e, d)
    ensures Ecb(d, Ecb(e, m)) == m
  {
    if |m| == 0 {
    } else {
      var c: seq<Byte> := e(m[..16]);
      var rest: seq<Byte> := Ecb(e, m[16..]);
      assert (c + rest)[..16] == c && (c + rest)[16..] == rest;
      EcbRoundTrip(e, d, m[16..]);
    }
  }

  /** CBC decryption undoes CBC encryption for every message of whole blocks and every IV. */
  lemma {:induction false} CbcRoundTrip(e: Block -> Block, d: Block -> Block, iv: Block, m: seq<Byte>)
    requires Whole(m)
    requires Inverses(e, d)
    ensures CbcDecrypt(d, iv, CbcEncrypt(e, iv, m)) == m
    decreases |m|
  {
    if |m| == 0 {
    } else {
      var x := XorBlocks(m[..16], iv);
      var c := e(x);
      var rest: seq<Byte> := CbcEncrypt(e, c, m[16..]);
      var first: seq<Byte> := c;
      assert (first + rest)[..16] == c && (first + rest)[16..] == rest;
      XorBlocksTwice(m[..16], iv);
      CbcRoundTrip(e, d, c, m[16..]);
    }
  }

  /** The converse: every ciphertext of whole blocks is the encryption of its decryption. */
  lemma {:induction false} CbcConverse(e: Block -> Block, d: Block -> Block, iv: Block, c: seq<Byte>)
    requires Whole(c)
    requires Inverses(e, d)
    ensures CbcEncrypt(e, iv, CbcDecrypt(d, iv, c)) == c
    decreases |c|
  {
    if |c| == 0 {
    } else {
      var p: seq<Byte> := XorBlocks(d(c[..16]), iv);
      var rest: seq<Byte> := CbcDecrypt(d, c[..16], c[16..]);
      assert (p + rest)[..16] == p && (p + rest)[16..] == rest;
      XorBlocksTwice(d(c[..16]), iv);
      CbcConverse(e, d, c[..16], c[16..]);
    }
  }

  lemma XorBlocksBytes(a: Block, b: Block)
    ensures forall j :: 0 <= j < 16 ==> XorBlocks(a, b)[j] == a[j] ^ b[j]
  {
  }

  /**
    * CBC by bytes: block i of the ciphertext is the encryption of a block whose bytes are those of the text, each in
    * exclusive or with that of the ciphertext block before, or of the IV.
    */
  lemma CbcByBytes(e: Block -> Block, iv: Block, m: seq<Byte>, i: nat)
    requires Whole(m) && 16 * i + 16 <= |m|
    ensures var c := CbcEncrypt(e, iv, m);
      exists x: Block :: c[16 * i..16 * i + 16] == e(x) && forall j :: 0 <= j < 16 ==>
        x[j] == m[16 * i..][j] ^ (if i == 0 then iv[j] else c[16 * i - 16..][j])
  {
    hide XorBlocks, CbcEncrypt;
    var c := CbcEncrypt(e, iv, m);
    var chained := if i == 0 then iv else BlockAt(c, i - 1);
    CbcChaining(e, iv, m, i);
    XorBlocksBytes(BlockAt(m, i), chained);
    var x := XorBlocks(BlockAt(m, i), chained);
    assert c[16 * i..16 * i + 16] == e(x);
  }

  lemma {:induction false} CbcDecryptChaining(d: Block -> Block, iv: Block, c: seq<Byte>, i: nat)
    requires Whole(c) && 16 * i + 16 <= |c|
    ensures BlockAt(CbcDecrypt(d, iv, c), i)
         == XorBlocks(d(BlockAt(c, i)), if i == 0 then iv else BlockAt(c, i - 1))
    decreases i
  {
    hide XorBlocks, BlockAt, CbcDecrypt;
    var first: seq<Byte> := XorBlocks(d(c[..16]), iv);
    var rest := CbcDecrypt(d, c[..16], c[16..]);
    CbcDecryptFirst(d, iv, c);
    BlockBehind(c[..16], c[16..], i);
    BlockBehind(first, rest, i);
    assert c == c[..16] + c[16..];
    if i == 0 {
    } else {
      CbcDecryptChaining(d, c[..16], c[16..], i - 1);
      BlockBehind(c[..16], c[16..], i - 1);
    }
  }

  /** The blocks of a buffer that begins with block a. */
  lemma BlockBehind(a: seq<Byte>, b: seq<Byte>, i: nat)
    requires |a| == 16 && 16 * i <= |b|
    ensures BlockAt(a + b, i) == if i == 0 then a else BlockAt(b, i - 1)
  {
  }

  /** CBC decryption by bytes. */
  lemma CbcDecryptByBytes(d: Block -> Block, iv: Block, c: seq<Byte>, i: nat)
    requires Whole(c) && 16 * i + 16 <= |c|
    ensures var m := CbcDecrypt(d, iv, c);
      forall j :: 0 <= j < 16 ==>
        m[16 * i..][j] == d(c[16 * i..16 * i + 16])[j] ^ (if i == 0 then iv[j] else c[16 * i - 16..][j])
  {
    hide XorBlocks, CbcDecrypt;
    var chained := if i == 0 then iv else BlockAt(c, i - 1);
    CbcDecryptChaining(d, iv, c, i);
    XorBlocksBytes(d(BlockAt(c, i)), chained);
    assert forall j :: 0 <= j < 16 ==> CbcDecrypt(d, iv, c)[16 * i..][j] == BlockAt(CbcDecrypt(d, iv, c), i)[j];
  }

  /** The blocks that are taken are the ones at the beginning of the buffer. */
  lemma FirstBlocksByBytes(m: seq<Byte>, n: nat)
    requires 16 * n <= |m|
    ensures forall j :: 0 <= j < 16 * n ==> FirstBlocks(m, n)[j] == m[j]
  {
  }

  /** ECB treats each block on its own, in its place. */
  lemma {:induction false} EcbByBlocks(f: Block -> Block, m: seq<Byte>, i: nat)
    requires Whole(m) && 16 * i + 16 <= |m|
    ensures Ecb(f, m)[16 * i..16 * i + 16] == f(m[16 * i..16 * i + 16])
    decreases i
  {
    var first: seq<Byte> := f(m[..16]);
    assert Ecb(f, m) == first + Ecb(f, m[16..]);
    if i == 0 {
      assert m[0..16] == m[..16];
    } else {
      EcbByBlocks(f, m[16..], i - 1);
      assert m[16..][16 * (i - 1)..16 * (i - 1) + 16] == m[16 * i..16 * i + 16];
      assert Ecb(f, m)[16 * i..16 * i + 16] == Ecb(f, m[16..])[16 * (i - 1)..16 * (i - 1) + 16];
    }
  }

  /** The padding appended by padEncrypt: 1 to 16 bytes, each equal to their number. */
  function Pad(m: seq<Byte>): (p: seq<Byte>)
    ensures Whole(p) && |p| == 16 * (|m| / 16 + 1)
  {
    m + Padding(16 - |m| % 16)
  }

  function Padding(n: nat): (p: seq<Byte>)
    requires n <= 16
    ensures |p| == n
  {
    seq(n, _ => PadByte(n))
  }

  /** The byte with value n. */
  function PadByte(n: nat): (b: Byte)
    requires n <= 16
    ensures ByteValue(b) == n
  {
    n as Byte
  }

  function ByteValue(b: Byte): (n: nat)
    ensures n < 256
  {
    b as nat
  }

  lemma PadByteOfValue(b: Byte)
    requires ByteValue(b) <= 16
    ensures PadByte(ByteValue(b)) == b
  {
  }

  datatype Unpadded = Plain(bytes: seq<Byte>) | Corrupted

  /** The last n bytes of p all have value n. */
  predicate EndsInPadding(p: seq<Byte>, n: nat) {
    n <= |p| && forall i :: |p| - n <= i < |p| ==> ByteValue(p[i]) == n
  }

  /** The check at the end of padDecrypt, in CBC and ECB mode. */
  function UnpadCbc(p: seq<Byte>): (r: Unpadded)
    requires |p| > 0
  {
    var n := ByteValue(p[|p| - 1]);
    if 0 < n <= 16 && EndsInPadding(p, n) then Plain(p[..|p| - n]) else Corrupted
  }

  function UnpadEcb(p: seq<Byte>): (r: Unpadded)
    requires |p| > 0
  {
    var n := ByteValue(p[|p| - 1]);
    if n < 16 && EndsInPadding(p, n) then Plain(p[..|p| - n]) else Corrupted
  }

  /** Removing what was padded, in CBC mode. */
  lemma UnpadCbcOfPad(m: seq<Byte>)
    ensures UnpadCbc(Pad(m)) == Plain(m)
  {
    assert Pad(m)[..|m|] == m;
  }

  /** Every padded text that CBC mode accepts is the padding of what it returns. */
  lemma PadOfUnpadCbc(p: seq<Byte>)
    requires Whole(p) && |p| > 0
    ensures UnpadCbc(p).Plain? <==> exists m :: p == Pad(m)
    ensures UnpadCbc(p).Plain? ==> Pad(UnpadCbc(p).bytes) == p
  {
    hide ByteValue, PadByte;
    var n := ByteValue(p[|p| - 1]);
    if 0 < n <= 16 && EndsInPadding(p, n) {
      var m := p[..|p| - n];
      assert 16 - |m| % 16 == n;
      forall i | |m| <= i < |p| ensures p[i] == Pad(m)[i] {
        PadByteOfValue(p[i]);
      }
      assert Pad(m) == p;
    }
    forall m | p == Pad(m) ensures UnpadCbc(p).Plain? {
      UnpadCbcOfPad(m);
    }
  }

  /**
    * In ECB mode the check compares with 16 the wrong way round: a full block of padding is rejected, so the padding
    * comes off again exactly when the length is not a multiple of 16.
    */
  lemma UnpadEcbOfPad(m: seq<Byte>)
    ensures UnpadEcb(Pad(m)) == (if |m| % 16 == 0 then Corrupted else Plain(m))
    ensures UnpadEcb(Pad(m)) == Plain(m) <==> |m| % 16 != 0
  {
    assert Pad(m)[..|m|] == m;
  }

  /** ECB mode accepts every text that ends in a zero byte, as it is, and the paddings of incomplete blocks. */
  lemma PadOfUnpadEcb(p: seq<Byte>)
    requires Whole(p) && |p| > 0
    ensures UnpadEcb(p).Plain? <==> ByteValue(p[|p| - 1]) == 0 || exists m :: p == Pad(m) && |m| % 16 != 0
    ensures UnpadEcb(p).Plain? ==> (Pad(UnpadEcb(p).bytes) == p <==> ByteValue(p[|p| - 1]) != 0)
    ensures ByteValue(p[|p| - 1]) == 0 ==> UnpadEcb(p) == Plain(p)
  {
    hide Pad;
    if ByteValue(p[|p| - 1]) == 0 {
      assert p[..|p|] == p;
    } else {
      PadOfUnpadCbc(p);
      if UnpadEcb(p).Plain? {
        var m := UnpadEcb(p).bytes;
        UnpadEcbOfPad(m);
        assert p == Pad(m) && |m| % 16 != 0;
      }
    }
    forall m | p == Pad(m) && |m| % 16 != 0 ensures UnpadEcb(p).Plain? {
      UnpadEcbOfPad(m);
    }
  }

  /** Padding by bytes: the text, then as many bytes as it takes to fill a block, or a whole one, each their number. */
  lemma PadByBytes(m: seq<Byte>)
    ensures |Pad(m)| == |m| + (16 - |m| % 16) && Pad(m)[..|m|] == m
    ensures forall i :: |m| <= i < |Pad(m)| ==> Pad(m)[i] as int == 16 - |m| % 16
  {
  }

  /** The text p ends in n bytes of value n, which follow m. */
  predicate FollowedBy(p: seq<Byte>, m: seq<Byte>, n: nat) {
    |p| == |m| + n && p[..|m|] == m && forall i :: |m| <= i < |p| ==> p[i] as int == n
  }

  /** The checks of padDecrypt by bytes: CBC takes off 1 to 16 bytes, ECB 1 to 15, or none before a zero byte. */
  lemma UnpadByBytes(p: seq<Byte>, m: seq<Byte>)
    requires |p| > 0
    ensures UnpadCbc(p) == Plain(m) <==> exists n :: 1 <= n <= 16 && FollowedBy(p, m, n)
    ensures UnpadEcb(p) == Plain(m) <==>
      (p == m && p[|p| - 1] as int == 0) || exists n :: 1 <= n < 16 && FollowedBy(p, m, n)
  {
    hide ByteValue, FollowedBy;
    var n := ByteValue(p[|p| - 1]);
    EndsInFollowed(p, m, n);
    forall k | k > 0 && FollowedBy(p, m, k) ensures k == n {
      EndsInFollowed(p, m, k);
    }
    if n == 0 {
      assert p[..|p|] == p;
    }
  }

  lemma EndsInFollowed(p: seq<Byte>, m: seq<Byte>, n: nat)
    requires |p| > 0
    ensures FollowedBy(p, m, n) <==> EndsInPadding(p, n) && p[..|p| - n] == m
    ensures FollowedBy(p, m, n) && n > 0 ==> ByteValue(p[|p| - 1]) == n
    ensures p[|p| - 1] as int == ByteValue(p[|p| - 1])
  {
  }
}
