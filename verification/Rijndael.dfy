/** The cipher object: key set-up, the two block transformations by table look-up, and the buffer operations. */
module Rijndael {
  import opened Gf256
  import opened Aes
  import opened KeySchedule
  import opened Blocks
  import opened RijndaelTables
  import opened TableFacts
  import opened TableRounds
  import opened BlockModes
  import opened Cfb
  import opened Fips197

  datatype Direction = Encrypt | Decrypt | OtherDirection

  datatype Mode = ECB | CBC | CFB1 | OtherMode

  datatype KeyLength = Key16Bytes | Key24Bytes | Key32Bytes | OtherLength

  datatype Status = Valid | Invalid

  const SUCCESS := 0
  const UNSUPPORTED_MODE := -1
  const UNSUPPORTED_DIRECTION := -2
  const UNSUPPORTED_KEY_LENGTH := -3
  const BAD_KEY := -4
  const NOT_INITIALIZED := -5
  const BAD_DIRECTION := -6
  const CORRUPTED_DATA := -7

  /** The codes are those of the header. */
  lemma ReturnCodes()
    ensures SUCCESS == 0 && UNSUPPORTED_MODE == -1 && UNSUPPORTED_DIRECTION == -2 && UNSUPPORTED_KEY_LENGTH == -3
    ensures BAD_KEY == -4 && NOT_INITIALIZED == -5 && BAD_DIRECTION == -6 && CORRUPTED_DATA == -7
  {
  }

  /** old with the n bytes from position o on replaced by new. */
  function Splice(was: seq<Byte>, o: nat, bytes: seq<Byte>): (r: seq<Byte>)
    requires o + |bytes| <= |was|
    ensures |r| == |was|
  {
    was[..o] + bytes + was[o + |bytes|..]
  }

  /** The number of blocks that blockEncrypt writes in CBC mode. */
  function AtLeastOne(numBlocks: nat): nat {
    if numBlocks == 0 then 1 else numBlocks
  }

  function KeyBytes(n: KeyLength): nat
    requires n != OtherLength
  {
    match n
    case Key16Bytes => 16
    case Key24Bytes => 24
    case Key32Bytes => 32
  }

  function ZeroBlock(): Block {
    seq(16, _ => 0)
  }

  /** Replacing two adjacent stretches is replacing their concatenation. */
  lemma SpliceTwice(was: seq<Byte>, o: nat, x: seq<Byte>, y: seq<Byte>)
    requires o + |x| + |y| <= |was|
    ensures Splice(Splice(was, o, x), o + |x|, y) == Splice(was, o, x + y)
  {
  }

  function LoadWord(b: array<Byte>, o: nat): Word
    requires o + 4 <= b.Length
    reads b
  {
    MakeWord(b[o], b[o + 1], b[o + 2], b[o + 3])
  }

  /** The four words read from a buffer. */
  function LoadState(b: array<Byte>, o: nat): (s: State)
    requires o + 16 <= b.Length
    reads b
    ensures s == StateOf(b[o..o + 16])
  {
    State(LoadWord(b, o), LoadWord(b, o + 4), LoadWord(b, o + 8), LoadWord(b, o + 12))
  }

  lemma SpliceAgain(was: seq<Byte>, o: nat, x: seq<Byte>, y: seq<Byte>)
    requires o + |x| <= |was|
    ensures |y| == |x| ==> Splice(Splice(was, o, x), o, y) == Splice(was, o, y)
    ensures Splice(was, o, x)[o..o + |x|] == x
    ensures Splice(was, o, x)[..o] == was[..o] && Splice(was, o, x)[o + |x|..] == was[o + |x|..]
  {
  }

  /** Writes a word to a buffer, as the cipher does through a word pointer. */
  method StoreWord(b: array<Byte>, o: nat, w: Word)
    requires o + 4 <= b.Length
    modifies b
    ensures b[..] == Splice(old(b[..]), o, BytesOfWord4(w))
  {
    hide Byte0, Byte1, Byte2, Byte3;
    b[o], b[o + 1], b[o + 2], b[o + 3] := Byte0(w), Byte1(w), Byte2(w), Byte3(w);
    assert b[o..o + 4] == BytesOfWord4(w);
  }

  method StoreState(b: array<Byte>, o: nat, s: State)
    requires o + 16 <= b.Length
    modifies b
    ensures b[..] == Splice(old(b[..]), o, BlockOf(s))
  {
    hide Splice, BytesOfWord4;
    var was := b[..];
    var w0, w1, w2, w3 := BytesOfWord4(s.c0), BytesOfWord4(s.c1), BytesOfWord4(s.c2), BytesOfWord4(s.c3);
    StoreWord(b, o, s.c0);
    StoreWord(b, o + 4, s.c1);
    SpliceTwice(was, o, w0, w1);
    StoreWord(b, o + 8, s.c2);
    SpliceTwice(was, o, w0 + w1, w2);
    StoreWord(b, o + 12, s.c3);
    SpliceTwice(was, o, w0 + w1 + w2, w3);
  }

  /** Reads the state that the block at o holds. */
  method ReloadState(b: array<Byte>, o: nat, ghost was: seq<Byte>, ghost s: State) returns (t: State)
    requires o + 16 <= b.Length == |was| && b[..] == Splice(was, o, BlockOf(s))
    ensures t == s
  {
    hide Splice, BlockOf, StateOf;
    t := LoadState(b, o);
    SpliceAgain(was, o, BlockOf(s), []);
    StateOfBlockOf(s);
    assert b[o..o + 16] == b[..][o..o + 16];
  }

  /** Writes another state in its place. */
  method ReplaceState(b: array<Byte>, o: nat, t: State, ghost was: seq<Byte>, ghost s: State)
    requires o + 16 <= b.Length == |was| && b[..] == Splice(was, o, BlockOf(s))
    modifies b
    ensures b[..] == Splice(was, o, BlockOf(t))
  {
    hide Splice, BlockOf;
    SpliceAgain(was, o, BlockOf(s), BlockOf(t));
    StoreState(b, o, t);
  }

  /** Elements lo to hi - 1 of tempKey hold those words of the p-th key-sized window of the expanded key. */
  ghost predicate Window(tempKey: array<Word>, key: Key, p: nat, lo: nat, hi: nat)
    requires hi <= tempKey.Length
    reads tempKey
  {
    forall i :: lo <= i < hi ==> tempKey[i] == KeyWord(key, |key| * p + i)
  }

  lemma LastOfWindow(tempKey: array<Word>, key: Key, p: nat)
    requires |key| <= tempKey.Length && Window(tempKey, key, p, 0, |key|)
    ensures tempKey[|key| - 1] == KeyWord(key, |key| * (p + 1) - 1)
  {
  }

  /** The first word of a pass: five bytewise updates. */
  method AddToFirstWord(tempKey: array<Word>, last: Word, rcon: Byte, ghost key: Key, ghost p: nat)
    requires tempKey.Length == 8 && p < 10 && rcon == RCON[p]
    requires Window(tempKey, key, p, 0, |key|) && last == KeyWord(key, |key| * (p + 1) - 1)
    modifies tempKey
    ensures Window(tempKey, key, p + 1, 0, 1) && Window(tempKey, key, p, 1, |key|)
  {
    hide KeyWord, Xor, XorByte, SubWord, RotWord, MakeWord, XPower, S, Byte0, Byte1, Byte2, Byte3;
    FirstWordOfPass(tempKey[0], last, rcon);
    RconIsPower(p);
    NextWindow(key, p, 0);
    tempKey[0] := XorByte(tempKey[0], 0, S(Byte1(last)));
    tempKey[0] := XorByte(tempKey[0], 1, S(Byte2(last)));
    tempKey[0] := XorByte(tempKey[0], 2, S(Byte3(last)));
    tempKey[0] := XorByte(tempKey[0], 3, S(Byte0(last)));
    tempKey[0] := XorByte(tempKey[0], 0, rcon);
  }

  /** The middle word of a pass over an eight-word key: four bytewise updates. */
  method AddToMiddleWord(tempKey: array<Word>, ghost key: Key, ghost p: nat)
    requires tempKey.Length == 8 && |key| == 8
    requires Window(tempKey, key, p + 1, 0, 4) && Window(tempKey, key, p, 4, 8)
    modifies tempKey
    ensures Window(tempKey, key, p + 1, 0, 5) && Window(tempKey, key, p, 5, 8)
  {
    hide KeyWord, Xor, XorByte, SubWord, RotWord, MakeWord, XPower, S, Byte0, Byte1, Byte2, Byte3;
    var prev := tempKey[3];
    MiddleWordOfPass(tempKey[4], prev);
    NextWindow(key, p, 4);
    tempKey[4] := XorByte(tempKey[4], 0, S(Byte0(prev)));
    tempKey[4] := XorByte(tempKey[4], 1, S(Byte1(prev)));
    tempKey[4] := XorByte(tempKey[4], 2, S(Byte2(prev)));
    tempKey[4] := XorByte(tempKey[4], 3, S(Byte3(prev)));
  }

  /** The other words of a pass: each is XORed with the one before it. */
  method ChainWords(tempKey: array<Word>, lo: nat, hi: nat, ghost key: Key, ghost p: nat)
    requires tempKey.Length == 8 && 0 < lo <= hi <= |key|
    requires |key| == 8 ==> hi <= 4 || lo > 4
    requires Window(tempKey, key, p + 1, 0, lo) && Window(tempKey, key, p, lo, |key|)
    modifies tempKey
    ensures Window(tempKey, key, p + 1, 0, hi) && Window(tempKey, key, p, hi, |key|)
  {
    hide KeyWord, Xor, SubWord, RotWord, MakeWord, XPower;
    var j := lo;
    while j < hi
      invariant lo <= j <= hi
      invariant Window(tempKey, key, p + 1, 0, j) && Window(tempKey, key, p, j, |key|)
    {
      NextWindow(key, p, j);
      tempKey[j] := Xor(tempKey[j], tempKey[j - 1]);
      j := j + 1;
    }
  }

  /** Row j of the key matrix as a word. */
  function RowWord(m: array2<Byte>, j: nat): Word
    requires m.Length0 == 8 && m.Length1 == 4 && j < 8
    reads m
  {
    MakeWord(m[j, 0], m[j, 1], m[j, 2], m[j, 3])
  }

  /** The key bytes, four to a row, as init arranges them. */
  method KeyMatrix(key: array<Byte>, n: nat) returns (m: array2<Byte>)
    requires key.Length >= n && (n == 16 || n == 24 || n == 32)
    ensures fresh(m) && m.Length0 == 8 && m.Length1 == 4
    ensures forall j :: 0 <= j < n / 4 ==> RowWord(m, j) == KeyOfBytes(key[..n])[j]
  {
    hide MakeWord;
    m := new Byte[8, 4];
    var i := 0;
    while i < n
      invariant i <= n
      invariant forall j: nat, t: nat :: t < 4 && 4 * j + t < i ==> m[j, t] == key[4 * j + t]
    {
      m[i / 4, i % 4] := key[i];
      i := i + 1;
    }
  }

  /** The copy of the key that keySched works on. */
  method CopyKey(keyMatrix: array2<Byte>, n: nat) returns (tempKey: array<Word>)
    requires keyMatrix.Length0 == 8 && keyMatrix.Length1 == 4 && n <= 8
    ensures fresh(tempKey) && tempKey.Length == 8
    ensures forall j :: 0 <= j < n ==> tempKey[j] == RowWord(keyMatrix, j)
  {
    hide MakeWord;
    tempKey := new Word[8];
    var j := 0;
    while j < n
      invariant j <= n
      invariant forall i :: 0 <= i < j ==> tempKey[i] == RowWord(keyMatrix, i)
    {
      tempKey[j] := RowWord(keyMatrix, j);
      j := j + 1;
    }
  }

  lemma FirstWindow(tempKey: array<Word>, key: Key)
    requires tempKey.Length == 8 && forall i :: 0 <= i < |key| ==> tempKey[i] == key[i]
    ensures Window(tempKey, key, 0, 0, |key|)
  {
  }

  lemma WindowFrom(tempKey: array<Word>, key: Key, p: nat, base: nat)
    requires tempKey.Length == 8 && Window(tempKey, key, p, 0, |key|)
    requires p > 0 && base == |key| * (p - 1) + |key|
    ensures base == |key| * p
    ensures forall i :: 0 <= i < |key| ==> tempKey[i] == KeyWord(key, base + i)
  {
    hide KeyWord;
  }

  /** Ten round constants are enough: a pass starts only while round key words are missing. */
  lemma RconInRange(n: nat, p: nat, base: nat)
    requires n == 4 || n == 6 || n == 8
    requires base == n * p && base + n < 4 * (n + 7)
    ensures p < 10
  {
  }

  lemma Quarters(i: nat)
    ensures i / 4 / 4 == i / 16 && 4 * (i / 4) + i % 4 == i
  {
  }

  lemma SpliceNothing(was: seq<Byte>)
    ensures Splice(was, 0, []) == was
  {
  }

  lemma SpliceTail(was: seq<Byte>, x: seq<Byte>)
    requires |x| <= |was|
    ensures Splice(was, 0, x)[|x|..] == was[|x|..]
    ensures Splice(was, 0, x)[..|x|] == x
  {
  }

  lemma CbcNothing(e: Block -> Block, d: Block -> Block, iv: Block)
    ensures CbcEncrypt(e, iv, []) == [] && CbcDecrypt(d, iv, []) == []
  {
  }

  /** The result of padEncrypt in ECB and CBC mode. */
  ghost function PadEncrypted(mode: Mode, e: Block -> Block, iv: Block, m: seq<Byte>): (c: seq<Byte>)
    ensures |c| == 16 * (|m| / 16 + 1)
  {
    if mode == ECB then Ecb(e, Pad(m)) else CbcEncrypt(e, iv, Pad(m))
  }

  /**
    * The outcome of padDecrypt in ECB and CBC mode: the unpadded text and its length, or the error code, with all
    * blocks but the last one already written.
    */
  ghost predicate PadDecrypted(mode: Mode, d: Block -> Block, iv: Block, c: seq<Byte>,
                               was: seq<Byte>, now: seq<Byte>, r: int)
    requires 0 < |c| <= |was| && |c| % 16 == 0
  {
    var text := if mode == ECB then Ecb(d, c) else CbcDecrypt(d, iv, c);
    Stripped(if mode == ECB then UnpadEcb(text) else UnpadCbc(text), text, was, now, r)
  }

  /** The buffer and return value after the padding check of text. */
  ghost predicate Stripped(u: Unpadded, text: seq<Byte>, was: seq<Byte>, now: seq<Byte>, r: int)
    requires 16 <= |text| <= |was|
  {
    match u
    case Plain(m) => |m| <= |was| && r == |m| && now == Splice(was, 0, m)
    case Corrupted => r == CORRUPTED_DATA && now == Splice(was, 0, text[..|text| - 16])
  }

  lemma LastOf(all: seq<Byte>, n: nat)
    requires 0 < n <= |all| && n % 16 == 0
    ensures var p := 16 * (n / 16 - 1);
      && n == p + 16 && p % 16 == 0
      && FirstBlocks(all, n / 16 - 1) == all[..n][..p]
      && all[..n][..p + 16] == all[..n]
      && all[..n][p..n] == all[p..p + 16]
  {
  }

  lemma LastOfSum(a: seq<Byte>, b: seq<Byte>)
    requires |b| == 16
    ensures var text := a + b;
      text[..|text| - 16] == a && text[|text| - 16..] == b && text[|text| - 1] == b[15]
  {
  }

  lemma DropFromSum(a: seq<Byte>, b: seq<Byte>, k: nat)
    requires k <= |b|
    ensures (a + b)[..|a + b| - k] == a + b[..|b| - k]
  {
  }

  /** What the padding check decides, from the last block alone. */
  lemma UnpadLast(text: seq<Byte>, n: nat)
    requires |text| >= 16 && n == ByteValue(text[|text| - 1])
    ensures var last := text[|text| - 16..];
      && UnpadEcb(text) == (if n < 16 && EndsInPadding(last, n) then Plain(text[..|text| - n]) else Corrupted)
      && UnpadCbc(text) == (if 0 < n <= 16 && EndsInPadding(last, n) then Plain(text[..|text| - n]) else Corrupted)
  {
    hide ByteValue;
    if n <= 16 {
      assert EndsInPadding(text[|text| - 16..], n) <==> EndsInPadding(text, n) by {
        forall i | |text| - n <= i < |text| ensures text[i] == text[|text| - 16..][i - (|text| - 16)] {
        }
      }
    }
  }

  method CheckPadding(block: array<Byte>, padLen: nat) returns (ok: bool)
    requires block.Length == 16 && padLen <= 16
    ensures ok == EndsInPadding(block[..], padLen)
  {
    hide ByteValue;
    var i := 16 - padLen;
    while i < 16
      invariant 16 - padLen <= i <= 16
      invariant forall j :: 16 - padLen <= j < i ==> ByteValue(block[j]) == padLen
    {
      if ByteValue(block[i]) != padLen {
        assert ByteValue(block[..][i]) != padLen;
        return false;
      }
      i := i + 1;
    }
    return true;
  }

  /** The end of padDecrypt: checks the padding of the last block and writes what precedes it. */
  method StripPadding(mode: Mode, block: array<Byte>, outBuffer: array<Byte>, p: nat,
                      ghost was: seq<Byte>, ghost head: seq<Byte>)
    returns (r: int)
    requires block.Length == 16 && block != outBuffer && |head| == p && p + 16 <= outBuffer.Length == |was|
    requires outBuffer[..] == Splice(was, 0, head)
    modifies outBuffer
    ensures var text := head + old(block[..]);
      Stripped(if mode == ECB then UnpadEcb(text) else UnpadCbc(text), text, was, outBuffer[..], r)
  {
    hide Splice, UnpadEcb, UnpadCbc, EndsInPadding, ByteValue;
    ghost var text := head + block[..];
    var padLen := ByteValue(block[15]);
    LastOfSum(head, block[..]);
    UnpadLast(text, padLen);
    if if mode == ECB then padLen >= 16 else padLen <= 0 || padLen > 16 {
      return CORRUPTED_DATA;
    }
    var ok := CheckPadding(block, padLen);
    if !ok {
      return CORRUPTED_DATA;
    }
    DropFromSum(head, block[..], padLen);
    SpliceTwice(was, 0, head, block[..16 - padLen]);
    CopyInto(outBuffer, p, block, 0, 16 - padLen);
    return p + 16 - padLen;
  }

  /** The padded text of the first n bytes of a buffer: its whole blocks, then the rest with the padding. */
  lemma PadParts(all: seq<Byte>, n: nat)
    requires n <= |all|
    ensures var p, padded := 16 * (n / 16), Pad(all[..n]);
      && |padded| == p + 16
      && padded[..p] == FirstBlocks(all, n / 16)
      && padded[p..p + 16] == all[p..n] + Padding(16 - (n - p))
      && padded[..p + 16] == padded
  {
  }

  lemma SameRest(a: seq<Byte>, b: seq<Byte>, p: nat, n: nat)
    requires p <= n <= |a| == |b| && a[p..] == b[p..]
    ensures a[p..n] == b[p..n]
  {
    assert a[p..n] == a[p..][..n - p];
    assert b[p..n] == b[p..][..n - p];
  }

  /** The last, partial block of the input at p, filled up with padLen padding bytes. */
  method PaddedBlock(input: array<Byte>, p: nat, padLen: nat) returns (block: array<Byte>)
    requires 1 <= padLen <= 16 && p + 16 - padLen <= input.Length
    ensures fresh(block) && block.Length == 16
    ensures block[..] == input[p..p + 16 - padLen] + Padding(padLen)
  {
    hide Splice, PadByte;
    block := new Byte[16];
    ghost var x := input[p..p + 16 - padLen];
    ghost var was := block[..];
    CopyInto(block, 0, input, p, 16 - padLen);
    SpliceTail(was, x);
    FillPadding(block, padLen);
  }

  /** Overwrites the end of a block with padding. */
  method FillPadding(block: array<Byte>, padLen: nat)
    requires block.Length == 16 && padLen <= 16
    modifies block
    ensures block[..] == old(block[..16 - padLen]) + Padding(padLen)
  {
    hide PadByte;
    var i := 16 - padLen;
    while i < 16
      invariant 16 - padLen <= i <= 16
      invariant forall j :: 0 <= j < 16 - padLen ==> block[j] == old(block[j])
      invariant forall j :: 16 - padLen <= j < i ==> block[j] == PadByte(padLen)
    {
      block[i] := PadByte(padLen);
      i := i + 1;
    }
  }

  /** What n passes of 1-bit CFB encryption make of a buffer: only its first block changes. */
  ghost predicate CfbEncrypted(e: Block -> Block, iv: Block, was: seq<Byte>, now: seq<Byte>, n: nat)
    requires n > 0 ==> 16 <= |was|
  {
    if n == 0 then now == was
    else |now| == |was| && now[16..] == was[16..] && Bits(now[..16]) == CfbEncryptPasses(e, iv, Bits(was[..16]), n)
  }

  /** What n passes of 1-bit CFB decryption make of a buffer; input is the same buffer if inPlace. */
  ghost predicate CfbDecrypted(e: Block -> Block, iv: Block, input: seq<Byte>, was: seq<Byte>, now: seq<Byte>, n: nat,
                               inPlace: bool)
    requires n > 0 ==> 16 <= |was| && 16 <= |input|
  {
    if n == 0 then now == was
    else |now| == |was| && now[16..] == was[16..] &&
         Bits(now[..16]) == CfbDecryptPasses(e, iv, Bits(input[..16]), Bits(was[..16]), n, inPlace)
  }

  lemma CfbNothing(e: Block -> Block, iv: Block)
    ensures CfbEncrypt(e, iv, []) == [] && Register(iv, []) == iv
  {
  }

  lemma BitsAt(b: seq<Byte>, k: nat)
    requires k < 8 * |b|
    ensures Bits(b)[k] == ByteBit(b[k / 8], k % 8)
  {
  }

  lemma EcbNothing(f: Block -> Block)
    ensures Ecb(f, []) == []
  {
  }

  /** Bytewise XOR of two blocks into a third, which may be either of them. */
  method XorInto(d: array<Byte>, a: array<Byte>, ao: nat, b: array<Byte>, bo: nat)
    requires d.Length == 16 && ao + 16 <= a.Length && bo + 16 <= b.Length
    requires d == a ==> ao == 0
    requires d == b ==> bo == 0
    modifies d
    ensures d[..] == XorBlocks(old(a[ao..ao + 16]), old(b[bo..bo + 16]))
  {
    ghost var x, y := a[ao..ao + 16], b[bo..bo + 16];
    var j := 0;
    while j < 16
      invariant j <= 16
      invariant forall i :: 0 <= i < j ==> d[i] == x[i] ^ y[i]
      invariant forall i :: j <= i < 16 ==> a[ao + i] == x[i] && b[bo + i] == y[i]
    {
      d[j] := a[ao + j] ^ b[bo + j];
      j := j + 1;
    }
  }

  lemma SpliceWhole(was: seq<Byte>, b: seq<Byte>)
    requires |was| == |b|
    ensures Splice(was, 0, b) == b
  {
  }

  /** Copies a block to another buffer. */
  method CopyBlock(d: array<Byte>, o: nat, a: array<Byte>, ao: nat)
    requires o + 16 <= d.Length && ao + 16 <= a.Length && d != a
    modifies d
    ensures d[..] == Splice(old(d[..]), o, a[ao..ao + 16])
    ensures d.Length == 16 && o == 0 ==> d[..] == a[ao..ao + 16]
  {
    CopyInto(d, o, a, ao, 16);
  }

  method CopyInto(d: array<Byte>, o: nat, a: array<Byte>, ao: nat, n: nat)
    requires o + n <= d.Length && ao + n <= a.Length && d != a
    modifies d
    ensures d[..] == Splice(old(d[..]), o, a[ao..ao + n])
  {
    var j := 0;
    while j < n
      invariant j <= n
      invariant forall i :: 0 <= i < d.Length ==> d[i] == if o <= i < o + j then a[ao + i - o] else old(d[i])
    {
      d[o + j] := a[ao + j];
      j := j + 1;
    }
  }

  /** XORs the top bit of b into bit k of the buffer. */
  method FlipOutputBit(outBuffer: array<Byte>, k: nat, b: Byte)
    requires 16 <= outBuffer.Length && k < 128
    modifies outBuffer
    ensures Bits(outBuffer[..16]) == old(Bits(outBuffer[..16])[k := Bits(outBuffer[..16])[k] != ByteBit(b, 0)])
    ensures outBuffer[16..] == old(outBuffer[16..])
  {
    hide Bits, ByteBit, ShiftRight;
    ghost var was := outBuffer[..16];
    FlipBit(was, k, b);
    var i := k / 8;
    var flipped := outBuffer[i] ^ ShiftRight(b & 0x80, k % 8);
    outBuffer[i] := flipped;
    assert outBuffer[..16] == was[i := flipped];
  }

  /** Bit k of the buffer, as the loops shift and mask it out. */
  method InputBit(input: array<Byte>, k: nat) returns (bit: bool)
    requires 16 <= input.Length && k < 128
    ensures bit == Bits(input[..16])[k]
  {
    hide ByteBit, ShiftRight;
    SerialBit(input[k / 8], k % 8);
    BitsAt(input[..16], k);
    var serial := ShiftRight(input[k / 8], 7 - k % 8) & 1;
    bit := serial == 1;
  }

  lemma ReplaceBit(c: seq<bool>, p: seq<bool>, k: nat, bit: bool)
    requires |c| == k < |p|
    ensures (c + p[k..])[k] == p[k]
    ensures (c + p[k..])[k := bit] == c + [bit] + p[k + 1..]
  {
  }

  lemma TakeAll(p: seq<bool>)
    ensures p[..0] == [] && p[0..] == p && p[..|p|] == p && p[|p|..] == []
  {
  }

  lemma TakeOneMore(p: seq<bool>, k: nat)
    requires k < |p|
    ensures p[..k + 1] == p[..k] + [p[k]]
  {
  }

  /** The sixteen byte shifts of the 1-bit CFB loop. */
  method ShiftRegister(iv: array<Byte>, bit: bool)
    requires iv.Length == 16
    modifies iv
    ensures iv[..] == ShiftIn(old(iv[..]), bit)
  {
    hide ShiftLeft, ShiftLeftBit, BitByte;
    ghost var was := iv[..];
    var j := 0;
    while j < 15
      invariant j <= 15
      invariant forall i :: 0 <= i < j ==> iv[i] == ShiftLeft(was[i], was[i + 1])
      invariant forall i :: j <= i < 16 ==> iv[i] == was[i]
    {
      iv[j] := ShiftLeft(iv[j], iv[j + 1]);
      j := j + 1;
    }
    iv[15] := ShiftLeftBit(iv[15], BitByte(bit));
  }

  lemma WholeBlock(s: seq<Byte>)
    requires |s| == 16
    ensures s[0..16] == s
  {
  }

  /** Buffers that agree from p on agree on the block at p and after it. */
  lemma SameTail(a: seq<Byte>, b: seq<Byte>, p: nat)
    requires p + 16 <= |a| == |b| && a[p..] == b[p..]
    ensures a[p..p + 16] == b[p..p + 16] && a[p + 16..] == b[p + 16..]
  {
    assert a[p + 16..] == a[p..][16..] && b[p + 16..] == b[p..][16..];
    assert a[p..p + 16] == a[p..][..16] && b[p..p + 16] == b[p..][..16];
  }

  lemma BlockOfBuffer(m: seq<Byte>, p: nat)
    requires p + 16 <= |m| && p % 16 == 0
    ensures m[..p + 16] == m[..p] + m[p..p + 16] && Whole(m[..p]) && Whole(m[p..p + 16])
  {
  }

  lemma EcbStep(f: Block -> Block, was: seq<Byte>, m: seq<Byte>, p: nat)
    requires p + 16 <= |m| && p + 16 <= |was| && p % 16 == 0
    ensures Whole(m[..p]) && Whole(m[..p + 16])
    ensures Splice(Splice(was, 0, Ecb(f, m[..p])), p, f(m[p..p + 16])) == Splice(was, 0, Ecb(f, m[..p + 16]))
  {
    hide Splice;
    BlockOfBuffer(m, p);
    EcbAppend(f, m[..p], m[p..p + 16]);
    EcbOne(f, m[p..p + 16]);
    SpliceTwice(was, 0, Ecb(f, m[..p]), f(m[p..p + 16]));
  }

  lemma CbcEncryptStep(e: Block -> Block, iv: Block, was: seq<Byte>, m: seq<Byte>, p: nat)
    requires p + 16 <= |m| && p + 16 <= |was| && p % 16 == 0
    ensures Whole(m[..p]) && Whole(m[..p + 16])
    ensures var c := CbcEncrypt(e, iv, m[..p]);
      var next := e(XorBlocks(m[p..p + 16], Chain(iv, c)));
      && CbcEncrypt(e, iv, m[..p + 16]) == c + next
      && Splice(Splice(was, 0, c), p, next) == Splice(was, 0, c + next)
      && Chain(iv, c + next) == next
  {
    hide Splice, XorBlocks;
    var c := CbcEncrypt(e, iv, m[..p]);
    var b: Block := m[p..p + 16];
    var next := e(XorBlocks(b, Chain(iv, c)));
    BlockOfBuffer(m, p);
    CbcEncryptAppend(e, iv, m[..p], b);
    CbcEncryptOne(e, Chain(iv, c), b);
    SpliceTwice(was, 0, c, next);
  }

  lemma CbcEncryptOne(e: Block -> Block, iv: Block, b: Block)
    ensures CbcEncrypt(e, iv, b) == e(XorBlocks(b, iv))
  {
    assert b[..16] == b;
  }

  lemma CbcDecryptStep(d: Block -> Block, iv: Block, was: seq<Byte>, c: seq<Byte>, p: nat)
    requires p + 16 <= |c| && p + 16 <= |was| && p % 16 == 0
    ensures Whole(c[..p]) && Whole(c[..p + 16])
    ensures var m := CbcDecrypt(d, iv, c[..p]);
      var next := XorBlocks(d(c[p..p + 16]), Chain(iv, c[..p]));
      && CbcDecrypt(d, iv, c[..p + 16]) == m + next
      && Splice(Splice(was, 0, m), p, next) == Splice(was, 0, m + next)
      && Chain(iv, c[..p + 16]) == c[p..p + 16]
  {
    hide Splice, XorBlocks;
    var m := CbcDecrypt(d, iv, c[..p]);
    var b: Block := c[p..p + 16];
    var next := XorBlocks(d(b), Chain(iv, c[..p]));
    BlockOfBuffer(c, p);
    CbcDecryptAppend(d, iv, c[..p], b);
    CbcDecryptOne(d, Chain(iv, c[..p]), b);
    SpliceTwice(was, 0, m, next);
  }

  lemma CbcDecryptOne(d: Block -> Block, iv: Block, b: Block)
    ensures CbcDecrypt(d, iv, b) == XorBlocks(d(b), iv)
  {
    assert b[..16] == b;
  }

  lemma EcbLast(f: Block -> Block, m: seq<Byte>, p: nat)
    requires |m| == p + 16 && p % 16 == 0
    ensures Ecb(f, m) == Ecb(f, m[..p]) + f(m[p..p + 16])
  {
    BlockOfBuffer(m, p);
    assert m[..p + 16] == m;
    EcbAppend(f, m[..p], m[p..p + 16]);
    EcbOne(f, m[p..p + 16]);
  }

  lemma EcbOne(f: Block -> Block, b: Block)
    ensures Ecb(f, b) == f(b)
  {
    assert b[..16] == b;
  }

  class Rijndael {
    var m_state: Status
    var m_mode: Mode
    var m_direction: Direction
    const m_initVector: array<Byte>
    var m_uRounds: nat
    const m_expandedKey: array2<Word>

    /** The fixed dimensions of the object's buffers. */
    ghost predicate Shape() {
      m_initVector.Length == 16 && m_expandedKey.Length0 == 15 && m_expandedKey.Length1 == 4
    }

    ghost predicate HasRounds()
      reads this
    {
      Shape() && (m_uRounds == 10 || m_uRounds == 12 || m_uRounds == 14)
    }

    /** What holds between calls: a valid object has a key schedule, a mode and a direction. */
    ghost predicate Consistent()
      reads this
    {
      Shape() && (m_state == Valid ==> HasRounds() && m_mode != OtherMode && m_direction != OtherDirection)
    }

    function RoundKeyAt(r: nat): State
      requires HasRounds() && r <= m_uRounds
      reads this, m_expandedKey
    {
      State(m_expandedKey[r, 0], m_expandedKey[r, 1], m_expandedKey[r, 2], m_expandedKey[r, 3])
    }

    /** The round keys in use. */
    ghost function Keys(): (ks: Schedule)
      requires HasRounds()
      reads this, m_expandedKey
      ensures |ks| == m_uRounds + 1
    {
      seq(m_uRounds + 1, r requires 0 <= r <= m_uRounds && HasRounds() reads this, m_expandedKey => RoundKeyAt(r))
    }

    ghost function InitVector(): Block
      requires Shape()
      reads m_initVector
    {
      m_initVector[..]
    }

    constructor ()
      ensures Consistent() && m_state == Invalid
      ensures fresh(m_initVector) && fresh(m_expandedKey)
    {
      m_state, m_mode, m_direction, m_uRounds := Invalid, ECB, Encrypt, 0;
      m_initVector := new Byte[16];
      m_expandedKey := new Word[15, 4];
    }

    /** Words 4r + t below n of the expanded key are in place. */
    ghost predicate Filled(key: Key, n: nat)
      requires Shape()
      reads m_expandedKey
    {
      forall r: nat, t: nat :: r < 15 && t < 4 && 4 * r + t < n ==> m_expandedKey[r, t] == KeyWord(key, 4 * r + t)
    }

    /** Puts the next word of the expanded key in place. */
    method StoreKeyWord(r: nat, t: nat, w: Word, ghost key: Key)
      requires Shape() && r < 15 && t < 4 && Filled(key, 4 * r + t) && w == KeyWord(key, 4 * r + t)
      modifies m_expandedKey
      ensures Filled(key, 4 * r + t + 1)
    {
      hide KeyWord;
      m_expandedKey[r, t] := w;
    }

    /** Copies a window of the expanded key, which starts at word base, to the round key position (r, t). */
    method CopyWindow(tempKey: array<Word>, n: nat, r0: nat, t0: nat, ghost key: Key, ghost base: nat)
      returns (r: nat, t: nat)
      requires HasRounds() && |key| == n == m_uRounds - 6 && tempKey.Length == 8
      requires t0 < 4 && base == 4 * r0 + t0 && r0 <= m_uRounds
      requires forall i :: 0 <= i < n ==> tempKey[i] == KeyWord(key, base + i)
      requires Filled(key, base)
      modifies m_expandedKey
      ensures t < 4 && r <= m_uRounds + 1
      ensures Filled(key, 4 * r + t)
      ensures r <= m_uRounds ==> 4 * r + t == base + n
    {
      hide KeyWord, Filled;
      var j := 0;
      r, t := r0, t0;
      while j < n && r <= m_uRounds
        invariant j <= n && t < 4 && r <= m_uRounds + 1
        invariant 4 * r + t == base + j
        invariant Filled(key, 4 * r + t)
        decreases n - j
      {
        while j < n && t < 4
          invariant j <= n && t <= 4 && r <= m_uRounds
          invariant 4 * r + t == base + j
          invariant Filled(key, 4 * r + t)
        {
          StoreKeyWord(r, t, tempKey[j], key);
          j, t := j + 1, t + 1;
        }
        if t == 4 {
          r, t := r + 1, 0;
        }
      }
    }

    /** The words of the next window, computed in place from those of the current one. */
    method NextKeyWindow(tempKey: array<Word>, n: nat, rconpointer: nat, ghost key: Key)
      requires HasRounds() && |key| == n == m_uRounds - 6 && tempKey.Length == 8
      requires rconpointer < 10
      requires Window(tempKey, key, rconpointer, 0, n)
      modifies tempKey
      ensures Window(tempKey, key, rconpointer + 1, 0, n)
    {
      hide KeyWord, Xor, XorByte, SubWord, RotWord, MakeWord, S, Byte0, Byte1, Byte2, Byte3;
      LastOfWindow(tempKey, key, rconpointer);
      AddToFirstWord(tempKey, tempKey[n - 1], RCON[rconpointer], key, rconpointer);
      if n != 8 {
        ChainWords(tempKey, 1, n, key, rconpointer);
      } else {
        ChainWords(tempKey, 1, n / 2, key, rconpointer);
        AddToMiddleWord(tempKey, key, rconpointer);
        ChainWords(tempKey, n / 2 + 1, n, key, rconpointer);
      }
    }

    /** Fills the round keys from the key, as FIPS 197 section 5.2 expands it. */
    method KeySched(keyMatrix: array2<Byte>, ghost key: Key)
      requires HasRounds() && |key| == m_uRounds - 6
      requires keyMatrix.Length0 == 8 && keyMatrix.Length1 == 4
      requires forall j :: 0 <= j < |key| ==> RowWord(keyMatrix, j) == key[j]
      modifies m_expandedKey
      ensures Filled(key, 4 * (m_uRounds + 1))
      ensures Keys() == ExpandKey(key)
    {
      hide KeyWord;
      var n := m_uRounds - 6;
      var tempKey := CopyKey(keyMatrix, n);
      FirstWindow(tempKey, key);
      ghost var base := 0;
      var r, t := CopyWindow(tempKey, n, 0, 0, key, base);
      var rconpointer := 0;
      while r <= m_uRounds
        invariant t < 4 && r <= m_uRounds + 1
        invariant base == n * rconpointer
        invariant r <= m_uRounds ==> 4 * r + t == base + n
        invariant Window(tempKey, key, rconpointer, 0, n)
        invariant Filled(key, 4 * r + t)
        decreases m_uRounds + 1 - r
      {
        RconInRange(n, rconpointer, base);
        NextKeyWindow(tempKey, n, rconpointer, key);
        rconpointer, base := rconpointer + 1, base + n;
        WindowFrom(tempKey, key, rconpointer, base);
        r, t := CopyWindow(tempKey, n, r, t, key, base);
      }
    }

    /** Rewrites round keys 1 to Nr - 1 for the equivalent inverse cipher. */
    method KeyEncToDec()
      requires HasRounds()
      modifies m_expandedKey
      ensures Keys() == InverseSchedule(old(Keys()))
    {
      hide InvMixColumns;
      ghost var ks := Keys();
      var r := 1;
      while r < m_uRounds
        invariant 1 <= r <= m_uRounds
        invariant forall q :: 0 <= q <= m_uRounds ==>
          RoundKeyAt(q) == if 1 <= q < r then InvMixColumns(ks[q]) else ks[q]
      {
        RewriteRoundKey(r);
        r := r + 1;
      }
      assert Keys() == InverseSchedule(ks);
    }

    /** The inner loop of keyEncToDec, over the columns of one round key. */
    method RewriteRoundKey(r: nat)
      requires HasRounds() && r <= m_uRounds
      modifies m_expandedKey
      ensures RoundKeyAt(r) == InvMixColumns(old(RoundKeyAt(r)))
      ensures forall q :: 0 <= q <= m_uRounds && q != r ==> RoundKeyAt(q) == old(RoundKeyAt(q))
    {
      hide InvMixColumn, Xor4, U1, U2, U3, U4, Byte0, Byte1, Byte2, Byte3;
      ghost var k := RoundKeyAt(r);
      var t := 0;
      while t < 4
        invariant t <= 4
        invariant forall q :: 0 <= q <= m_uRounds && q != r ==> RoundKeyAt(q) == old(RoundKeyAt(q))
        invariant m_expandedKey[r, 0] == if t > 0 then InvMixColumn(k.c0) else k.c0
        invariant m_expandedKey[r, 1] == if t > 1 then InvMixColumn(k.c1) else k.c1
        invariant m_expandedKey[r, 2] == if t > 2 then InvMixColumn(k.c2) else k.c2
        invariant m_expandedKey[r, 3] == if t > 3 then InvMixColumn(k.c3) else k.c3
      {
        var w := m_expandedKey[r, t];
        KeyColumn(w);
        m_expandedKey[r, t] := Xor4(U1(Byte0(w)), U2(Byte1(w)), U3(Byte2(w)), U4(Byte3(w)));
        t := t + 1;
      }
    }

    /** The first key addition and round, which read the input block. */
    method EncryptFirstRound(a: array<Byte>, ao: nat, b: array<Byte>, bo: nat)
      requires HasRounds() && ao + 16 <= a.Length && bo + 16 <= b.Length
      modifies b
      ensures b[..] == Splice(old(b[..]), bo,
        BlockOf(MixColumns(ShiftRows(SubBytes(AddRoundKey(StateOf(old(a[ao..ao + 16])), RoundKeyAt(0)))))))
    {
      hide EncryptStep, AddRoundKey, MixColumns, ShiftRows, SubBytes, BlockOf, StateOf, Splice;
      var temp := AddRoundKey(LoadState(a, ao), RoundKeyAt(0));
      EncryptStepRefines(temp);
      StoreState(b, bo, EncryptStep(temp));
    }

    /** One table round on the block at bo; s is the state the block holds. */
    method EncryptRound(b: array<Byte>, bo: nat, r: nat, ghost was: seq<Byte>, ghost s: State)
      requires HasRounds() && r < m_uRounds
      requires bo + 16 <= b.Length == |was| && b[..] == Splice(was, bo, BlockOf(s))
      modifies b
      ensures b[..] == Splice(was, bo, BlockOf(MixColumns(ShiftRows(SubBytes(AddRoundKey(s, RoundKeyAt(r)))))))
    {
      hide EncryptStep, AddRoundKey, MixColumns, ShiftRows, SubBytes, BlockOf, StateOf, Splice;
      var temp := ReloadState(b, bo, was, s);
      temp := AddRoundKey(temp, RoundKeyAt(r));
      EncryptStepRefines(temp);
      ReplaceState(b, bo, EncryptStep(temp), was, s);
    }

    /** The last two rounds of key additions, around the round without MixColumns. */
    method EncryptLastRound(b: array<Byte>, bo: nat, ghost was: seq<Byte>, ghost s: State)
      requires HasRounds()
      requires bo + 16 <= b.Length == |was| && b[..] == Splice(was, bo, BlockOf(s))
      modifies b
      ensures b[..] == Splice(was, bo, BlockOf(
        AddRoundKey(ShiftRows(SubBytes(AddRoundKey(s, RoundKeyAt(m_uRounds - 1)))), RoundKeyAt(m_uRounds))))
    {
      hide EncryptStep, EncryptLastStep, AddRoundKey, MixColumns, ShiftRows, SubBytes, BlockOf, StateOf, Splice;
      var k, kLast := RoundKeyAt(m_uRounds - 1), RoundKeyAt(m_uRounds);
      var temp := ReloadState(b, bo, was, s);
      temp := AddRoundKey(temp, k);
      EncryptStepRefines(temp);
      var last := EncryptLastStep(temp);
      ReplaceState(b, bo, last, was, s);
      temp := ReloadState(b, bo, was, last);
      ReplaceState(b, bo, AddRoundKey(temp, kLast), was, last);
    }

    /** The source's encrypt: one block from a to b, which may be the same or overlap. */
    method EncryptOne(a: array<Byte>, ao: nat, b: array<Byte>, bo: nat)
      requires HasRounds()
      requires ao + 16 <= a.Length && bo + 16 <= b.Length
      modifies b
      ensures b[..] == Splice(old(b[..]), bo, Encryptor(Keys())(old(a[ao..ao + 16])))
    {
      hide AddRoundKey, MixColumns, ShiftRows, SubBytes, BlockOf, StateOf, Splice, Rounds;
      ghost var ks, was, input := Keys(), b[..], StateOf(a[ao..ao + 16]);
      RoundsStep(ks, input, 0);
      EncryptFirstRound(a, ao, b, bo);
      var r := 1;
      ghost var s := MixColumns(ShiftRows(SubBytes(Rounds(ks, input, 0))));
      while r < m_uRounds - 1
        invariant 1 <= r <= m_uRounds - 1
        invariant s == MixColumns(ShiftRows(SubBytes(Rounds(ks, input, r - 1))))
        invariant b[..] == Splice(was, bo, BlockOf(s))
      {
        RoundsStep(ks, input, r);
        EncryptRound(b, bo, r, was, s);
        s := MixColumns(ShiftRows(SubBytes(AddRoundKey(s, ks[r]))));
        r := r + 1;
      }
      RoundsStep(ks, input, r);
      EncryptLastRound(b, bo, was, s);
    }

    method DecryptFirstRound(a: array<Byte>, ao: nat, b: array<Byte>, bo: nat)
      requires HasRounds() && ao + 16 <= a.Length && bo + 16 <= b.Length
      modifies b
      ensures b[..] == Splice(old(b[..]), bo,
        BlockOf(InvMixColumns(InvShiftRows(InvSubBytes(
          AddRoundKey(StateOf(old(a[ao..ao + 16])), RoundKeyAt(m_uRounds)))))))
    {
      hide DecryptStep, AddRoundKey, InvMixColumns, InvShiftRows, InvSubBytes, BlockOf, StateOf, Splice;
      var temp := AddRoundKey(LoadState(a, ao), RoundKeyAt(m_uRounds));
      DecryptStepRefines(temp);
      StoreState(b, bo, DecryptStep(temp));
    }

    method DecryptRound(b: array<Byte>, bo: nat, r: nat, ghost was: seq<Byte>, ghost s: State)
      requires HasRounds() && r < m_uRounds
      requires bo + 16 <= b.Length == |was| && b[..] == Splice(was, bo, BlockOf(s))
      modifies b
      ensures b[..] == Splice(was, bo, BlockOf(InvMixColumns(InvShiftRows(InvSubBytes(AddRoundKey(s, RoundKeyAt(r)))))))
    {
      hide DecryptStep, AddRoundKey, InvMixColumns, InvShiftRows, InvSubBytes, BlockOf, StateOf, Splice;
      var temp := ReloadState(b, bo, was, s);
      temp := AddRoundKey(temp, RoundKeyAt(r));
      DecryptStepRefines(temp);
      ReplaceState(b, bo, DecryptStep(temp), was, s);
    }

    method DecryptLastRound(b: array<Byte>, bo: nat, ghost was: seq<Byte>, ghost s: State)
      requires HasRounds()
      requires bo + 16 <= b.Length == |was| && b[..] == Splice(was, bo, BlockOf(s))
      modifies b
      ensures b[..] == Splice(was, bo, BlockOf(
        AddRoundKey(InvShiftRows(InvSubBytes(AddRoundKey(s, RoundKeyAt(1)))), RoundKeyAt(0))))
    {
      hide DecryptStep, DecryptLastStep, AddRoundKey, InvMixColumns, InvShiftRows, InvSubBytes;
      hide BlockOf, StateOf, Splice;
      var k, kLast := RoundKeyAt(1), RoundKeyAt(0);
      var temp := ReloadState(b, bo, was, s);
      temp := AddRoundKey(temp, k);
      DecryptStepRefines(temp);
      var last := DecryptLastStep(temp);
      ReplaceState(b, bo, last, was, s);
      temp := ReloadState(b, bo, was, last);
      ReplaceState(b, bo, AddRoundKey(temp, kLast), was, last);
    }

    /** The source's decrypt. */
    method DecryptOne(a: array<Byte>, ao: nat, b: array<Byte>, bo: nat)
      requires HasRounds()
      requires ao + 16 <= a.Length && bo + 16 <= b.Length
      modifies b
      ensures b[..] == Splice(old(b[..]), bo, Decryptor(Keys())(old(a[ao..ao + 16])))
    {
      hide AddRoundKey, InvMixColumns, InvShiftRows, InvSubBytes, BlockOf, StateOf, Splice, EqInvRounds;
      ghost var dks, was, input := Keys(), b[..], StateOf(a[ao..ao + 16]);
      EqInvRoundsStep(dks, input, m_uRounds);
      DecryptFirstRound(a, ao, b, bo);
      var r := m_uRounds - 1;
      ghost var s := InvMixColumns(InvShiftRows(InvSubBytes(EqInvRounds(dks, input, m_uRounds))));
      while r > 1
        invariant 1 <= r <= m_uRounds - 1
        invariant s == InvMixColumns(InvShiftRows(InvSubBytes(EqInvRounds(dks, input, r + 1))))
        invariant b[..] == Splice(was, bo, BlockOf(s))
      {
        EqInvRoundsStep(dks, input, r);
        DecryptRound(b, bo, r, was, s);
        s := InvMixColumns(InvShiftRows(InvSubBytes(AddRoundKey(s, dks[r]))));
        r := r - 1;
      }
      EqInvRoundsStep(dks, input, 1);
      DecryptLastRound(b, bo, was, s);
    }

    /** Starts a session. The object is valid afterwards exactly when the arguments are all supported. */
    method Init(mode: Mode, dir: Direction, key: array?<Byte>, keyLen: KeyLength, initVector: array?<Byte>)
      returns (r: int)
      requires Shape()
      requires key != null && keyLen != OtherLength ==> key.Length >= KeyBytes(keyLen)
      requires initVector != null ==> initVector.Length >= 16
      requires key != m_initVector
      modifies this, m_initVector, m_expandedKey
      ensures Consistent()
      ensures r == if mode == OtherMode then UNSUPPORTED_MODE
                   else if dir == OtherDirection then UNSUPPORTED_DIRECTION
                   else if keyLen == OtherLength then UNSUPPORTED_KEY_LENGTH
                   else if key == null then BAD_KEY
                   else SUCCESS
      ensures m_state == Valid <==> r == SUCCESS
      ensures r == SUCCESS ==>
        && m_mode == mode && m_direction == dir
        && InitVector() == (if initVector == null then ZeroBlock() else old(initVector[..16]))
        && var ks := ExpandKey(KeyOfBytes(old(key[..KeyBytes(keyLen)])));
           Keys() == if dir == Decrypt then InverseSchedule(ks) else ks
      ensures r == SUCCESS ==> forall j :: 0 <= j < 16 ==>
        m_initVector[j] == if initVector == null then 0 else old(initVector[j])
      ensures r == SUCCESS && dir == Encrypt ==>
        var n := match keyLen case Key16Bytes => 16 case Key24Bytes => 24 case _ => 32;
        KeyInPlace(old(key[..n]))
    {
      m_state := Invalid;
      if mode == OtherMode {
        return UNSUPPORTED_MODE;
      }
      m_mode := mode;
      if dir == OtherDirection {
        return UNSUPPORTED_DIRECTION;
      }
      m_direction := dir;
      SetInitVector(initVector);
      match keyLen {
        case Key16Bytes => m_uRounds := 10;
        case Key24Bytes => m_uRounds := 12;
        case Key32Bytes => m_uRounds := 14;
        case OtherLength => return UNSUPPORTED_KEY_LENGTH;
      }
      if key == null {
        return BAD_KEY;
      }
      SetKey(key, KeyBytes(keyLen));
      m_state := Valid;
      return SUCCESS;
    }

    /** The end of init: the round keys for the direction of the object. */
    method SetKey(key: array<Byte>, n: nat)
      requires HasRounds() && m_uRounds == n / 4 + 6 && (n == 16 || n == 24 || n == 32) && n <= key.Length
      modifies m_expandedKey
      ensures var ks := ExpandKey(KeyOfBytes(key[..n]));
        Keys() == if m_direction == Decrypt then InverseSchedule(ks) else ks
      ensures m_direction != Decrypt ==> KeyInPlace(key[..n])
    {
      hide WordAt, ExpandKey, InverseSchedule;
      var keyMatrix := KeyMatrix(key, n);
      KeySched(keyMatrix, KeyOfBytes(key[..n]));
      if m_direction == Decrypt {
        KeyEncToDec();
      } else {
        KeyIsInPlace(key[..n]);
      }
    }

    /** The bytes of the key, and of its expansion, stand in the round keys, in their order. */
    ghost predicate KeyInPlace(key: CipherKey)
      requires Shape()
      reads this, m_expandedKey
    {
      && m_uRounds == |key| / 4 + 6
      && (forall i :: 0 <= i < |key| ==> ByteAt(m_expandedKey[i / 16, i / 4 % 4], i % 4) == key[i])
      && forall w, j :: 0 <= w < |key| + 28 && 0 <= j < 4 ==>
           ByteAt(m_expandedKey[w / 4, w % 4], j) == KeyByte(key, w, j)
    }

    lemma KeyIsInPlace(key: CipherKey)
      requires HasRounds() && Keys() == ExpandKey(KeyOfBytes(key))
      ensures KeyInPlace(key)
    {
      hide ByteAt, KeyByte, ExpandKey, KeyOfBytes, Column;
      KeyHeld(key, 0, 0);
      forall w, j | 0 <= w < |key| + 28 && 0 <= j < 4
        ensures ByteAt(m_expandedKey[w / 4, w % 4], j) == KeyByte(key, w, j)
        ensures w < |key| / 4 ==> KeyByte(key, w, j) == key[4 * w + j]
      {
        KeyHeld(key, w, j);
        HeldColumn(w / 4, w % 4);
      }
      forall i | 0 <= i < |key| ensures ByteAt(m_expandedKey[i / 16, i / 4 % 4], i % 4) == key[i] {
        Quarters(i);
        assert ByteAt(m_expandedKey[i / 4 / 4, i / 4 % 4], i % 4) == KeyByte(key, i / 4, i % 4);
      }
    }

    lemma HeldColumn(r: nat, t: nat)
      requires HasRounds() && r <= m_uRounds && t < 4
      ensures Column(Keys()[r], t) == m_expandedKey[r, t]
    {
    }

    method SetInitVector(initVector: array?<Byte>)
      requires Shape()
      requires initVector != null ==> initVector.Length >= 16
      modifies m_initVector
      ensures m_initVector[..] == if initVector == null then ZeroBlock() else old(initVector[..16])
    {
      var i := 0;
      while i < 16
        invariant i <= 16
        invariant forall j :: 0 <= j < i ==> m_initVector[j] == if initVector == null then 0 else old(initVector[j])
        invariant initVector != null ==> forall j :: i <= j < 16 ==> initVector[j] == old(initVector[j])
      {
        m_initVector[i] := if initVector == null then 0 else initVector[i];
        i := i + 1;
      }
    }

    /** The ECB loop shared by blockEncrypt and padEncrypt. */
    method EcbEncryptBlocks(input: array<Byte>, outBuffer: array<Byte>, numBlocks: nat)
      requires HasRounds()
      requires 16 * numBlocks <= input.Length && 16 * numBlocks <= outBuffer.Length
      modifies outBuffer
      ensures outBuffer[..] == Splice(old(outBuffer[..]), 0,
        Ecb(Encryptor(Keys()), FirstBlocks(old(input[..]), numBlocks)))
      ensures input[16 * numBlocks..] == old(input[16 * numBlocks..])
    {
      hide Encryptor, Splice, Ecb;
      ghost var e, m, was := Encryptor(Keys()), input[..], outBuffer[..];
      var p, i := 0, numBlocks;
      SpliceNothing(was);
      EcbNothing(e);
      while i > 0
        invariant 0 <= i <= numBlocks && p == 16 * (numBlocks - i)
        invariant Encryptor(Keys()) == e
        invariant outBuffer[..] == Splice(was, 0, Ecb(e, m[..p]))
        invariant input[p..] == m[p..]
      {
        SameTail(input[..], m, p);
        EncryptOne(input, p, outBuffer, p);
        EcbStep(e, was, m, p);
        SpliceTail(was, Ecb(e, m[..p + 16]));
        p, i := p + 16, i - 1;
      }
    }

    /** The body of the CBC encryption loops: XOR with the block at (iv, o), encrypt, write at p. */
    method CbcEncryptBlock(input: array<Byte>, ip: nat, iv: array<Byte>, o: nat, outBuffer: array<Byte>, p: nat)
      requires HasRounds()
      requires ip + 16 <= input.Length && o + 16 <= iv.Length && p + 16 <= outBuffer.Length
      modifies outBuffer
      ensures outBuffer[..] == Splice(old(outBuffer[..]), p,
        Encryptor(Keys())(XorBlocks(old(input[ip..ip + 16]), old(iv[o..o + 16]))))
    {
      hide Encryptor, Splice, XorBlocks;
      var block := new Byte[16];
      XorInto(block, input, ip, iv, o);
      WholeBlock(block[..]);
      EncryptOne(block, 0, outBuffer, p);
    }

    /** The body of the CBC decryption loops, up to the copy of the block to the output. */
    method CbcDecryptBlock(input: array<Byte>, p: nat, iv: array<Byte>, block: array<Byte>)
      requires HasRounds() && p + 16 <= input.Length && iv.Length == 16 && block.Length == 16
      requires iv != block && input != block
      modifies block
      ensures block[..] == XorBlocks(Decryptor(Keys())(input[p..p + 16]), iv[..])
    {
      hide Decryptor, XorBlocks, Splice;
      DecryptOne(input, p, block, 0);
      SpliceWhole(old(block[..]), Decryptor(Keys())(input[p..p + 16]));
      WholeBlock(block[..]);
      WholeBlock(iv[..]);
      XorInto(block, block, 0, iv, 0);
    }

    /** The loop of blockEncrypt in CBC mode, which writes its first block even when numBlocks is 0. */
    method CbcEncryptBlocks(input: array<Byte>, outBuffer: array<Byte>, numBlocks: nat)
      requires HasRounds() && outBuffer != m_initVector
      requires 16 <= input.Length && 16 <= outBuffer.Length
      requires 16 * numBlocks <= input.Length && 16 * numBlocks <= outBuffer.Length
      modifies outBuffer
      ensures outBuffer[..] == Splice(old(outBuffer[..]), 0,
        CbcEncrypt(Encryptor(Keys()), InitVector(), FirstBlocks(old(input[..]), AtLeastOne(numBlocks))))
    {
      hide Encryptor, Splice, CbcEncrypt, XorBlocks;
      ghost var e, iv, m, was := Encryptor(Keys()), InitVector(), input[..], outBuffer[..];
      WholeBlock(iv);
      CbcEncryptOne(e, iv, m[..16]);
      CbcEncryptBlock(input, 0, m_initVector, 0, outBuffer, 0);
      SpliceTail(was, CbcEncrypt(e, iv, m[..16]));
      var p, op, i := 16, 0, numBlocks - 1;
      while i > 0
        invariant p == op + 16 && (if numBlocks == 0 then i == -1 && p == 16 else 0 <= i && p == 16 * (numBlocks - i))
        invariant Encryptor(Keys()) == e && p <= |m|
        invariant p % 16 == 0
        invariant outBuffer[..] == Splice(was, 0, CbcEncrypt(e, iv, m[..p]))
        invariant Chain(iv, CbcEncrypt(e, iv, m[..p])) == outBuffer[op..op + 16]
        invariant input[p..] == m[p..]
      {
        SameTail(input[..], m, p);
        CbcEncryptStep(e, iv, was, m, p);
        CbcEncryptBlock(input, p, outBuffer, op, outBuffer, p);
        SpliceTail(was, CbcEncrypt(e, iv, m[..p + 16]));
        p, op, i := p + 16, op + 16, i - 1;
      }
    }

    /** The CBC loop of padEncrypt over the whole blocks; the block to chain to ends up at (iv, o). */
    method CbcChainBlocks(input: array<Byte>, outBuffer: array<Byte>, numBlocks: nat)
      returns (iv: array<Byte>, o: nat)
      requires HasRounds() && outBuffer != m_initVector
      requires 16 * numBlocks <= input.Length && 16 * numBlocks <= outBuffer.Length
      modifies outBuffer
      ensures var c := CbcEncrypt(Encryptor(Keys()), InitVector(), FirstBlocks(old(input[..]), numBlocks));
        && outBuffer[..] == Splice(old(outBuffer[..]), 0, c)
        && (iv == m_initVector || iv == outBuffer) && o + 16 <= iv.Length
        && iv[o..o + 16] == Chain(InitVector(), c)
      ensures input[16 * numBlocks..] == old(input[16 * numBlocks..])
    {
      hide Encryptor, Splice, CbcEncrypt, XorBlocks;
      ghost var e, iv0, m, was := Encryptor(Keys()), InitVector(), input[..], outBuffer[..];
      iv, o := m_initVector, 0;
      WholeBlock(iv0);
      SpliceNothing(was);
      CbcNothing(e, e, iv0);
      var p, i := 0, numBlocks;
      while i > 0
        invariant 0 <= i <= numBlocks && p == 16 * (numBlocks - i)
        invariant Encryptor(Keys()) == e && m_initVector[..] == iv0
        invariant outBuffer[..] == Splice(was, 0, CbcEncrypt(e, iv0, m[..p]))
        invariant iv == m_initVector || iv == outBuffer
        invariant o + 16 <= iv.Length && iv[o..o + 16] == Chain(iv0, CbcEncrypt(e, iv0, m[..p]))
        invariant input[p..] == m[p..]
      {
        SameTail(input[..], m, p);
        CbcEncryptStep(e, iv0, was, m, p);
        CbcEncryptBlock(input, p, iv, o, outBuffer, p);
        SpliceTail(was, CbcEncrypt(e, iv0, m[..p + 16]));
        iv, o := outBuffer, p;
        p, i := p + 16, i - 1;
      }
    }

    /** The ECB loop of blockDecrypt and padDecrypt. */
    method EcbDecryptBlocks(input: array<Byte>, outBuffer: array<Byte>, numBlocks: nat)
      requires HasRounds()
      requires 16 * numBlocks <= input.Length && 16 * numBlocks <= outBuffer.Length
      modifies outBuffer
      ensures outBuffer[..] == Splice(old(outBuffer[..]), 0,
        Ecb(Decryptor(Keys()), FirstBlocks(old(input[..]), numBlocks)))
      ensures input[16 * numBlocks..] == old(input[16 * numBlocks..])
    {
      hide Decryptor, Splice, Ecb;
      ghost var d, m, was := Decryptor(Keys()), input[..], outBuffer[..];
      var p, i := 0, numBlocks;
      SpliceNothing(was);
      EcbNothing(d);
      while i > 0
        invariant 0 <= i <= numBlocks && p == 16 * (numBlocks - i)
        invariant Decryptor(Keys()) == d
        invariant outBuffer[..] == Splice(was, 0, Ecb(d, m[..p]))
        invariant input[p..] == m[p..]
      {
        SameTail(input[..], m, p);
        DecryptOne(input, p, outBuffer, p);
        EcbStep(d, was, m, p);
        SpliceTail(was, Ecb(d, m[..p + 16]));
        p, i := p + 16, i - 1;
      }
    }

    /** The CBC loop of blockDecrypt and padDecrypt; iv is the last ciphertext block. */
    method CbcDecryptBlocks(input: array<Byte>, outBuffer: array<Byte>, numBlocks: nat) returns (iv: array<Byte>)
      requires HasRounds() && outBuffer != m_initVector
      requires 16 * numBlocks <= input.Length && 16 * numBlocks <= outBuffer.Length
      modifies outBuffer
      ensures var c := FirstBlocks(old(input[..]), numBlocks);
        && outBuffer[..] == Splice(old(outBuffer[..]), 0, CbcDecrypt(Decryptor(Keys()), InitVector(), c))
        && fresh(iv) && iv[..] == Chain(InitVector(), c)
      ensures input[16 * numBlocks..] == old(input[16 * numBlocks..])
    {
      hide Decryptor, Splice, CbcDecrypt, XorBlocks;
      ghost var d, iv0, c, was := Decryptor(Keys()), InitVector(), input[..], outBuffer[..];
      var block := new Byte[16];
      iv := new Byte[16];
      CopyBlock(iv, 0, m_initVector, 0);
      WholeBlock(iv0);
      SpliceNothing(was);
      CbcNothing(d, d, iv0);
      var p, i := 0, numBlocks;
      while i > 0
        invariant 0 <= i <= numBlocks && p == 16 * (numBlocks - i)
        invariant Decryptor(Keys()) == d
        invariant outBuffer[..] == Splice(was, 0, CbcDecrypt(d, iv0, c[..p]))
        invariant iv[..] == Chain(iv0, c[..p])
        invariant input[p..] == c[p..]
      {
        SameTail(input[..], c, p);
        CbcDecryptStep(d, iv0, was, c, p);
        CbcDecryptBlock(input, p, iv, block);
        CopyBlock(iv, 0, input, p);
        WholeBlock(block[..]);
        CopyBlock(outBuffer, p, block, 0);
        SpliceTail(was, CbcDecrypt(d, iv0, c[..p + 16]));
        p, i := p + 16, i - 1;
      }
    }

    /** One step of the 1-bit CFB loops up to the output: the first byte of the encrypted register. */
    method CfbKeyByte(iv: array<Byte>, block: array<Byte>) returns (b: Byte)
      requires HasRounds() && iv.Length == 16 && block.Length == 16 && iv != block
      modifies block
      ensures b == Encryptor(Keys())(iv[..])[0]
    {
      hide Encryptor;
      CopyBlock(block, 0, iv, 0);
      WholeBlock(iv[..]);
      WholeBlock(block[..]);
      EncryptOne(block, 0, block, 0);
      b := block[0];
    }

    /** The inner loop of blockEncrypt in CFB1 mode: 128 bits of outBuffer, encrypted where they stand. */
    method CfbEncryptBits(iv: array<Byte>, outBuffer: array<Byte>)
      requires HasRounds() && iv.Length == 16 && iv != outBuffer && 16 <= outBuffer.Length
      modifies iv, outBuffer
      ensures var c := CfbEncrypt(Encryptor(Keys()), old(iv[..]), Bits(old(outBuffer[..16])));
        && Bits(outBuffer[..16]) == c && iv[..] == Register(old(iv[..]), c)
      ensures outBuffer[16..] == old(outBuffer[16..])
    {
      hide Encryptor, Bits, CfbEncrypt, Register, ShiftIn, ByteBit;
      ghost var e, reg, p := Encryptor(Keys()), iv[..], Bits(outBuffer[..16]);
      var block := new Byte[16];
      var k := 0;
      CfbNothing(e, reg);
      TakeAll(p);
      while k < 128
        invariant k <= 128
        invariant Encryptor(Keys()) == e
        invariant Bits(outBuffer[..16]) == CfbEncrypt(e, reg, p[..k]) + p[k..]
        invariant iv[..] == Register(reg, CfbEncrypt(e, reg, p[..k]))
        invariant outBuffer[16..] == old(outBuffer[16..])
      {
        CfbEncryptStep(e, reg, p, k);
        ReplaceBit(CfbEncrypt(e, reg, p[..k]), p, k, p[k] != KeyBit(e, iv[..]));
        var b := CfbKeyByte(iv, block);
        FlipOutputBit(outBuffer, k, b);
        var bit := InputBit(outBuffer, k);
        ShiftRegister(iv, bit);
        k := k + 1;
      }
      TakeAll(p);
    }

    /**
      * The inner loop of blockDecrypt in CFB1 mode: the key stream for the input bits is XORed into outBuffer, which
      * may be the input itself.
      */
    method CfbDecryptBits(input: array<Byte>, iv: array<Byte>, outBuffer: array<Byte>)
      requires HasRounds() && iv.Length == 16 && iv != outBuffer && iv != input
      requires 16 <= input.Length && 16 <= outBuffer.Length
      modifies iv, outBuffer
      ensures var c := Bits(old(input[..16]));
        && Bits(outBuffer[..16]) == XorBits(Bits(old(outBuffer[..16])), KeyStream(Encryptor(Keys()), old(iv[..]), c))
        && iv[..] == Register(old(iv[..]), c)
      ensures outBuffer[16..] == old(outBuffer[16..])
    {
      hide Encryptor, Bits, Register, ShiftIn, ByteBit;
      ghost var e, reg, c, o := Encryptor(Keys()), iv[..], Bits(input[..16]), Bits(outBuffer[..16]);
      ghost var p := XorBits(o, KeyStream(e, reg, c));
      var block := new Byte[16];
      var k := 0;
      CfbNothing(e, reg);
      TakeAll(o);
      TakeAll(c);
      while k < 128
        invariant k <= 128
        invariant Encryptor(Keys()) == e
        invariant Bits(outBuffer[..16]) == p[..k] + o[k..]
        invariant Bits(input[..16]) == if input == outBuffer then p[..k] + c[k..] else c
        invariant iv[..] == Register(reg, c[..k])
        invariant outBuffer[16..] == old(outBuffer[16..])
      {
        RegisterStep(reg, c, k);
        ReplaceBit(p[..k], o, k, p[k]);
        var bit := InputBit(input, k);
        var b := CfbKeyByte(iv, block);
        ShiftRegister(iv, bit);
        FlipOutputBit(outBuffer, k, b);
        TakeOneMore(p, k);
        k := k + 1;
      }
      TakeAll(p);
      TakeAll(c);
    }

    /** Encrypts whole blocks; the length is in bits. */
    method BlockEncrypt(input: array?<Byte>, inputLen: int, outBuffer: array<Byte>) returns (r: int)
      requires Consistent() && outBuffer != m_initVector
      requires m_state == Valid && m_direction == Encrypt && input != null && inputLen > 0 ==>
        match m_mode
        case ECB => 16 * (inputLen / 128) <= input.Length && 16 * (inputLen / 128) <= outBuffer.Length
        case CBC =>
          16 * AtLeastOne(inputLen / 128) <= input.Length && 16 * AtLeastOne(inputLen / 128) <= outBuffer.Length
        case CFB1 => inputLen >= 128 ==> 16 <= outBuffer.Length
        case OtherMode => true
      modifies outBuffer
      ensures r == if m_state != Valid then NOT_INITIALIZED
                   else if m_direction != Encrypt then BAD_DIRECTION
                   else if input == null || inputLen <= 0 then 0
                   else 128 * (inputLen / 128)
      ensures m_state == Valid && m_direction == Encrypt && input != null && inputLen > 0 ==>
        var e, n, was := Encryptor(Keys()), inputLen / 128, old(outBuffer[..]);
        match m_mode
        case ECB => outBuffer[..] == Splice(was, 0, Ecb(e, FirstBlocks(old(input[..]), n)))
        case CBC =>
          outBuffer[..] == Splice(was, 0, CbcEncrypt(e, InitVector(), FirstBlocks(old(input[..]), AtLeastOne(n))))
        case CFB1 => CfbEncrypted(e, InitVector(), was, outBuffer[..], n)
        case OtherMode => true
      ensures r < 0 || input == null || inputLen <= 0 ==> outBuffer[..] == old(outBuffer[..])
    {
      if m_state != Valid {
        return NOT_INITIALIZED;
      }
      if m_direction != Encrypt {
        return BAD_DIRECTION;
      }
      if input == null || inputLen <= 0 {
        return 0;
      }
      hide Encryptor, Splice, Ecb, CbcEncrypt, Bits;
      var numBlocks := inputLen / 128;
      match m_mode {
        case ECB => EcbEncryptBlocks(input, outBuffer, numBlocks);
        case CBC => CbcEncryptBlocks(input, outBuffer, numBlocks);
        case CFB1 => CfbEncryptPassesOver(outBuffer, numBlocks);
        case OtherMode =>
      }
      return 128 * numBlocks;
    }

    /** The outer loop of blockEncrypt in CFB1 mode. */
    method CfbEncryptPassesOver(outBuffer: array<Byte>, numBlocks: nat)
      requires HasRounds() && outBuffer != m_initVector
      requires numBlocks > 0 ==> 16 <= outBuffer.Length
      modifies outBuffer
      ensures CfbEncrypted(Encryptor(Keys()), InitVector(), old(outBuffer[..]), outBuffer[..], numBlocks)
    {
      hide Encryptor, Bits, CfbEncrypt, Register;
      ghost var e, iv0, was := Encryptor(Keys()), InitVector(), outBuffer[..];
      var iv := new Byte[16];
      CopyBlock(iv, 0, m_initVector, 0);
      WholeBlock(iv0);
      var i := numBlocks;
      while i > 0
        invariant 0 <= i <= numBlocks && |was| == outBuffer.Length
        invariant Encryptor(Keys()) == e
        invariant i == numBlocks ==> outBuffer[..] == was
        invariant numBlocks > 0 ==>
          && CfbEncryptPasses(e, iv[..], Bits(outBuffer[..16]), i)
             == CfbEncryptPasses(e, iv0, Bits(was[..16]), numBlocks)
          && outBuffer[16..] == was[16..]
      {
        CfbEncryptBits(iv, outBuffer);
        i := i - 1;
      }
    }

    /** The outer loop of blockDecrypt in CFB1 mode. */
    method CfbDecryptPassesOver(input: array<Byte>, outBuffer: array<Byte>, numBlocks: nat)
      requires HasRounds() && outBuffer != m_initVector
      requires numBlocks > 0 ==> 16 <= input.Length && 16 <= outBuffer.Length
      modifies outBuffer
      ensures CfbDecrypted(Encryptor(Keys()), InitVector(), old(input[..]), old(outBuffer[..]), outBuffer[..],
                           numBlocks, input == outBuffer)
    {
      hide Encryptor, Bits, KeyStream, XorBits, Register;
      ghost var e, iv0, was, c := Encryptor(Keys()), InitVector(), outBuffer[..], input[..];
      var iv := new Byte[16];
      CopyBlock(iv, 0, m_initVector, 0);
      WholeBlock(iv0);
      var i := numBlocks;
      while i > 0
        invariant 0 <= i <= numBlocks && |was| == outBuffer.Length
        invariant Encryptor(Keys()) == e
        invariant i == numBlocks || input != outBuffer ==> input[..] == c
        invariant i == numBlocks ==> outBuffer[..] == was
        invariant numBlocks > 0 ==>
          && CfbDecryptPasses(e, iv[..], Bits(input[..16]), Bits(outBuffer[..16]), i, input == outBuffer)
             == CfbDecryptPasses(e, iv0, Bits(c[..16]), Bits(was[..16]), numBlocks, input == outBuffer)
          && outBuffer[16..] == was[16..]
      {
        CfbDecryptBits(input, iv, outBuffer);
        i := i - 1;
      }
    }

    /** Decrypts whole blocks; the length is in bits. In CFB1 mode the direction is not checked and encrypt is used. */
    method BlockDecrypt(input: array?<Byte>, inputLen: int, outBuffer: array<Byte>) returns (r: int)
      requires Consistent() && outBuffer != m_initVector
      requires m_state == Valid && (m_mode == CFB1 || m_direction == Decrypt) && input != null && inputLen > 0 ==>
        if m_mode == CFB1 then inputLen >= 128 ==> 16 <= input.Length && 16 <= outBuffer.Length
        else 16 * (inputLen / 128) <= input.Length && 16 * (inputLen / 128) <= outBuffer.Length
      modifies outBuffer
      ensures r == if m_state != Valid then NOT_INITIALIZED
                   else if m_mode != CFB1 && m_direction == Encrypt then BAD_DIRECTION
                   else if input == null || inputLen <= 0 then 0
                   else 128 * (inputLen / 128)
      ensures m_state == Valid && (m_mode == CFB1 || m_direction == Decrypt) && input != null && inputLen > 0 ==>
        var d, n, was, c := Decryptor(Keys()), inputLen / 128, old(outBuffer[..]), old(input[..]);
        match m_mode
        case ECB => outBuffer[..] == Splice(was, 0, Ecb(d, FirstBlocks(c, n)))
        case CBC => outBuffer[..] == Splice(was, 0, CbcDecrypt(d, InitVector(), FirstBlocks(c, n)))
        case CFB1 => CfbDecrypted(Encryptor(Keys()), InitVector(), c, was, outBuffer[..], n, input == outBuffer)
        case OtherMode => true
      ensures r < 0 || input == null || inputLen <= 0 ==> outBuffer[..] == old(outBuffer[..])
    {
      if m_state != Valid {
        return NOT_INITIALIZED;
      }
      if m_mode != CFB1 && m_direction == Encrypt {
        return BAD_DIRECTION;
      }
      if input == null || inputLen <= 0 {
        return 0;
      }
      hide Encryptor, Decryptor, Splice, Ecb, CbcDecrypt, CfbDecrypted;
      var numBlocks := inputLen / 128;
      match m_mode {
        case ECB => EcbDecryptBlocks(input, outBuffer, numBlocks);
        case CBC => var iv := CbcDecryptBlocks(input, outBuffer, numBlocks);
        case CFB1 => CfbDecryptPassesOver(input, outBuffer, numBlocks);
        case OtherMode =>
      }
      return 128 * numBlocks;
    }

    method PadEncryptEcb(input: array<Byte>, n: nat, outBuffer: array<Byte>)
      requires HasRounds() && outBuffer != m_initVector
      requires n <= input.Length && 16 * (n / 16 + 1) <= outBuffer.Length
      modifies outBuffer
      ensures outBuffer[..] == Splice(old(outBuffer[..]), 0,
        PadEncrypted(ECB, Encryptor(Keys()), InitVector(), old(input[..n])))
    {
      hide Encryptor, Splice, Ecb, Pad;
      ghost var e, was, m, all := Encryptor(Keys()), outBuffer[..], input[..n], input[..];
      var numBlocks := n / 16;
      var p := 16 * numBlocks;
      PadParts(all, n);
      EcbEncryptBlocks(input, outBuffer, numBlocks);
      SameRest(input[..], all, p, n);
      var block := PaddedBlock(input, p, 16 - (n - p));
      WholeBlock(block[..]);
      EncryptOne(block, 0, outBuffer, p);
      EcbStep(e, was, Pad(m), p);
    }

    method PadEncryptCbc(input: array<Byte>, n: nat, outBuffer: array<Byte>)
      requires HasRounds() && outBuffer != m_initVector
      requires n <= input.Length && 16 * (n / 16 + 1) <= outBuffer.Length
      modifies outBuffer
      ensures outBuffer[..] == Splice(old(outBuffer[..]), 0,
        PadEncrypted(CBC, Encryptor(Keys()), InitVector(), old(input[..n])))
    {
      hide Encryptor, Splice, CbcEncrypt, XorBlocks, Pad;
      ghost var e, iv0, was, m, all := Encryptor(Keys()), InitVector(), outBuffer[..], input[..n], input[..];
      var numBlocks := n / 16;
      var p := 16 * numBlocks;
      PadParts(all, n);
      var iv, o := CbcChainBlocks(input, outBuffer, numBlocks);
      SameRest(input[..], all, p, n);
      var padded := PaddedBlock(input, p, 16 - (n - p));
      WholeBlock(padded[..]);
      CbcEncryptStep(e, iv0, was, Pad(m), p);
      CbcEncryptBlock(padded, 0, iv, o, outBuffer, p);
    }

    /** Encrypts any number of bytes, padded to whole blocks; the length is in bytes. */
    method PadEncrypt(input: array?<Byte>, inputOctets: int, outBuffer: array<Byte>) returns (r: int)
      requires Consistent() && outBuffer != m_initVector
      requires m_state == Valid && m_direction == Encrypt && m_mode != CFB1 && input != null && inputOctets > 0 ==>
        inputOctets <= input.Length && 16 * (inputOctets / 16 + 1) <= outBuffer.Length
      modifies outBuffer
      ensures r == if m_state != Valid || m_direction != Encrypt then NOT_INITIALIZED
                   else if input == null || inputOctets <= 0 then 0
                   else if m_mode == CFB1 then -1
                   else 16 * (inputOctets / 16 + 1)
      ensures r > 0 ==>
        outBuffer[..] == Splice(old(outBuffer[..]), 0,
          PadEncrypted(m_mode, Encryptor(Keys()), InitVector(), old(input[..inputOctets])))
      ensures r <= 0 ==> outBuffer[..] == old(outBuffer[..])
    {
      if m_state != Valid {
        return NOT_INITIALIZED;
      }
      if m_direction != Encrypt {
        return NOT_INITIALIZED;
      }
      if input == null || inputOctets <= 0 {
        return 0;
      }
      hide Encryptor, Splice, PadEncrypted;
      var numBlocks := inputOctets / 16;
      match m_mode {
        case ECB => PadEncryptEcb(input, inputOctets, outBuffer);
        case CBC => PadEncryptCbc(input, inputOctets, outBuffer);
        case _ => return -1;
      }
      return 16 * (numBlocks + 1);
    }

    /** Decrypts padded text; the length is in bytes. */
    method PadDecrypt(input: array?<Byte>, inputOctets: int, outBuffer: array<Byte>) returns (r: int)
      requires Consistent() && outBuffer != m_initVector
      requires m_state == Valid && m_direction == Decrypt && input != null && inputOctets > 0 ==>
        inputOctets <= input.Length && inputOctets <= outBuffer.Length
      modifies outBuffer
      ensures m_state != Valid ==> r == NOT_INITIALIZED
      ensures m_state == Valid && m_direction != Decrypt ==> r == BAD_DIRECTION
      ensures m_state == Valid && m_direction == Decrypt ==>
        if input == null || inputOctets <= 0 then r == 0 && outBuffer[..] == old(outBuffer[..])
        else if inputOctets % 16 != 0 then r == CORRUPTED_DATA && outBuffer[..] == old(outBuffer[..])
        else if m_mode == CFB1 then r == -1 && outBuffer[..] == old(outBuffer[..])
        else PadDecrypted(m_mode, Decryptor(Keys()), InitVector(), old(input[..inputOctets]),
                          old(outBuffer[..]), outBuffer[..], r)
      ensures m_state != Valid || m_direction != Decrypt ==> outBuffer[..] == old(outBuffer[..])
    {
      if m_state != Valid {
        return NOT_INITIALIZED;
      }
      if m_direction != Decrypt {
        return BAD_DIRECTION;
      }
      if input == null || inputOctets <= 0 {
        return 0;
      }
      if inputOctets % 16 != 0 {
        return CORRUPTED_DATA;
      }
      hide Decryptor, Splice, PadDecrypted;
      match m_mode {
        case ECB => r := PadDecryptEcb(input, inputOctets, outBuffer);
        case CBC => r := PadDecryptCbc(input, inputOctets, outBuffer);
        case _ => return -1;
      }
    }

    method PadDecryptEcb(input: array<Byte>, n: nat, outBuffer: array<Byte>) returns (r: int)
      requires HasRounds() && outBuffer != m_initVector
      requires n > 0 && n % 16 == 0 && n <= input.Length && n <= outBuffer.Length
      modifies outBuffer
      ensures PadDecrypted(ECB, Decryptor(Keys()), InitVector(), old(input[..n]), old(outBuffer[..]), outBuffer[..], r)
    {
      hide Decryptor, Splice, Ecb, UnpadEcb, Stripped;
      ghost var d, was, all, c := Decryptor(Keys()), outBuffer[..], input[..], input[..n];
      var p := 16 * (n / 16 - 1);
      LastOf(all, n);
      EcbDecryptBlocks(input, outBuffer, n / 16 - 1);
      SameTail(input[..], all, p);
      var block := new Byte[16];
      SpliceWhole(block[..], d(c[p..n]));
      DecryptOne(input, p, block, 0);
      EcbLast(d, c, p);
      r := StripPadding(ECB, block, outBuffer, p, was, Ecb(d, c[..p]));
    }

    method PadDecryptCbc(input: array<Byte>, n: nat, outBuffer: array<Byte>) returns (r: int)
      requires HasRounds() && outBuffer != m_initVector
      requires n > 0 && n % 16 == 0 && n <= input.Length && n <= outBuffer.Length
      modifies outBuffer
      ensures PadDecrypted(CBC, Decryptor(Keys()), InitVector(), old(input[..n]), old(outBuffer[..]), outBuffer[..], r)
    {
      hide Decryptor, Splice, CbcDecrypt, UnpadCbc, XorBlocks, Stripped;
      ghost var d, iv0, was, all, c := Decryptor(Keys()), InitVector(), outBuffer[..], input[..], input[..n];
      var p := 16 * (n / 16 - 1);
      LastOf(all, n);
      var iv := CbcDecryptBlocks(input, outBuffer, n / 16 - 1);
      SameTail(input[..], all, p);
      CbcDecryptStep(d, iv0, was, c, p);
      var block := new Byte[16];
      CbcDecryptBlock(input, p, iv, block);
      r := StripPadding(CBC, block, outBuffer, p, was, CbcDecrypt(d, iv0, c[..p]));
    }
  }
}
