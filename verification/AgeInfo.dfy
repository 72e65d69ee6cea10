/**
  * Records of fixed width in network buffers: strings padded with zeros to a fixed number of code units, and the
  * description of a public age, which is made of them.
  */
module AgeInfo {
  import opened LittleEndian
  import opened NetCodec
  import opened NetMsg

  /** Both sides agree on this size of an age record. */
  const STRIDE: nat := 0x9A0

  /** What fits in n code units with a terminator. */
  function Clip(us: seq<UInt16>, n: nat): seq<UInt16>
    requires n > 0
  {
    us[..if |us| > n - 1 then n - 1 else |us|]
  }

  function Padded(us: seq<UInt16>, n: nat): (r: seq<UInt16>)
    requires n > 0
    ensures |r| == n && r[n - 1] == 0
  {
    Clip(us, n) + Repeat<UInt16>(0, n - |Clip(us, n)|)
  }

  /** What NCReadUtf16 makes of n code units: the last one is overwritten, the text ends at the first NUL. */
  function Unpadded(us: seq<UInt16>): seq<UInt16>
    requires |us| > 0
  {
    UpToNul(us[|us| - 1 := 0])
  }

  /** The strings that survive a fixed field of n code units. */
  predicate Limited(us: seq<UInt16>, n: nat) { |us| < n && 0 !in us }

  lemma {:induction false} UpToNulOfPadded(us: seq<UInt16>, k: nat)
    requires k > 0
    ensures UpToNul(us + Repeat<UInt16>(0, k)) == UpToNul(us)
  {
    if us == [] || us[0] == 0 {
    } else {
      UpToNulOfPadded(us[1..], k);
      assert (us + Repeat<UInt16>(0, k))[1..] == us[1..] + Repeat<UInt16>(0, k);
    }
  }

  /** A text read back is the text cut to fit and ended at its first NUL. */
  lemma UnpaddedOfPadded(us: seq<UInt16>, n: nat)
    requires n > 0
    ensures Unpadded(Padded(us, n)) == UpToNul(Clip(us, n))
    ensures Unpadded(Padded(us, n)) == us <==> Limited(us, n)
  {
    hide UpToNul;
    var p := Padded(us, n);
    assert p[n - 1 := 0] == p;
    UpToNulOfPadded(Clip(us, n), n - |Clip(us, n)|);
    if Limited(us, n) {
      assert Clip(us, n) == us;
      UpToNulOfNulFree(us);
    }
  }

  /** Every text that is read survives the next trip. */
  lemma UnpaddedIsLimited(us: seq<UInt16>)
    requires |us| > 0
    ensures Limited(Unpadded(us), |us|)
  {
    hide UpToNul;
    var t := us[|us| - 1 := 0];
    assert t[|us| - 1] == 0;
  }

  lemma {:induction false} UnitsAppend(a: seq<UInt16>, b: seq<UInt16>)
    ensures PutUnits(a + b) == PutUnits(a) + PutUnits(b)
  {
    if b == [] {
      assert a + b == a;
    } else {
      var init, last := b[..|b| - 1], b[|b| - 1];
      UnitsAppend(a, init);
      assert a + b == (a + init) + [last];
      assert b == init + [last];
      AppendedValue(a + init, last);
      AppendedValue(init, last);
      Chain(PutUnits(a), PutUnits(init), PutInt(2, last));
    }
  }

  lemma {:induction false} UnitsOfZeros(n: nat)
    ensures PutUnits(Repeat<UInt16>(0, n)) == Repeat<Octet>(0, 2 * n)
  {
    if n == 0 {
    } else {
      UnitsOfZeros(n - 1);
      AppendedValue(Repeat<UInt16>(0, n - 1), 0);
      assert Repeat<UInt16>(0, n) == Repeat<UInt16>(0, n - 1) + [0];
      assert PutInt(1, 0) == [0] && PutInt(2, 0) == [0, 0];
      assert Repeat<Octet>(0, 2 * n) == Repeat<Octet>(0, 2 * (n - 1)) + [0, 0];
    }
  }

  /** A run of bytes written over the front of a longer run. */
  lemma Overwrite(b0: seq<Octet>, b1: seq<Octet>, b2: seq<Octet>, o: nat, run: seq<Octet>, front: seq<Octet>)
    requires o + |run| <= |b0| == |b1| == |b2| && |front| <= |run|
    requires b1[..o + |run|] == b0[..o] + run
    requires b2[..o + |front|] == b1[..o] + front && b2[o + |front|..] == b1[o + |front|..]
    ensures b2[..o + |run|] == b0[..o] + (front + run[|front|..])
  {
    var m, n := o + |front|, o + |run|;
    assert b2 == b2[..m] + b2[m..];
    assert b1[m..n] == b1[..n][m..];
    assert b1[..o] == b1[..n][..o];
  }

  function FixedText(us: seq<UInt16>, n: nat): (s: seq<Octet>)
    requires n > 0
    ensures |s| == 2 * n
  {
    PutUnits(Padded(us, n))
  }

  /** NCWriteUtf16: fills its n code units, leaves the rest of the buffer and advances past them. */
  method WriteUtf16(n: nat, buf: array<Octet>, o: nat, str: seq<UInt16>) returns (o': nat)
    requires n > 0 && o + 2 * n <= buf.Length
    modifies buf
    ensures o' == o + 2 * n
    ensures buf[..o'] == old(buf[..o]) + FixedText(str, n)
    ensures forall k :: o' <= k < buf.Length ==> buf[k] == old(buf[k])
  {
    hide PutUnits, FixedText, Repeat;
    var end := Append(buf, o, Repeat<Octet>(0, 2 * n));
    ghost var cleared := buf[..];
    var chars := if |str| > n - 1 then n - 1 else |str|;
    var mid := Append(buf, o, PutUnits(str[..chars]));
    o' := o + 2 * n;
    TextOverZeros(str, n, chars);
    Overwrite(old(buf[..]), cleared, buf[..], o, Repeat<Octet>(0, 2 * n), PutUnits(str[..chars]));
  }

  lemma TextOverZeros(us: seq<UInt16>, n: nat, chars: nat)
    requires n > 0 && chars == if |us| > n - 1 then n - 1 else |us|
    ensures |PutUnits(us[..chars])| == 2 * chars
    ensures FixedText(us, n) == PutUnits(us[..chars]) + Repeat<Octet>(0, 2 * n)[2 * chars..]
  {
    hide PutUnits;
    UnitsAppend(Clip(us, n), Repeat<UInt16>(0, n - chars));
    UnitsOfZeros(n - chars);
    assert Repeat<Octet>(0, 2 * n)[2 * chars..] == Repeat<Octet>(0, 2 * (n - chars));
  }

  /** The text in the first n code units. */
  function TextFront(n: nat, s: seq<Octet>): seq<UInt16>
    requires n > 0 && 2 * n <= |s|
  {
    Unpadded(GetUnits(s[..2 * n]))
  }

  /** NCReadUtf16: the text of the next n code units, past which it advances. */
  method ReadUtf16(n: nat, buf: array<Octet>, o: nat) returns (str: seq<UInt16>, o': nat)
    requires n > 0 && o + 2 * n <= buf.Length
    ensures str == TextFront(n, buf[o..])
    ensures o' == o + 2 * n && buf[o'..] == buf[o..][2 * n..]
  {
    hide GetUnits, UpToNul;
    var us := GetUnits(buf[o..o + 2 * n]);
    assert buf[o..][..2 * n] == buf[o..o + 2 * n];
    var u16buf := new UInt16[n](i requires 0 <= i < n => us[i]);
    assert u16buf[..] == us;
    o' := o + 2 * n;
    u16buf[n - 1] := 0;
    assert u16buf[..] == us[n - 1 := 0];
    assert u16buf[..][n - 1] == 0;
    var len := StrLen(u16buf);
    str := u16buf[..len];
  }

  type EightOctets = s: seq<Octet> | |s| == 8 witness [0, 0, 0, 0, 0, 0, 0, 0]

  datatype Uuid = Uuid(data1: UInt32, data2: UInt16, data3: UInt16, data4: EightOctets)

  datatype AgeRecord = AgeRecord(instanceId: Uuid, filename: seq<UInt16>, instanceName: seq<UInt16>,
                                 userName: seq<UInt16>, description: seq<UInt16>, sequenceNumber: UInt32,
                                 language: UInt32, population: UInt32, currPopulation: UInt32)

  function UuidBytes(u: Uuid): (s: seq<Octet>)
    ensures |s| == 16
  {
    PutInt(4, u.data1) + PutInt(2, u.data2) + PutInt(2, u.data3) + u.data4
  }

  /** The bytes of an age record, in their order. */
  function RecordBytes(r: AgeRecord): (s: seq<Octet>)
    ensures |s| == STRIDE
  {
    UuidBytes(r.instanceId) + FixedText(r.filename, 64) + FixedText(r.instanceName, 64) + FixedText(r.userName, 64)
    + FixedText(r.description, 1024) + PutInt(4, r.sequenceNumber) + PutInt(4, r.language) + PutInt(4, r.population)
    + PutInt(4, r.currPopulation)
  }

  function ShortFront(s: seq<Octet>): (n: UInt16)
    requires |s| >= 2
  {
    Short(s[..2])
  }

  function WordFront(s: seq<Octet>): UInt32
    requires |s| >= 4
  {
    Narrow(s[..4])
  }

  function UuidFront(s: seq<Octet>): Uuid
    requires |s| >= 16
  {
    Uuid(WordFront(s), ShortFront(s[4..]), ShortFront(s[6..]), s[8..16])
  }

  /** The age record at the front of a buffer. */
  function RecordFront(s: seq<Octet>): AgeRecord
    requires |s| >= STRIDE
  {
    var a := s[16..];
    var b := a[128..];
    var c := b[128..];
    var d := c[128..];
    var e := d[2048..];
    AgeRecord(UuidFront(s), TextFront(64, a), TextFront(64, b), TextFront(64, c), TextFront(1024, d),
              WordFront(e), WordFront(e[4..]), WordFront(e[4..][4..]), WordFront(e[4..][4..][4..]))
  }

  /** The record in terms of what stands behind each of its parts. */
  lemma RecordParts(s: seq<Octet>, a: seq<Octet>, b: seq<Octet>, c: seq<Octet>, d: seq<Octet>, e: seq<Octet>)
    requires |s| >= STRIDE && a == s[16..] && b == a[128..] && c == b[128..] && d == c[128..] && e == d[2048..]
    ensures RecordFront(s) ==
      AgeRecord(UuidFront(s), TextFront(64, a), TextFront(64, b), TextFront(64, c), TextFront(1024, d),
                WordFront(e), WordFront(e[4..]), WordFront(e[4..][4..]), WordFront(e[4..][4..][4..]))
  {
    hide UuidFront, TextFront, WordFront;
  }

  predicate InLimits(r: AgeRecord) {
    && Limited(r.filename, 64) && Limited(r.instanceName, 64) && Limited(r.userName, 64)
    && Limited(r.description, 1024)
  }

  /** What becomes of a text in a field of n code units. */
  function Kept(us: seq<UInt16>, n: nat): seq<UInt16>
    requires n > 0
  {
    UpToNul(Clip(us, n))
  }

  function KeptRecord(r: AgeRecord): AgeRecord {
    r.(filename := Kept(r.filename, 64), instanceName := Kept(r.instanceName, 64),
       userName := Kept(r.userName, 64), description := Kept(r.description, 1024))
  }

  lemma Front(a: seq<Octet>, b: seq<Octet>)
    ensures (a + b)[..|a|] == a && (a + b)[|a|..] == b
  {
  }

  lemma WordRoundTrip(n: UInt32, tail: seq<Octet>)
    ensures var s := PutInt(4, n) + tail;
      WordFront(s) == n && s[4..] == tail
  {
    Front(PutInt(4, n), tail);
    WidthRoundTrip(n);
  }

  lemma ShortRoundTrip(n: UInt16, tail: seq<Octet>)
    ensures var s := PutInt(2, n) + tail;
      ShortFront(s) == n && s[2..] == tail
  {
    Front(PutInt(2, n), tail);
    WidthRoundTrip(n);
  }

  lemma TextRoundTrip(us: seq<UInt16>, n: nat, tail: seq<Octet>)
    requires n > 0
    ensures var s := FixedText(us, n) + tail;
      TextFront(n, s) == Kept(us, n) && s[2 * n..] == tail && (Kept(us, n) == us <==> Limited(us, n))
  {
    Front(FixedText(us, n), tail);
    UnitsRoundTrip(Padded(us, n));
    UnpaddedOfPadded(us, n);
  }

  lemma UuidRoundTrip(u: Uuid, tail: seq<Octet>)
    ensures var s := UuidBytes(u) + tail;
      UuidFront(s) == u && s[16..] == tail
  {
    hide PutInt, WordFront, ShortFront;
    var a, b, c, d := PutInt(4, u.data1), PutInt(2, u.data2), PutInt(2, u.data3), u.data4;
    var s := UuidBytes(u) + tail;
    Front(UuidBytes(u), tail);
    assert s == a + (b + (c + (d + tail)));
    WordRoundTrip(u.data1, b + (c + (d + tail)));
    ShortRoundTrip(u.data2, c + (d + tail));
    ShortRoundTrip(u.data3, d + tail);
    assert s[6..] == s[4..][2..];
    assert s[8..16] == d;
  }

  lemma Reassociate(a: seq<Octet>, b: seq<Octet>, c: seq<Octet>, d: seq<Octet>, e: seq<Octet>, tail: seq<Octet>)
    ensures a + b + c + d + e + tail == a + (b + (c + (d + (e + tail))))
  {
    Chain(a + b + c + d, e, tail);
    Chain(a + b + c, d, e + tail);
    Chain(a + b, c, d + (e + tail));
    Chain(a, b, c + (d + (e + tail)));
  }

  /**
    * Reading undoes writing, with each text cut to its field and ended at its first NUL, and the record comes back
    * unchanged if and only if every text is free of NULs and shorter than its field.
    */
  lemma RecordRoundTrip(r: AgeRecord, tail: seq<Octet>)
    ensures RecordFront(RecordBytes(r) + tail) == KeptRecord(r)
    ensures RecordFront(RecordBytes(r) + tail) == r <==> InLimits(r)
  {
    hide UuidBytes, UuidFront, FixedText, TextFront, PutInt, WordFront, Kept, Limited;
    var p, q := PutInt(4, r.population), PutInt(4, r.currPopulation);
    var m, l := PutInt(4, r.sequenceNumber), PutInt(4, r.language);
    var numbers := m + (l + (p + (q + tail)));
    var f, i := FixedText(r.filename, 64), FixedText(r.instanceName, 64);
    var u, d := FixedText(r.userName, 64), FixedText(r.description, 1024);
    var texts := UuidBytes(r.instanceId) + f + i + u + d;
    assert RecordBytes(r) == texts + m + l + p + q;
    Reassociate(texts, m, l, p, q, tail);
    Reassociate(UuidBytes(r.instanceId), f, i, u, d, numbers);
    UuidRoundTrip(r.instanceId, f + (i + (u + (d + numbers))));
    TextRoundTrip(r.filename, 64, i + (u + (d + numbers)));
    TextRoundTrip(r.instanceName, 64, u + (d + numbers));
    TextRoundTrip(r.userName, 64, d + numbers);
    TextRoundTrip(r.description, 1024, numbers);
    WordRoundTrip(r.sequenceNumber, l + (p + (q + tail)));
    WordRoundTrip(r.language, p + (q + tail));
    WordRoundTrip(r.population, q + tail);
    WordRoundTrip(r.currPopulation, tail);
  }

  /** Every record that is read, from whatever bytes, survives being written and read again. */
  lemma ReadRecordsSurvive(s: seq<Octet>, tail: seq<Octet>)
    requires |s| >= STRIDE
    ensures InLimits(RecordFront(s))
    ensures RecordFront(RecordBytes(RecordFront(s)) + tail) == RecordFront(s)
  {
    hide Limited, Unpadded, GetUnits, UuidFront, WordFront, RecordBytes;
    var a := s[16..];
    var b := a[128..];
    var c := b[128..];
    var d := c[128..];
    UnpaddedIsLimited(GetUnits(a[..128]));
    UnpaddedIsLimited(GetUnits(b[..128]));
    UnpaddedIsLimited(GetUnits(c[..128]));
    UnpaddedIsLimited(GetUnits(d[..2048]));
    RecordRoundTrip(RecordFront(s), tail);
  }

  /** plUuid::write, at o. */
  method WriteUuid(buf: array<Octet>, o: nat, u: Uuid)
    requires o + 16 <= buf.Length
    modifies buf
    ensures buf[..o + 16] == old(buf[..o]) + UuidBytes(u)
    ensures forall k :: o + 16 <= k < buf.Length ==> buf[k] == old(buf[k])
  {
    hide PutInt;
    var e := Append(buf, o, PutInt(4, u.data1));
    e := Append(buf, o + 4, PutInt(2, u.data2));
    e := Append(buf, o + 6, PutInt(2, u.data3));
    e := Append(buf, o + 8, u.data4);
    JoinFour(old(buf[..o]), PutInt(4, u.data1), PutInt(2, u.data2), PutInt(2, u.data3), u.data4);
  }

  lemma JoinFour(s: seq<Octet>, a: seq<Octet>, b: seq<Octet>, c: seq<Octet>, d: seq<Octet>)
    ensures s + a + b + c + d == s + (a + b + c + d)
  {
    Chain(s, a, b);
    Chain(s, a + b, c);
    Chain(s, a + b + c, d);
  }

  /** NCReadBuffer of a 32-bit number. */
  method ReadWord(buf: array<Octet>, o: nat) returns (n: UInt32, o': nat)
    requires o + 4 <= buf.Length
    ensures n == WordFront(buf[o..])
    ensures o' == o + 4 && buf[o'..] == buf[o..][4..]
  {
    assert buf[o..][..4] == buf[o..o + 4];
    n := Narrow(buf[o..o + 4]);
    o' := o + 4;
  }

  /** A 16-bit number copied out of a buffer. */
  method ReadShort(buf: array<Octet>, o: nat) returns (n: UInt16)
    requires o + 2 <= buf.Length
    ensures n == ShortFront(buf[o..])
  {
    assert buf[o..][..2] == buf[o..o + 2];
    n := Short(buf[o..o + 2]);
  }

  /** plUuid::read, at o. */
  method ReadUuid(buf: array<Octet>, o: nat) returns (u: Uuid, o': nat)
    requires o + 16 <= buf.Length
    ensures u == UuidFront(buf[o..])
    ensures o' == o + 16 && buf[o'..] == buf[o..][16..]
  {
    hide WordFront, ShortFront;
    var data1, e := ReadWord(buf, o);
    var data2 := ReadShort(buf, o + 4);
    var data3 := ReadShort(buf, o + 6);
    assert buf[o..][4..] == buf[o + 4..] && buf[o..][6..] == buf[o + 6..] && buf[o..][8..16] == buf[o + 8..o + 16];
    u, o' := Uuid(data1, data2, data3, buf[o + 8..o + 16]), o + 16;
  }

  /** The description of a public age. */
  class NetAgeInfo {
    var instanceId: Uuid
    var filename: seq<UInt16>
    var instanceName: seq<UInt16>
    var userName: seq<UInt16>
    var description: seq<UInt16>
    var sequenceNumber: UInt32
    var language: UInt32
    var population: UInt32
    var currPopulation: UInt32

    constructor ()
    {
      instanceId := Uuid(0, 0, 0, [0, 0, 0, 0, 0, 0, 0, 0]);
      filename, instanceName, userName, description := [], [], [], [];
    }

    function Record(): AgeRecord
      reads this
    {
      AgeRecord(instanceId, filename, instanceName, userName, description, sequenceNumber, language, population,
                currPopulation)
    }

    /** Takes the record at o of the buffer. */
    method Read(buf: array<Octet>, o: nat)
      requires o + STRIDE <= buf.Length
      modifies this
      ensures Record() == RecordFront(buf[o..])
    {
      hide RecordFront, UuidFront, TextFront, WordFront;
      var p: nat;
      instanceId, p := ReadUuid(buf, o);
      ghost var a := buf[p..];
      filename, p := ReadUtf16(64, buf, p);
      ghost var b := buf[p..];
      instanceName, p := ReadUtf16(64, buf, p);
      ghost var c := buf[p..];
      userName, p := ReadUtf16(64, buf, p);
      ghost var d := buf[p..];
      description, p := ReadUtf16(1024, buf, p);
      RecordParts(buf[o..], a, b, c, d, buf[p..]);
      ReadNumbers(buf, p);
    }

    method ReadNumbers(buf: array<Octet>, o: nat)
      requires o + 16 <= buf.Length
      modifies this`sequenceNumber, this`language, this`population, this`currPopulation
      ensures var e := buf[o..];
        sequenceNumber == WordFront(e) && language == WordFront(e[4..]) &&
        population == WordFront(e[4..][4..]) && currPopulation == WordFront(e[4..][4..][4..])
    {
      hide WordFront;
      var p: nat;
      sequenceNumber, p := ReadWord(buf, o);
      language, p := ReadWord(buf, p);
      population, p := ReadWord(buf, p);
      currPopulation, p := ReadWord(buf, p);
    }

    /** Fills exactly STRIDE bytes from o on with the bytes of the record. */
    method Write(buf: array<Octet>, o: nat)
      requires o + STRIDE <= buf.Length
      modifies buf
      ensures buf[..o + STRIDE] == old(buf[..o]) + RecordBytes(Record())
      ensures forall k :: o + STRIDE <= k < buf.Length ==> buf[k] == old(buf[k])
    {
      hide UuidBytes, PutInt, FixedText;
      ghost var r, s := Record(), old(buf[..o]);
      WriteUuid(buf, o, instanceId);
      var p := WriteUtf16(64, buf, o + 16, filename);
      p := WriteUtf16(64, buf, p, instanceName);
      p := WriteUtf16(64, buf, p, userName);
      p := WriteUtf16(1024, buf, p, description);
      p := Append(buf, p, PutInt(4, sequenceNumber));
      p := Append(buf, p, PutInt(4, language));
      p := Append(buf, p, PutInt(4, population));
      p := Append(buf, p, PutInt(4, currPopulation));
      ghost var texts := UuidBytes(r.instanceId) + FixedText(r.filename, 64) + FixedText(r.instanceName, 64)
        + FixedText(r.userName, 64) + FixedText(r.description, 1024);
      Chain(s, UuidBytes(r.instanceId), FixedText(r.filename, 64));
      JoinFour(s, UuidBytes(r.instanceId) + FixedText(r.filename, 64), FixedText(r.instanceName, 64),
        FixedText(r.userName, 64), FixedText(r.description, 1024));
      Chain(s, texts, PutInt(4, r.sequenceNumber));
      JoinFour(s, texts + PutInt(4, r.sequenceNumber), PutInt(4, r.language), PutInt(4, r.population),
        PutInt(4, r.currPopulation));
    }
  }

  /** An id by bytes: the first part in bytes 0 to 3, the second in 4 and 5, the third in 6 and 7, then the last. */
  predicate IsUuid(b: seq<Octet>, u: Uuid) {
    && |b| == 16 && IsNumber(b[..4], u.data1) && IsNumber(b[4..6], u.data2) && IsNumber(b[6..8], u.data3)
    && b[8..] == u.data4
  }

  /** A text in a field of n code units: at most n - 1 of its units, the low byte first, and zeros. */
  predicate IsTextField(b: seq<Octet>, us: seq<UInt16>, n: nat) {
    |b| == 2 * n && forall i :: 0 <= i < n ==>
      var unit := if i < |us| && i < n - 1 then us[i] else 0;
      b[2 * i] == unit % 0x100 && b[2 * i + 1] == unit / 0x100
  }

  /** An age record by bytes. */
  predicate IsRecord(b: seq<Octet>, r: AgeRecord) {
    && |b| == 0x9A0 && IsUuid(b[..16], r.instanceId)
    && IsTextField(b[16..144], r.filename, 64) && IsTextField(b[144..272], r.instanceName, 64)
    && IsTextField(b[272..400], r.userName, 64) && IsTextField(b[400..2448], r.description, 1024)
    && IsNumber(b[2448..2452], r.sequenceNumber) && IsNumber(b[2452..2456], r.language)
    && IsNumber(b[2456..2460], r.population) && IsNumber(b[2460..2464], r.currPopulation)
  }

  lemma FixedTextBytes(us: seq<UInt16>, n: nat)
    requires n > 0
    ensures IsTextField(FixedText(us, n), us, n)
  {
    hide PutUnits;
    var p := Padded(us, n);
    UnitBytes(p);
    forall i | 0 <= i < n ensures p[i] == if i < |us| && i < n - 1 then us[i] else 0 {
    }
  }

  lemma UuidBytesAre(u: Uuid)
    ensures IsUuid(UuidBytes(u), u)
  {
    hide PutInt, IsNumber;
    NumberBytes(4, u.data1);
    NumberBytes(2, u.data2);
    NumberBytes(2, u.data3);
    var a, b, c, s := PutInt(4, u.data1), PutInt(2, u.data2), PutInt(2, u.data3), UuidBytes(u);
    assert s[..4] == a && s[4..6] == b && s[6..8] == c && s[8..] == u.data4;
  }

  /** Nine runs of bytes one behind the other, each found at its place. */
  lemma NineParts(s: seq<Octet>, a: seq<Octet>, b: seq<Octet>, c: seq<Octet>, d: seq<Octet>, e: seq<Octet>,
                  f: seq<Octet>, g: seq<Octet>, h: seq<Octet>, k: seq<Octet>)
    requires s == a + b + c + d + e + f + g + h + k
    requires |a| == 16 && |b| == |c| == |d| == 128 && |e| == 2048 && |f| == |g| == |h| == |k| == 4
    ensures |s| == 0x9A0 && s[..16] == a && s[16..144] == b && s[144..272] == c && s[272..400] == d
    ensures s[400..2448] == e && s[2448..2452] == f && s[2452..2456] == g && s[2456..2460] == h && s[2460..2464] == k
  {
  }

  /** What is written of a record. */
  lemma RecordByBytes(r: AgeRecord)
    ensures IsRecord(RecordBytes(r), r)
  {
    hide PutInt, IsNumber, UuidBytes, IsUuid, FixedText, IsTextField;
    UuidBytesAre(r.instanceId);
    FixedTextBytes(r.filename, 64);
    FixedTextBytes(r.instanceName, 64);
    FixedTextBytes(r.userName, 64);
    FixedTextBytes(r.description, 1024);
    NumberBytes(4, r.sequenceNumber);
    NumberBytes(4, r.language);
    NumberBytes(4, r.population);
    NumberBytes(4, r.currPopulation);
    NineParts(RecordBytes(r), UuidBytes(r.instanceId), FixedText(r.filename, 64), FixedText(r.instanceName, 64),
      FixedText(r.userName, 64), FixedText(r.description, 1024), PutInt(4, r.sequenceNumber), PutInt(4, r.language),
      PutInt(4, r.population), PutInt(4, r.currPopulation));
  }

  /** The id that is read off any sixteen bytes. */
  lemma UuidFrontByBytes(s: seq<Octet>)
    requires |s| >= 16
    ensures IsUuid(s[..16], UuidFront(s))
  {
    hide PutInt, GetInt, IsNumber;
    var u := UuidFront(s);
    FrontNumber(s[..4]);
    FrontNumber(s[4..][..2]);
    FrontNumber(s[6..][..2]);
    assert s[..16][..4] == s[..4] && s[..16][4..6] == s[4..][..2] && s[..16][6..8] == s[6..][..2];
    assert s[..16][8..] == s[8..16];
  }

  /** A text is read unit by unit, up to the first NUL or the last unit but one. */
  lemma TextFrontByBytes(n: nat, s: seq<Octet>)
    requires n > 0 && 2 * n <= |s|
    ensures var us := TextFront(n, s);
      && |us| < n && (forall i :: 0 <= i < |us| ==> us[i] > 0 && IsNumber(s[2 * i..2 * i + 2], us[i]))
      && (|us| < n - 1 ==> s[2 * |us|] == s[2 * |us| + 1] == 0)
  {
    hide PutUnits, GetUnits, UpToNul;
    var b := s[..2 * n];
    var units := GetUnits(b);
    BytesRoundTrip(b);
    UnitBytes(units);
    var cut := units[n - 1 := 0];
    var us := UpToNul(cut);
    assert cut[n - 1] == 0 && us == cut[..|us|] && us != cut;
    forall i | 0 <= i < |us| ensures us[i] > 0 && IsNumber(s[2 * i..2 * i + 2], us[i]) {
      assert us[i] == units[i] && us[i] in us;
      assert b[2 * i] == units[i] % 0x100 && b[2 * i + 1] == units[i] / 0x100;
    }
    if |us| < n - 1 {
      assert units[|us|] == 0;
      assert b[2 * |us|] == 0 && b[2 * |us| + 1] == 0;
    }
  }

  /** A list of ages as it is sent: one record behind the other. */
  function AllBytes(rs: seq<AgeRecord>): (s: seq<Octet>)
    ensures |s| == |rs| * STRIDE
  {
    if rs == [] then [] else RecordBytes(rs[0]) + AllBytes(rs[1..])
  }

  /** Record i stands at i strides, whatever stands around it. */
  lemma {:induction false} RecordAt(rs: seq<AgeRecord>, i: nat)
    requires i < |rs|
    ensures |AllBytes(rs)[i * STRIDE..]| >= STRIDE
    ensures RecordFront(AllBytes(rs)[i * STRIDE..]) == KeptRecord(rs[i])
  {
    hide RecordBytes, RecordFront, KeptRecord;
    if i == 0 {
      RecordRoundTrip(rs[0], AllBytes(rs[1..]));
      assert AllBytes(rs)[0..] == AllBytes(rs);
    } else {
      RecordAt(rs[1..], i - 1);
      assert AllBytes(rs)[i * STRIDE..] == AllBytes(rs[1..])[(i - 1) * STRIDE..];
    }
  }

  /** The buffer of a received age list is as long as its count says if and only if the product fits 32 bits. */
  lemma AgeListBuffer(f: Field, count: UInt32, s: seq<Octet>)
    requires f.IsVariable() && DecodeField(f, Regs(STRIDE, count), s).Some?
    ensures var data := DecodeField(f, Regs(STRIDE, count), s).value.0;
      data.Bytes? && (count * STRIDE <= |data.bytes| <==> count * STRIDE < 0x1_0000_0000)
  {
  }

  /** The records of a public age list, which stand one stride apart. */
  method ReadAges(data: array<Octet>, ageCount: nat) returns (ages: array<NetAgeInfo?>)
    requires ageCount * STRIDE <= data.Length
    ensures ages.Length == ageCount
    ensures forall i :: 0 <= i < ageCount ==>
      i * STRIDE + STRIDE <= data.Length && ages[i] != null && ages[i].Record() == RecordFront(data[i * STRIDE..])
  {
    hide RecordFront;
    ages := new NetAgeInfo?[ageCount](_ => null);
    var i := 0;
    while i < ageCount
      invariant i <= ageCount && fresh(ages)
      invariant forall j :: 0 <= j < i ==>
        j * STRIDE + STRIDE <= data.Length && ages[j] != null && ages[j].Record() == RecordFront(data[j * STRIDE..])
    {
      var age := new NetAgeInfo();
      age.Read(data, i * STRIDE);
      ages[i] := age;
      i := i + 1;
    }
  }

  /** A list of ages arrives as it was sent, each text cut to its field; a smaller count takes the first ones. */
  method ReceiveAges(data: array<Octet>, ageCount: nat, ghost rs: seq<AgeRecord>) returns (ages: array<NetAgeInfo?>)
    requires data[..] == AllBytes(rs) && ageCount <= |rs|
    ensures ages.Length == ageCount
    ensures forall i :: 0 <= i < ageCount ==> ages[i] != null && ages[i].Record() == KeptRecord(rs[i])
  {
    hide RecordFront, KeptRecord, AllBytes;
    ghost var s := AllBytes(rs);
    ages := ReadAges(data, ageCount);
    forall i | 0 <= i < ageCount ensures ages[i] != null && ages[i].Record() == KeptRecord(rs[i]) {
      RecordAt(rs, i);
      assert data[i * STRIDE..] == s[i * STRIDE..];
    }
  }
}
