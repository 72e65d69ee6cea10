/** Script archives byte by byte: where a reader finds the count, the names, the offsets, the sizes and the bodies. */
module PakBytes {
  import opened LittleEndian
  import opened SafeString
  import opened PakFormat
  import opened PakTheorems
  import opened PakNames
  import opened Wrappers

  /** The word at some place of s is n, the low byte first. */
  predicate WordIs(s: seq<Octet>, at: nat, n: nat) {
    at + 4 <= |s| && IsNumber(s[at..at + 4], n)
  }

  /**
    * s is an archive of files: a count; for each file its name and the place of its size word; and there the size and
    * the body. Index entries and files follow each other without gaps; names[i] and files[i] are where they start.
    */
  ghost predicate IsPak(ver: Version, es: seq<Entry>, s: seq<Octet>, names: seq<nat>, files: seq<nat>) {
    && |names| == |files| == |es| + 1
    && WordIs(s, 0, |es|) && names[0] == 4 && names[|es|] == files[0] && files[|es|] == |s|
    && forall i :: 0 <= i < |es| ==> HasFile(ver, es[i], s, names[i], names[i + 1], files[i], files[i + 1])
  }

  /** The index entry of a file is from a to a', its size and body are from b to b'. */
  predicate HasFile(ver: Version, e: Entry, s: seq<Octet>, a: nat, a': nat, b: nat, b': nat) {
    HasName(ver, e, s, a, a', b) && HasBody(e, s, b, b')
  }

  predicate HasName(ver: Version, e: Entry, s: seq<Octet>, a: nat, a': nat, b: nat) {
    a <= a' - 4 < |s| && s[a..a' - 4] == StrBytes(ver, e.name) && WordIs(s, a' - 4, b)
  }

  predicate HasBody(e: Entry, s: seq<Octet>, b: nat, b': nat) {
    b' == b + 4 + |e.body| <= |s| && WordIs(s, b, |e.body|) && s[b + 4..b'] == e.body
  }

  lemma {:induction false} IndexEntryAt(ver: Version, es: seq<Entry>, i: nat, n: nat)
    requires i < n <= |es|
    ensures IndexSize(ver, es, i) + |StrBytes(ver, es[i].name)| + 4 == IndexSize(ver, es, i + 1)
    ensures IndexSize(ver, es, i + 1) <= IndexSize(ver, es, n)
    ensures IndexUpTo(ver, es, n)[IndexSize(ver, es, i)..IndexSize(ver, es, i + 1)]
         == StrBytes(ver, es[i].name) + PutInt(4, Position(ver, es, i))
  {
    hide *;
    IndexUpToStep(ver, es, n);
    IndexSizeStep(ver, es, n);
    IndexSizeStep(ver, es, i + 1);
    if i < n - 1 {
      IndexEntryAt(ver, es, i, n - 1);
    } else {
      assert i == n - 1;
    }
  }

  lemma PositionStep(ver: Version, es: seq<Entry>, i: nat)
    requires i <= |es|
    ensures i < |es| ==> Position(ver, es, i + 1) == Position(ver, es, i) + 4 + |es[i].body|
    ensures i == 0 ==> Position(ver, es, i) == 4 + IndexSize(ver, es, |es|) && IndexSize(ver, es, 0) == 0
  {
    hide StrBytes;
    BodyOffsetStep(es, 0);
  }

  lemma IndexInArchive(ver: Version, es: seq<Entry>, a: nat, b: nat)
    requires a <= b <= IndexSize(ver, es, |es|)
    ensures 4 + b <= |Archive(ver, es)| && Archive(ver, es)[4 + a..4 + b] == IndexUpTo(ver, es, |es|)[a..b]
  {
    hide PutInt, IndexUpTo, BodiesUpTo, IndexSize, BodyOffset;
  }

  lemma NameInArchive(ver: Version, es: seq<Entry>, i: nat)
    requires i < |es|
    ensures HasName(ver, es[i], Archive(ver, es), 4 + IndexSize(ver, es, i), 4 + IndexSize(ver, es, i + 1),
                    Position(ver, es, i))
  {
    hide StrBytes, PutInt, IndexUpTo, Archive, Position, IndexSize, IsNumber;
    var a, b, o := IndexSize(ver, es, i), IndexSize(ver, es, i + 1), Position(ver, es, i);
    IndexEntryAt(ver, es, i, |es|);
    IndexInArchive(ver, es, a, b);
    Halves(Archive(ver, es), 4 + a, 4 + b, StrBytes(ver, es[i].name), PutInt(4, o));
    NumberBytes(4, o);
  }

  lemma BodyInArchive(ver: Version, es: seq<Entry>, i: nat)
    requires i < |es|
    ensures HasBody(es[i], Archive(ver, es), Position(ver, es, i), Position(ver, es, i + 1))
  {
    hide PutInt, Archive, Position, IsNumber;
    var o, body := Position(ver, es, i), es[i].body;
    FileStandsAt(ver, es, i);
    PositionStep(ver, es, i);
    Halves(Archive(ver, es), o, o + 4 + |body|, PutInt(4, |body|), body);
    NumberBytes(4, |body|);
  }

  lemma Halves(s: seq<Octet>, a: nat, b: nat, x: seq<Octet>, y: seq<Octet>)
    requires a <= b <= |s| && s[a..b] == x + y
    ensures a + |x| == b - |y| && s[a..a + |x|] == x && s[a + |x|..b] == y
  {
    assert s[a..a + |x|] == s[a..b][..|x|];
    assert s[a + |x|..b] == s[a..b][|x|..];
  }

  /** The archive that is created is laid out like this. */
  lemma ArchiveByBytes(ver: Version, es: seq<Entry>) returns (names: seq<nat>, files: seq<nat>)
    ensures IsPak(ver, es, Archive(ver, es), names, files)
  {
    hide StrBytes, PutInt, IndexUpTo, BodiesUpTo, Position, IndexSize, IsNumber, HasName, HasBody;
    var n := |es|;
    names := seq(n + 1, i requires 0 <= i <= n => 4 + IndexSize(ver, es, i));
    files := seq(n + 1, i requires 0 <= i <= n => Position(ver, es, i));
    NumberBytes(4, n);
    assert Archive(ver, es)[0..4] == PutInt(4, n);
    PositionStep(ver, es, 0);
    forall i | 0 <= i < n
      ensures HasFile(ver, es[i], Archive(ver, es), names[i], names[i + 1], files[i], files[i + 1])
    {
      NameInArchive(ver, es, i);
      BodyInArchive(ver, es, i);
    }
  }

  /** The path of extracted file k: the directory, a separator for every file so far and this one, the name, and c. */
  lemma PathByBytes(outdir: seq<Octet>, sep: Octet, k: nat, name: seq<Octet>)
    ensures var p, n := OutPath(outdir, sep, k, name), if outdir == [] then 0 else |outdir| + k + 1;
      && |p| == n + |name| + 1 && p[n..n + |name|] == name && p[|p| - 1] == 0x63
      && (outdir != [] ==> p[..|outdir|] == outdir && forall j :: |outdir| <= j < n ==> p[j] == sep)
  {
    hide Repeat;
    var r := Repeat<Octet>(sep, k + 1);
    var p := OutPath(outdir, sep, k, name);
    if outdir == [] {
      assert p == name + [0x63];
    } else {
      assert p == outdir + r + (name + [0x63]);
    }
  }

  /**
    * The body that is read at any place of a stream below 4 GiB, n being the size word there: all of it, or what the
    * stream has of it; nothing where the end of the body is beyond 32 bits.
    */
  lemma BodyByBytes(s: seq<Octet>, at: nat, n: nat)
    requires |s| < 0x1_0000_0000
    ensures at + 4 > |s| ==> BodyAt(s, at) == None
    ensures WordIs(s, at, n) && n < 0x1_0000_0000 ==>
      BodyAt(s, at) == if at + 4 + n <= |s| then Some(s[at + 4..at + 4 + n])
                       else if at + 4 + n < 0x1_0000_0000 then Some(s[at + 4..]) else None
  {
    hide Narrow, GetInt, IsNumber;
    if WordIs(s, at, n) && n < 0x1_0000_0000 {
      var b, p := s[at..at + 4], at + 4;
      OneNumber(b, n);
      NarrowIs(b);
      assert s[p..] == s[p..|s|];
      Add32Once(p, n);
      if p + n > |s| && p + n < WORDS {
        Sub32OfSmall(|s|, p);
      }
    }
  }

  lemma OneNumber(b: seq<Octet>, n: nat)
    requires |b| == 4 && IsNumber(b, n) && n < 0x1_0000_0000
    ensures GetInt(b) == n
  {
    hide GetInt, PutInt;
    NumberBytes(4, n);
    WidthRoundTrip(n);
    assert b == PutInt(4, n);
  }

  lemma Add32Once(a: UInt32, b: UInt32)
    ensures Add32(a % WORDS, b) == if a + b < WORDS then a + b else a + b - WORDS
  {
  }

  /** Whatever the index says: each entry is extracted from the place that its offset names, and in order. */
  lemma {:induction false} ExtractedAtOffsets(s: seq<Octet>, os: seq<PycObject>, at: nat, n: nat)
    requires n <= |os| && |s| < WORDS && at <= |s|
    ensures var x := ExtractedUpTo(s, os, at, n);
      && |x.entries| <= n && (x.ok <==> |x.entries| == n) && (x.ok ==> x.at <= |s|)
      && (forall i :: 0 <= i < |x.entries| ==>
            x.entries[i].name == os[i].name && BodyAt(s, os[i].offset) == Some(x.entries[i].body))
      && (!x.ok ==> BodyAt(s, os[|x.entries|].offset) == None)
  {
    hide *;
    ExtractedStep(s, os, at, n);
    if n == 0 {
    } else {
      ExtractedAtOffsets(s, os, at, n - 1);
      ExtractOneAt(s, os[n - 1], ExtractedUpTo(s, os, at, n - 1));
    }
  }

  lemma ExtractOneAt(s: seq<Octet>, o: PycObject, x: Extraction)
    requires |s| < WORDS && (x.ok ==> x.at <= |s|)
    ensures !x.ok ==> ExtractOne(s, o, x) == x
    ensures x.ok ==>
      var y, b := ExtractOne(s, o, x), BodyAt(s, o.offset);
      && y.ok == b.Some? && y.entries == x.entries + (if b.Some? then [Entry(o.name, b.value)] else [])
      && (b.Some? ==> y.at <= |s|)
  {
    hide Overruns;
  }

  /** The old records of an addition: each body is read at its offset, which then counts from the old base. */
  lemma {:induction false} RebasedAtOffsets(s: seq<Octet>, os: seq<PycObject>, oldBase: UInt32, n: nat)
    requires n <= |os|
    ensures Rebased(s, os, oldBase, n).Some? <==> forall i :: 0 <= i < n ==> BodyAt(s, os[i].offset).Some?
    ensures Rebased(s, os, oldBase, n).Some? ==>
      var us := Rebased(s, os, oldBase, n).value;
      forall i :: 0 <= i < n ==>
        && us[i].name == os[i].name && Some(us[i].data) == BodyAt(s, os[i].offset)
        && us[i].offset == (os[i].offset as int - oldBase) % 0x1_0000_0000
  {
    hide BodyAt;
    if n == 0 {
    } else {
      RebasedAtOffsets(s, os, oldBase, n - 1);
    }
  }
}
