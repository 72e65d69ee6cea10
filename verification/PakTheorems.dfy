/** What creating, adding to and extracting archives have to do with one another. */
module PakTheorems {
  import opened LittleEndian
  import opened SafeString
  import opened PakFormat
  import opened Encoding
  import opened Wrappers

  /** The records of a list of files, offsets counted from the end of the index. */
  function Objects(es: seq<Entry>): (os: seq<PycObject>)
    ensures |os| == |es|
  {
    seq(|es|, i requires 0 <= i < |es| => PycObject(es[i].name, BodyOffset(es, i) % WORDS, es[i].body))
  }

  /** The recursive definitions one step at a time. */
  lemma BodyOffsetStep(es: seq<Entry>, n: nat)
    requires n <= |es|
    ensures BodyOffset(es, n) == if n == 0 then 0 else BodyOffset(es, n - 1) + 4 + |es[n - 1].body|
  {
  }

  lemma IndexSizeStep(ver: Version, es: seq<Entry>, n: nat)
    requires n <= |es|
    ensures IndexSize(ver, es, n)
         == if n == 0 then 0 else IndexSize(ver, es, n - 1) + |StrBytes(ver, es[n - 1].name)| + 4
  {
    hide StrBytes;
  }

  lemma IndexUpToStep(ver: Version, es: seq<Entry>, n: nat)
    requires n <= |es|
    ensures n == 0 ==> IndexUpTo(ver, es, n) == []
    ensures n > 0 ==>
      IndexUpTo(ver, es, n) ==
      IndexUpTo(ver, es, n - 1) + (StrBytes(ver, es[n - 1].name) + PutInt(4, Position(ver, es, n - 1)))
  {
    hide StrBytes, PutInt, Position;
  }

  lemma BodiesUpToStep(es: seq<Entry>, n: nat)
    requires n <= |es|
    ensures n == 0 ==> BodiesUpTo(es, n) == []
    ensures n > 0 ==>
      BodiesUpTo(es, n) ==
      BodiesUpTo(es, n - 1) + (PutInt(4, |es[n - 1].body|) + es[n - 1].body)
  {
    hide PutInt;
  }

  lemma IndexImageStep(ver: Version, os: seq<PycObject>, base: UInt32, n: nat)
    requires n <= |os|
    ensures n == 0 ==> IndexImage(ver, os, base, n) == []
    ensures n > 0 ==>
      IndexImage(ver, os, base, n) ==
      IndexImage(ver, os, base, n - 1)
      + (StrBytes(ver, os[n - 1].name) + PutInt(4, Add32(base, os[n - 1].offset)))
  {
    hide StrBytes, PutInt, Add32;
  }

  lemma BodiesImageStep(os: seq<PycObject>, n: nat)
    requires n <= |os|
    ensures n == 0 ==> BodiesImage(os, n) == []
    ensures n > 0 ==>
      BodiesImage(os, n) ==
      BodiesImage(os, n - 1) + (PutInt(4, |os[n - 1].data|) + os[n - 1].data)
  {
    hide PutInt;
  }

  lemma BaseOffsStep(os: seq<PycObject>, n: nat)
    requires n <= |os|
    ensures BaseOffs(os, n) == if n == 0 then 4 else Add32(BaseOffs(os, n - 1), |os[n - 1].name| + 6)
  {
    hide Add32;
  }

  lemma OffsStep(os: seq<PycObject>, n: nat)
    requires n <= |os|
    ensures Offs(os, n) == if n == 0 then 0 else Add32(Offs(os, n - 1), |os[n - 1].data| + 4)
  {
    hide Add32;
  }

  lemma AddMod(a: nat, b: nat, m: nat)
    requires m > 0
    ensures (a % m + b) % m == (a + b) % m
  {
    var q := a / m;
    assert a + b == q * m + (a % m + b);
    var c := a % m + b;
    assert c == (c / m) * m + c % m;
    assert (q + c / m) * m == q * m + (c / m) * m;
    QuotientUnique(a + b, m, q + c / m, c % m);
  }

  lemma Add32OfMod(a: nat, b: nat)
    ensures Add32(a % WORDS, b) == (a + b) % WORDS && 0 % WORDS == 0
  {
    AddMod(a, b, WORDS);
  }

  lemma Add32OfSmall(a: nat, b: nat)
    ensures a + b < WORDS ==> Add32(a, b) == a + b
  {
  }

  /** The size of a written string against that of the string. */
  lemma StrSize(ver: Version, s: seq<Octet>)
    ensures |StrBytes(ver, s)| <= 2 + |s|
    ensures |StrBytes(ver, s)| == 2 + |s| <==> |s| <= Limit(ver)
  {
    hide StrBytes, Told, Limit;
    assert |Told(ver, s)| == |s| ==> |s| <= Limit(ver);
  }

  lemma {:induction false} BodyOffsetGrows(es: seq<Entry>, m: nat, n: nat)
    requires m <= n <= |es|
    ensures BodyOffset(es, m) <= BodyOffset(es, n)
    ensures m < n ==> BodyOffset(es, m) + 4 + |es[m].body| <= BodyOffset(es, n)
  {
    hide *;
    BodyOffsetStep(es, n);
    if m == n {
    } else {
      BodyOffsetGrows(es, m, n - 1);
    }
  }

  lemma {:induction false} BodyOffsetPrefix(es: seq<Entry>, fs: seq<Entry>, n: nat)
    requires n <= |es|
    ensures BodyOffset(es + fs, n) == BodyOffset(es, n)
  {
    hide *;
    BodyOffsetStep(es, n);
    BodyOffsetStep(es + fs, n);
    if n == 0 {
    } else {
      BodyOffsetPrefix(es, fs, n - 1);
      assert (es + fs)[n - 1] == es[n - 1];
    }
  }

  lemma {:induction false} OffsOfObjects(es: seq<Entry>, n: nat)
    requires n <= |es|
    ensures Offs(Objects(es), n) == BodyOffset(es, n) % WORDS
  {
    hide *;
    OffsStep(Objects(es), n);
    BodyOffsetStep(es, n);
    if n == 0 {
      Add32OfMod(0, 0);
    } else {
      OffsOfObjects(es, n - 1);
      ObjectAt(es, n - 1);
      Add32OfMod(BodyOffset(es, n - 1), |es[n - 1].body| + 4);
    }
  }

  lemma ObjectAt(es: seq<Entry>, i: nat)
    requires i < |es|
    ensures Objects(es)[i] == PycObject(es[i].name, BodyOffset(es, i) % WORDS, es[i].body)
  {
  }

  lemma ObjectsAppend(es: seq<Entry>, e: Entry)
    ensures Objects(es + [e]) == Objects(es) + [PycObject(e.name, Offs(Objects(es), |es|), e.body)]
  {
    hide Objects, BodyOffset, Offs;
    var os := Objects(es) + [PycObject(e.name, Offs(Objects(es), |es|), e.body)];
    OffsOfObjects(es, |es|);
    forall i | 0 <= i <= |es| ensures Objects(es + [e])[i] == os[i] {
      ObjectAt(es + [e], i);
      BodyOffsetPrefix(es, [e], i);
      if i < |es| {
        ObjectAt(es, i);
      }
    }
  }

  /** All files are long enough for their headers. */
  predicate Complete(files: seq<PycFile>) { forall f :: f in files ==> PycBody(f.content).Some? }

  /** The entries that files become. */
  function Entries(files: seq<PycFile>): (es: seq<Entry>)
    requires Complete(files)
    ensures |es| == |files|
  {
    seq(|files|, i requires 0 <= i < |files| => Entry(files[i].name, PycBody(files[i].content).value))
  }

  lemma {:induction false} WithFilesObjects(es: seq<Entry>, files: seq<PycFile>, n: nat)
    requires n <= |files| && Complete(files)
    ensures WithFiles(Objects(es), files, n) == Some(Objects(es + Entries(files)[..n]))
  {
    hide PycBody, Objects, Offs;
    if n == 0 {
      assert es + Entries(files)[..0] == es;
    } else {
      WithFilesObjects(es, files, n - 1);
      var fs := es + Entries(files)[..n - 1];
      ObjectsAppend(fs, Entries(files)[n - 1]);
      assert es + Entries(files)[..n] == fs + [Entries(files)[n - 1]];
    }
  }

  /** A file that is too short stops the packer. */
  lemma {:induction false} WithFilesFails(os: seq<PycObject>, files: seq<PycFile>, n: nat, i: nat)
    requires i < n <= |files| && PycBody(files[i].content).None?
    ensures WithFiles(os, files, n).None?
  {
    if i == n - 1 {
    } else {
      WithFilesFails(os, files, n - 1, i);
    }
  }

  lemma {:induction false} BaseOffsOfObjects(ver: Version, es: seq<Entry>, n: nat)
    requires n <= |es| && (forall e :: e in es ==> |e.name| <= Limit(ver))
    requires 4 + IndexSize(ver, es, n) < WORDS
    ensures BaseOffs(Objects(es), n) == 4 + IndexSize(ver, es, n)
  {
    hide *;
    BaseOffsStep(Objects(es), n);
    IndexSizeStep(ver, es, n);
    if n == 0 {
    } else {
      BaseOffsOfObjects(ver, es, n - 1);
      ObjectAt(es, n - 1);
      assert es[n - 1] in es;
      StrSize(ver, es[n - 1].name);
      Add32OfSmall(BaseOffs(Objects(es), n - 1), |es[n - 1].name| + 6);
    }
  }

  lemma PositionOfObject(ver: Version, es: seq<Entry>, i: nat)
    requires i <= |es| && Position(ver, es, |es|) < WORDS
    ensures Position(ver, es, i) < WORDS
    ensures 4 + IndexSize(ver, es, |es|) < WORDS == 0x1_0000_0000
    ensures Add32(4 + IndexSize(ver, es, |es|), BodyOffset(es, i) % WORDS) == Position(ver, es, i)
  {
    hide IndexSize, BodyOffset;
    BodyOffsetGrows(es, i, |es|);
  }

  lemma {:induction false} IndexImageOfObjects(ver: Version, es: seq<Entry>, n: nat)
    requires n <= |es| && Position(ver, es, |es|) < WORDS
    ensures IndexImage(ver, Objects(es), 4 + IndexSize(ver, es, |es|), n) == IndexUpTo(ver, es, n)
  {
    hide *;
    PositionOfObject(ver, es, |es|);
    IndexImageStep(ver, Objects(es), 4 + IndexSize(ver, es, |es|), n);
    IndexUpToStep(ver, es, n);
    if n == 0 {
    } else {
      IndexImageOfObjects(ver, es, n - 1);
      ObjectAt(es, n - 1);
      PositionOfObject(ver, es, n - 1);
    }
  }

  lemma {:induction false} BodiesImageOfObjects(es: seq<Entry>, n: nat)
    requires n <= |es|
    ensures BodiesImage(Objects(es), n) == BodiesUpTo(es, n)
  {
    hide *;
    BodiesImageStep(Objects(es), n);
    BodiesUpToStep(es, n);
    if n == 0 {
    } else {
      BodiesImageOfObjects(es, n - 1);
      ObjectAt(es, n - 1);
    }
  }

  /** The 32-bit arithmetic of the packer puts every offset where the size word is. */
  lemma ImageIsArchive(ver: Version, es: seq<Entry>)
    requires Fits(ver, es)
    ensures Image(ver, Objects(es)) == Archive(ver, es)
  {
    hide Objects, IndexUpTo, BodiesUpTo, IndexImage, BodiesImage, StrBytes, Limit;
    BaseOffsOfObjects(ver, es, |es|);
    IndexImageOfObjects(ver, es, |es|);
    BodiesImageOfObjects(es, |es|);
  }

  lemma FilesJoin(es: seq<Entry>, files: seq<PycFile>)
    ensures WithFiles(Objects(es), files, |files|)
         == if Complete(files) then Some(Objects(es + Entries(files))) else None
  {
    hide Objects, PycBody, WithFiles;
    if Complete(files) {
      WithFilesObjects(es, files, |files|);
      assert Entries(files)[..|files|] == Entries(files);
    } else {
      var f :| f in files && PycBody(f.content).None?;
      var i :| 0 <= i < |files| && files[i] == f;
      WithFilesFails(Objects(es), files, |files|, i);
    }
  }

  lemma CreatedImage(ver: Version, files: seq<PycFile>)
    ensures Created(ver, files) == if Complete(files) then Some(Image(ver, Objects(Entries(files)))) else None
  {
    hide PycBody, Image, WithFiles;
    FilesJoin([], files);
    assert Objects([]) == [];
    if Complete(files) {
      assert [] + Entries(files) == Entries(files);
    }
  }

  /** Creating lays the files out as the reference does, and fails if and only if a file is too short. */
  lemma CreatedIsArchive(ver: Version, files: seq<PycFile>)
    ensures Created(ver, files).Some? <==> Complete(files)
    ensures Complete(files) && Fits(ver, Entries(files)) ==> Created(ver, files) == Some(Archive(ver, Entries(files)))
  {
    hide Objects, PycBody, Fits, Image, Archive;
    CreatedImage(ver, files);
    if Complete(files) && Fits(ver, Entries(files)) {
      ImageIsArchive(ver, Entries(files));
    }
  }

  /** The index as it is read back, the bodies still missing. */
  function Listed(ver: Version, es: seq<Entry>): (os: seq<PycObject>)
    ensures |os| == |es|
  {
    seq(|es|, i requires 0 <= i < |es| => PycObject(Heard(ver, es[i].name), Position(ver, es, i) % WORDS, []))
  }

  lemma IndexEntryTrip(ver: Version, name: seq<Octet>, at: nat, rest: seq<Octet>)
    requires at < WORDS
    ensures var s := StrBytes(ver, name) + PutInt(4, at) + rest;
      && StrFront(ver, s) == Some((Heard(ver, name), PutInt(4, at) + rest))
      && Take(PutInt(4, at) + rest, 4) == Some((PutInt(4, at), rest))
      && Narrow(PutInt(4, at)) == at
  {
    hide StrFront, StrBytes, PutInt, GetInt, Heard, Take;
    StrTrip(ver, name, PutInt(4, at) + rest);
    assert StrBytes(ver, name) + PutInt(4, at) + rest == StrBytes(ver, name) + (PutInt(4, at) + rest);
    TakeFront(PutInt(4, at), rest);
    WidthRoundTrip(at);
  }

  lemma ListedStep(ver: Version, es: seq<Entry>, n: nat)
    requires 0 < n <= |es| && Position(ver, es, n - 1) < WORDS
    ensures Listed(ver, es)[..n] ==
        Listed(ver, es)[..n - 1] + [PycObject(Heard(ver, es[n - 1].name), Position(ver, es, n - 1), [])]
  {
    hide Position, Heard;
  }

  lemma IndexFrontStep(ver: Version, s: seq<Octet>, n: nat, os: seq<PycObject>, at: seq<Octet>, name: seq<Octet>,
                       word: seq<Octet>, rest: seq<Octet>)
    requires |word| == 4 && n > 0 && IndexFront(ver, s, n - 1) == Some((os, at))
    requires StrFront(ver, at) == Some((name, word + rest)) && Take(word + rest, 4) == Some((word, rest))
    ensures IndexFront(ver, s, n) == Some((os + [PycObject(name, Narrow(word), [])], rest))
  {
    hide StrFront, Take, Narrow;
  }

  lemma IndexFrontNone(ver: Version, s: seq<Octet>)
    ensures IndexFront(ver, s, 0) == Some(([], s)) && [] + s == s
  {
  }

  lemma {:induction false} IndexTrip(ver: Version, es: seq<Entry>, n: nat, rest: seq<Octet>)
    requires n <= |es| && Position(ver, es, |es|) < WORDS
    ensures IndexFront(ver, IndexUpTo(ver, es, n) + rest, n) == Some((Listed(ver, es)[..n], rest))
  {
    hide *;
    IndexUpToStep(ver, es, n);
    if n == 0 {
      IndexFrontNone(ver, rest);
    } else {
      var e, at := es[n - 1], Position(ver, es, n - 1);
      PositionOfObject(ver, es, n - 1);
      var part := StrBytes(ver, e.name) + PutInt(4, at);
      Chain(IndexUpTo(ver, es, n - 1), part, rest);
      IndexTrip(ver, es, n - 1, part + rest);
      IndexEntryTrip(ver, e.name, at, rest);
      IndexFrontStep(ver, IndexUpTo(ver, es, n) + rest, n, Listed(ver, es)[..n - 1], part + rest,
        Heard(ver, e.name), PutInt(4, at), rest);
      ListedStep(ver, es, n);
    }
  }

  lemma {:induction false} BodySlice(es: seq<Entry>, i: nat, n: nat)
    requires i < n <= |es|
    ensures BodyOffset(es, i) + 4 + |es[i].body| <= BodyOffset(es, n)
    ensures BodiesUpTo(es, n)[BodyOffset(es, i)..BodyOffset(es, i) + 4 + |es[i].body|]
         == PutInt(4, |es[i].body|) + es[i].body
  {
    hide *;
    BodyOffsetGrows(es, i, n);
    BodiesUpToStep(es, n);
    BodyOffsetStep(es, n);
    if i < n - 1 {
      BodySlice(es, i, n - 1);
    } else {
      assert i == n - 1;
    }
  }

  /** The size word and the body of file i stand at its position. */
  lemma FileStandsAt(ver: Version, es: seq<Entry>, i: nat)
    requires i < |es|
    ensures Position(ver, es, i) + 4 + |es[i].body| <= Position(ver, es, |es|)
    ensures Archive(ver, es)[Position(ver, es, i)..Position(ver, es, i) + 4 + |es[i].body|]
         == PutInt(4, |es[i].body|) + es[i].body
  {
    hide PutInt, IndexUpTo, BodiesUpTo, BodyOffset, IndexSize;
    BodySlice(es, i, |es|);
    var head := PutInt(4, |es|) + IndexUpTo(ver, es, |es|);
    var at, end := BodyOffset(es, i), BodyOffset(es, i) + 4 + |es[i].body|;
    assert (head + BodiesUpTo(es, |es|))[|head| + at..|head| + end] == BodiesUpTo(es, |es|)[at..end];
  }

  /** The entries of an archive that lost the last k bytes of its last body. */
  function CutLast(es: seq<Entry>, k: nat): (r: seq<Entry>)
    requires es != [] && k <= |es[|es| - 1].body|
    ensures |r| == |es|
  {
    var last := es[|es| - 1];
    es[..|es| - 1] + [Entry(last.name, last.body[..|last.body| - k])]
  }

  predicate Cuttable(es: seq<Entry>, k: nat) { if es == [] then k == 0 else k <= |es[|es| - 1].body| }

  /** An archive that lost its last k bytes. */
  function CutArchive(ver: Version, es: seq<Entry>, k: nat): (s: seq<Octet>)
    requires Cuttable(es, k)
    ensures |s| == Position(ver, es, |es|) - k
  {
    BodyOffsetGrows(es, if es == [] then 0 else |es| - 1, |es|);
    Archive(ver, es)[..|Archive(ver, es)| - k]
  }

  function Remaining(es: seq<Entry>, k: nat): (r: seq<Entry>)
    requires Cuttable(es, k)
    ensures |r| == |es|
  {
    if es == [] then [] else CutLast(es, k)
  }

  lemma WholeArchive(ver: Version, es: seq<Entry>)
    ensures CutArchive(ver, es, 0) == Archive(ver, es) && Remaining(es, 0) == es
  {
    hide Archive;
    if es != [] {
      var last := es[|es| - 1];
      assert last.body[..|last.body|] == last.body;
      assert es == es[..|es| - 1] + [last];
    }
  }

  lemma WordAndBody(s: seq<Octet>, whole: seq<Octet>, at: nat, word: seq<Octet>, body: seq<Octet>, end: nat)
    requires s <= whole && |word| == 4 && at + 4 <= end <= |s| && end <= at + 4 + |body| <= |whole|
    requires whole[at..at + 4 + |body|] == word + body
    ensures s[at..at + 4] == word && s[at + 4..end] == body[..end - (at + 4)]
  {
    var w := whole[at..at + 4 + |body|];
    assert forall i :: 0 <= i < 4 ==> whole[at + i] == w[i] == word[i];
    assert forall i :: 0 <= i < |body| ==> whole[at + 4 + i] == w[4 + i] == body[i];
  }

  /** Below 4 GiB, the 32-bit comparison is exact. */
  lemma OverrunOfSmallStream(s: seq<Octet>, at: nat, told: UInt32)
    requires |s| < WORDS && at + 4 <= |s| && Narrow(s[at..at + 4]) == told && at + 4 + told < WORDS
    ensures Overruns(s, at) <==> at + 4 + told > |s|
  {
    hide Narrow, Add32;
    Add32OfSmall(at + 4, told);
  }

  lemma Sub32OfSmall(a: UInt32, b: UInt32)
    requires b <= a
    ensures Sub32(a, b) == a - b && a % WORDS == a && b % WORDS == b
  {
  }

  lemma BodyOfSmallStream(s: seq<Octet>, at: nat, told: UInt32, end: nat)
    requires |s| < WORDS && at + 4 <= |s| && Narrow(s[at..at + 4]) == told && at + 4 + told < WORDS
    requires end == if at + 4 + told > |s| then |s| else at + 4 + told
    ensures Overruns(s, at) <==> at + 4 + told > |s|
    ensures BodyAt(s, at) == Some(s[at + 4..end])
  {
    hide Narrow, Overruns, Sub32;
    OverrunOfSmallStream(s, at, told);
    Sub32OfSmall(|s|, at + 4);
  }

  /** A size word and a body that may be cut short by the end of the stream. */
  lemma BodyFound(s: seq<Octet>, whole: seq<Octet>, at: nat, body: seq<Octet>, end: nat)
    requires |whole| < WORDS && s <= whole && at + 4 <= |s| && at + 4 + |body| <= |whole|
    requires whole[at..at + 4 + |body|] == PutInt(4, |body|) + body
    requires end == if at + 4 + |body| > |s| then |s| else at + 4 + |body|
    ensures BodyAt(s, at) == Some(body[..end - (at + 4)])
    ensures Overruns(s, at) <==> at + 4 + |body| > |s|
  {
    hide Narrow, PutInt, BodyAt, Overruns;
    WordAndBody(s, whole, at, PutInt(4, |body|), body, end);
    SizeWord(|body|);
    BodyOfSmallStream(s, at, |body|, end);
  }

  lemma SizeWord(n: UInt32)
    ensures Narrow(PutInt(4, n)) == n
  {
    hide PutInt, GetInt, Narrow;
    WidthRoundTrip(n);
    NarrowIs(PutInt(4, n));
  }

  lemma NarrowIs(b: seq<Octet>)
    requires |b| <= 4
    ensures Narrow(b) == GetInt(b)
  {
  }

  lemma {:induction false} FileCount(es: seq<Entry>, n: nat)
    requires n <= |es|
    ensures BodyOffset(es, n) >= 4 * n
  {
    if n == 0 {
    } else {
      FileCount(es, n - 1);
    }
  }

  /** The count and the index are found even in an archive that lost the end of its last body. */
  lemma HeadTrip(ver: Version, es: seq<Entry>, k: nat)
    requires Cuttable(es, k) && Position(ver, es, |es|) < WORDS
    ensures var s := CutArchive(ver, es, k);
      && Take(s, 4).Some? && Narrow(Take(s, 4).value.0) == |es|
      && IndexFront(ver, Take(s, 4).value.1, |es|) == Some((Listed(ver, es), s[Position(ver, es, 0)..]))
      && Position(ver, es, 0) <= |s|
  {
    hide PutInt, Narrow, Take, IndexFront, IndexUpTo, BodiesUpTo, IndexSize, Listed;
    FileCount(es, |es|);
    BodyOffsetGrows(es, if es == [] then 0 else |es| - 1, |es|);
    var n, index := PutInt(4, |es|), IndexUpTo(ver, es, |es|);
    var rest := BodiesUpTo(es, |es|)[..BodyOffset(es, |es|) - k];
    var s := CutArchive(ver, es, k);
    assert s == n + (index + rest);
    TakeFront(n, index + rest);
    SizeWord(|es|);
    IndexTrip(ver, es, |es|, rest);
    assert Listed(ver, es)[..|es|] == Listed(ver, es);
    assert s[Position(ver, es, 0)..] == rest;
  }

  /** Body i of an archive that lost the last k bytes of its last body. */
  lemma BodyTrip(ver: Version, es: seq<Entry>, k: nat, i: nat)
    requires Cuttable(es, k) && Position(ver, es, |es|) < WORDS && i < |es|
    ensures var s, b := CutArchive(ver, es, k), Remaining(es, k)[i].body;
      && BodyAt(s, Position(ver, es, i)) == Some(b)
      && (Overruns(s, Position(ver, es, i)) <==> i == |es| - 1 && k > 0)
      && Position(ver, es, i) + 4 + |b| == if i == |es| - 1 then |s| else Position(ver, es, i + 1)
  {
    hide PutInt, IndexSize, BodyAt, Overruns, Archive;
    var s, at, body := CutArchive(ver, es, k), Position(ver, es, i), es[i].body;
    FileStandsAt(ver, es, i);
    BodyOffsetGrows(es, i, |es| - 1);
    assert BodyOffset(es, |es|) == BodyOffset(es, |es| - 1) + 4 + |es[|es| - 1].body|;
    assert BodyOffset(es, i + 1) == BodyOffset(es, i) + 4 + |body|;
    var end := at + 4 + |body| - if i == |es| - 1 then k else 0;
    BodyFound(s, Archive(ver, es), at, body, end);
    assert body[..|body|] == body;
  }

  /** What becomes of entries that are written to an archive and read again. */
  function HeardAll(ver: Version, es: seq<Entry>): (r: seq<Entry>)
    ensures |r| == |es|
  {
    seq(|es|, i requires 0 <= i < |es| => Entry(Heard(ver, es[i].name), es[i].body))
  }

  lemma ExtractInPlace(s: seq<Octet>, o: PycObject, x: Extraction, b: seq<Octet>)
    requires x.ok && o.offset == x.at && BodyAt(s, x.at) == Some(b)
    ensures ExtractOne(s, o, x) == Extraction(x.entries + [Entry(o.name, b)], x.at + 4 + |b|, true, x.seeks,
                                              x.warnings + if Overruns(s, x.at) then 1 else 0)
  {
    hide BodyAt, Overruns;
  }

  lemma ListedAndHeardAt(ver: Version, es: seq<Entry>, k: nat, i: nat)
    requires Cuttable(es, k) && i < |es| && Position(ver, es, i) < WORDS
    ensures Listed(ver, es)[i] == PycObject(Heard(ver, es[i].name), Position(ver, es, i), [])
    ensures var r := HeardAll(ver, Remaining(es, k));
      r[..i + 1] == r[..i] + [Entry(Heard(ver, es[i].name), Remaining(es, k)[i].body)]
  {
    hide Position, Heard, Remaining;
    RemainingName(es, k, i);
  }

  lemma ExtractedStep(s: seq<Octet>, os: seq<PycObject>, at: nat, n: nat)
    requires n <= |os|
    ensures ExtractedUpTo(s, os, at, n) == if n == 0 then Extraction([], at, true, 0, 0) else
      ExtractOne(s, os[n - 1], ExtractedUpTo(s, os, at, n - 1))
  {
    hide ExtractOne;
  }

  lemma EmptyArchive(ver: Version, es: seq<Entry>, k: nat)
    requires Cuttable(es, k)
    ensures es == [] ==> |CutArchive(ver, es, k)| == Position(ver, es, 0) && k == 0
  {
    hide Archive;
  }

  lemma {:induction false} ExtractTrip(ver: Version, es: seq<Entry>, k: nat, n: nat)
    requires Cuttable(es, k) && Position(ver, es, |es|) < WORDS && n <= |es|
    ensures var s := CutArchive(ver, es, k);
      ExtractedUpTo(s, Listed(ver, es), Position(ver, es, 0), n)
      == Extraction(HeardAll(ver, Remaining(es, k))[..n], if n == |es| then |s| else Position(ver, es, n), true, 0,
                    if n == |es| && k > 0 then 1 else 0)
  {
    hide *;
    var s, os, at := CutArchive(ver, es, k), Listed(ver, es), Position(ver, es, 0);
    ExtractedStep(s, os, at, n);
    if n == 0 {
      EmptyArchive(ver, es, k);
    } else {
      ExtractTrip(ver, es, k, n - 1);
      BodyTrip(ver, es, k, n - 1);
      PositionOfObject(ver, es, n - 1);
      ListedAndHeardAt(ver, es, k, n - 1);
      ExtractInPlace(s, os[n - 1], ExtractedUpTo(s, os, at, n - 1), Remaining(es, k)[n - 1].body);
    }
  }

  lemma RemainingName(es: seq<Entry>, k: nat, i: nat)
    requires Cuttable(es, k) && i < |es|
    ensures Remaining(es, k)[i].name == es[i].name
    ensures BodyOffset(Remaining(es, k), i) == BodyOffset(es, i)
  {
    var init := es[..|es| - 1];
    BodyOffsetPrefix(init, Remaining(es, k)[|es| - 1..], i);
    BodyOffsetPrefix(init, es[|es| - 1..], i);
    assert es == init + es[|es| - 1..];
  }

  /**
    * Extraction gets through every archive that lost at most the end of its last body: it never moves the position, it
    * truncates only that body, and it brings out all entries.
    */
  lemma ExtractedFromCut(ver: Version, es: seq<Entry>, k: nat)
    requires Cuttable(es, k) && Position(ver, es, |es|) < WORDS
    ensures var x := Extracted(ver, CutArchive(ver, es, k));
      x.ok && x.entries == HeardAll(ver, Remaining(es, k)) && x.seeks == 0 && x.warnings == if k > 0 then 1 else 0
  {
    hide Position, CutArchive, Remaining, Heard, IndexFront, Take, ExtractedUpTo, Narrow;
    HeadTrip(ver, es, k);
    ExtractTrip(ver, es, k, |es|);
    var r := HeardAll(ver, Remaining(es, k));
    assert r[..|es|] == r;
  }

  lemma {:induction false} BodyOffsetHeard(ver: Version, es: seq<Entry>, n: nat)
    requires n <= |es|
    ensures BodyOffset(HeardAll(ver, es), n) == BodyOffset(es, n)
  {
    hide Heard;
    if n == 0 {
    } else {
      BodyOffsetHeard(ver, es, n - 1);
    }
  }

  /** Taking the old base from an offset gives the offset behind the index. */
  lemma RebasedObject(ver: Version, es: seq<Entry>, k: nat, i: nat)
    requires Cuttable(es, k) && Position(ver, es, |es|) < WORDS && i < |es|
    ensures Position(ver, es, 0) < WORDS && Position(ver, es, i) < WORDS
    ensures var os := Objects(HeardAll(ver, Remaining(es, k)));
      os[..i + 1] == os[..i] + [PycObject(Heard(ver, es[i].name), Sub32(Position(ver, es, i), Position(ver, es, 0)),
                                          Remaining(es, k)[i].body)]
  {
    hide Heard, Remaining, IndexSize, BodyOffset;
    assert BodyOffset(es, 0) == 0 by {
      BodyOffsetZero(es);
    }
    PositionOfObject(ver, es, 0);
    PositionOfObject(ver, es, i);
    RemainingName(es, k, i);
    BodyOffsetHeard(ver, Remaining(es, k), i);
  }

  lemma BodyOffsetZero(es: seq<Entry>)
    ensures BodyOffset(es, 0) == 0
  {
  }

  lemma RebasedStep(s: seq<Octet>, os: seq<PycObject>, oldBase: UInt32, n: nat, us: seq<PycObject>, b: seq<Octet>)
    requires 0 < n <= |os| && Rebased(s, os, oldBase, n - 1) == Some(us) && BodyAt(s, os[n - 1].offset) == Some(b)
    ensures Rebased(s, os, oldBase, n) == Some(us + [PycObject(os[n - 1].name, Sub32(os[n - 1].offset, oldBase), b)])
  {
    hide BodyAt, Sub32;
  }

  lemma RebasedNone(s: seq<Octet>, os: seq<PycObject>, oldBase: UInt32)
    ensures Rebased(s, os, oldBase, 0) == Some([])
  {
  }

  lemma {:induction false} RebaseTrip(ver: Version, es: seq<Entry>, k: nat, n: nat)
    requires Cuttable(es, k) && Position(ver, es, |es|) < WORDS && n <= |es| && Position(ver, es, 0) < WORDS
    ensures Rebased(CutArchive(ver, es, k), Listed(ver, es), Position(ver, es, 0), n)
         == Some(Objects(HeardAll(ver, Remaining(es, k)))[..n])
  {
    hide *;
    PositionOfObject(ver, es, 0);
    var s, os, at := CutArchive(ver, es, k), Listed(ver, es), Position(ver, es, 0);
    if n == 0 {
      RebasedNone(s, os, at);
    } else {
      RebaseTrip(ver, es, k, n - 1);
      BodyTrip(ver, es, k, n - 1);
      RebasedObject(ver, es, k, n - 1);
      ListedAndHeardAt(ver, es, k, n - 1);
      RebasedStep(s, os, at, n, Objects(HeardAll(ver, Remaining(es, k)))[..n - 1], Remaining(es, k)[n - 1].body);
    }
  }

  /** Adding to an archive, even a cut one, packs what can be read of it and the new files. */
  lemma AddedToCut(ver: Version, es: seq<Entry>, k: nat, files: seq<PycFile>)
    requires Cuttable(es, k) && Position(ver, es, |es|) < WORDS
    ensures Added(ver, CutArchive(ver, es, k), files)
         == if Complete(files)
            then Some(Image(ver, Objects(HeardAll(ver, Remaining(es, k)) + Entries(files)))) else None
  {
    hide Position, CutArchive, Remaining, Heard, HeardAll, Listed, Objects, Image, IndexFront, Take, Narrow, Rebased;
    hide PycBody, WithFiles, Complete, Entries, Cuttable, IndexSize, BodyOffset;
    var s, at, kept := CutArchive(ver, es, k), Position(ver, es, 0), HeardAll(ver, Remaining(es, k));
    HeadTrip(ver, es, k);
    PositionOfObject(ver, es, 0);
    assert (|s| - |s[at..]|) % WORDS == at;
    RebaseTrip(ver, es, k, |es|);
    assert Objects(kept)[..|es|] == Objects(kept);
    FilesJoin(kept, files);
  }

  lemma HeardWhenReadable(ver: Version, es: seq<Entry>)
    ensures HeardAll(ver, es) == es <==> AllReadable(ver, es)
  {
    hide Heard, Readable;
    forall i | 0 <= i < |es| ensures Heard(ver, es[i].name) == es[i].name <==> Readable(ver, es[i].name) {
      StrRoundTrip(ver, es[i].name, []);
    }
    if HeardAll(ver, es) == es {
      forall e | e in es ensures Readable(ver, e.name) {
        var i :| 0 <= i < |es| && es[i] == e;
        assert HeardAll(ver, es)[i] == es[i];
      }
    }
    if AllReadable(ver, es) {
      assert forall i :: 0 <= i < |es| ==> es[i] in es && HeardAll(ver, es)[i] == es[i];
    }
  }

  lemma {:induction false} IndexImageSize(ver: Version, os: seq<PycObject>, ps: seq<PycObject>, a: UInt32, b: UInt32,
                                         n: nat)
    requires n <= |os| && n <= |ps|
    requires forall i :: 0 <= i < n ==> StrBytes(ver, os[i].name) == StrBytes(ver, ps[i].name)
    ensures |IndexImage(ver, os, a, n)| == |IndexImage(ver, ps, b, n)|
  {
    hide *;
    IndexImageStep(ver, os, a, n);
    IndexImageStep(ver, ps, b, n);
    if n == 0 {
    } else {
      IndexImageSize(ver, os, ps, a, b, n - 1);
    }
  }

  lemma SameFronts(a: seq<Octet>, b: seq<Octet>, c: seq<Octet>, d: seq<Octet>)
    requires a + b == c + d && |a| == |c|
    ensures b == d
  {
    assert b == (a + b)[|a|..] && d == (c + d)[|c|..];
  }

  /** Two indexes that start alike, whatever their bases and whatever follows, have the same names as written. */
  lemma {:induction false} IndexImageTells(ver: Version, os: seq<PycObject>, ps: seq<PycObject>, a: UInt32, b: UInt32,
                                          n: nat, x: seq<Octet>, y: seq<Octet>)
    requires n <= |os| && n <= |ps| && IndexImage(ver, os, a, n) + x == IndexImage(ver, ps, b, n) + y
    ensures forall i :: 0 <= i < n ==> StrBytes(ver, os[i].name) == StrBytes(ver, ps[i].name)
  {
    hide *;
    if n == 0 {
    } else {
      IndexImageStep(ver, os, a, n);
      IndexImageStep(ver, ps, b, n);
      var o, p := os[n - 1], ps[n - 1];
      var v, w := PutInt(4, Add32(a, o.offset)), PutInt(4, Add32(b, p.offset));
      var front, front' := IndexImage(ver, os, a, n - 1), IndexImage(ver, ps, b, n - 1);
      AppendThree(front, StrBytes(ver, o.name), v, x);
      AppendThree(front', StrBytes(ver, p.name), w, y);
      IndexImageTells(ver, os, ps, a, b, n - 1, StrBytes(ver, o.name) + (v + x), StrBytes(ver, p.name) + (w + y));
      IndexImageSize(ver, os, ps, a, b, n - 1);
      SameFronts(front, StrBytes(ver, o.name) + (v + x), front', StrBytes(ver, p.name) + (w + y));
      StrBytesPrefix(ver, o.name, v + x, p.name, w + y);
    }
  }

  lemma AppendThree(a: seq<Octet>, b: seq<Octet>, c: seq<Octet>, d: seq<Octet>)
    ensures a + (b + c) + d == a + (b + (c + d))
  {
    Chain(a, b + c, d);
    Chain(b, c, d);
  }

  /** The image of a list of entries tells their names, as they are written. */
  lemma ImageTells(ver: Version, es: seq<Entry>, fs: seq<Entry>, i: nat)
    requires |es| == |fs| && Image(ver, Objects(es)) == Image(ver, Objects(fs)) && i < |es|
    ensures StrBytes(ver, es[i].name) == StrBytes(ver, fs[i].name)
  {
    hide StrBytes, PutInt, BodiesImage, IndexImage, BaseOffs, Objects;
    var n, os, ps := |es|, Objects(es), Objects(fs);
    var a, b := BaseOffs(os, n), BaseOffs(ps, n);
    var x, y := IndexImage(ver, os, a, n), IndexImage(ver, ps, b, n);
    Chain(PutInt(4, n), x, BodiesImage(os, n));
    Chain(PutInt(4, n), y, BodiesImage(ps, n));
    SameFronts(PutInt(4, n), x + BodiesImage(os, n), PutInt(4, n), y + BodiesImage(ps, n));
    IndexImageTells(ver, os, ps, a, b, n, BodiesImage(os, n), BodiesImage(ps, n));
    ObjectAt(es, i);
    ObjectAt(fs, i);
  }

  lemma EntriesAppend(xs: seq<PycFile>, ys: seq<PycFile>)
    requires Complete(xs) && Complete(ys)
    ensures Complete(xs + ys) && Entries(xs + ys) == Entries(xs) + Entries(ys)
  {
    hide PycBody;
  }

  /**
    * Adding files to an archive gives, byte for byte, the archive created from the old and the new files together, if
    * and only if the old names survive being written and read.
    */
  lemma AddIsCreate(ver: Version, xs: seq<PycFile>, ys: seq<PycFile>)
    requires Complete(xs) && Complete(ys)
    ensures Fits(ver, Entries(xs)) ==>
      && Created(ver, xs).Some?
      && (Added(ver, Created(ver, xs).value, ys) == Created(ver, xs + ys) <==> AllReadable(ver, Entries(xs)))
  {
    hide Archive, Image, Objects, Readable, Heard, Limit, Created, Added, Position, Complete, Remaining, CutArchive;
    var es, fs := Entries(xs), Entries(ys);
    CreatedIsArchive(ver, xs);
    CreatedImage(ver, xs + ys);
    EntriesAppend(xs, ys);
    WholeArchive(ver, es);
    CuttableByNothing(es);
    HeardWhenReadable(ver, es);
    if Fits(ver, es) {
      AddedToCut(ver, es, 0, ys);
      if Image(ver, Objects(HeardAll(ver, es) + fs)) == Image(ver, Objects(es + fs)) {
        OldNamesTold(ver, es, fs);
      }
    }
  }

  lemma CuttableByNothing(es: seq<Entry>)
    ensures Cuttable(es, 0)
  {
  }

  lemma OldNamesTold(ver: Version, es: seq<Entry>, fs: seq<Entry>)
    requires forall e :: e in es ==> |e.name| <= Limit(ver)
    requires Image(ver, Objects(HeardAll(ver, es) + fs)) == Image(ver, Objects(es + fs))
    ensures HeardAll(ver, es) == es
  {
    hide Image, Objects, Heard, Limit, StrBytes;
    var a, b := HeardAll(ver, es) + fs, es + fs;
    forall i | 0 <= i < |es| ensures HeardAll(ver, es)[i] == es[i] {
      assert es[i] in es && a[i] == HeardAll(ver, es)[i] && b[i] == es[i];
      ImageTells(ver, a, b, i);
      SpoiledIsSeen(ver, es[i].name);
    }
  }

  /** A script whose name begins beyond ASCII: the archive made by adding nothing to its archive is another one. */
  lemma AddSpoilsAccent(valid: Validity, content: seq<Octet>)
    requires |content| == 8
    ensures var ver, xs := Prime(valid), [PycFile([0xC3, 0xA9, 0x2E, 0x70, 0x79], content)];
      Created(ver, xs).Some? && Added(ver, Created(ver, xs).value, []) != Created(ver, xs)
  {
    hide Created, Added, Archive, StrBytes;
    var ver, xs := Prime(valid), [PycFile([0xC3, 0xA9, 0x2E, 0x70, 0x79], content)];
    PycBodyOfFile(content);
    assert content[8..] == [];
    assert Complete(xs) && Complete([]);
    var es := Entries(xs);
    assert es[0] == Entry([0xC3, 0xA9, 0x2E, 0x70, 0x79], []);
    assert es == [es[0]];
    assert IndexSize(ver, es, 1) <= 11 && BodyOffset(es, 1) == 4;
    assert es[0] in es && !Readable(ver, es[0].name);
    assert xs + [] == xs;
    AddIsCreate(ver, xs, []);
  }

  /**
    * Extracting an archive gets through without moving the position or truncating, and brings out exactly its entries
    * if and only if their names survive being written and read.
    */
  lemma ExtractIsInverse(ver: Version, es: seq<Entry>)
    requires Fits(ver, es)
    ensures var x := Extracted(ver, Archive(ver, es));
      x.ok && x.seeks == 0 && x.warnings == 0 && (x.entries == es <==> AllReadable(ver, es))
  {
    hide Archive, Extracted, Readable, Limit, Heard;
    WholeArchive(ver, es);
    CuttableByNothing(es);
    ExtractedFromCut(ver, es, 0);
    HeardWhenReadable(ver, es);
  }

  /** Cut inside its last body, an archive still yields all entries, the last with what is left of its body. */
  lemma CutSpoilsLastOnly(ver: Version, es: seq<Entry>, k: nat)
    requires Fits(ver, es) && AllReadable(ver, es) && es != [] && 0 < k <= |es[|es| - 1].body|
    ensures var x := Extracted(ver, Archive(ver, es)[..|Archive(ver, es)| - k]);
      x.ok && x.seeks == 0 && x.warnings == 1 && x.entries == CutLast(es, k)
  {
    hide Extracted, Readable, Limit, Heard;
    ExtractedFromCut(ver, es, k);
    HeardWhenReadable(ver, CutLast(es, k));
    forall e | e in CutLast(es, k) ensures Readable(ver, e.name) {
      var i :| 0 <= i < |es| && CutLast(es, k)[i] == e;
      RemainingName(es, k, i);
      assert es[i] in es;
    }
  }

  /** A file as extraction writes it: a header of eight bytes, then the body. */
  predicate HasHeader(file: PycFile, e: Entry) {
    file.name == e.name && |file.content| == 8 + |e.body| && file.content[8..] == e.body
  }

  predicate WrittenFrom(files: seq<PycFile>, es: seq<Entry>) {
    |files| == |es| && forall i :: 0 <= i < |es| ==> HasHeader(files[i], es[i])
  }

  /** Packing what was extracted gives the archive back. */
  lemma CreateOfExtract(ver: Version, es: seq<Entry>, files: seq<PycFile>)
    requires Fits(ver, es) && AllReadable(ver, es)
    ensures WrittenFrom(files, Extracted(ver, Archive(ver, es)).entries) ==>
      Created(ver, files) == Some(Archive(ver, es))
  {
    hide Archive, Extracted, Readable, Created, PycBody;
    ExtractIsInverse(ver, es);
    if WrittenFrom(files, es) {
      forall i | 0 <= i < |files| ensures PycBody(files[i].content) == Some(es[i].body) {
        assert HasHeader(files[i], es[i]);
        FileStandsAt(ver, es, i);
        PycBodyOfFile(files[i].content);
      }
      assert Complete(files);
      assert Entries(files) == es;
      CreatedIsArchive(ver, files);
    }
  }

  /** The offset that the packer records for a file. */
  function Recorded(os: seq<PycObject>, i: nat): UInt32
    requires i < |os|
  {
    Add32(BaseOffs(os, |os|), os[i].offset)
  }

  /** Where the packer writes the size word of a file. */
  function WrittenAt(ver: Version, os: seq<PycObject>, i: nat): nat
    requires i < |os|
  {
    4 + |IndexImage(ver, os, BaseOffs(os, |os|), |os|)| + |BodiesImage(os, i)|
  }

  /** The packer's count of the count and the index, without its 32-bit wrapping. */
  function IndexTotal(es: seq<Entry>, n: nat): nat
    requires n <= |es|
  {
    if n == 0 then 4 else IndexTotal(es, n - 1) + |es[n - 1].name| + 6
  }

  lemma IndexTotalStep(es: seq<Entry>, n: nat)
    requires n <= |es|
    ensures IndexTotal(es, n) == if n == 0 then 4 else IndexTotal(es, n - 1) + |es[n - 1].name| + 6
  {
  }

  lemma {:induction false} BaseOffsTotal(es: seq<Entry>, n: nat)
    requires n <= |es| && IndexTotal(es, n) < WORDS
    ensures BaseOffs(Objects(es), n) == IndexTotal(es, n)
  {
    hide *;
    IndexTotalStep(es, n);
    BaseOffsStep(Objects(es), n);
    if n == 0 {
    } else {
      BaseOffsTotal(es, n - 1);
      ObjectAt(es, n - 1);
      Add32OfSmall(BaseOffs(Objects(es), n - 1), |es[n - 1].name| + 6);
    }
  }

  lemma {:induction false} TotalAndSize(ver: Version, es: seq<Entry>, n: nat)
    requires n <= |es|
    ensures IndexTotal(es, n) >= 4 + IndexSize(ver, es, n)
    ensures IndexTotal(es, n) == 4 + IndexSize(ver, es, n) <==> forall i :: 0 <= i < n ==> |es[i].name| <= Limit(ver)
  {
    hide *;
    IndexTotalStep(es, n);
    IndexSizeStep(ver, es, n);
    if n == 0 {
    } else {
      TotalAndSize(ver, es, n - 1);
      StrSize(ver, es[n - 1].name);
    }
  }

  lemma {:induction false} IndexImageLength(ver: Version, es: seq<Entry>, base: UInt32, n: nat)
    requires n <= |es|
    ensures |IndexImage(ver, Objects(es), base, n)| == IndexSize(ver, es, n)
  {
    hide *;
    IndexImageStep(ver, Objects(es), base, n);
    IndexSizeStep(ver, es, n);
    if n == 0 {
    } else {
      IndexImageLength(ver, es, base, n - 1);
      ObjectAt(es, n - 1);
    }
  }

  lemma RecordedSum(es: seq<Entry>, i: nat)
    requires i < |es| && IndexTotal(es, |es|) + BodyOffset(es, |es|) < WORDS
    ensures Recorded(Objects(es), i) == IndexTotal(es, |es|) + BodyOffset(es, i)
  {
    hide Objects, BaseOffs, IndexTotal, BodyOffset, Add32;
    BaseOffsTotal(es, |es|);
    BodyOffsetGrows(es, i, |es|);
    ObjectAt(es, i);
    Add32OfSmall(BaseOffs(Objects(es), |es|), BodyOffset(es, i));
  }

  lemma WrittenSum(ver: Version, es: seq<Entry>, i: nat)
    requires i < |es|
    ensures WrittenAt(ver, Objects(es), i) == 4 + IndexSize(ver, es, |es|) + BodyOffset(es, i)
  {
    hide Objects, BaseOffs, IndexImage, BodiesImage, IndexSize, BodyOffset;
    IndexImageLength(ver, es, BaseOffs(Objects(es), |es|), |es|);
    BodiesImageOfObjects(es, i);
  }

  /** Every recorded offset is the place of its size word if and only if no name is too long for its length field. */
  lemma OffsetsExact(ver: Version, es: seq<Entry>, i: nat)
    requires i < |es| && IndexTotal(es, |es|) + BodyOffset(es, |es|) < WORDS
    ensures Recorded(Objects(es), i) == WrittenAt(ver, Objects(es), i)
       <==> forall j :: 0 <= j < |es| ==> |es[j].name| <= Limit(ver)
  {
    hide *;
    TotalAndSize(ver, es, |es|);
    RecordedSum(es, i);
    WrittenSum(ver, es, i);
  }
}
