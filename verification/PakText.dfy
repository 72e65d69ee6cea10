/** Archives of files whose paths are UTF-8, as those of a command line are. */
module PakText {
  import opened LittleEndian
  import opened Encoding
  import opened SafeString
  import opened PakFormat
  import opened PakTheorems
  import opened PakNames
  import opened Wrappers

  /** An ASCII character never stands inside another character. */
  lemma TextParts(s: seq<Octet>, b: Octet)
    requires Utf8(s) && b < 0x80
    ensures Utf8(BeforeLast(s, b)) && (b in s ==> Utf8(AfterLast(s, b)))
  {
    hide BeforeLast, AfterLast;
    PartsAtLast(s, b);
    AsciiIsUtf8([]);
    if b in s {
      Utf8OfSum(BeforeLast(s, b), [b] + AfterLast(s, b));
      assert ([b] + AfterLast(s, b))[1..] == AfterLast(s, b);
    }
  }

  lemma StoredNameIsText(path: seq<Octet>, sep: Octet)
    requires Utf8(path) && Separator(sep) && StoredName(path, sep).Some?
    ensures Utf8(StoredName(path, sep).value)
  {
    hide BeforeLast, AfterLast, ToLower, Utf8;
    if sep in path {
      TextParts(path, sep);
    }
    var base := if sep in path then AfterLast(path, sep) else path;
    TextParts(base, DOT);
    AsciiIsUtf8(DOT_PY);
    Utf8OfSum(BeforeLast(base, DOT), DOT_PY);
  }

  predicate TextPaths(files: seq<File>) { forall f :: f in files ==> Utf8(f.path) }

  lemma {:induction false} NamesAreText(files: seq<File>, sep: Octet, n: nat)
    requires TextPaths(files) && Separator(sep) && n <= |files| && NamedUpTo(files, sep, n).Some?
    ensures forall f :: f in NamedUpTo(files, sep, n).value ==> Utf8(f.name) && IsStored(f.name, sep)
  {
    hide StoredName, Utf8, IsStored, Separator;
    if n == 0 {
    } else {
      NamesAreText(files, sep, n - 1);
      assert files[n - 1] in files;
      StoredNameIsText(files[n - 1].path, sep);
      PackedNamesAreStored(files[n - 1].path, sep);
    }
  }

  /** The check of names is that of the standard. */
  ghost predicate StandardCheck(ver: Version) { forall s :: ver.valid(s) <==> Utf8(s) }

  predicate Plain(ver: Version, name: seq<Octet>) { ver.Prime? && name != [] ==> name[0] < 0x80 }

  /**
    * For files given by their paths: adding to an archive gives the same bytes as creating it anew if and only if, in
    * the Prime form, no old name begins beyond ASCII. In the Eoa form it always does.
    */
  lemma AddIsCreateForPaths(ver: Version, sep: Octet, xs: seq<File>, ys: seq<File>)
    requires StandardCheck(ver) && Separator(sep) && TextPaths(xs)
    requires Named(xs, sep).Some? && Named(ys, sep).Some?
    requires Complete(Named(xs, sep).value) && Complete(Named(ys, sep).value)
    ensures var fs, gs := Named(xs, sep).value, Named(ys, sep).value;
      Fits(ver, Entries(fs)) ==>
        && Named(xs + ys, sep) == Some(fs + gs) && Created(ver, fs).Some?
        && (Added(ver, Created(ver, fs).value, gs) == Created(ver, fs + gs)
            <==> forall f :: f in fs ==> Plain(ver, f.name))
  {
    hide *;
    var fs, gs := Named(xs, sep).value, Named(ys, sep).value;
    NamedAppend(xs, ys, sep);
    if Fits(ver, Entries(fs)) {
      AddIsCreate(ver, fs, gs);
      NamedText(xs, sep);
      ReadableNames(ver, fs);
    }
  }

  lemma NamedText(files: seq<File>, sep: Octet)
    requires TextPaths(files) && Separator(sep) && Named(files, sep).Some?
    ensures forall f :: f in Named(files, sep).value ==> Utf8(f.name)
  {
    hide TextPaths, Separator, NamedUpTo, Utf8;
    NamesAreText(files, sep, |files|);
  }

  lemma ReadableName(ver: Version, name: seq<Octet>)
    requires StandardCheck(ver) && Utf8(name) && |name| <= Limit(ver)
    ensures Readable(ver, name) <==> Plain(ver, name)
  {
    hide Utf8, Limit;
  }

  lemma EntryName(ver: Version, fs: seq<PycFile>, i: nat)
    requires Complete(fs) && i < |fs| && Fits(ver, Entries(fs))
    ensures Entries(fs)[i].name == fs[i].name && |fs[i].name| <= Limit(ver)
  {
    hide PycBody, Archive, Limit;
    assert Entries(fs)[i] in Entries(fs);
  }

  lemma ReadableNames(ver: Version, fs: seq<PycFile>)
    requires StandardCheck(ver) && Complete(fs) && Fits(ver, Entries(fs)) && forall f :: f in fs ==> Utf8(f.name)
    ensures AllReadable(ver, Entries(fs)) <==> forall f :: f in fs ==> Plain(ver, f.name)
  {
    hide StandardCheck, Complete, Fits, Utf8, Readable, Plain, Entries;
    var es := Entries(fs);
    forall i | 0 <= i < |fs|
      ensures es[i].name == fs[i].name && (Readable(ver, es[i].name) <==> Plain(ver, fs[i].name))
    {
      EntryName(ver, fs, i);
      assert fs[i] in fs;
      ReadableName(ver, fs[i].name);
    }
    if AllReadable(ver, es) {
      forall f | f in fs ensures Plain(ver, f.name) {
        var i :| 0 <= i < |fs| && fs[i] == f;
        assert es[i] in es;
      }
    }
  }

  /** What becomes of a packed name that begins beyond ASCII: its inverted bytes as Latin-1, so that it gets longer. */
  lemma SpoiledName(valid: Validity, name: seq<Octet>, sep: Octet)
    requires StandardCheck(Prime(valid)) && IsStored(name, sep) && |name| <= Limit(Prime(valid)) && name[0] >= 0x80
    ensures Heard(Prime(valid), name) == FromLatin1(Inverted(name))
    ensures |Heard(Prime(valid), name)| > |name|
  {
    hide FromLatin1, Utf8;
    var n := |name| - 3;
    var r := Inverted(name);
    assert r == r[..n] + r[n..];
    assert forall i :: 0 <= i < 3 ==> name[n + i] == DOT_PY[i];
    assert r[n..] == [0xD1, 0x8F, 0x86];
    InvertedEnding(r[..n]);
    DecodedIsText(valid, r);
  }

  /** Rewriting an archive settles its names: adding nothing once more changes nothing. */
  lemma AddSettles(ver: Version, es: seq<Entry>)
    requires StandardCheck(ver) && Fits(ver, es) && Fits(ver, HeardAll(ver, es))
    ensures Added(ver, Archive(ver, es), []) == Some(Archive(ver, HeardAll(ver, es)))
    ensures Added(ver, Archive(ver, HeardAll(ver, es)), []) == Some(Archive(ver, HeardAll(ver, es)))
  {
    hide *;
    var settled := HeardAll(ver, es);
    Rewritten(ver, es);
    forall t ensures ver.valid(FromLatin1(t)) {
      LatinIsValid(ver, t);
    }
    forall i | 0 <= i < |es| ensures Readable(ver, settled[i].name) {
      HeardEntry(ver, es, i);
      HeardSettles(ver, es[i].name);
    }
    AllNames(ver, settled);
    HeardWhenReadable(ver, settled);
    Rewritten(ver, settled);
  }

  lemma LatinIsValid(ver: Version, t: seq<Octet>)
    requires StandardCheck(ver)
    ensures ver.valid(FromLatin1(t))
  {
    hide Utf8;
    LatinIsUtf8(t);
  }

  lemma AllNames(ver: Version, es: seq<Entry>)
    requires forall i :: 0 <= i < |es| ==> Readable(ver, es[i].name)
    ensures AllReadable(ver, es)
  {
    hide Readable;
  }

  lemma HeardEntry(ver: Version, es: seq<Entry>, i: nat)
    requires i < |es| && Fits(ver, HeardAll(ver, es))
    ensures HeardAll(ver, es)[i].name == Heard(ver, es[i].name) && |Heard(ver, es[i].name)| <= Limit(ver)
  {
    hide Heard, Limit, Archive;
    assert HeardAll(ver, es)[i] in HeardAll(ver, es);
  }

  lemma Rewritten(ver: Version, es: seq<Entry>)
    requires Fits(ver, es) && Fits(ver, HeardAll(ver, es))
    ensures Added(ver, Archive(ver, es), []) == Some(Archive(ver, HeardAll(ver, es)))
  {
    hide Archive, HeardAll, Added, Image, Objects, Limit;
    WholeArchive(ver, es);
    CuttableByNothing(es);
    AddedToCut(ver, es, 0, []);
    assert HeardAll(ver, es) + Entries([]) == HeardAll(ver, es);
    ImageIsArchive(ver, HeardAll(ver, es));
  }
}
