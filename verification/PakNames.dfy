/** The names in script archives and the paths of the files they come from and go to. */
module PakNames {
  import opened LittleEndian
  import opened PakFormat
  import opened PakTheorems
  import opened Wrappers

  /** A file on disk. */
  datatype File = File(path: seq<Octet>, content: seq<Octet>)

  const DOT: Octet := 0x2E

  /** The characters p, y, c. */
  const PYC: seq<Octet> := [0x70, 0x79, 0x63]

  const DOT_PY: seq<Octet> := [0x2E, 0x70, 0x79]

  /** What stands behind the last b; all of s if there is none. */
  function AfterLast(s: seq<Octet>, b: Octet): (r: seq<Octet>)
    ensures b !in r
  {
    if s == [] || s[|s| - 1] == b then [] else AfterLast(s[..|s| - 1], b) + [s[|s| - 1]]
  }

  /** What stands before the last b; nothing if there is none. */
  function BeforeLast(s: seq<Octet>, b: Octet): seq<Octet> {
    if s == [] then [] else if s[|s| - 1] == b then s[..|s| - 1] else BeforeLast(s[..|s| - 1], b)
  }

  function ToLower(s: seq<Octet>): seq<Octet> {
    seq(|s|, i requires 0 <= i < |s| => if 0x41 <= s[i] <= 0x5A then s[i] + 0x20 else s[i])
  }

  /** The name under which a file is packed; None for what is not a compiled script. */
  function StoredName(path: seq<Octet>, sep: Octet): Option<seq<Octet>> {
    if ToLower(AfterLast(path, DOT)) != PYC then None
    else Some(BeforeLast(if sep in path then AfterLast(path, sep) else path, DOT) + DOT_PY)
  }

  /** The path of entry k of an extraction: the loop lengthens the directory by a separator for every entry. */
  function OutPath(outdir: seq<Octet>, sep: Octet, k: nat, name: seq<Octet>): seq<Octet> {
    (if outdir == [] then [] else outdir + Repeat<Octet>(sep, k + 1)) + (name + PYC[2..])
  }

  /** Names of the form that the packer gives. */
  predicate IsStored(name: seq<Octet>, sep: Octet) {
    |name| >= 3 && name[|name| - 3..] == DOT_PY && sep !in name
  }

  predicate Separator(sep: Octet) { sep == 0x2F || sep == 0x5C }

  lemma {:induction false} AfterLastOfSum(a: seq<Octet>, t: seq<Octet>, b: Octet)
    requires b !in t
    ensures AfterLast(a + t, b) == AfterLast(a, b) + t
  {
    if t == [] {
      assert a + t == a && AfterLast(a, b) + t == AfterLast(a, b);
    } else {
      var n := |t| - 1;
      hide *;
      AfterLastOfSum(a, t[..n], b);
      assert t == t[..n] + [t[n]];
      assert a + t == (a + t[..n]) + [t[n]];
      AfterLastNext(a + t[..n], t[n], b);
      assert AfterLast(a, b) + t[..n] + [t[n]] == AfterLast(a, b) + t;
    }
  }

  lemma AfterLastNext(s: seq<Octet>, x: Octet, b: Octet)
    requires x != b
    ensures AfterLast(s + [x], b) == AfterLast(s, b) + [x]
  {
    assert (s + [x])[..|s|] == s;
  }

  lemma {:induction false} BeforeLastOfSum(a: seq<Octet>, t: seq<Octet>, b: Octet)
    requires b !in t
    ensures BeforeLast(a + [b] + t, b) == a
  {
    var s := a + [b] + t;
    if t == [] {
      assert s[..|s| - 1] == a;
    } else {
      var n := |t| - 1;
      BeforeLastOfSum(a, t[..n], b);
      assert s[..|s| - 1] == a + [b] + t[..n];
    }
  }

  lemma {:induction false} SubsetOfBeforeLast(s: seq<Octet>, b: Octet, x: Octet)
    requires x !in s
    ensures x !in BeforeLast(s, b)
  {
    if s == [] {
    } else if s[|s| - 1] != b {
      SubsetOfBeforeLast(s[..|s| - 1], b, x);
    }
  }

  lemma {:induction false} PartsAtLast(s: seq<Octet>, b: Octet)
    ensures b in s ==> s == BeforeLast(s, b) + ([b] + AfterLast(s, b))
    ensures b !in s ==> BeforeLast(s, b) == [] && AfterLast(s, b) == s
  {
    if s == [] {
    } else {
      var n := |s| - 1;
      assert s == s[..n] + [s[n]];
      if s[n] != b {
        PartsAtLast(s[..n], b);
        assert b in s <==> b in s[..n];
        assert BeforeLast(s[..n], b) + ([b] + AfterLast(s[..n], b)) + [s[n]]
          == BeforeLast(s[..n], b) + ([b] + (AfterLast(s[..n], b) + [s[n]]));
      }
    }
  }

  /** Every name that is packed has the form of stored names. */
  lemma PackedNamesAreStored(path: seq<Octet>, sep: Octet)
    requires Separator(sep)
    ensures StoredName(path, sep).Some? ==> IsStored(StoredName(path, sep).value, sep)
  {
    hide AfterLast, BeforeLast, ToLower;
    var base := if sep in path then AfterLast(path, sep) else path;
    var stem := BeforeLast(base, DOT);
    SubsetOfBeforeLast(base, DOT, sep);
    assert (stem + DOT_PY)[|stem|..] == DOT_PY;
  }

  /** The file that extraction writes for a stored name would be packed under that name, in whatever directory. */
  lemma NameTrip(outdir: seq<Octet>, sep: Octet, k: nat, name: seq<Octet>)
    requires Separator(sep) && IsStored(name, sep)
    ensures StoredName(OutPath(outdir, sep, k, name), sep) == Some(name)
  {
    hide AfterLast, BeforeLast, ToLower, OutPath;
    var stem := name[..|name| - 3];
    var path := OutPath(outdir, sep, k, name);
    var dir := if outdir == [] then [] else outdir + Repeat<Octet>(sep, k + 1);
    PathParts(outdir, sep, k, name);
    PycExtension(dir + stem);
    BeforeLastOfSum(stem, PYC, DOT);
    assert name == stem + DOT_PY;
    assert name + PYC[2..] == stem + [DOT] + PYC;
    if dir == [] {
      assert path == name + PYC[2..];
    } else {
      var d := |dir| - 1;
      assert dir[d] == sep && sep in path by {
        assert path[d] == sep;
      }
      AfterSeparator(dir, name + PYC[2..], sep);
    }
  }

  lemma PathParts(outdir: seq<Octet>, sep: Octet, k: nat, name: seq<Octet>)
    requires IsStored(name, sep)
    ensures var dir := if outdir == [] then [] else outdir + Repeat<Octet>(sep, k + 1);
      && OutPath(outdir, sep, k, name) == dir + (name + PYC[2..])
      && OutPath(outdir, sep, k, name) == (dir + name[..|name| - 3]) + [DOT] + PYC
  {
    var dir := if outdir == [] then [] else outdir + Repeat<Octet>(sep, k + 1);
    assert name == name[..|name| - 3] + DOT_PY;
  }

  lemma PycExtension(s: seq<Octet>)
    ensures ToLower(AfterLast(s + [DOT] + PYC, DOT)) == PYC
  {
    AfterLastOfSum(s + [DOT], PYC, DOT);
    assert AfterLast(s + [DOT], DOT) == [];
    assert [] + PYC == PYC;
  }

  lemma AfterSeparator(dir: seq<Octet>, t: seq<Octet>, sep: Octet)
    requires dir != [] && dir[|dir| - 1] == sep && sep !in t
    ensures AfterLast(dir + t, sep) == t
  {
    AfterLastOfSum(dir, t, sep);
    assert [] + t == t;
  }

  /** The three letters of the extension, in either case. */
  predicate IsExtension(e: seq<Octet>) {
    |e| == 3 && e[0] in {0x50, 0x70} && e[1] in {0x59, 0x79} && e[2] in {0x43, 0x63}
  }

  /** The paths of compiled scripts: they end in the extension, and nothing or a dot stands before it. */
  predicate IsPyc(path: seq<Octet>) {
    |path| >= 3 && IsExtension(path[|path| - 3..]) && (|path| == 3 || path[|path| - 4] == 0x2E)
  }

  lemma LowerExtension(e: seq<Octet>)
    ensures ToLower(e) == PYC <==> IsExtension(e)
    ensures IsExtension(e) ==> DOT !in e
  {
    if IsExtension(e) {
      assert ToLower(e)[0] == 0x70 && ToLower(e)[1] == 0x79 && ToLower(e)[2] == 0x63;
      assert forall i :: 0 <= i < 3 ==> e[i] != DOT;
    }
    if ToLower(e) == PYC {
      assert |e| == 3 && ToLower(e)[0] == 0x70 && ToLower(e)[1] == 0x79 && ToLower(e)[2] == 0x63;
    }
  }

  /** What is behind the last dot. */
  lemma BehindDot(s: seq<Octet>, e: seq<Octet>)
    requires DOT !in e
    ensures AfterLast(s + [DOT] + e, DOT) == e && AfterLast(e, DOT) == e
  {
    AfterLastOfSum(s + [DOT], e, DOT);
    assert AfterLast(s + [DOT], DOT) == [] && [] + e == e;
    AfterLastOfSum([], e, DOT);
  }

  /** The packer takes exactly these paths. */
  lemma PackedPaths(path: seq<Octet>, sep: Octet)
    ensures StoredName(path, sep).Some? <==> IsPyc(path)
  {
    hide AfterLast, BeforeLast, ToLower, IsExtension;
    var e, n := AfterLast(path, DOT), |path| - 3;
    PartsAtLast(path, DOT);
    LowerExtension(e);
    if StoredName(path, sep).Some? {
      assert |e| == 3 by {
        LengthOfLower(e);
      }
      if DOT in path {
        var init := BeforeLast(path, DOT);
        assert path == init + [DOT] + e;
        assert path[n..] == e && path[n - 1] == DOT;
      } else {
        assert path[0..] == path;
      }
    }
    if IsPyc(path) {
      LowerExtension(path[n..]);
      if n > 0 {
        BehindDot(path[..n - 1], path[n..]);
        assert path == path[..n - 1] + [DOT] + path[n..];
      } else {
        BehindDot([], path);
        assert path[0..] == path;
      }
    }
  }

  lemma LengthOfLower(e: seq<Octet>)
    ensures |ToLower(e)| == |e|
  {
  }

  /** The name under which a script is packed: what stands between the directory and the extension, and .py. */
  lemma PackedName(sep: Octet, dir: seq<Octet>, stem: seq<Octet>, e: seq<Octet>)
    requires Separator(sep) && IsExtension(e) && (dir == [] || dir[|dir| - 1] == sep) && sep !in stem
    ensures StoredName(dir + stem + [0x2E] + e, sep) == Some(stem + [0x2E, 0x70, 0x79])
    ensures StoredName(e, sep) == Some([0x2E, 0x70, 0x79])
  {
    hide AfterLast, BeforeLast, ToLower, IsExtension;
    var path := dir + stem + [DOT] + e;
    LowerExtension(e);
    NoSeparator(e, sep);
    BehindDot(dir + stem, e);
    BeforeLastOfSum(stem, e, DOT);
    var base := stem + [DOT] + e;
    assert path == dir + base && sep !in base;
    if dir == [] {
      assert path == base;
    } else {
      assert path[|dir| - 1] == sep;
      AfterSeparator(dir, base, sep);
    }
    PartsAtLast(e, DOT);
    assert [] + DOT_PY == DOT_PY;
  }

  lemma NoSeparator(e: seq<Octet>, sep: Octet)
    requires Separator(sep) && IsExtension(e)
    ensures sep !in e
  {
    assert forall i :: 0 <= i < 3 ==> e[i] != sep;
  }

  /** Every path of a compiled script has these parts. */
  lemma PathOfParts(path: seq<Octet>, sep: Octet) returns (dir: seq<Octet>, stem: seq<Octet>)
    requires Separator(sep) && IsPyc(path) && |path| > 3
    ensures path == dir + stem + [0x2E] + path[|path| - 3..]
    ensures (dir == [] || dir[|dir| - 1] == sep) && sep !in stem
  {
    hide IsExtension;
    var n := |path| - 4;
    var front := path[..n];
    PartsAtLast(front, sep);
    dir, stem := if sep in front then BeforeLast(front, sep) + [sep] else [], AfterLast(front, sep);
    assert front == dir + stem;
    assert path == front + [0x2E] + path[n + 1..];
  }

  /** The first n files with the names under which they are packed. */
  function NamedUpTo(files: seq<File>, sep: Octet, n: nat): (r: Option<seq<PycFile>>)
    requires n <= |files|
    ensures r.Some? ==> |r.value| == n
  {
    if n == 0 then Some([]) else
      match NamedUpTo(files, sep, n - 1)
      case None => None
      case Some(fs) =>
        match StoredName(files[n - 1].path, sep)
        case None => None
        case Some(name) => Some(fs + [PycFile(name, files[n - 1].content)])
  }

  function Named(files: seq<File>, sep: Octet): (r: Option<seq<PycFile>>)
    ensures r.Some? ==> |r.value| == |files|
  {
    NamedUpTo(files, sep, |files|)
  }

  /** The names of several files exist if and only if all are compiled scripts. */
  lemma {:induction false} NamedPaths(files: seq<File>, sep: Octet, n: nat)
    requires n <= |files|
    ensures NamedUpTo(files, sep, n).Some? <==> forall i :: 0 <= i < n ==> IsPyc(files[i].path)
  {
    hide StoredName, IsPyc;
    if n == 0 {
    } else {
      NamedPaths(files, sep, n - 1);
      NamedNext(files, sep, n - 1);
      PackedPaths(files[n - 1].path, sep);
    }
  }

  predicate AllPyc(files: seq<File>) { forall f :: f in files ==> IsPyc(f.path) }

  lemma OnlyPyc(files: seq<File>, sep: Octet)
    ensures Named(files, sep).Some? <==> AllPyc(files)
  {
    hide NamedUpTo, IsPyc;
    NamedPaths(files, sep, |files|);
  }

  /** The records after n files of the command line; None where one has another extension or is too short. */
  function WithInputs(os: seq<PycObject>, files: seq<File>, sep: Octet, n: nat): (r: Option<seq<PycObject>>)
    requires n <= |files|
    ensures r.Some? ==> |r.value| == |os| + n
  {
    if n == 0 then Some(os) else
      match WithInputs(os, files, sep, n - 1)
      case None => None
      case Some(us) =>
        match StoredName(files[n - 1].path, sep)
        case None => None
        case Some(name) =>
          match PycBody(files[n - 1].content)
          case None => None
          case Some(b) => Some(us + [PycObject(name, Offs(us, |us|), b)])
  }

  lemma {:induction false} WithFilesPrefix(os: seq<PycObject>, fs: seq<PycFile>, f: PycFile, n: nat)
    requires n <= |fs|
    ensures WithFiles(os, fs + [f], n) == WithFiles(os, fs, n)
  {
    hide Offs, PycBody;
    if n == 0 {
    } else {
      WithFilesPrefix(os, fs, f, n - 1);
      assert (fs + [f])[n - 1] == fs[n - 1];
    }
  }

  /** Naming the files first and packing them afterwards comes to the same. */
  lemma {:induction false} InputsAreFiles(os: seq<PycObject>, files: seq<File>, sep: Octet, n: nat)
    requires n <= |files|
    ensures WithInputs(os, files, sep, n)
         == match NamedUpTo(files, sep, n) case None => None case Some(fs) => WithFiles(os, fs, n)
  {
    hide Offs, PycBody, StoredName;
    if n == 0 {
    } else {
      InputsAreFiles(os, files, sep, n - 1);
      if NamedUpTo(files, sep, n).Some? {
        var fs := NamedUpTo(files, sep, n - 1).value;
        WithFilesPrefix(os, fs, NamedUpTo(files, sep, n).value[n - 1], n - 1);
      }
    }
  }

  lemma AllInputs(os: seq<PycObject>, files: seq<File>, sep: Octet)
    ensures WithInputs(os, files, sep, |files|)
         == match Named(files, sep) case None => None case Some(fs) => WithFiles(os, fs, |files|)
  {
    hide WithFiles, NamedUpTo;
    InputsAreFiles(os, files, sep, |files|);
  }

  lemma {:induction false} WithInputsFails(os: seq<PycObject>, files: seq<File>, sep: Octet, m: nat, n: nat)
    requires m <= n <= |files| && WithInputs(os, files, sep, m).None?
    ensures WithInputs(os, files, sep, n).None?
  {
    if m == n {
    } else {
      WithInputsFails(os, files, sep, m, n - 1);
    }
  }

  /** The files that an extraction writes: a header of eight bytes, then the body, at the paths of the entries. */
  predicate Extracts(files: seq<File>, es: seq<Entry>, outdir: seq<Octet>, sep: Octet) {
    |files| == |es| && forall i :: 0 <= i < |es| ==>
      && files[i].path == OutPath(outdir, sep, i, es[i].name)
      && |files[i].content| == 8 + |es[i].body| && files[i].content[8..] == es[i].body
  }

  lemma {:induction false} NamedExtracts(files: seq<File>, es: seq<Entry>, outdir: seq<Octet>, sep: Octet, n: nat)
    requires Extracts(files, es, outdir, sep) && Separator(sep) && n <= |es|
    requires forall e :: e in es ==> IsStored(e.name, sep)
    ensures NamedUpTo(files, sep, n).Some? && WrittenFrom(NamedUpTo(files, sep, n).value, es[..n])
  {
    hide StoredName, OutPath, IsStored;
    if n == 0 {
    } else {
      NamedExtracts(files, es, outdir, sep, n - 1);
      assert es[n - 1] in es;
      NameTrip(outdir, sep, n - 1, es[n - 1].name);
      assert es[..n] == es[..n - 1] + [es[n - 1]];
    }
  }

  lemma {:induction false} NamedPrefix(xs: seq<File>, ys: seq<File>, sep: Octet, n: nat)
    requires n <= |xs|
    ensures NamedUpTo(xs + ys, sep, n) == NamedUpTo(xs, sep, n)
  {
    hide StoredName;
    if n == 0 {
    } else {
      NamedPrefix(xs, ys, sep, n - 1);
      assert (xs + ys)[n - 1] == xs[n - 1];
    }
  }

  lemma NamedNext(files: seq<File>, sep: Octet, n: nat)
    requires n < |files|
    ensures NamedUpTo(files, sep, n + 1).Some? <==>
      NamedUpTo(files, sep, n).Some? && StoredName(files[n].path, sep).Some?
    ensures NamedUpTo(files, sep, n + 1).Some? ==>
      var name := StoredName(files[n].path, sep).value;
      NamedUpTo(files, sep, n + 1).value == NamedUpTo(files, sep, n).value + [PycFile(name, files[n].content)]
  {
    hide StoredName;
  }

  /** Two lists of files are named one after the other. */
  lemma {:induction false} NamedAppendUpTo(xs: seq<File>, ys: seq<File>, sep: Octet, n: nat)
    requires n <= |ys| && Named(xs, sep).Some? && NamedUpTo(ys, sep, n).Some?
    ensures NamedUpTo(xs + ys, sep, |xs| + n) == Some(Named(xs, sep).value + NamedUpTo(ys, sep, n).value)
  {
    if n == 0 {
      NamedPrefix(xs, ys, sep, |xs|);
      assert Named(xs, sep).value + [] == Named(xs, sep).value;
    } else {
      hide StoredName, NamedUpTo;
      NamedNext(ys, sep, n - 1);
      NamedAppendUpTo(xs, ys, sep, n - 1);
      NamedNext(xs + ys, sep, |xs| + (n - 1));
      assert (xs + ys)[|xs| + (n - 1)] == ys[n - 1];
      assert |xs| + (n - 1) + 1 == |xs| + n;
      var fs, gs := Named(xs, sep).value, NamedUpTo(ys, sep, n - 1).value;
      var g := PycFile(StoredName(ys[n - 1].path, sep).value, ys[n - 1].content);
      assert fs + gs + [g] == fs + (gs + [g]);
    }
  }

  lemma NamedAppend(xs: seq<File>, ys: seq<File>, sep: Octet)
    requires Named(xs, sep).Some? && Named(ys, sep).Some?
    ensures Named(xs + ys, sep) == Some(Named(xs, sep).value + Named(ys, sep).value)
  {
    NamedAppendUpTo(xs, ys, sep, |ys|);
  }
}
