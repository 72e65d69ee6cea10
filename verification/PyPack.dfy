/** The packer: streams on files, and its three actions. */
module PyPack {
  import opened LittleEndian
  import opened SafeString
  import opened Encoding
  import opened PakFormat
  import opened PakNames
  import opened PakTheorems
  import opened Wrappers

  lemma TakeNothing(s: seq<Octet>)
    ensures Take(s, 0) == Some(([], s))
  {
    assert s[..0] == [] && s[0..] == s;
  }

  /** A file with a position. Reading past the end fails; written files grow at their end. */
  class FileStream {
    const ver: Version
    var data: seq<Octet>
    var at: nat

    constructor (ver: Version, data: seq<Octet>)
      ensures this.ver == ver && this.data == data && at == 0
    {
      this.ver := ver;
      this.data := data;
      at := 0;
    }

    /** What is left to read. */
    function Rest(): seq<Octet>
      reads this
    {
      if at <= |data| then data[at..] else []
    }

    function Size(): UInt32
      reads this
    {
      |data| % WORDS
    }

    function Pos(): UInt32
      reads this
    {
      at % WORDS
    }

    method Seek(pos: UInt32)
      modifies this`at
      ensures at == pos
    {
      at := pos;
    }

    method Read(n: nat) returns (r: Option<seq<Octet>>)
      modifies this`at
      ensures match Take(old(Rest()), n)
        case None => r == None
        case Some((b, rest)) => r == Some(b) && |b| == n && Rest() == rest && at == old(at) + n
    {
      if n == 0 {
        TakeNothing(Rest());
        return Some([]);
      }
      if at + n > |data| {
        return None;
      }
      assert data[at..][..n] == data[at..at + n] && data[at..][n..] == data[at + n..];
      r := Some(data[at..at + n]);
      at := at + n;
    }

    method ReadInt() returns (r: Option<UInt32>)
      modifies this`at
      ensures match Take(old(Rest()), 4)
        case None => r == None
        case Some((b, rest)) => r == Some(Narrow(b)) && Rest() == rest && at == old(at) + 4
    {
      hide Narrow;
      var b := Read(4);
      r := if b.None? then None else Some(Narrow(b.value));
    }

    method ReadSafeStr() returns (r: Option<seq<Octet>>)
      modifies this`at
      ensures match StrFront(ver, old(Rest()))
        case None => r == None
        case Some((s, rest)) => r == Some(s) && Rest() == rest
      ensures old(at) <= |data| && r.Some? ==> at <= |data|
    {
      hide Short, Inverted, Keyed, Decoded;
      var b := Read(2);
      if b.None? {
        return None;
      }
      var info := Short(b.value);
      TakeNothing(Rest());
      if info == 0 {
        return Some([]);
      }
      if ver.Eoa? {
        var t := Read(info);
        if t.None? {
          return None;
        }
        var s := Scramble(ver, t.value);
        return Some(Decoded(ver.valid, s));
      }
      if info < 0x1000 {
        var discarded := Read(2);
        if discarded.None? {
          return None;
        }
      }
      var t := Read(info % 0x1000);
      if t.None? {
        return None;
      }
      if t.value != [] && t.value[0] >= 0x80 {
        var s := Scramble(ver, t.value);
        return Some(Decoded(ver.valid, s));
      }
      return Some(Decoded(ver.valid, t.value));
    }

    method Write(s: seq<Octet>)
      requires at == |data|
      modifies this`data, this`at
      ensures data == old(data) + s && at == |data|
    {
      data := data + s;
      at := at + |s|;
    }

    method WriteSafeStr(s: seq<Octet>)
      requires at == |data|
      modifies this`data, this`at
      ensures data == old(data) + StrBytes(ver, s) && at == |data|
    {
      hide PutInt, Inverted, Keyed, StrBytes, Told;
      var info := |s| % 0x1_0000;
      if ver.Prime? {
        info := info % 0x1000;
      }
      StringParts(ver, data, s, info);
      Write(PutInt(2, if ver.Prime? then info + 0xF000 else info));
      var wbuf := Scramble(ver, s[..info]);
      Write(wbuf);
    }
  }

  /** A written string behind other bytes is a length and scrambled bytes. */
  lemma StringParts(ver: Version, front: seq<Octet>, s: seq<Octet>, info: nat)
    requires info == if ver.Prime? then |s| % 0x1_0000 % 0x1000 else |s| % 0x1_0000
    ensures info <= |s| && (ver.Prime? ==> info < 0x1000)
    ensures var length := PutInt(2, if ver.Prime? then info + 0xF000 else info);
      var bytes := if ver.Prime? then Inverted(s[..info]) else Keyed(s[..info]);
      front + length + bytes == front + StrBytes(ver, s)
  {
    hide PutInt, Inverted, Keyed;
    assert |s| % 0x1_0000 % 0x1000 == |s| % 0x1000;
    assert s[..info] == Told(ver, s);
    Chain(front, PutInt(2, if ver.Prime? then info + 0xF000 else info),
      if ver.Prime? then Inverted(s[..info]) else Keyed(s[..info]));
  }

  /** The loop over the bytes of a string. */
  method Scramble(ver: Version, s: seq<Octet>) returns (r: seq<Octet>)
    ensures r == if ver.Prime? then Inverted(s) else Keyed(s)
  {
    hide XorOctet;
    var buf := new Octet[|s|];
    var i := 0;
    while i < |s|
      invariant i <= |s|
      invariant forall j :: 0 <= j < i ==> buf[j] == if ver.Prime? then 0xFF - s[j] else XorOctet(s[j], KEY[j % 8])
    {
      buf[i] := if ver.Prime? then 0xFF - s[i] else XorOctet(s[i], KEY[i % 8]);
      i := i + 1;
    }
    r := buf[..];
  }

  /** The body of a file without a whole header counts as more than any file has left. */
  lemma ShortFile(n: nat)
    requires n < 8
    ensures Sub32(n % WORDS, 8) > 0
  {
  }

  /** Reads a compiled script behind its header. */
  method ReadPyc(content: seq<Octet>) returns (r: Option<seq<Octet>>)
    ensures r == PycBody(content)
  {
    if |content| < 8 {
      ShortFile(|content|);
    }
    hide Sub32;
    var s := new FileStream(Prime(Standard()), content);
    var size := Sub32(s.Size(), 8);
    s.Seek(8);
    if 8 + size <= |content| {
      assert content[8..][..size] == content[8..8 + size];
    }
    r := s.Read(size);
  }

  lemma {:induction false} TotalsOfPrefix(os: seq<PycObject>, ps: seq<PycObject>, n: nat)
    requires n <= |os|
    ensures Offs(os + ps, n) == Offs(os, n) && BaseOffs(os + ps, n) == BaseOffs(os, n)
  {
    if n == 0 {
    } else {
      TotalsOfPrefix(os, ps, n - 1);
      assert (os + ps)[n - 1] == os[n - 1];
    }
  }

  /** How the packer's two running totals go on with one more record. */
  lemma TotalsStep(os: seq<PycObject>, o: PycObject)
    ensures Offs(os + [o], |os| + 1) == Add32(Offs(os, |os|), |o.data| + 4)
    ensures BaseOffs(os + [o], |os| + 1) == Add32(BaseOffs(os, |os|), |o.name| + 6)
  {
    hide Add32;
    TotalsOfPrefix(os, [o], |os|);
    assert (os + [o])[|os|] == o;
  }

  /** The loop over the files of the command line, from record n on; offs and baseOffs count the records before. */
  method AppendFiles(objs: array<PycObject>, n: nat, files: seq<File>, sep: Octet, offs0: UInt32, baseOffs0: UInt32)
    returns (ok: bool, baseOffs: UInt32)
    requires objs.Length == n + |files|
    requires offs0 == Offs(objs[..n], n) && baseOffs0 == BaseOffs(objs[..n], n)
    modifies objs
    ensures var r := WithInputs(old(objs[..n]), files, sep, |files|);
      if ok then r == Some(objs[..]) && baseOffs == BaseOffs(objs[..], objs.Length) else r == None
  {
    hide PycBody, StoredName, Offs, BaseOffs;
    var offs := offs0;
    baseOffs := baseOffs0;
    var i := 0;
    while i < |files|
      invariant i <= |files|
      invariant WithInputs(old(objs[..n]), files, sep, i) == Some(objs[..n + i])
      invariant offs == Offs(objs[..n + i], n + i) && baseOffs == BaseOffs(objs[..n + i], n + i)
    {
      var name := StoredName(files[i].path, sep);
      if name.None? {
        WithInputsFails(old(objs[..n]), files, sep, i + 1, |files|);
        return false, 0;
      }
      var data := ReadPyc(files[i].content);
      if data.None? {
        WithInputsFails(old(objs[..n]), files, sep, i + 1, |files|);
        return false, 0;
      }
      var o := PycObject(name.value, offs, data.value);
      ghost var was := objs[..n + i];
      objs[n + i] := o;
      assert objs[..n + i + 1] == was + [o];
      TotalsStep(was, o);
      offs := Add32(offs, |data.value| + 4);
      baseOffs := Add32(baseOffs, |o.name| + 6);
      i := i + 1;
    }
    assert objs[..n + i] == objs[..];
    ok := true;
  }

  /** The loop that writes the index. */
  method WriteIndex(os: FileStream, objs: array<PycObject>, baseOffs: UInt32)
    requires os.at == |os.data|
    modifies os`data, os`at
    ensures os.at == |os.data| && os.data == old(os.data) + IndexImage(os.ver, objs[..], baseOffs, objs.Length)
  {
    hide *;
    ghost var count, all := os.data, objs[..];
    IndexImageStep(os.ver, all, baseOffs, 0);
    assert count + [] == count;
    var i := 0;
    while i < objs.Length
      invariant i <= objs.Length && os.at == |os.data|
      invariant os.data == count + IndexImage(os.ver, all, baseOffs, i)
    {
      os.WriteSafeStr(objs[i].name);
      os.Write(PutInt(4, Add32(baseOffs, objs[i].offset)));
      IndexImageStep(os.ver, all, baseOffs, i + 1);
      AppendTwo(count, IndexImage(os.ver, all, baseOffs, i), StrBytes(os.ver, objs[i].name),
        PutInt(4, Add32(baseOffs, objs[i].offset)));
      i := i + 1;
    }
  }

  /** The loop that writes the bodies. */
  method WriteBodies(os: FileStream, objs: array<PycObject>)
    requires os.at == |os.data|
    modifies os`data, os`at
    ensures os.at == |os.data| && os.data == old(os.data) + BodiesImage(objs[..], objs.Length)
  {
    hide *;
    ghost var index, all := os.data, objs[..];
    BodiesImageStep(all, 0);
    assert index + [] == index;
    var i := 0;
    while i < objs.Length
      invariant i <= objs.Length && os.at == |os.data|
      invariant os.data == index + BodiesImage(all, i)
    {
      os.Write(PutInt(4, |objs[i].data|));
      os.Write(objs[i].data);
      BodiesImageStep(all, i + 1);
      AppendTwo(index, BodiesImage(all, i), PutInt(4, |objs[i].data|), objs[i].data);
      i := i + 1;
    }
  }

  /** Writes the count, the index and the bodies. */
  method WritePak(ver: Version, objs: array<PycObject>, baseOffs: UInt32) returns (out: seq<Octet>)
    requires baseOffs == BaseOffs(objs[..], objs.Length)
    ensures out == Image(ver, objs[..])
  {
    hide PutInt, IndexImage, BodiesImage, BaseOffs;
    var os := new FileStream(ver, []);
    os.Write(PutInt(4, objs.Length));
    WriteIndex(os, objs, baseOffs);
    WriteBodies(os, objs);
    out := os.data;
  }

  lemma AppendTwo(a: seq<Octet>, b: seq<Octet>, c: seq<Octet>, d: seq<Octet>)
    ensures a + b + c + d == a + (b + (c + d))
  {
    Chain(a + b, c, d);
    Chain(a, b, c + d);
  }

  /** The action -c: packs compiled scripts into a new archive; None for another extension or a short file. */
  method CreatePak(ver: Version, sep: Octet, infiles: seq<File>) returns (out: Option<seq<Octet>>)
    ensures out == match Named(infiles, sep) case None => None case Some(fs) => Created(ver, fs)
    ensures !AllPyc(infiles) ==> out == None
  {
    OnlyPyc(infiles, sep);
    hide AllPyc, WithFiles, WithInputs, Named, Image, BaseOffs, Offs;
    AllInputs([], infiles, sep);
    OffsStep([], 0);
    BaseOffsStep([], 0);
    var objs := new PycObject[|infiles|](_ => PycObject([], 0, []));
    assert objs[..0] == [];
    var ok, baseOffs := AppendFiles(objs, 0, infiles, sep, 0, 4);
    if !ok {
      return None;
    }
    var image := WritePak(ver, objs, baseOffs);
    out := Some(image);
  }

  lemma {:induction false} IndexFails(ver: Version, s: seq<Octet>, m: nat, n: nat)
    requires m <= n && IndexFront(ver, s, m).None?
    ensures IndexFront(ver, s, n).None?
  {
    hide StrFront, Narrow, Take;
    if m == n {
    } else {
      IndexFails(ver, s, m, n - 1);
    }
  }

  lemma {:induction false} RebasedFails(s: seq<Octet>, os: seq<PycObject>, oldBase: UInt32, m: nat, n: nat)
    requires m <= n <= |os| && Rebased(s, os, oldBase, m).None?
    ensures Rebased(s, os, oldBase, n).None?
  {
    hide BodyAt, Sub32;
    if m == n {
    } else {
      RebasedFails(s, os, oldBase, m, n - 1);
    }
  }

  /** The state of the loop that reads the index, after i entries. */
  ghost predicate IndexRead(s: FileStream, objs: array<PycObject>, i: nat, baseOffs: UInt32, start: seq<Octet>)
    reads s, objs
  {
    && i <= objs.Length && s.at <= |s.data|
    && IndexFront(s.ver, start, i) == Some((objs[..i], s.Rest()))
    && baseOffs == BaseOffs(objs[..i], i)
  }

  /** One round of the loop that reads the index. */
  method ReadEntry(s: FileStream, objs: array<PycObject>, i: nat, baseOffs0: UInt32, ghost start: seq<Octet>)
    returns (ok: bool, baseOffs: UInt32)
    requires i < objs.Length && IndexRead(s, objs, i, baseOffs0, start)
    modifies objs, s`at
    ensures if ok then IndexRead(s, objs, i + 1, baseOffs, start) else IndexFront(s.ver, start, i + 1) == None
  {
    hide StrFront, Narrow, BaseOffs, Add32, Offs;
    ghost var was := objs[..i];
    var name := s.ReadSafeStr();
    if name.None? {
      return false, 0;
    }
    var offset := s.ReadInt();
    if offset.None? {
      return false, 0;
    }
    objs[i] := PycObject(name.value, offset.value, []);
    assert objs[..i + 1] == was + [objs[i]];
    TotalsStep(was, objs[i]);
    ok, baseOffs := true, Add32(baseOffs0, |name.value| + 6);
  }

  /** The loop that reads the index; the position ends behind it. */
  method ReadIndex(s: FileStream, objs: array<PycObject>, n: nat) returns (ok: bool, baseOffs: UInt32)
    requires n <= objs.Length && s.at <= |s.data|
    modifies objs, s`at
    ensures if ok then IndexRead(s, objs, n, baseOffs, old(s.Rest())) else IndexFront(s.ver, old(s.Rest()), n) == None
  {
    ghost var start := s.Rest();
    ok, baseOffs := true, 4;
    assert objs[..0] == [];
    assert IndexRead(s, objs, 0, baseOffs, start);
    hide IndexRead, IndexFront;
    var i := 0;
    while i < n
      invariant i <= n && ok && IndexRead(s, objs, i, baseOffs, start)
    {
      ok, baseOffs := ReadEntry(s, objs, i, baseOffs, start);
      if !ok {
        IndexFails(s.ver, start, i + 1, n);
        return;
      }
      i := i + 1;
    }
  }

  /** Reads the size word and the body at the position, which is left behind the body. */
  method ReadBody(s: FileStream) returns (data: Option<seq<Octet>>, truncated: bool)
    modifies s`at
    ensures data == BodyAt(s.data, old(s.at)) && truncated == Overruns(s.data, old(s.at))
    ensures data.Some? ==> s.at == old(s.at) + 4 + |data.value|
  {
    hide Narrow;
    ghost var at := s.at;
    truncated := false;
    if at + 4 <= |s.data| {
      assert s.data[at..][..4] == s.data[at..at + 4];
    }
    var told := s.ReadInt();
    if told.None? {
      return None, false;
    }
    var size := told.value;
    if Add32(s.Pos(), size) > s.Size() {
      truncated := true;
      size := Sub32(s.Size(), s.Pos());
    }
    if s.at + size <= |s.data| {
      assert s.data[s.at..][..size] == s.data[s.at..s.at + size];
    }
    data := s.Read(size);
  }

  /** The state of the loop that rebases old records, after i of them; os are the records as the index has them. */
  ghost predicate RebasedSoFar(s: FileStream, objs: array<PycObject>, os: seq<PycObject>, i: nat, oldBase: UInt32,
                               offs: UInt32)
    reads s, objs
  {
    && i <= |os| <= objs.Length && Rebased(s.data, os, oldBase, i) == Some(objs[..i])
    && (forall j :: i <= j < |os| ==> objs[j] == os[j])
    && offs == Offs(objs[..i], i) && BaseOffs(objs[..i], i) == BaseOffs(os, i)
  }

  /** One round of the loop that rebases old records. */
  method RebaseEntry(s: FileStream, objs: array<PycObject>, i: nat, oldBase: UInt32, offs0: UInt32,
                     ghost os: seq<PycObject>)
    returns (ok: bool, offs: UInt32)
    requires i < |os| && RebasedSoFar(s, objs, os, i, oldBase, offs0)
    modifies objs, s`at
    ensures if ok then RebasedSoFar(s, objs, os, i + 1, oldBase, offs) else Rebased(s.data, os, oldBase, i + 1) == None
  {
    BaseOffsStep(os, i + 1);
    hide BodyAt, Overruns, Sub32, Offs, BaseOffs, Add32;
    ghost var was := objs[..i];
    s.Seek(objs[i].offset);
    var data, truncated := ReadBody(s);
    if data.None? {
      return false, 0;
    }
    objs[i] := objs[i].(offset := Sub32(objs[i].offset, oldBase), data := data.value);
    assert objs[..i + 1] == was + [objs[i]];
    TotalsStep(was, objs[i]);
    ok, offs := true, Add32(offs0, |data.value| + 4);
  }

  /** The loop that reads the old bodies and rebases the old offsets in place. */
  method RebaseObjects(s: FileStream, objs: array<PycObject>, n: nat, oldBase: UInt32) returns (ok: bool, offs: UInt32)
    requires n <= objs.Length
    modifies objs, s`at
    ensures var os := old(objs[..n]);
      if ok then RebasedSoFar(s, objs, os, n, oldBase, offs) else Rebased(s.data, os, oldBase, n) == None
  {
    ghost var os := objs[..n];
    ok, offs := true, 0;
    assert objs[..0] == [];
    assert RebasedSoFar(s, objs, os, 0, oldBase, offs);
    hide RebasedSoFar, Rebased;
    var i := 0;
    while i < n
      invariant i <= n && ok && RebasedSoFar(s, objs, os, i, oldBase, offs)
    {
      ok, offs := RebaseEntry(s, objs, i, oldBase, offs, os);
      if !ok {
        RebasedFails(s.data, os, oldBase, i + 1, n);
        return;
      }
      i := i + 1;
    }
  }

  /** Reads the old records of an archive behind its count: the index, then the bodies. */
  method ReadOld(s: FileStream, objs: array<PycObject>, n: nat) returns (ok: bool, offs: UInt32, baseOffs: UInt32)
    requires n <= objs.Length && s.at <= |s.data|
    modifies objs, s`at
    ensures match IndexFront(s.ver, old(s.Rest()), n)
      case None => !ok
      case Some((os, rest)) =>
        match Rebased(s.data, os, (|s.data| - |rest|) % WORDS, n)
        case None => !ok
        case Some(us) => ok && us == objs[..n] && offs == Offs(us, n) && baseOffs == BaseOffs(us, n)
  {
    hide IndexFront, Rebased, BaseOffs, Offs;
    ok, baseOffs := ReadIndex(s, objs, n);
    if !ok {
      return false, 0, 0;
    }
    var oldBase := s.Pos();
    ok, offs := RebaseObjects(s, objs, n, oldBase);
  }

  /** The action -a: packs compiled scripts behind those of an archive. */
  method AddToPak(ver: Version, sep: Octet, pak: seq<Octet>, infiles: seq<File>) returns (out: Option<seq<Octet>>)
    ensures out == match Named(infiles, sep) case None => None case Some(fs) => Added(ver, pak, fs)
    ensures !AllPyc(infiles) ==> out == None
  {
    OnlyPyc(infiles, sep);
    hide AllPyc, WithFiles, WithInputs, Named, Image, IndexFront, Rebased, Narrow, BaseOffs, Offs;
    var s := new FileStream(ver, pak);
    assert pak[0..] == pak;
    var count := s.ReadInt();
    if count.None? {
      return None;
    }
    var n := count.value;
    var objs := new PycObject[n + |infiles|](_ => PycObject([], 0, []));
    var ok, offs, baseOffs := ReadOld(s, objs, n);
    if !ok {
      return None;
    }
    AllInputs(objs[..n], infiles, sep);
    ok, baseOffs := AppendFiles(objs, n, infiles, sep, offs, baseOffs);
    if !ok {
      return None;
    }
    var image := WritePak(ver, objs, baseOffs);
    out := Some(image);
  }

  lemma {:induction false} ExtractionStops(s: seq<Octet>, os: seq<PycObject>, at: nat, m: nat, n: nat)
    requires m <= n <= |os| && !ExtractedUpTo(s, os, at, m).ok
    ensures ExtractedUpTo(s, os, at, n) == ExtractedUpTo(s, os, at, m)
  {
    hide BodyAt, Overruns;
    if m == n {
    } else {
      ExtractionStops(s, os, at, m, n - 1);
    }
  }

  lemma ExtractOneIs(s: seq<Octet>, o: PycObject, x: Extraction, start: nat)
    requires x.ok && start == if o.offset != x.at % WORDS then o.offset else x.at
    ensures var y, b := ExtractOne(s, o, x), BodyAt(s, start);
      && y.ok == b.Some? && y.warnings == x.warnings + (if Overruns(s, start) then 1 else 0)
      && y.entries == x.entries + (if b.Some? then [Entry(o.name, b.value)] else [])
      && (b.Some? ==> y.at == start + 4 + |b.value|)
  {
    hide BodyAt, Overruns;
  }

  /** Where and how files are extracted; clock tells the time when file i is written. */
  datatype Target = Target(outdir: seq<Octet>, sep: Octet, magic: UInt32, clock: nat -> UInt32)

  /** The headers of extracted files. */
  predicate Headed(files: seq<File>, to: Target) {
    forall i :: 0 <= i < |files| ==>
      |files[i].content| >= 8 && files[i].content[..8] == PutInt(4, to.magic) + PutInt(4, to.clock(i))
  }

  /** The variable outdir after i rounds: the loop lengthens it by a separator each time. */
  function Directory(to: Target, i: nat): seq<Octet> {
    if to.outdir == [] then [] else to.outdir + Repeat<Octet>(to.sep, i)
  }

  /** The state of the extraction loop, after i entries; os are the records as the index has them. */
  ghost predicate ExtractedSoFar(s: FileStream, objs: array<PycObject>, os: seq<PycObject>, start: nat, i: nat,
                                 files: seq<File>, to: Target, warnings: nat)
    reads s, objs
  {
    && i <= |os| == objs.Length && (forall j :: i <= j < |os| ==> objs[j] == os[j])
    && |files| == i && Headed(files, to)
    && var x := ExtractedUpTo(s.data, os, start, i);
       x.ok && x.at == s.at && warnings == x.warnings && Extracts(files, x.entries, to.outdir, to.sep)
  }

  /** One round of the extraction loop: the record is completed in place, and a file is written. */
  method ExtractEntry(s: FileStream, objs: array<PycObject>, i: nat, to: Target, dir0: seq<Octet>,
                      ghost os: seq<PycObject>, ghost start: nat, files0: seq<File>, warnings0: nat)
    returns (ok: bool, dir: seq<Octet>, files: seq<File>, warnings: nat)
    requires i < |os| && ExtractedSoFar(s, objs, os, start, i, files0, to, warnings0) && dir0 == Directory(to, i)
    modifies s`at, objs
    ensures ok ==> ExtractedSoFar(s, objs, os, start, i + 1, files, to, warnings) && dir == Directory(to, i + 1)
    ensures !ok ==>
      var x := ExtractedUpTo(s.data, os, start, i + 1);
      !x.ok && warnings == x.warnings && Extracts(files, x.entries, to.outdir, to.sep) && Headed(files, to)
  {
    hide ExtractOne, BodyAt, Overruns, PutInt, OutPath, Directory, Extracts, Headed;
    ghost var x := ExtractedUpTo(s.data, os, start, i);
    if objs[i].offset != s.Pos() {
      s.Seek(objs[i].offset);
    }
    ExtractOneIs(s.data, os[i], x, s.at);
    assert x.entries + [] == x.entries;
    var data, truncated := ReadBody(s);
    warnings := warnings0 + if truncated then 1 else 0;
    if data.None? {
      return false, dir0, files0, warnings;
    }
    objs[i] := objs[i].(data := data.value);
    dir := if dir0 != [] then dir0 + [to.sep] else dir0;
    DirectoryStep(to, i, objs[i].name);
    var out := WriteFile(to, i, data.value);
    ok, files := true, files0 + [File(dir + (objs[i].name + PYC[2..]), out)];
    OneMoreFile(files0, x.entries, files[i], Entry(os[i].name, data.value), to);
  }

  lemma OneMoreFile(files: seq<File>, es: seq<Entry>, file: File, e: Entry, to: Target)
    requires Extracts(files, es, to.outdir, to.sep) && Headed(files, to)
    requires file.path == OutPath(to.outdir, to.sep, |files|, e.name)
    requires |file.content| == 8 + |e.body| && file.content[8..] == e.body
    requires file.content[..8] == PutInt(4, to.magic) + PutInt(4, to.clock(|files|))
    ensures Extracts(files + [file], es + [e], to.outdir, to.sep) && Headed(files + [file], to)
  {
    hide OutPath, PutInt;
  }

  /** The content of the file for entry i. */
  method WriteFile(to: Target, i: nat, data: seq<Octet>) returns (content: seq<Octet>)
    ensures |content| == 8 + |data| && content[8..] == data
    ensures content[..8] == PutInt(4, to.magic) + PutInt(4, to.clock(i))
  {
    hide PutInt;
    var out := new FileStream(Prime(Standard()), []);
    out.Write(PutInt(4, to.magic));
    out.Write(PutInt(4, to.clock(i)));
    out.Write(data);
    content := out.data;
  }

  lemma DirectoryStep(to: Target, i: nat, name: seq<Octet>)
    ensures Directory(to, i + 1) == if Directory(to, i) != [] then Directory(to, i) + [to.sep] else []
    ensures Directory(to, i + 1) + (name + PYC[2..]) == OutPath(to.outdir, to.sep, i, name)
  {
    assert Repeat<Octet>(to.sep, i + 1) == Repeat<Octet>(to.sep, i) + [to.sep];
    assert to.outdir + Repeat<Octet>(to.sep, i) + [to.sep] == to.outdir + (Repeat<Octet>(to.sep, i) + [to.sep]);
  }

  /**
    * The action -x: writes a file for every entry, as far as the archive can be read, each with the magic number and
    * the time of its writing in the header, and warns when it truncates.
    */
  method ExtractPak(ver: Version, pak: seq<Octet>, to: Target) returns (files: seq<File>, ok: bool, warnings: nat)
    ensures var x := Extracted(ver, pak);
      Extracts(files, x.entries, to.outdir, to.sep) && ok == x.ok && warnings == x.warnings
    ensures Headed(files, to)
  {
    hide IndexFront, Narrow, BaseOffs, ExtractOne, PutInt;
    var s := new FileStream(ver, pak);
    assert pak[0..] == pak;
    var count := s.ReadInt();
    if count.None? {
      return [], false, 0;
    }
    var objs := new PycObject[count.value](_ => PycObject([], 0, []));
    var baseOffs;
    ok, baseOffs := ReadIndex(s, objs, objs.Length);
    if !ok {
      return [], false, 0;
    }
    ghost var os, start := objs[..], s.at;
    assert os == objs[..objs.Length];
    assert Extracted(ver, pak) == ExtractedUpTo(pak, os, start, |os|);
    ok, files, warnings := ExtractEntries(s, objs, to, os);
  }

  /** The loop of the extraction. */
  method ExtractEntries(s: FileStream, objs: array<PycObject>, to: Target, ghost os: seq<PycObject>)
    returns (ok: bool, files: seq<File>, warnings: nat)
    requires os == objs[..]
    modifies s`at, objs
    ensures var x := ExtractedUpTo(s.data, os, old(s.at), |os|);
      Extracts(files, x.entries, to.outdir, to.sep) && ok == x.ok && warnings == x.warnings
    ensures Headed(files, to)
  {
    ok, files, warnings := true, [], 0;
    ghost var start := s.at;
    var dir := to.outdir;
    assert ExtractedSoFar(s, objs, os, start, 0, files, to, warnings);
    assert dir == Directory(to, 0);
    hide ExtractedUpTo, Extracts, Headed, Directory;
    var i := 0;
    while i < objs.Length
      invariant i <= objs.Length && ok && dir == Directory(to, i)
      invariant ExtractedSoFar(s, objs, os, start, i, files, to, warnings)
    {
      hide ExtractedSoFar;
      ok, dir, files, warnings := ExtractEntry(s, objs, i, to, dir, os, start, files, warnings);
      if !ok {
        ExtractionStops(s.data, os, start, i + 1, |os|);
        return;
      }
      i := i + 1;
    }
  }

  /** Packing the files that extraction wrote, in whatever directory, restores the archive byte for byte. */
  method ExtractAndCreate(ver: Version, pak: seq<Octet>, to: Target, ghost es: seq<Entry>)
    returns (out: Option<seq<Octet>>)
    requires Fits(ver, es) && AllReadable(ver, es) && pak == Archive(ver, es)
    requires Separator(to.sep) && forall e :: e in es ==> IsStored(e.name, to.sep)
    ensures out == Some(pak)
  {
    hide Archive, Extracted, Created, Fits, AllReadable, IsStored, Extracts, Headed;
    var files, ok, warnings := ExtractPak(ver, pak, to);
    out := CreatePak(ver, to.sep, files);
    ExtractIsInverse(ver, es);
    ExtractsCount(files, es, to.outdir, to.sep);
    assert es[..|es|] == es;
    NamedExtracts(files, es, to.outdir, to.sep, |es|);
    CreateOfExtract(ver, es, Named(files, to.sep).value);
  }

  lemma ExtractsCount(files: seq<File>, es: seq<Entry>, outdir: seq<Octet>, sep: Octet)
    requires Extracts(files, es, outdir, sep)
    ensures |files| == |es|
  {
  }

  /** Packing scripts in two steps gives the same archive as packing them at once. */
  method CreateThenAdd(ver: Version, sep: Octet, xs: seq<File>, ys: seq<File>)
    returns (stepwise: Option<seq<Octet>>, atOnce: Option<seq<Octet>>)
    requires Named(xs, sep).Some? && Named(ys, sep).Some?
    requires Complete(Named(xs, sep).value) && Complete(Named(ys, sep).value)
    requires Fits(ver, Entries(Named(xs, sep).value)) && AllReadable(ver, Entries(Named(xs, sep).value))
    ensures stepwise == atOnce && stepwise.Some?
  {
    hide Created, Added, Fits, AllReadable, Complete, Named;
    ghost var fs, gs := Named(xs, sep).value, Named(ys, sep).value;
    NamedAppend(xs, ys, sep);
    AddIsCreate(ver, fs, gs);
    EntriesAppend(fs, gs);
    CreatedIsArchive(ver, fs + gs);
    var first := CreatePak(ver, sep, xs);
    stepwise := AddToPak(ver, sep, first.value, ys);
    atOnce := CreatePak(ver, sep, xs + ys);
  }
}
