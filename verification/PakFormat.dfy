/**
  * The layout of script archives: a count, an index of names and offsets, then for each file its size and its body.
  * The archive of a list of entries is defined here by where things stand in it; beside it stands what the packer
  * computes in 32-bit arithmetic from name and body sizes, and what it reads back.
  */
module PakFormat {
  import opened LittleEndian
  import opened SafeString
  import opened Wrappers

  const WORDS: nat := 0x1_0000_0000

  /** One file in an archive. */
  datatype Entry = Entry(name: seq<Octet>, body: seq<Octet>)

  /** The bytes that the first n files take behind the index. */
  function BodyOffset(es: seq<Entry>, n: nat): nat
    requires n <= |es|
  {
    if n == 0 then 0 else BodyOffset(es, n - 1) + 4 + |es[n - 1].body|
  }

  /** The bytes that the first n files take in the index. */
  function IndexSize(ver: Version, es: seq<Entry>, n: nat): nat
    requires n <= |es|
  {
    if n == 0 then 0 else IndexSize(ver, es, n - 1) + |StrBytes(ver, es[n - 1].name)| + 4
  }

  /** Where the size word of file n stands; the end of the archive if there is none. */
  function Position(ver: Version, es: seq<Entry>, n: nat): nat
    requires n <= |es|
  {
    4 + IndexSize(ver, es, |es|) + BodyOffset(es, n)
  }

  function IndexUpTo(ver: Version, es: seq<Entry>, n: nat): (s: seq<Octet>)
    requires n <= |es|
    ensures |s| == IndexSize(ver, es, n)
  {
    if n == 0 then [] else
      IndexUpTo(ver, es, n - 1) + (StrBytes(ver, es[n - 1].name) + PutInt(4, Position(ver, es, n - 1)))
  }

  function BodiesUpTo(es: seq<Entry>, n: nat): (s: seq<Octet>)
    requires n <= |es|
    ensures |s| == BodyOffset(es, n)
  {
    if n == 0 then [] else BodiesUpTo(es, n - 1) + (PutInt(4, |es[n - 1].body|) + es[n - 1].body)
  }

  /** The archive of a list of files: each offset in the index is the position of the size word of its file. */
  function Archive(ver: Version, es: seq<Entry>): (s: seq<Octet>)
    ensures |s| == Position(ver, es, |es|)
  {
    PutInt(4, |es|) + IndexUpTo(ver, es, |es|) + BodiesUpTo(es, |es|)
  }

  /** No name is too long for its length field, and the archive is below 4 GiB. */
  predicate Fits(ver: Version, es: seq<Entry>) {
    (forall e :: e in es ==> |e.name| <= Limit(ver)) && |Archive(ver, es)| < WORDS
  }

  predicate AllReadable(ver: Version, es: seq<Entry>) { forall e :: e in es ==> Readable(ver, e.name) }

  /** The packer's record of one file; its size is that of data. */
  datatype PycObject = PycObject(name: seq<Octet>, offset: UInt32, data: seq<Octet>)

  /** A compiled script: its name in the archive, and the contents of the file. */
  datatype PycFile = PycFile(name: seq<Octet>, content: seq<Octet>)

  function Add32(a: nat, b: nat): UInt32 { (a + b) % WORDS }

  /** a - b in 32 bits. */
  function Sub32(a: UInt32, b: UInt32): UInt32 { (a + WORDS - b) % WORDS }

  /** The variable baseOffs after n files. */
  function BaseOffs(os: seq<PycObject>, n: nat): UInt32
    requires n <= |os|
  {
    if n == 0 then 4 else Add32(BaseOffs(os, n - 1), |os[n - 1].name| + 6)
  }

  /** The variable offs after n files. */
  function Offs(os: seq<PycObject>, n: nat): UInt32
    requires n <= |os|
  {
    if n == 0 then 0 else Add32(Offs(os, n - 1), |os[n - 1].data| + 4)
  }

  function IndexImage(ver: Version, os: seq<PycObject>, base: UInt32, n: nat): seq<Octet>
    requires n <= |os|
  {
    if n == 0 then [] else
      IndexImage(ver, os, base, n - 1) + (StrBytes(ver, os[n - 1].name) + PutInt(4, Add32(base, os[n - 1].offset)))
  }

  function BodiesImage(os: seq<PycObject>, n: nat): seq<Octet>
    requires n <= |os|
  {
    if n == 0 then [] else BodiesImage(os, n - 1) + (PutInt(4, |os[n - 1].data|) + os[n - 1].data)
  }

  /** What the packer writes. */
  function Image(ver: Version, os: seq<PycObject>): seq<Octet> {
    PutInt(4, |os|) + IndexImage(ver, os, BaseOffs(os, |os|), |os|) + BodiesImage(os, |os|)
  }

  /** The body of a compiled script starts behind eight bytes of header; the size wraps for shorter files. */
  function PycBody(content: seq<Octet>): Option<seq<Octet>> {
    var size := Sub32(|content| % WORDS, 8);
    if 8 + size <= |content| then Some(content[8..8 + size]) else None
  }

  lemma PycBodyOfFile(content: seq<Octet>)
    requires |content| < WORDS
    ensures PycBody(content) == if |content| >= 8 then Some(content[8..]) else None
  {
    if |content| >= 8 {
      assert content[8..|content|] == content[8..];
    }
  }

  /** The records after n more files; None where a file is too short. */
  function WithFiles(os: seq<PycObject>, files: seq<PycFile>, n: nat): (r: Option<seq<PycObject>>)
    requires n <= |files|
    ensures r.Some? ==> |r.value| == |os| + n
  {
    if n == 0 then Some(os) else
      match WithFiles(os, files, n - 1)
      case None => None
      case Some(us) =>
        match PycBody(files[n - 1].content)
        case None => None
        case Some(b) => Some(us + [PycObject(files[n - 1].name, Offs(us, |us|), b)])
  }

  /** The archive that the packer creates from files. */
  function Created(ver: Version, files: seq<PycFile>): Option<seq<Octet>> {
    match WithFiles([], files, |files|)
    case None => None
    case Some(os) => Some(Image(ver, os))
  }

  /** The first n index entries at the front of s, and what follows them; the bodies are still missing. */
  function IndexFront(ver: Version, s: seq<Octet>, n: nat): (r: Option<(seq<PycObject>, seq<Octet>)>)
    ensures r.Some? ==> |r.value.0| == n && |r.value.1| <= |s|
  {
    if n == 0 then Some(([], s)) else
      match IndexFront(ver, s, n - 1)
      case None => None
      case Some((os, rest)) =>
        match StrFront(ver, rest)
        case None => None
        case Some((name, rest')) =>
          match Take(rest', 4)
          case None => None
          case Some((b, rest'')) => Some((os + [PycObject(name, Narrow(b), [])], rest''))
  }

  /** Whether the body whose size word is at a position seems to run over the end, with 32-bit positions. */
  predicate Overruns(s: seq<Octet>, at: nat) {
    at + 4 <= |s| && Add32((at + 4) % WORDS, Narrow(s[at..at + 4])) > |s| % WORDS
  }

  /** The body whose size word is at a position; one that runs over the end is truncated. */
  function BodyAt(s: seq<Octet>, at: nat): Option<seq<Octet>> {
    if at + 4 > |s| then None else
      var p := at + 4;
      var size := if Overruns(s, at) then Sub32(|s| % WORDS, p % WORDS) else Narrow(s[at..p]);
      if p + size > |s| then None else Some(s[p..p + size])
  }

  /** The old records after their bodies are read: offsets count from the end of the index. */
  function Rebased(s: seq<Octet>, os: seq<PycObject>, oldBase: UInt32, n: nat): (r: Option<seq<PycObject>>)
    requires n <= |os|
    ensures r.Some? ==> |r.value| == n
  {
    if n == 0 then Some([]) else
      match Rebased(s, os, oldBase, n - 1)
      case None => None
      case Some(us) =>
        match BodyAt(s, os[n - 1].offset)
        case None => None
        case Some(b) => Some(us + [PycObject(os[n - 1].name, Sub32(os[n - 1].offset, oldBase), b)])
  }

  /** The archive that the packer makes of an old one and more files. */
  function Added(ver: Version, s: seq<Octet>, files: seq<PycFile>): Option<seq<Octet>> {
    match Take(s, 4)
    case None => None
    case Some((b, rest)) =>
      match IndexFront(ver, rest, Narrow(b))
      case None => None
      case Some((os, rest')) =>
        match Rebased(s, os, (|s| - |rest'|) % WORDS, |os|)
        case None => None
        case Some(us) =>
          match WithFiles(us, files, |files|)
          case None => None
          case Some(vs) => Some(Image(ver, vs))
  }

  /**
    * The state of an extraction: the files written so far, the position, whether nothing failed yet, and how often the
    * position had to be moved and a body was truncated.
    */
  datatype Extraction = Extraction(entries: seq<Entry>, at: nat, ok: bool, seeks: nat, warnings: nat)

  function ExtractOne(s: seq<Octet>, o: PycObject, x: Extraction): Extraction {
    if !x.ok then x else
      var seek := o.offset != x.at % WORDS;
      var start := if seek then o.offset else x.at;
      var seeks := x.seeks + if seek then 1 else 0;
      var warnings := x.warnings + if Overruns(s, start) then 1 else 0;
      match BodyAt(s, start)
      case None => Extraction(x.entries, start, false, seeks, warnings)
      case Some(b) => Extraction(x.entries + [Entry(o.name, b)], start + 4 + |b|, true, seeks, warnings)
  }

  function ExtractedUpTo(s: seq<Octet>, os: seq<PycObject>, at: nat, n: nat): Extraction
    requires n <= |os|
  {
    if n == 0 then Extraction([], at, true, 0, 0) else ExtractOne(s, os[n - 1], ExtractedUpTo(s, os, at, n - 1))
  }

  /** The extraction of a whole archive. */
  function Extracted(ver: Version, s: seq<Octet>): Extraction {
    match Take(s, 4)
    case None => Extraction([], 0, false, 0, 0)
    case Some((b, rest)) =>
      match IndexFront(ver, rest, Narrow(b))
      case None => Extraction([], 0, false, 0, 0)
      case Some((os, rest')) => ExtractedUpTo(s, os, |s| - |rest'|, |os|)
  }
}
