/**
  * The wire format of schema-described messages as functions: what sendMsg writes, what NCMessageSize counts and what
  * recvMsg reads, field by field, with the element size and count that a count field leaves for the next variable
  * array.
  */
module NetCodec {
  import opened LittleEndian
  import opened Wrappers

  datatype FieldType =
    | Integer | Float | Str | Data | Ptr | VarPtr | RawData | RawPtr | RawVarPtr | VarCount

  datatype Field = Field(kind: FieldType, count: UInt32, size: UInt32) {
    /** A single number, or an array of them. */
    predicate IsScalar() { (kind.Integer? || kind.Float?) && count == 0 }

    predicate IsArray() { (kind.Integer? || kind.Float?) && count != 0 }

    predicate IsVariable() { kind.VarPtr? || kind.RawVarPtr? }

    predicate IsFixed() { kind.Data? || kind.Ptr? || kind.RawData? || kind.RawPtr? }

    /** Whether the slot of this field holds a pointer. */
    predicate IsPointer() { !IsScalar() && !kind.VarCount? }

    /** The number of bytes of a fixed array, in 32-bit arithmetic. */
    function FixedSize(): nat { Mul32(size, count) }

    /** NCAllocMessage allocates arrays of numbers of these sizes only. */
    predicate Allocatable() { IsArray() ==> size == 1 || size == 2 || size == 4 }

    /** What the static tables keep to: numbers of 1, 2 or 4 bytes, arrays that fit 32 bits. */
    predicate WellFormed() {
      kind.Integer? || kind.Float? ==> (size == 1 || size == 2 || size == 4) && size * count < 0x1_0000_0000
    }
  }

  datatype Msg = Msg(id: UInt32, fields: seq<Field>)

  predicate WellFormed(fields: seq<Field>) { forall f :: f in fields ==> f.WellFormed() }

  /** The product of two unsigned ints. */
  function Mul32(a: UInt32, b: UInt32): UInt32 { (a * b) % 0x1_0000_0000 }

  /** The content of a message slot. */
  datatype Value = Number(n: UInt32) | Text(units: seq<UInt16>) | Bytes(bytes: seq<Octet>)

  /** The two local variables that carry over from a count field to the next variable array. */
  datatype Regs = Regs(size: UInt32, count: UInt32)

  function Step(f: Field, v: Value, r: Regs): Regs {
    if f.kind.VarCount? && v.Number? then Regs(f.size, v.n)
    else if f.IsVariable() then Regs(0, 0)
    else r
  }

  /** v is data that a program may put in the slot of field f. */
  predicate Fits(f: Field, v: Value, r: Regs) {
    if f.IsScalar() || f.kind.VarCount? then v.Number?
    else if f.kind.Str? then v.Text? && 0 !in v.units
    else if f.IsVariable() then v.Bytes? && |v.bytes| == Mul32(r.size, r.count)
    else if f.IsArray() then v.Bytes? && |v.bytes| == f.size * f.count
    else v.Bytes? && |v.bytes| == f.FixedSize()
  }

  /** The length that fits the two-byte length field of a string. */
  function Length16(units: seq<UInt16>): UInt16 { |units| % 0x1_0000 }

  /** What sendMsg writes for one field. */
  function FieldBytes(f: Field, v: Value, r: Regs): seq<Octet>
    requires Fits(f, v, r)
  {
    if f.IsScalar() then PutInt(f.size, v.n)
    else if f.kind.VarCount? then PutInt(4, v.n)
    else if f.kind.Str? then PutInt(2, Length16(v.units)) + PutUnits(v.units[..Length16(v.units)])
    else v.bytes
  }

  /** What NCMessageSize counts for one field. */
  function FieldSize(f: Field, v: Value, r: Regs): nat
    requires Fits(f, v, r)
  {
    if f.IsScalar() then f.size
    else if f.kind.VarCount? then 4
    else if f.kind.Str? then 2 + |v.units| * 2
    else if f.IsVariable() then Mul32(r.count, r.size)
    else Mul32(f.size, f.count)
  }

  /** The registers after the first n fields. */
  function RegsAt(fs: seq<Field>, vs: seq<Value>, n: nat): Regs
    requires n <= |fs| && n <= |vs|
  {
    if n == 0 then Regs(0, 0) else Step(fs[n - 1], vs[n - 1], RegsAt(fs, vs, n - 1))
  }

  predicate FitsUpTo(fs: seq<Field>, vs: seq<Value>, n: nat)
    requires n <= |fs| && n <= |vs|
  {
    forall i :: 0 <= i < n ==> Fits(fs[i], vs[i], RegsAt(fs, vs, i))
  }

  /** The data of a whole message. */
  predicate Matches(fs: seq<Field>, vs: seq<Value>) {
    |vs| == |fs| && FitsUpTo(fs, vs, |fs|)
  }

  function EncodeUpTo(fs: seq<Field>, vs: seq<Value>, n: nat): seq<Octet>
    requires n <= |fs| && n <= |vs| && FitsUpTo(fs, vs, n)
  {
    if n == 0 then [] else EncodeUpTo(fs, vs, n - 1) + FieldBytes(fs[n - 1], vs[n - 1], RegsAt(fs, vs, n - 1))
  }

  function Encode(fs: seq<Field>, vs: seq<Value>): seq<Octet>
    requires Matches(fs, vs)
  {
    EncodeUpTo(fs, vs, |fs|)
  }

  function SizeUpTo(fs: seq<Field>, vs: seq<Value>, n: nat): nat
    requires n <= |fs| && n <= |vs| && FitsUpTo(fs, vs, n)
  {
    if n == 0 then 0 else SizeUpTo(fs, vs, n - 1) + FieldSize(fs[n - 1], vs[n - 1], RegsAt(fs, vs, n - 1))
  }

  function Size(fs: seq<Field>, vs: seq<Value>): nat
    requires Matches(fs, vs)
  {
    SizeUpTo(fs, vs, |fs|)
  }

  /** How many bytes recvMsg reads for an array. */
  function DataSize(f: Field, r: Regs): nat {
    if f.IsVariable() then Mul32(r.size, r.count) else if f.IsArray() then f.size * f.count else f.FixedSize()
  }

  /** What recvMsg reads for one field, and what it leaves. */
  function DecodeField(f: Field, r: Regs, s: seq<Octet>): Option<(Value, seq<Octet>)> {
    if f.IsScalar() then
      if f.size > 4 then None else
      match Take(s, f.size)
      case None => None
      case Some((b, rest)) => Some((Number(Narrow(b)), rest))
    else if f.kind.VarCount? then
      match Take(s, 4)
      case None => None
      case Some((b, rest)) => Some((Number(Narrow(b)), rest))
    else if f.kind.Str? then
      match Take(s, 2)
      case None => None
      case Some((b, rest)) =>
        match Take(rest, 2 * Narrow(b))
        case None => None
        case Some((us, rest')) => Some((Text(GetUnits(us)), rest'))
    else
      match Take(s, DataSize(f, r))
      case None => None
      case Some((b, rest)) => Some((Bytes(b), rest))
  }

  datatype Decoded = Decoded(values: seq<Value>, regs: Regs, rest: seq<Octet>)

  function DecodeUpTo(fs: seq<Field>, s: seq<Octet>, n: nat): (d: Option<Decoded>)
    requires n <= |fs|
    ensures d.Some? ==> |d.value.values| == n
  {
    if n == 0 then Some(Decoded([], Regs(0, 0), s)) else
      match DecodeUpTo(fs, s, n - 1)
      case None => None
      case Some(Decoded(vs, r, rest)) =>
        match DecodeField(fs[n - 1], r, rest)
        case None => None
        case Some((v, rest')) => Some(Decoded(vs + [v], Step(fs[n - 1], v, r), rest'))
  }

  /** The values that recvMsg stores, and the bytes it leaves in the stream; None when the stream is too short. */
  function Decode(fs: seq<Field>, s: seq<Octet>): Option<(seq<Value>, seq<Octet>)> {
    match DecodeUpTo(fs, s, |fs|)
    case None => None
    case Some(d) => Some((d.values, d.rest))
  }

  /** What survives the trip of a slot: numbers are cut to the width of their field. */
  function Cut(f: Field, v: Value): Value {
    if f.IsScalar() && v.Number? then
      if f.size == 1 then Number(v.n % 0x100) else if f.size == 2 then Number(v.n % 0x1_0000) else v
    else v
  }

  function CutAll(fs: seq<Field>, vs: seq<Value>): (r: seq<Value>)
    requires |vs| <= |fs|
    ensures |r| == |vs|
  {
    seq(|vs|, i requires 0 <= i < |vs| => Cut(fs[i], vs[i]))
  }

  /** What the receiver makes of a slot: besides, a string is cut to the length that its length field tells. */
  function Received(f: Field, v: Value): Value {
    if v.Text? then Text(v.units[..Length16(v.units)]) else Cut(f, v)
  }

  function ReceivedAll(fs: seq<Field>, vs: seq<Value>): (r: seq<Value>)
    requires |vs| <= |fs|
    ensures |r| == |vs|
  {
    seq(|vs|, i requires 0 <= i < |vs| => Received(fs[i], vs[i]))
  }

  /** The strings of the message have fewer than 65536 code units. */
  predicate ShortStrings(vs: seq<Value>) {
    forall v :: v in vs ==> v.Text? ==> |v.units| < 0x1_0000
  }

  lemma Mul32Commutes(a: UInt32, b: UInt32)
    ensures Mul32(a, b) == Mul32(b, a)
  {
  }

  lemma Mul32Small(a: UInt32, b: UInt32)
    requires a * b < 0x1_0000_0000
    ensures Mul32(a, b) == a * b
  {
  }

  /** The count of NCMessageSize against the bytes of sendMsg for one field. */
  lemma FieldSizeExact(f: Field, v: Value, r: Regs)
    requires f.WellFormed() && Fits(f, v, r)
    ensures |FieldBytes(f, v, r)| <= FieldSize(f, v, r)
    ensures |FieldBytes(f, v, r)| == FieldSize(f, v, r) <==> (v.Text? ==> |v.units| < 0x1_0000)
  {
    Mul32Commutes(r.count, r.size);
    if f.IsArray() {
      Mul32Small(f.size, f.count);
    }
    hide Mul32;
  }

  /** The recursive definitions one step at a time. */
  lemma RegsStep(fs: seq<Field>, vs: seq<Value>, n: nat)
    requires n <= |fs| && n <= |vs|
    ensures RegsAt(fs, vs, n) == if n == 0 then Regs(0, 0) else Step(fs[n - 1], vs[n - 1], RegsAt(fs, vs, n - 1))
  {
    hide Step;
  }

  lemma FitsStep(fs: seq<Field>, vs: seq<Value>, n: nat)
    requires n <= |fs| && n <= |vs|
    ensures n == 0 ==> FitsUpTo(fs, vs, n)
    ensures n > 0 ==>
      (FitsUpTo(fs, vs, n) <==> FitsUpTo(fs, vs, n - 1) && Fits(fs[n - 1], vs[n - 1], RegsAt(fs, vs, n - 1)))
  {
    hide Fits, RegsAt;
  }

  lemma EncodeStep(fs: seq<Field>, vs: seq<Value>, n: nat)
    requires n <= |fs| && n <= |vs| && FitsUpTo(fs, vs, n)
    ensures n == 0 ==> EncodeUpTo(fs, vs, n) == []
    ensures n > 0 ==>
      && FitsUpTo(fs, vs, n - 1) && Fits(fs[n - 1], vs[n - 1], RegsAt(fs, vs, n - 1))
      && EncodeUpTo(fs, vs, n)
      == EncodeUpTo(fs, vs, n - 1) + FieldBytes(fs[n - 1], vs[n - 1], RegsAt(fs, vs, n - 1))
  {
    hide Fits, RegsAt, FieldBytes;
  }

  lemma SizeStep(fs: seq<Field>, vs: seq<Value>, n: nat)
    requires n <= |fs| && n <= |vs| && FitsUpTo(fs, vs, n)
    ensures n > 0 ==>
      && FitsUpTo(fs, vs, n - 1) && Fits(fs[n - 1], vs[n - 1], RegsAt(fs, vs, n - 1))
    ensures SizeUpTo(fs, vs, n) == if n == 0 then 0 else
      SizeUpTo(fs, vs, n - 1) + FieldSize(fs[n - 1], vs[n - 1], RegsAt(fs, vs, n - 1))
  {
    hide Fits, RegsAt, FieldSize;
  }

  lemma DecodeNone(fs: seq<Field>, s: seq<Octet>)
    ensures DecodeUpTo(fs, s, 0) == Some(Decoded([], Regs(0, 0), s)) && [] + s == s
  {
  }

  lemma DecodeStep(fs: seq<Field>, s: seq<Octet>, n: nat)
    requires 0 < n <= |fs|
    ensures DecodeUpTo(fs, s, n).Some? <==>
      && DecodeUpTo(fs, s, n - 1).Some?
      && var d := DecodeUpTo(fs, s, n - 1).value; DecodeField(fs[n - 1], d.regs, d.rest).Some?
    ensures DecodeUpTo(fs, s, n).Some? ==>
      var d := DecodeUpTo(fs, s, n - 1).value;
      var (v, rest) := DecodeField(fs[n - 1], d.regs, d.rest).value;
      DecodeUpTo(fs, s, n).value == Decoded(d.values + [v], Step(fs[n - 1], v, d.regs), rest)
  {
    hide DecodeField, Step;
  }

  lemma MatchesParts(fs: seq<Field>, vs: seq<Value>, n: nat)
    requires Matches(fs, vs) && n <= |fs|
    ensures |vs| == |fs| && FitsUpTo(fs, vs, n)
  {
    hide Fits, RegsAt;
  }

  lemma WellFormedAt(fs: seq<Field>, i: nat)
    requires WellFormed(fs) && i < |fs|
    ensures fs[i].WellFormed()
  {
  }

  lemma ShortStep(vs: seq<Value>, n: nat)
    requires n <= |vs|
    ensures n == 0 ==> ShortStrings(vs[..n])
    ensures n > 0 ==>
      (ShortStrings(vs[..n]) <==>
        ShortStrings(vs[..n - 1]) && (vs[n - 1].Text? ==> |vs[n - 1].units| < 0x1_0000))
  {
    if n > 0 {
      assert vs[..n] == vs[..n - 1] + [vs[n - 1]];
    }
  }

  lemma {:induction false} SizeExactUpTo(fs: seq<Field>, vs: seq<Value>, n: nat)
    requires WellFormed(fs) && n <= |fs| && n <= |vs| && FitsUpTo(fs, vs, n)
    ensures |EncodeUpTo(fs, vs, n)| <= SizeUpTo(fs, vs, n)
    ensures |EncodeUpTo(fs, vs, n)| == SizeUpTo(fs, vs, n) <==> ShortStrings(vs[..n])
  {
    hide *;
    EncodeStep(fs, vs, n);
    SizeStep(fs, vs, n);
    ShortStep(vs, n);
    if n == 0 {
    } else {
      SizeExactUpTo(fs, vs, n - 1);
      WellFormedAt(fs, n - 1);
      FieldSizeExact(fs[n - 1], vs[n - 1], RegsAt(fs, vs, n - 1));
    }
  }

  /**
    * The buffer that sendMsg allocates is never too small, and is filled exactly if and only if no string has 65536
    * code units or more.
    */
  lemma SizeExact(fs: seq<Field>, vs: seq<Value>)
    requires WellFormed(fs) && Matches(fs, vs)
    ensures |Encode(fs, vs)| <= Size(fs, vs)
    ensures |Encode(fs, vs)| == Size(fs, vs) <==> ShortStrings(vs)
  {
    SizeExactUpTo(fs, vs, |fs|);
    assert vs[..|fs|] == vs;
  }

  lemma StringRoundTrip(f: Field, v: Value, r: Regs, rest: seq<Octet>)
    requires f.kind.Str? && Fits(f, v, r)
    ensures DecodeField(f, r, FieldBytes(f, v, r) + rest) == Some((Received(f, v), rest))
  {
    hide PutInt, GetInt, PutUnits, GetUnits, Take;
    var sent := v.units[..Length16(v.units)];
    var us, len := PutUnits(sent), PutInt(2, |sent|);
    WidthRoundTrip(|sent|);
    UnitsRoundTrip(sent);
    assert FieldBytes(f, v, r) + rest == len + (us + rest);
    TakeFront(len, us + rest);
    TakeFront(us, rest);
  }

  /** One field back and forth; the registers move on alike on both sides. */
  lemma FieldRoundTrip(f: Field, v: Value, r: Regs, rest: seq<Octet>)
    requires f.WellFormed() && Fits(f, v, r)
    ensures DecodeField(f, r, FieldBytes(f, v, r) + rest) == Some((Received(f, v), rest))
    ensures Step(f, Received(f, v), r) == Step(f, v, r)
  {
    hide PutInt, GetInt, PutUnits, GetUnits, Take;
    TakeFront(FieldBytes(f, v, r), rest);
    if f.IsScalar() || f.kind.VarCount? {
      WidthRoundTrip(v.n);
    } else if f.kind.Str? {
      StringRoundTrip(f, v, r, rest);
    }
  }

  /** One more field behind those already decoded. */
  lemma ReceivedStep(fs: seq<Field>, vs: seq<Value>, n: nat)
    requires n <= |vs| <= |fs|
    ensures n == 0 ==> ReceivedAll(fs, vs)[..n] == []
    ensures n > 0 ==>
      ReceivedAll(fs, vs)[..n] == ReceivedAll(fs, vs)[..n - 1] + [Received(fs[n - 1], vs[n - 1])]
  {
    hide Received;
  }

  lemma {:induction false} DecodeOfEncodeUpTo(fs: seq<Field>, vs: seq<Value>, n: nat, rest: seq<Octet>)
    requires WellFormed(fs) && Matches(fs, vs) && n <= |fs|
    ensures DecodeUpTo(fs, EncodeUpTo(fs, vs, n) + rest, n)
         == Some(Decoded(ReceivedAll(fs, vs)[..n], RegsAt(fs, vs, n), rest))
  {
    hide *;
    MatchesParts(fs, vs, n);
    EncodeStep(fs, vs, n);
    RegsStep(fs, vs, n);
    ReceivedStep(fs, vs, n);
    if n == 0 {
      DecodeNone(fs, rest);
    } else {
      var f, v, r := fs[n - 1], vs[n - 1], RegsAt(fs, vs, n - 1);
      var b := FieldBytes(f, v, r);
      WellFormedAt(fs, n - 1);
      Chain(EncodeUpTo(fs, vs, n - 1), b, rest);
      DecodeOfEncodeUpTo(fs, vs, n - 1, b + rest);
      FieldRoundTrip(f, v, r, rest);
      DecodeStep(fs, EncodeUpTo(fs, vs, n) + rest, n);
    }
  }

  /** Nothing but a wrapped string length keeps data from arriving as it was cut. */
  lemma ReceivedIsCut(fs: seq<Field>, vs: seq<Value>)
    requires |vs| <= |fs|
    ensures ReceivedAll(fs, vs) == CutAll(fs, vs) <==> ShortStrings(vs)
  {
    var r, c := ReceivedAll(fs, vs), CutAll(fs, vs);
    forall i | 0 <= i < |vs| ensures r[i] == c[i] <==> (vs[i].Text? ==> |vs[i].units| < 0x1_0000) {
      if vs[i].Text? {
        assert vs[i].units[..|vs[i].units|] == vs[i].units;
      }
    }
    if ShortStrings(vs) {
      assert forall i :: 0 <= i < |vs| ==> vs[i] in vs && r[i] == c[i];
    }
    if r == c {
      forall v | v in vs ensures v.Text? ==> |v.units| < 0x1_0000 {
        var i :| 0 <= i < |vs| && vs[i] == v;
        assert r[i] == c[i];
      }
    }
  }

  /**
    * recvMsg against sendMsg: from the payload followed by any further bytes it takes exactly the payload and restores
    * the data, numbers cut to their widths and strings to their wrapped lengths. The strings are whole if and only if
    * none has 65536 code units or more.
    */
  lemma MessageRoundTrip(fs: seq<Field>, vs: seq<Value>, rest: seq<Octet>)
    requires WellFormed(fs) && Matches(fs, vs)
    ensures Decode(fs, Encode(fs, vs) + rest) == Some((ReceivedAll(fs, vs), rest))
    ensures Decode(fs, Encode(fs, vs) + rest) == Some((CutAll(fs, vs), rest)) <==> ShortStrings(vs)
  {
    hide DecodeUpTo, EncodeUpTo, ReceivedAll, CutAll, ShortStrings;
    DecodeOfEncodeUpTo(fs, vs, |fs|, rest);
    assert ReceivedAll(fs, vs)[..|fs|] == ReceivedAll(fs, vs);
    ReceivedIsCut(fs, vs);
  }

  predicate NulFree(vs: seq<Value>) {
    forall v :: v in vs ==> v.Text? ==> 0 !in v.units
  }

  /** A decoded field, written again, is the bytes it came from. */
  lemma FieldConverse(f: Field, r: Regs, s: seq<Octet>)
    requires f.WellFormed() && DecodeField(f, r, s).Some?
    ensures var (v, rest) := DecodeField(f, r, s).value;
      && (Fits(f, v, r) <==> NulFree([v]))
      && (Fits(f, v, r) ==> FieldBytes(f, v, r) + rest == s && (v.Text? ==> |v.units| < 0x1_0000))
  {
    hide PutInt, GetInt, PutUnits, GetUnits, Take, Cap;
    var (v, rest) := DecodeField(f, r, s).value;
    assert v in [v];
    if f.IsScalar() {
      TakeParts(s, f.size);
      PutOfGet(Take(s, f.size).value.0);
    } else if f.kind.VarCount? {
      TakeParts(s, 4);
      PutOfGet(Take(s, 4).value.0);
    } else if f.kind.Str? {
      StringConverse(f, r, s);
      assert v.units[..|v.units|] == v.units;
    } else {
      TakeParts(s, DataSize(f, r));
    }
  }

  lemma StringConverse(f: Field, r: Regs, s: seq<Octet>)
    requires f.kind.Str? && DecodeField(f, r, s).Some?
    ensures var (v, rest) := DecodeField(f, r, s).value;
      v.Text? && |v.units| < 0x1_0000 && PutInt(2, |v.units|) + PutUnits(v.units) + rest == s
  {
    hide PutInt, GetInt, PutUnits, GetUnits, Take, Cap;
    TakeParts(s, 2);
    var (b, tail) := Take(s, 2).value;
    PutOfGet(b);
    Caps();
    TakeParts(tail, 2 * Narrow(b));
    var (us, rest) := Take(tail, 2 * Narrow(b)).value;
    BytesRoundTrip(us);
    assert b + us + rest == b + (us + rest);
  }

  lemma NoValues(fs: seq<Field>)
    ensures RegsAt(fs, [], 0) == Regs(0, 0) && FitsUpTo(fs, [], 0) && NulFree([]) && ShortStrings([])
    ensures EncodeUpTo(fs, [], 0) == []
  {
  }

  lemma OneMore(vs: seq<Value>, v: Value)
    ensures NulFree(vs + [v]) <==> NulFree(vs) && NulFree([v])
    ensures ShortStrings(vs + [v]) <==> ShortStrings(vs) && (v.Text? ==> |v.units| < 0x1_0000)
  {
    assert v in vs + [v];
    assert forall w :: w in vs ==> w in vs + [v];
  }

  lemma {:induction false} EncodeOfDecodeUpTo(fs: seq<Field>, s: seq<Octet>, n: nat)
    requires WellFormed(fs) && n <= |fs| && DecodeUpTo(fs, s, n).Some?
    ensures var d := DecodeUpTo(fs, s, n).value;
      && d.regs == RegsAt(fs, d.values, n)
      && (FitsUpTo(fs, d.values, n) <==> NulFree(d.values))
      && (FitsUpTo(fs, d.values, n) ==> EncodeUpTo(fs, d.values, n) + d.rest == s && ShortStrings(d.values))
  {
    hide *;
    if n == 0 {
      DecodeNone(fs, s);
      NoValues(fs);
    } else {
      DecodeStep(fs, s, n);
      EncodeOfDecodeUpTo(fs, s, n - 1);
      var e, d := DecodeUpTo(fs, s, n - 1).value, DecodeUpTo(fs, s, n).value;
      var (v, rest) := DecodeField(fs[n - 1], e.regs, e.rest).value;
      WellFormedAt(fs, n - 1);
      FieldConverse(fs[n - 1], e.regs, e.rest);
      Extend(fs, e.values, v, n - 1);
      RegsStep(fs, d.values, n);
      FitsStep(fs, d.values, n);
      OneMore(e.values, v);
      if FitsUpTo(fs, d.values, n) {
        EncodeStep(fs, d.values, n);
        Chain(EncodeUpTo(fs, e.values, n - 1), FieldBytes(fs[n - 1], v, e.regs), rest);
      }
    }
  }

  /** The values before a new one count as before. */
  lemma {:induction false} Extend(fs: seq<Field>, vs: seq<Value>, v: Value, n: nat)
    requires n <= |vs| < |fs|
    ensures RegsAt(fs, vs + [v], n) == RegsAt(fs, vs, n)
    ensures FitsUpTo(fs, vs + [v], n) <==> FitsUpTo(fs, vs, n)
    ensures FitsUpTo(fs, vs, n) ==> EncodeUpTo(fs, vs + [v], n) == EncodeUpTo(fs, vs, n)
  {
    hide *;
    RegsStep(fs, vs, n);
    RegsStep(fs, vs + [v], n);
    FitsStep(fs, vs, n);
    FitsStep(fs, vs + [v], n);
    if n == 0 {
    } else {
      Extend(fs, vs, v, n - 1);
      assert (vs + [v])[n - 1] == vs[n - 1];
    }
    if FitsUpTo(fs, vs, n) {
      EncodeStep(fs, vs, n);
      EncodeStep(fs, vs + [v], n);
    }
  }

  /**
    * The converse of the round trip: what was decoded, if no string in it has a NUL, is data that a program may send,
    * and sending it gives back the bytes taken; with a NUL it is not.
    */
  lemma MessageConverse(fs: seq<Field>, s: seq<Octet>)
    requires WellFormed(fs) && Decode(fs, s).Some?
    ensures var (vs, rest) := Decode(fs, s).value;
      && (Matches(fs, vs) <==> NulFree(vs))
      && (Matches(fs, vs) ==> ShortStrings(vs) && Encode(fs, vs) + rest == s)
  {
    EncodeOfDecodeUpTo(fs, s, |fs|);
  }

  /** No payload is a proper beginning of another one of the same schema, and equal payloads arrive alike. */
  lemma PrefixFree(fs: seq<Field>, vs: seq<Value>, ws: seq<Value>)
    requires WellFormed(fs) && Matches(fs, vs) && Matches(fs, ws)
    ensures Encode(fs, vs) <= Encode(fs, ws) ==>
      Encode(fs, vs) == Encode(fs, ws) && ReceivedAll(fs, vs) == ReceivedAll(fs, ws)
  {
    hide Encode, Decode, ReceivedAll, CutAll, WellFormed, Matches, ShortStrings;
    if Encode(fs, vs) <= Encode(fs, ws) {
      var rest := Encode(fs, ws)[|Encode(fs, vs)|..];
      assert Encode(fs, ws) == Encode(fs, vs) + rest;
      MessageRoundTrip(fs, vs, rest);
      MessageRoundTrip(fs, ws, []);
      assert Encode(fs, ws) + [] == Encode(fs, ws);
      assert Encode(fs, vs) + [] == Encode(fs, vs);
    }
  }

  /** A message to be sent: which one of a protocol's messages, and its data. */
  datatype Packet = Packet(id: UInt16, values: seq<Value>)

  /** The dispatcher's table of messages, by id. */
  type Protocol = p: map<UInt16, seq<Field>> | forall id :: id in p ==> WellFormed(p[id]) witness map[]

  predicate Sendable(p: Protocol, m: Packet) {
    m.id in p && Matches(p[m.id], m.values)
  }

  predicate AllSendable(p: Protocol, ms: seq<Packet>) {
    forall i :: 0 <= i < |ms| ==> Sendable(p, ms[i])
  }

  predicate AllShort(ms: seq<Packet>) {
    forall i :: 0 <= i < |ms| ==> ShortStrings(ms[i].values)
  }

  /** Each message is followed by the unused end of the buffer that it was sent in. */
  predicate AreExcess(p: Protocol, ms: seq<Packet>, excess: seq<seq<Octet>>)
    requires AllSendable(p, ms)
  {
    |excess| == |ms| && forall i :: 0 <= i < |ms| ==>
      |excess[i]| + |Encode(p[ms[i].id], ms[i].values)| == Size(p[ms[i].id], ms[i].values)
  }

  /** The bytes of several messages. */
  function Stream(p: Protocol, ms: seq<Packet>, excess: seq<seq<Octet>>): seq<Octet>
    requires AllSendable(p, ms) && |excess| == |ms|
  {
    if ms == [] then [] else
      PutInt(2, ms[0].id) + (Encode(p[ms[0].id], ms[0].values) + (excess[0] + Stream(p, ms[1..], excess[1..])))
  }

  /** The receiver's loop: an id, then the message it announces, n times. */
  function Receive(p: Protocol, s: seq<Octet>, n: nat): (r: Option<(seq<Packet>, seq<Octet>)>)
    ensures r.Some? ==> |r.value.0| == n
    decreases n
  {
    if n == 0 then Some(([], s)) else
      match Take(s, 2)
      case None => None
      case Some((b, rest)) =>
        var id := Narrow(b);
        if id !in p then None else
          match Decode(p[id], rest)
          case None => None
          case Some((vs, rest')) =>
            match Receive(p, rest', n - 1)
            case None => None
            case Some((ms, rest'')) => Some(([Packet(id, vs)] + ms, rest''))
  }

  function ReceivedPackets(p: Protocol, ms: seq<Packet>): (r: seq<Packet>)
    requires AllSendable(p, ms)
    ensures |r| == |ms|
  {
    seq(|ms|, i requires 0 <= i < |ms| => Packet(ms[i].id, ReceivedAll(p[ms[i].id], ms[i].values)))
  }

  function CutPackets(p: Protocol, ms: seq<Packet>): (r: seq<Packet>)
    requires AllSendable(p, ms)
    ensures |r| == |ms|
  {
    seq(|ms|, i requires 0 <= i < |ms| => Packet(ms[i].id, CutAll(p[ms[i].id], ms[i].values)))
  }

  /** The bytes of the ids and the data of messages. */
  function Total(p: Protocol, ms: seq<Packet>): nat {
    if ms == [] then 0 else
      2 + (if Sendable(p, ms[0]) then |Encode(p[ms[0].id], ms[0].values)| else 0) + Total(p, ms[1..])
  }

  lemma {:induction false} StreamSize(p: Protocol, ms: seq<Packet>, excess: seq<seq<Octet>>)
    requires AllSendable(p, ms) && AreExcess(p, ms, excess)
    ensures |Stream(p, ms, excess)| >= Total(p, ms)
    ensures |Stream(p, ms, excess)| == Total(p, ms) <==> AllShort(ms)
  {
    hide PutInt, Encode, Size, Matches, ShortStrings;
    if ms == [] {
    } else {
      StreamSize(p, ms[1..], excess[1..]);
      SizeExact(p[ms[0].id], ms[0].values);
      assert AllShort(ms) <==> ShortStrings(ms[0].values) && AllShort(ms[1..]) by {
        assert forall i :: 1 <= i < |ms| ==> ms[i] == ms[1..][i - 1];
      }
    }
  }

  /** Data as received is sendable, and sent again it takes the same bytes. */
  lemma ReceivedIsSendable(fs: seq<Field>, vs: seq<Value>)
    requires WellFormed(fs) && Matches(fs, vs)
    ensures Matches(fs, ReceivedAll(fs, vs)) && Encode(fs, ReceivedAll(fs, vs)) == Encode(fs, vs)
  {
    hide Encode, Decode, ReceivedAll, WellFormed, ShortStrings, NulFree;
    assert Encode(fs, vs) + [] == Encode(fs, vs);
    MessageRoundTrip(fs, vs, []);
    ReceivedNulFree(fs, vs);
    MessageConverse(fs, Encode(fs, vs));
    assert Encode(fs, ReceivedAll(fs, vs)) + [] == Encode(fs, ReceivedAll(fs, vs));
  }

  lemma ReceivedNulFree(fs: seq<Field>, vs: seq<Value>)
    requires Matches(fs, vs)
    ensures NulFree(ReceivedAll(fs, vs))
  {
    hide RegsAt;
    var r := ReceivedAll(fs, vs);
    forall v | v in r && v.Text? ensures 0 !in v.units {
      var i :| 0 <= i < |r| && r[i] == v;
      assert Fits(fs[i], vs[i], RegsAt(fs, vs, i));
    }
  }

  lemma {:induction false} ReceivedTotal(p: Protocol, ms: seq<Packet>)
    requires AllSendable(p, ms)
    ensures AllSendable(p, ReceivedPackets(p, ms)) && Total(p, ReceivedPackets(p, ms)) == Total(p, ms)
  {
    hide Encode, Matches, ReceivedAll, WellFormed;
    forall i | 0 <= i < |ms|
      ensures Sendable(p, ReceivedPackets(p, ms)[i])
      ensures Encode(p[ms[i].id], ReceivedPackets(p, ms)[i].values) == Encode(p[ms[i].id], ms[i].values)
    {
      ReceivedIsSendable(p[ms[i].id], ms[i].values);
    }
    if ms == [] {
    } else {
      ReceivedTotal(p, ms[1..]);
      assert ReceivedPackets(p, ms)[1..] == ReceivedPackets(p, ms[1..]);
    }
  }

  /** Receiving sendable messages takes the bytes of their ids and data. */
  lemma {:induction false} ReceiveTotal(p: Protocol, s: seq<Octet>, n: nat)
    requires Receive(p, s, n).Some? && AllSendable(p, Receive(p, s, n).value.0)
    ensures var (ms, rest) := Receive(p, s, n).value; |s| == Total(p, ms) + |rest|
    decreases n
  {
    hide Encode, Decode, Matches, WellFormed, Narrow;
    if n == 0 {
    } else {
      var (b, rest) := Take(s, 2).value;
      var (vs, rest') := Decode(p[Narrow(b)], rest).value;
      var ms := Receive(p, s, n).value.0;
      assert ms[0] == Packet(Narrow(b), vs) && ms[1..] == Receive(p, rest', n - 1).value.0;
      ReceiveTotal(p, rest', n - 1);
      assert Sendable(p, ms[0]);
      MessageConverse(p[Narrow(b)], rest);
    }
  }

  lemma {:induction false} ShortStream(p: Protocol, ms: seq<Packet>, excess: seq<seq<Octet>>, rest: seq<Octet>)
    requires AllSendable(p, ms) && AreExcess(p, ms, excess) && AllShort(ms)
    ensures Receive(p, Stream(p, ms, excess) + rest, |ms|) == Some((ReceivedPackets(p, ms), rest))
  {
    hide PutInt, GetInt, Take, Encode, Decode, ReceivedAll, Size, Matches, ShortStrings, WellFormed, Narrow;
    if ms == [] {
      assert Stream(p, ms, excess) + rest == rest;
    } else {
      var m := ms[0];
      var fs := p[m.id];
      var id, body, tail := PutInt(2, m.id), Encode(fs, m.values), Stream(p, ms[1..], excess[1..]);
      SizeExact(fs, m.values);
      MatchesParts(fs, m.values, 0);
      assert Stream(p, ms, excess) + rest == id + (body + (tail + rest));
      TakeFront(id, body + (tail + rest));
      IdRoundTrip(m.id);
      MessageRoundTrip(fs, m.values, tail + rest);
      ShortStream(p, ms[1..], excess[1..], rest);
      assert ReceivedPackets(p, ms) == [Packet(m.id, ReceivedAll(fs, m.values))] + ReceivedPackets(p, ms[1..]);
    }
  }

  lemma IdRoundTrip(id: UInt16)
    ensures |PutInt(2, id)| == 2 && Narrow(PutInt(2, id)) == id
  {
    hide PutInt, GetInt;
    WidthRoundTrip(id);
  }

  /**
    * A sequence of messages is taken apart as it was sent, one message right behind the other, if and only if all
    * strings are short, whatever stands in the unused ends of the senders' buffers.
    */
  lemma StreamRoundTrip(p: Protocol, ms: seq<Packet>, excess: seq<seq<Octet>>, rest: seq<Octet>)
    requires AllSendable(p, ms) && AreExcess(p, ms, excess)
    ensures Receive(p, Stream(p, ms, excess) + rest, |ms|) == Some((ReceivedPackets(p, ms), rest)) <==> AllShort(ms)
    ensures ReceivedPackets(p, ms) == CutPackets(p, ms) <==> AllShort(ms)
  {
    hide Receive, Stream, ReceivedAll, CutAll, Sendable, ShortStrings, Total, Encode, Size;
    if AllShort(ms) {
      ShortStream(p, ms, excess, rest);
    }
    if Receive(p, Stream(p, ms, excess) + rest, |ms|) == Some((ReceivedPackets(p, ms), rest)) {
      ReceivedTotal(p, ms);
      ReceiveTotal(p, Stream(p, ms, excess) + rest, |ms|);
      StreamSize(p, ms, excess);
    }
    forall i | 0 <= i < |ms|
      ensures ReceivedPackets(p, ms)[i] == CutPackets(p, ms)[i] <==> ShortStrings(ms[i].values)
    {
      PacketIsCut(p, ms, i);
    }
  }

  lemma PacketIsCut(p: Protocol, ms: seq<Packet>, i: nat)
    requires AllSendable(p, ms) && i < |ms|
    ensures ReceivedPackets(p, ms)[i] == CutPackets(p, ms)[i] <==> ShortStrings(ms[i].values)
  {
    hide ReceivedAll, CutAll, ShortStrings;
    assert Sendable(p, ms[i]);
    ReceivedIsCut(p[ms[i].id], ms[i].values);
  }
}
