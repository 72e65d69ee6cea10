/**
  * The wire format of messages byte by byte: what stands where in the bytes of a message, and how long its arrays are.
  */
module WireFormat {
  import opened LittleEndian
  import opened NetCodec
  import opened Wrappers

  /** A field with as many bytes as a count before it tells. */
  predicate IsCounted(f: Field) { f.kind.VarPtr? || f.kind.RawVarPtr? }

  /** No counts and no counted arrays between fields i and k. */
  predicate Quiet(fs: seq<Field>, i: int, k: nat)
    requires -1 <= i < k <= |fs|
  {
    forall j :: i < j < k ==> !fs[j].kind.VarCount? && !IsCounted(fs[j])
  }

  /** Field k is a counted array with n bytes of data. */
  predicate HasBytes(fs: seq<Field>, vs: seq<Value>, k: nat, n: nat)
    requires k < |fs| && k < |vs|
  {
    vs[k].Bytes? && |vs[k].bytes| == n
  }

  /**
    * How long the arrays of a message are: a counted one has the element size of the last count field times its value,
    * in 32 bits; without a count since the last counted one it is empty; the others have their own size and count.
    */
  ghost predicate ArraysCount(fs: seq<Field>, vs: seq<Value>) {
    && |vs| == |fs|
    && (forall i, k :: 0 <= i < k < |fs| && fs[i].kind.VarCount? && IsCounted(fs[k]) && Quiet(fs, i, k) ==>
          vs[i].Number? && HasBytes(fs, vs, k, fs[i].size * vs[i].n % 0x1_0000_0000))
    && (forall i, k :: -1 <= i < k < |fs| && (i == -1 || IsCounted(fs[i])) && IsCounted(fs[k]) && Quiet(fs, i, k) ==>
          HasBytes(fs, vs, k, 0))
    && (forall k :: 0 <= k < |fs| && (fs[k].kind.Data? || fs[k].kind.Ptr? || fs[k].kind.RawData? || fs[k].kind.RawPtr?)
          ==> HasBytes(fs, vs, k, fs[k].size * fs[k].count % 0x1_0000_0000))
    && (forall k :: 0 <= k < |fs| && (fs[k].kind.Integer? || fs[k].kind.Float?) && fs[k].count > 0 ==>
          HasBytes(fs, vs, k, fs[k].size * fs[k].count))
  }

  /** What holds of one field and its value, given the registers. */
  predicate Sized(f: Field, v: Value, r: Regs) {
    && (f.IsScalar() || f.kind.VarCount? ==> v.Number?)
    && (!f.IsScalar() && !f.kind.VarCount? && !f.kind.Str? ==> v.Bytes? && |v.bytes| == DataSize(f, r))
  }

  predicate SizedUpTo(fs: seq<Field>, vs: seq<Value>, n: nat)
    requires n <= |fs| && n <= |vs|
  {
    forall i :: 0 <= i < n ==> Sized(fs[i], vs[i], RegsAt(fs, vs, i))
  }

  lemma {:induction false} QuietRegs(fs: seq<Field>, vs: seq<Value>, i: int, k: nat)
    requires -1 <= i < k <= |fs| == |vs| && Quiet(fs, i, k)
    ensures RegsAt(fs, vs, k) == RegsAt(fs, vs, i + 1)
    decreases k
  {
    RegsStep(fs, vs, k);
    if k == i + 1 {
    } else {
      QuietRegs(fs, vs, i, k - 1);
    }
  }

  lemma CountedSize(fs: seq<Field>, vs: seq<Value>, i: int, k: nat)
    requires |vs| == |fs| && -1 <= i < k < |fs| && SizedUpTo(fs, vs, |fs|) && IsCounted(fs[k]) && Quiet(fs, i, k)
    ensures i >= 0 && fs[i].kind.VarCount? ==>
      vs[i].Number? && HasBytes(fs, vs, k, fs[i].size * vs[i].n % 0x1_0000_0000)
    ensures i == -1 || IsCounted(fs[i]) ==> HasBytes(fs, vs, k, 0)
  {
    hide RegsAt;
    QuietRegs(fs, vs, i, k);
    RegsStep(fs, vs, i + 1);
    assert Sized(fs[k], vs[k], RegsAt(fs, vs, k));
    if i >= 0 {
      assert Sized(fs[i], vs[i], RegsAt(fs, vs, i));
    }
  }

  lemma SizedArraysCount(fs: seq<Field>, vs: seq<Value>)
    requires |vs| == |fs| && SizedUpTo(fs, vs, |fs|)
    ensures ArraysCount(fs, vs)
  {
    hide RegsAt, Quiet;
    forall i: int, k | -1 <= i < k < |fs| && IsCounted(fs[k]) && Quiet(fs, i, k)
      ensures i >= 0 && fs[i].kind.VarCount? ==>
        vs[i].Number? && HasBytes(fs, vs, k, fs[i].size * vs[i].n % 0x1_0000_0000)
      ensures i == -1 || IsCounted(fs[i]) ==> HasBytes(fs, vs, k, 0)
    {
      CountedSize(fs, vs, i, k);
    }
    assert forall k :: 0 <= k < |fs| ==> Sized(fs[k], vs[k], RegsAt(fs, vs, k));
  }

  /** Data that may be sent has arrays of these lengths. */
  lemma MatchingArrays(fs: seq<Field>, vs: seq<Value>)
    requires Matches(fs, vs)
    ensures ArraysCount(fs, vs)
  {
    hide RegsAt, ArraysCount;
    forall i | 0 <= i < |fs| ensures Sized(fs[i], vs[i], RegsAt(fs, vs, i)) {
      assert Fits(fs[i], vs[i], RegsAt(fs, vs, i));
    }
    SizedArraysCount(fs, vs);
  }

  lemma DecodedIsSized(f: Field, r: Regs, s: seq<Octet>)
    ensures DecodeField(f, r, s).Some? ==> Sized(f, DecodeField(f, r, s).value.0, r)
  {
    hide GetUnits, Narrow;
  }

  lemma {:induction false} DecodedUpToIsSized(fs: seq<Field>, s: seq<Octet>, n: nat)
    requires WellFormed(fs) && n <= |fs| && DecodeUpTo(fs, s, n).Some?
    ensures SizedUpTo(fs, DecodeUpTo(fs, s, n).value.values, n)
  {
    hide DecodeUpTo, DecodeField, RegsAt, Sized, Step;
    if n == 0 {
    } else {
      DecodeStep(fs, s, n);
      DecodedUpToIsSized(fs, s, n - 1);
      var e := DecodeUpTo(fs, s, n - 1).value;
      var (v, rest) := DecodeField(fs[n - 1], e.regs, e.rest).value;
      DecodedIsSized(fs[n - 1], e.regs, e.rest);
      EncodeOfDecodeUpTo(fs, s, n - 1);
      forall i | 0 <= i < n ensures Sized(fs[i], (e.values + [v])[i], RegsAt(fs, e.values + [v], i)) {
        Extend(fs, e.values, v, i);
      }
    }
  }

  /** So has what a receiver decodes, whatever it decodes. */
  lemma DecodedArrays(fs: seq<Field>, s: seq<Octet>)
    requires WellFormed(fs) && Decode(fs, s).Some?
    ensures ArraysCount(fs, Decode(fs, s).value.0)
  {
    hide DecodeUpTo, ArraysCount, SizedUpTo;
    DecodedUpToIsSized(fs, s, |fs|);
    SizedArraysCount(fs, Decode(fs, s).value.0);
  }

  /** The bytes of one field, by its kind. */
  predicate IsFieldOnWire(f: Field, v: Value, b: seq<Octet>) {
    match f.kind
    case Integer | Float =>
      if f.count == 0 then v.Number? && |b| == f.size && IsNumber(b, v.n) else v.Bytes? && b == v.bytes
    case VarCount => v.Number? && |b| == 4 && IsNumber(b, v.n)
    case Str =>
      v.Text? && |b| >= 2 && IsNumber(b[..2], |v.units|) && AreUnits(b[2..], v.units[..|v.units| % 0x1_0000])
    case Data | Ptr | VarPtr | RawData | RawPtr | RawVarPtr => v.Bytes? && b == v.bytes
  }

  lemma FieldOnWire(f: Field, v: Value, r: Regs)
    requires f.WellFormed() && Fits(f, v, r)
    ensures IsFieldOnWire(f, v, FieldBytes(f, v, r))
  {
    hide PutInt, PutUnits, AreUnits;
    if f.IsScalar() {
      NumberBytes(f.size, v.n);
    } else if f.kind.VarCount? {
      NumberBytes(4, v.n);
    } else if f.kind.Str? {
      var n := Length16(v.units);
      NumberBytes(2, n);
      UnitBytes(v.units[..n]);
      var a, b := PutInt(2, n), PutUnits(v.units[..n]);
      assert (a + b)[..2] == a && (a + b)[2..] == b;
      LowBytes(|v.units|);
    }
  }

  lemma LowBytes(n: nat)
    ensures n % 0x1_0000 % 0x100 == n % 0x100 && n % 0x1_0000 / 0x100 % 0x100 == n / 0x100 % 0x100
  {
  }

  function Joined(parts: seq<seq<Octet>>): seq<Octet> {
    if parts == [] then [] else Joined(parts[..|parts| - 1]) + parts[|parts| - 1]
  }

  /** b is the first n fields, one behind the other. */
  ghost predicate IsLayout(fs: seq<Field>, vs: seq<Value>, b: seq<Octet>, parts: seq<seq<Octet>>, n: nat)
    requires n <= |fs| && n <= |vs|
  {
    |parts| == n && b == Joined(parts) && forall i :: 0 <= i < n ==> IsFieldOnWire(fs[i], vs[i], parts[i])
  }

  lemma {:induction false} LayoutUpTo(fs: seq<Field>, vs: seq<Value>, n: nat) returns (parts: seq<seq<Octet>>)
    requires WellFormed(fs) && Matches(fs, vs) && n <= |fs|
    ensures FitsUpTo(fs, vs, n) && IsLayout(fs, vs, EncodeUpTo(fs, vs, n), parts, n)
  {
    hide EncodeUpTo, Matches, WellFormed, IsFieldOnWire, RegsAt, Fits, FieldBytes;
    MatchesParts(fs, vs, n);
    EncodeStep(fs, vs, n);
    if n == 0 {
      parts := [];
    } else {
      var init := LayoutUpTo(fs, vs, n - 1);
      MatchesParts(fs, vs, |fs|);
      WellFormedAt(fs, n - 1);
      FieldOnWire(fs[n - 1], vs[n - 1], RegsAt(fs, vs, n - 1));
      parts := init + [FieldBytes(fs[n - 1], vs[n - 1], RegsAt(fs, vs, n - 1))];
      assert parts[..n - 1] == init;
    }
  }

  /** What sendMsg writes behind the id. */
  lemma MessageLayout(fs: seq<Field>, vs: seq<Value>) returns (parts: seq<seq<Octet>>)
    requires WellFormed(fs) && Matches(fs, vs)
    ensures IsLayout(fs, vs, Encode(fs, vs), parts, |fs|)
  {
    hide EncodeUpTo, IsLayout, WellFormed;
    parts := LayoutUpTo(fs, vs, |fs|);
  }

  /** The bytes of the code units that wrapped lengths leave out. */
  function Wrapped(vs: seq<Value>): nat {
    if vs == [] then 0 else
      var v := vs[|vs| - 1];
      Wrapped(vs[..|vs| - 1]) + if v.Text? then 2 * (|v.units| - |v.units| % 0x1_0000) else 0
  }

  lemma {:induction false} SizeUpToIs(fs: seq<Field>, vs: seq<Value>, n: nat)
    requires WellFormed(fs) && Matches(fs, vs) && n <= |fs|
    ensures FitsUpTo(fs, vs, n) && SizeUpTo(fs, vs, n) == |EncodeUpTo(fs, vs, n)| + Wrapped(vs[..n])
  {
    hide *;
    MatchesParts(fs, vs, n);
    EncodeStep(fs, vs, n);
    SizeStep(fs, vs, n);
    WrappedStep(vs, n);
    if n == 0 {
    } else {
      MatchesParts(fs, vs, |fs|);
      SizeUpToIs(fs, vs, n - 1);
      WellFormedAt(fs, n - 1);
      FitsStep(fs, vs, n);
      FieldSizeIs(fs[n - 1], vs[n - 1], RegsAt(fs, vs, n - 1));
    }
  }

  lemma WrappedStep(vs: seq<Value>, n: nat)
    requires n <= |vs|
    ensures n == 0 ==> Wrapped(vs[..n]) == 0
    ensures n > 0 ==>
      var v := vs[n - 1];
      Wrapped(vs[..n]) == Wrapped(vs[..n - 1]) + if v.Text? then 2 * (|v.units| - |v.units| % 0x1_0000) else 0
  {
    if n > 0 {
      assert vs[..n][..n - 1] == vs[..n - 1];
    }
  }

  lemma FieldSizeIs(f: Field, v: Value, r: Regs)
    requires f.WellFormed() && Fits(f, v, r)
    ensures FieldSize(f, v, r)
         == |FieldBytes(f, v, r)| + if v.Text? then 2 * (|v.units| - |v.units| % 0x1_0000) else 0
  {
    hide Mul32;
    Mul32Commutes(r.size, r.count);
    if f.IsArray() {
      Mul32Small(f.size, f.count);
    }
  }

  /** What NCMessageSize counts: the bytes of the message, and those of code units that are not sent. */
  lemma SizeIs(fs: seq<Field>, vs: seq<Value>)
    requires WellFormed(fs) && Matches(fs, vs)
    ensures Size(fs, vs) == |Encode(fs, vs)| + Wrapped(vs)
  {
    hide SizeUpTo, EncodeUpTo, Wrapped, WellFormed;
    SizeUpToIs(fs, vs, |fs|);
    assert vs[..|fs|] == vs;
  }
}
