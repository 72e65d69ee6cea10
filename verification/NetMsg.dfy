/**
  * The message routines on memory: slots that hold a number or a pointer to a buffer, the heap the buffers live in, and
  * the socket as a stream of bytes.
  */
module NetMsg {
  import opened LittleEndian
  import opened NetCodec
  import opened Wrappers

  /** A slot of message data: the source's union of a number and two pointer types. */
  datatype Parm = UInt(n: UInt32) | Chars(s: array?<UInt16>) | Octets(b: array?<Octet>) {
    function Pointer(): object? {
      if UInt? then null else if Chars? then s as object? else b as object?
    }

    /** The number read from the slot; a null pointer reads as 0. */
    function AsNumber(): UInt32 { if UInt? then n else 0 }
  }

  /** The buffers in use. */
  class Heap {
    ghost var live: set<object>

    constructor ()
      ensures live == {}
    {
      live := {};
    }

    method NewOctets(n: nat) returns (p: array<Octet>)
      modifies this
      ensures fresh(p) && p.Length == n && live == old(live) + {p}
    {
      p := new Octet[n];
      live := live + {p};
    }

    method NewUnits(n: nat) returns (p: array<UInt16>)
      modifies this
      ensures fresh(p) && p.Length == n && live == old(live) + {p}
    {
      p := new UInt16[n];
      live := live + {p};
    }

    method NewSlots(n: nat) returns (p: array<Parm>)
      modifies this
      ensures fresh(p) && p.Length == n && live == old(live) + {p}
    {
      p := new Parm[n](_ => UInt(0));
      live := live + {p};
    }

    /** Only a live buffer may be released; releasing null does nothing. */
    method Delete(p: object?)
      requires p == null || p in live
      modifies this
      ensures live == if p == null then old(live) else old(live) - {p}
    {
      if p != null {
        live := live - {p};
      }
    }
  }

  /** The pointers in the first n slots that a message owns. */
  ghost function Owned(fs: seq<Field>, slots: seq<Parm>, n: nat): set<object>
    requires n <= |fs| && n <= |slots|
  {
    if n == 0 then {} else
      Owned(fs, slots, n - 1) +
      if fs[n - 1].IsPointer() && slots[n - 1].Pointer() != null then {slots[n - 1].Pointer()} else {}
  }

  /** No two slots share a buffer. */
  ghost predicate Separate(fs: seq<Field>, slots: seq<Parm>, n: nat)
    requires n <= |fs| && n <= |slots|
  {
    forall i, j :: 0 <= i < j < n && fs[i].IsPointer() && fs[j].IsPointer() && slots[j].Pointer() != null ==>
      slots[i].Pointer() != slots[j].Pointer()
  }

  lemma {:induction false} OwnedMember(fs: seq<Field>, slots: seq<Parm>, n: nat, o: object)
    requires n <= |fs| && n <= |slots|
    ensures o in Owned(fs, slots, n) <==>
      exists i :: 0 <= i < n && fs[i].IsPointer() && slots[i].Pointer() == o
  {
    if n == 0 {
    } else {
      OwnedMember(fs, slots, n - 1, o);
    }
  }

  lemma {:induction false} OwnedPrefix(fs: seq<Field>, a: seq<Parm>, b: seq<Parm>, n: nat)
    requires n <= |fs| && n <= |a| && n <= |b| && a[..n] == b[..n]
    ensures Owned(fs, a, n) == Owned(fs, b, n)
  {
    if n == 0 {
    } else {
      assert a[..n - 1] == a[..n][..n - 1] == b[..n - 1];
      assert a[n - 1] == a[..n][n - 1] == b[n - 1];
      OwnedPrefix(fs, a, b, n - 1);
    }
  }

  /** The kind of content a slot may have: pointers only in pointer slots, arrays of the size of the field. */
  ghost predicate SlotFits(f: Field, p: Parm) {
    if f.IsScalar() then p.UInt?
    else if f.kind.VarCount? then p.UInt? || p == Octets(null)
    else if f.kind.Str? then p == Octets(null) || (p.Chars? && p.s != null)
    else if f.IsVariable() then p.Octets?
    else p.Octets? && p.b != null && p.b.Length == (if f.IsArray() then f.size * f.count else f.FixedSize())
  }

  /** The slots fit their fields, and their buffers are distinct and other than the slot array. */
  ghost predicate Tidy(fs: seq<Field>, data: array<Parm>)
    reads data
  {
    && data.Length == |fs| && (forall i :: 0 <= i < |fs| ==> SlotFits(fs[i], data[i]))
    && Separate(fs, data[..], |fs|) && data !in Owned(fs, data[..], |fs|)
  }

  /** All the buffers of a message are live. */
  ghost predicate Owns(h: Heap, fs: seq<Field>, data: array<Parm>)
    reads h, data
  {
    Tidy(fs, data) && data in h.live && Owned(fs, data[..], |fs|) <= h.live
  }

  /** A slot before its message arrives: what is allocated later is null. */
  ghost predicate Blank(f: Field, p: Parm) {
    SlotFits(f, p) && (f.kind.Str? || f.IsVariable() ==> p.Pointer() == null)
  }

  /** AllocBasic: an array of numbers of 1, 2 or 4 bytes; any other size is an exception. */
  method AllocBasic(h: Heap, size: UInt32, count: UInt32) returns (p: Option<Parm>)
    modifies h
    ensures p.Some? <==> size == 1 || size == 2 || size == 4
    ensures match p
      case None => h.live == old(h.live)
      case Some(q) =>
        q.Octets? && q.b != null && q.b.Length == size * count && fresh(q.b) && h.live == old(h.live) + {q.b}
  {
    if size == 1 || size == 2 || size == 4 {
      var b := h.NewOctets(size * count);
      p := Some(Octets(b));
    } else {
      p := None;
    }
  }

  /** One step of NCAllocMessage. */
  method AllocSlot(h: Heap, f: Field) returns (p: Option<Parm>)
    modifies h
    ensures p.Some? <==> f.Allocatable()
    ensures p.None? ==> h.live == old(h.live)
    ensures p.Some? ==>
      && Blank(f, p.value)
      && (f.IsPointer() && p.value.Pointer() != null ==> fresh(p.value.Pointer()))
      && h.live == old(h.live) +
         if f.IsPointer() && p.value.Pointer() != null then {p.value.Pointer()} else {}
  {
    match f.kind {
      case Integer | Float =>
        if f.count == 0 {
          p := Some(UInt(0));
        } else {
          p := AllocBasic(h, f.size, f.count);
        }
      case VarPtr | RawVarPtr | Str | VarCount =>
        p := Some(Octets(null));
      case Data | Ptr | RawData | RawPtr =>
        var b := h.NewOctets(Mul32(f.size, f.count));
        p := Some(Octets(b));
    }
  }

  /**
    * The buffers live after the call are the old ones, the slot array and the buffers of the slots, all new. An array
    * of numbers of another size than 1, 2 or 4 is an exception, which leaves buffers behind that nobody owns.
    */
  method NCAllocMessage(h: Heap, msg: Option<Msg>) returns (ok: bool, data: array?<Parm>)
    modifies h
    ensures msg.None? ==> ok && data == null && h.live == old(h.live)
    ensures msg.Some? ==> (ok <==> forall f :: f in msg.value.fields ==> f.Allocatable())
    ensures msg.Some? && ok ==>
      var fs := msg.value.fields;
      && data != null && fresh(data) && Tidy(fs, data)
      && (forall i :: 0 <= i < |fs| ==> Blank(fs[i], data[i]))
      && h.live == old(h.live) + {data} + Owned(fs, data[..], |fs|)
      && (forall o :: o in Owned(fs, data[..], |fs|) ==> fresh(o))
    ensures !ok ==> data == null && old(h.live) < h.live && forall o :: o in h.live - old(h.live) ==> fresh(o)
  {
    if msg.None? {
      return true, null;
    }
    var slots;
    ok, slots := AllocSlots(h, msg.value.fields);
    data := if ok then slots else null;
  }

  /** The loop of NCAllocMessage. */
  method AllocSlots(h: Heap, fs: seq<Field>) returns (ok: bool, data: array<Parm>)
    modifies h
    ensures ok <==> forall f :: f in fs ==> f.Allocatable()
    ensures fresh(data) && data in h.live && old(h.live) <= h.live
    ensures forall o :: o in h.live - old(h.live) ==> fresh(o)
    ensures ok ==>
      && Tidy(fs, data) && (forall i :: 0 <= i < |fs| ==> Blank(fs[i], data[i]))
      && h.live == old(h.live) + {data} + Owned(fs, data[..], |fs|)
      && (forall o :: o in Owned(fs, data[..], |fs|) ==> fresh(o))
  {
    data := h.NewSlots(|fs|);
    var i := 0;
    while i < |fs|
      invariant i <= |fs| == data.Length && fresh(data)
      invariant forall j :: 0 <= j < i ==> fs[j].Allocatable() && Blank(fs[j], data[j])
      invariant Separate(fs, data[..], i)
      invariant h.live == old(h.live) + {data} + Owned(fs, data[..], i)
      invariant forall o :: o in Owned(fs, data[..], i) ==> fresh(o) && o != data
    {
      ghost var was := data[..];
      var p := AllocSlot(h, fs[i]);
      if p.None? {
        assert fs[i] in fs;
        return false, data;
      }
      data[i] := p.value;
      OwnedPrefix(fs, was, data[..], i);
      NewPointer(fs, data[..], i);
      i := i + 1;
    }
    ok := true;
  }

  /** A pointer that no earlier slot has keeps the slots separate. */
  lemma NewPointer(fs: seq<Field>, a: seq<Parm>, i: nat)
    requires i < |fs| && i < |a| && Separate(fs, a, i)
    requires fs[i].IsPointer() && a[i].Pointer() != null ==> a[i].Pointer() !in Owned(fs, a, i)
    ensures Separate(fs, a, i + 1)
  {
    forall j | 0 <= j < i && fs[j].IsPointer() && fs[i].IsPointer() && a[i].Pointer() != null
      ensures a[j].Pointer() != a[i].Pointer()
    {
      if a[j].Pointer() != null {
        OwnedMember(fs, a, i, a[j].Pointer());
      }
    }
  }

  /** Releases exactly the slot array and the buffers the message owns, each once. */
  method NCFreeMessage(h: Heap, data: array?<Parm>, fs: seq<Field>)
    requires data != null ==> Owns(h, fs, data)
    modifies h
    ensures h.live == old(h.live) - if data == null then {} else {data} + Owned(fs, data[..], |fs|)
  {
    if data == null {
      return;
    }
    var i := 0;
    while i < |fs|
      invariant i <= |fs|
      invariant h.live == old(h.live) - Owned(fs, data[..], i)
    {
      var f := fs[i];
      if f.IsPointer() && data[i].Pointer() != null {
        OwnedMember(fs, data[..], |fs|, data[i].Pointer());
        OwnedMember(fs, data[..], i, data[i].Pointer());
      }
      match f.kind {
        case Integer | Float =>
          if f.count != 0 {
            h.Delete(data[i].Pointer());
          }
        case VarCount =>
        case VarPtr | RawVarPtr | Str =>
          h.Delete(data[i].Pointer());
        case Data | Ptr | RawData | RawPtr =>
          h.Delete(data[i].Pointer());
      }
      i := i + 1;
    }
    forall o | o in Owned(fs, data[..], |fs|) ensures o != data {
    }
    h.Delete(data);
  }

  /** A C string: the code units before the terminator. */
  function UpToNul(s: seq<UInt16>): (r: seq<UInt16>)
    ensures r <= s && 0 !in r
    ensures |r| < |s| ==> s[|r|] == 0
  {
    if s == [] || s[0] == 0 then [] else [s[0]] + UpToNul(s[1..])
  }

  /** The content of the slot of field f. */
  ghost function ValueOf(f: Field, p: Parm): Value
    reads p.Pointer()
  {
    if f.IsScalar() || f.kind.VarCount? then Number(p.AsNumber())
    else if f.kind.Str? then Text(if p.Chars? && p.s != null then UpToNul(p.s[..]) else [])
    else Bytes(if p.Octets? && p.b != null then p.b[..] else [])
  }

  /** The slot of field f holds the value v; a string is there and ends in a NUL. */
  ghost predicate SlotHolds(f: Field, p: Parm, v: Value)
    reads p.Pointer()
  {
    && SlotFits(f, p) && ValueOf(f, p) == v
    && (f.kind.Str? ==> p.Chars? && 0 in p.s[..])
  }

  lemma UpToNulStep(s: seq<UInt16>, n: nat)
    requires n < |s| && UpToNul(s) == s[..n] + UpToNul(s[n..])
    ensures s[n] == 0 ==> UpToNul(s) == s[..n]
    ensures s[n] != 0 ==> UpToNul(s) == s[..n + 1] + UpToNul(s[n + 1..])
  {
    hide UpToNul;
    var rest := s[n..];
    UpToNulHead(rest);
    assert rest[1..] == s[n + 1..];
    if s[n] != 0 {
      assert s[..n + 1] == s[..n] + [s[n]];
    }
  }

  lemma UpToNulHead(s: seq<UInt16>)
    requires |s| > 0
    ensures UpToNul(s) == if s[0] == 0 then [] else [s[0]] + UpToNul(s[1..])
  {
  }

  lemma NulAhead(s: seq<UInt16>, n: nat)
    requires n < |s| && s[n] != 0 && 0 in s[n..]
    ensures 0 in s[n + 1..]
  {
    assert s[n..] == [s[n]] + s[n + 1..];
  }

  method StrLen(s: array<UInt16>) returns (n: nat)
    requires 0 in s[..]
    ensures n == |UpToNul(s[..])| && n < s.Length && s[..n] == UpToNul(s[..])
  {
    hide UpToNul;
    n := 0;
    assert s[..0] == [] && s[0..] == s[..];
    UpToNulStep(s[..], 0);
    while s[n] != 0
      invariant n < s.Length
      invariant 0 in s[n..]
      invariant UpToNul(s[..]) == s[..n] + UpToNul(s[n..])
      decreases s.Length - n
    {
      UpToNulStep(s[..], n);
      NulAhead(s[..], n);
      n := n + 1;
    }
    UpToNulStep(s[..], n);
  }

  /** One step of NCMessageSize. */
  method CountField(f: Field, p: Parm, size: UInt32, count: UInt32, ghost v: Value)
    returns (n: nat, size': UInt32, count': UInt32)
    requires f.WellFormed()
    requires SlotHolds(f, p, v) && Fits(f, v, Regs(size, count))
    ensures n == FieldSize(f, v, Regs(size, count))
    ensures Regs(size', count') == Step(f, v, Regs(size, count))
  {
    hide UpToNul;
    n, size', count' := 0, size, count;
    match f.kind {
      case Integer | Float =>
        if f.count == 0 {
          n := f.size;
        } else {
          n := Mul32(f.size, f.count);
        }
      case Str =>
        n := StrLen(p.s);
        n := 2 + n * 2;
      case VarCount =>
        n := 4;
        count' := p.AsNumber();
        size' := f.size;
      case VarPtr | RawVarPtr =>
        n := Mul32(count, size);
        count' := 0;
        size' := 0;
      case Data | Ptr | RawData | RawPtr =>
        Mul32Commutes(f.count, f.size);
        n := Mul32(f.count, f.size);
    }
  }

  /** The slots hold the data vs. */
  ghost predicate Holds(fs: seq<Field>, data: array<Parm>, vs: seq<Value>)
    reads data, set i | 0 <= i < data.Length :: data[i].Pointer()
  {
    |vs| == |fs| == data.Length && forall i :: 0 <= i < |fs| ==> SlotHolds(fs[i], data[i], vs[i])
  }

  /** The size of the payload of a message. */
  method NCMessageSize(fs: seq<Field>, data: array<Parm>, ghost vs: seq<Value>) returns (bufSize: nat)
    requires WellFormed(fs) && Matches(fs, vs) && Holds(fs, data, vs)
    ensures bufSize == Size(fs, vs)
  {
    hide Fits, FieldSize, Step, SlotHolds;
    bufSize := 0;
    var size: UInt32 := 0;
    var count: UInt32 := 0;
    var i := 0;
    while i < |fs|
      invariant i <= |fs|
      invariant forall j :: i <= j < |fs| ==> SlotHolds(fs[j], data[j], vs[j])
      invariant bufSize == SizeUpTo(fs, vs, i)
      invariant Regs(size, count) == RegsAt(fs, vs, i)
    {
      assert Fits(fs[i], vs[i], RegsAt(fs, vs, i));
      assert forall j :: 0 <= j < |fs| ==> allocated(data[j].Pointer());
      var n, size', count' := CountField(fs[i], data[i], size, count, vs[i]);
      bufSize, size, count := bufSize + n, size', count';
      i := i + 1;
    }
  }

  /** A connection: the bytes sent so far and the bytes still to be received. */
  class Socket {
    var sent: seq<Octet>
    var incoming: seq<Octet>

    constructor (incoming: seq<Octet>)
      ensures sent == [] && this.incoming == incoming
    {
      sent := [];
      this.incoming := incoming;
    }

    /** The network takes all of the buffer. */
    method Send(buffer: array<Octet>, size: nat) returns (count: int)
      requires size <= buffer.Length
      modifies this`sent
      ensures sent == old(sent) + buffer[..size] && count == size
    {
      sent := sent + buffer[..size];
      count := size;
    }

    /** The network delivers as many bytes as are asked for. */
    method Recv(n: nat) returns (s: seq<Octet>)
      requires n <= |incoming|
      modifies this`incoming
      ensures s == old(incoming[..n]) && incoming == old(incoming[n..])
    {
      s := incoming[..n];
      incoming := incoming[n..];
    }
  }

  /** Writes bytes at o and advances; the buffer before and behind stays as it is. */
  method Append(b: array<Octet>, o: nat, s: seq<Octet>) returns (o': nat)
    requires o + |s| <= b.Length
    modifies b
    ensures o' == o + |s| && b[..o'] == old(b[..o]) + s
    ensures forall k :: o' <= k < b.Length ==> b[k] == old(b[k])
  {
    var j := 0;
    while j < |s|
      invariant j <= |s|
      invariant b[..o + j] == old(b[..o]) + s[..j]
      invariant forall k :: o + |s| <= k < b.Length ==> b[k] == old(b[k])
    {
      b[o + j] := s[j];
      j := j + 1;
    }
    o' := o + |s|;
  }

  /** SendBasic: a number of 1, 2 or 4 bytes, or an array of them as it lies in memory. */
  method SendBasic(buf: array<Octet>, o: nat, p: Parm, f: Field) returns (o': nat)
    requires f.WellFormed() && (f.IsScalar() || f.IsArray()) && SlotFits(f, p)
    requires p.Pointer() != buf
    requires o + (if f.IsScalar() then f.size else f.size * f.count) <= buf.Length
    modifies buf
    ensures o' <= buf.Length
    ensures buf[..o'] == old(buf[..o]) + if f.IsScalar() then PutInt(f.size, p.n) else p.b[..]
  {
    if f.count == 0 {
      o' := Append(buf, o, PutInt(f.size, p.n));
    } else {
      o' := Append(buf, o, p.b[..f.count * f.size]);
    }
  }

  /** The string case of sendMsg: a two-byte length, which wraps, and as many code units. */
  method SendString(buf: array<Octet>, bp: nat, s: array<UInt16>) returns (bp': nat)
    requires 0 in s[..]
    requires bp + 2 + 2 * Length16(UpToNul(s[..])) <= buf.Length
    modifies buf
    ensures bp' <= buf.Length
    ensures var us := UpToNul(s[..]);
      buf[..bp'] == old(buf[..bp]) + (PutInt(2, Length16(us)) + PutUnits(us[..Length16(us)]))
  {
    hide PutInt, PutUnits, UpToNul;
    ghost var us := UpToNul(s[..]);
    var n := StrLen(s);
    var len := n % 0x1_0000;
    assert s[..len] == us[..len];
    bp' := Append(buf, bp, PutInt(2, len));
    bp' := Append(buf, bp', PutUnits(s[..len]));
  }

  /** What the slot of a field that can be sent looks like, and its bytes. */
  lemma SlotBytes(f: Field, p: Parm, v: Value, r: Regs)
    requires f.WellFormed() && SlotHolds(f, p, v) && Fits(f, v, r)
    ensures f.IsScalar() ==> p.UInt? && FieldBytes(f, v, r) == PutInt(f.size, p.n)
    ensures f.IsArray() ==> SlotFits(f, p) && p.b.Length == f.size * f.count && FieldBytes(f, v, r) == p.b[..]
    ensures f.kind.Str? ==> p.Chars? && p.s != null && 0 in p.s[..]
    ensures f.kind.Str? ==> var us := UpToNul(p.s[..]);
      FieldBytes(f, v, r) == PutInt(2, Length16(us)) + PutUnits(us[..Length16(us)])
    ensures f.kind.VarCount? ==> v == Number(p.AsNumber()) && FieldBytes(f, v, r) == PutInt(4, p.AsNumber())
    ensures f.IsVariable() ==> p.Octets? && (p.b == null ==> FieldBytes(f, v, r) == [])
    ensures f.IsVariable() && p.Octets? && p.b != null ==>
      p.b.Length == Mul32(r.size, r.count) && FieldBytes(f, v, r) == p.b[..]
    ensures f.IsFixed() ==> p.Octets? && p.b != null
    ensures f.IsFixed() && p.Octets? && p.b != null ==>
      p.b.Length == Mul32(f.size, f.count) && FieldBytes(f, v, r) == p.b[..]
  {
    hide PutInt, PutUnits, UpToNul, Mul32;
  }

  /** One step of sendMsg. */
  method SendField(buf: array<Octet>, bp: nat, f: Field, p: Parm, size: UInt32, count: UInt32, ghost v: Value)
    returns (bp': nat, size': UInt32, count': UInt32)
    requires f.WellFormed() && p.Pointer() != buf
    requires SlotHolds(f, p, v) && Fits(f, v, Regs(size, count))
    requires bp + |FieldBytes(f, v, Regs(size, count))| <= buf.Length
    modifies buf
    ensures bp' <= buf.Length
    ensures buf[..bp'] == old(buf[..bp]) + FieldBytes(f, v, Regs(size, count))
    ensures Regs(size', count') == Step(f, v, Regs(size, count))
  {
    SlotBytes(f, p, v, Regs(size, count));
    hide PutInt, PutUnits, UpToNul, SlotHolds, Fits, FieldBytes, Mul32;
    bp', size', count' := bp, size, count;
    match f.kind {
      case Integer | Float =>
        bp' := SendBasic(buf, bp, p, f);
      case Str =>
        bp' := SendString(buf, bp, p.s);
      case VarCount =>
        size' := f.size;
        count' := p.AsNumber();
        bp' := Append(buf, bp, PutInt(4, count'));
      case VarPtr | RawVarPtr =>
        if p.b != null {
          bp' := Append(buf, bp, p.b[..Mul32(size, count)]);
        }
        size', count' := 0, 0;
      case Data | Ptr | RawData | RawPtr =>
        bp' := Append(buf, bp, p.b[..Mul32(f.size, f.count)]);
    }
  }

  /** The buffer counted by NCMessageSize has room for every field. */
  lemma RoomForField(fs: seq<Field>, vs: seq<Value>, i: nat)
    requires WellFormed(fs) && Matches(fs, vs) && i < |fs|
    ensures FitsUpTo(fs, vs, i) && FitsUpTo(fs, vs, i + 1) && Fits(fs[i], vs[i], RegsAt(fs, vs, i))
    ensures |EncodeUpTo(fs, vs, i)| + |FieldBytes(fs[i], vs[i], RegsAt(fs, vs, i))| <= Size(fs, vs)
  {
    hide Fits, FieldBytes, FieldSize, Step;
    SizeExactUpTo(fs, vs, i + 1);
    SizeGrows(fs, vs, i + 1, |fs|);
  }

  lemma {:induction false} SizeGrows(fs: seq<Field>, vs: seq<Value>, m: nat, n: nat)
    requires Matches(fs, vs) && m <= n <= |fs|
    ensures SizeUpTo(fs, vs, m) <= SizeUpTo(fs, vs, n)
  {
    hide Fits, FieldSize, Step;
    if m == n {
    } else {
      SizeGrows(fs, vs, m, n - 1);
    }
  }

  /** One round of the loop of sendMsg: field i follows the fields before; the slots keep their data. */
  method SendSlot(buf: array<Octet>, bp: nat, fs: seq<Field>, data: array<Parm>, i: nat, size: UInt32, count: UInt32,
                  ghost vs: seq<Value>, ghost id: seq<Octet>)
    returns (bp': nat, size': UInt32, count': UInt32)
    requires WellFormed(fs) && Matches(fs, vs) && Holds(fs, data, vs) && i < |fs|
    requires forall j :: 0 <= j < data.Length ==> data[j].Pointer() != buf
    requires Regs(size, count) == RegsAt(fs, vs, i)
    requires bp <= buf.Length == |id| + Size(fs, vs) && buf[..bp] == id + EncodeUpTo(fs, vs, i)
    modifies buf
    ensures Holds(fs, data, vs)
    ensures Regs(size', count') == RegsAt(fs, vs, i + 1)
    ensures bp' <= buf.Length && buf[..bp'] == id + EncodeUpTo(fs, vs, i + 1)
  {
    hide Fits, FieldBytes, Step, SlotHolds, Size;
    assert forall j :: 0 <= j < |fs| ==> allocated(data[j].Pointer());
    RoomForField(fs, vs, i);
    assert bp == |id| + |EncodeUpTo(fs, vs, i)|;
    bp', size', count' := SendField(buf, bp, fs[i], data[i], size, count, vs[i]);
    Chain(id, EncodeUpTo(fs, vs, i), FieldBytes(fs[i], vs[i], RegsAt(fs, vs, i)));
  }

  /** The loop of sendMsg: writes the fields after the id. */
  method SendFields(buf: array<Octet>, fs: seq<Field>, data: array<Parm>, ghost vs: seq<Value>)
    requires WellFormed(fs) && Matches(fs, vs) && Holds(fs, data, vs)
    requires buf.Length == 2 + Size(fs, vs)
    requires forall i :: 0 <= i < data.Length ==> data[i].Pointer() != buf
    modifies buf
    ensures buf[..2] == old(buf[..2])
    ensures |Encode(fs, vs)| <= Size(fs, vs) && buf[2..2 + |Encode(fs, vs)|] == Encode(fs, vs)
  {
    hide Fits, FieldBytes, FieldSize, Step, Holds, Size, WellFormed;
    ghost var id := buf[..2];
    var bp := 2;
    var size: UInt32 := 0;
    var count: UInt32 := 0;
    var i := 0;
    while i < |fs|
      invariant i <= |fs| && Holds(fs, data, vs)
      invariant 0 <= bp <= buf.Length && buf[..bp] == id + EncodeUpTo(fs, vs, i)
      invariant Regs(size, count) == RegsAt(fs, vs, i)
    {
      bp, size, count := SendSlot(buf, bp, fs, data, i, size, count, vs, id);
      i := i + 1;
    }
    SizeExact(fs, vs);
    AfterId(buf[..], bp, old(buf[..2]), Encode(fs, vs));
  }

  lemma AfterId(b: seq<Octet>, n: nat, id: seq<Octet>, e: seq<Octet>)
    requires n <= |b| && |id| == 2 && b[..n] == id + e
    ensures b[..2] == id && n == 2 + |e| && b[2..n] == e
  {
    assert b[..2] == b[..n][..2];
    assert b[2..n] == b[..n][2..];
  }

  /**
    * One message: nothing when there is none; otherwise the id in two bytes and the payload, in a buffer of the size
    * counted beforehand, which is filled exactly unless a string is too long for its length field.
    */
  method SendMsg(h: Heap, sock: Socket, data: array<Parm>, msg: Option<Msg>, ghost vs: seq<Value>) returns (ok: bool)
    requires msg.Some? ==>
      WellFormed(msg.value.fields) && Matches(msg.value.fields, vs) && Holds(msg.value.fields, data, vs)
    modifies h, sock
    ensures ok == msg.Some? && h.live == old(h.live) && sock.incoming == old(sock.incoming)
    ensures msg.None? ==> sock.sent == old(sock.sent)
    ensures msg.Some? ==>
      && |sock.sent| == |old(sock.sent)| + 2 + Size(msg.value.fields, vs)
      && old(sock.sent) + PutInt(2, msg.value.id) + Encode(msg.value.fields, vs) <= sock.sent
    ensures msg.Some? && ShortStrings(vs) ==>
      sock.sent == old(sock.sent) + PutInt(2, msg.value.id) + Encode(msg.value.fields, vs)
  {
    hide PutInt, Encode, Size, SlotHolds, Matches, ShortStrings, WellFormed;
    if msg.None? {
      return false;
    }
    var fs, id := msg.value.fields, PutInt(2, msg.value.id);
    var n := NCMessageSize(fs, data, vs);
    assert forall j :: 0 <= j < |fs| ==> allocated(data[j].Pointer());
    var buffer := h.NewOctets(2 + n);
    var bp := Append(buffer, 0, id);
    SendFields(buffer, fs, data, vs);
    var count := sock.Send(buffer, 2 + n);
    ok := count > 0;
    h.Delete(buffer);
    SizeExact(fs, vs);
    Payload(old(sock.sent), buffer[..], id, Encode(fs, vs));
  }

  lemma Payload(sent: seq<Octet>, b: seq<Octet>, id: seq<Octet>, e: seq<Octet>)
    requires |id| == 2 && |b| >= 2 + |e| && b[..2] == id && b[2..2 + |e|] == e
    ensures sent + id + e <= sent + b
    ensures |b| == 2 + |e| ==> sent + b == sent + id + e
  {
    assert b[..2 + |e|] == id + e;
    assert sent + id + e == sent + (id + e);
    assert b == b[..2 + |e|] + b[2 + |e|..];
  }

  /** Receives n bytes into a buffer. */
  method RecvInto(sock: Socket, b: array<Octet>, n: nat)
    requires n == b.Length && n <= |sock.incoming|
    modifies sock`incoming, b
    ensures b[..] == old(sock.incoming[..n]) && sock.incoming == old(sock.incoming[n..])
  {
    var s := sock.Recv(n);
    var j := Append(b, 0, s);
  }

  /** RecvBasic: a number of 1, 2 or 4 bytes, or the array of the slot. */
  method RecvBasic(sock: Socket, p: Parm, f: Field, ghost d: (Value, seq<Octet>)) returns (p': Parm)
    requires f.WellFormed() && (f.IsScalar() || f.IsArray()) && SlotFits(f, p)
    requires DecodeField(f, Regs(0, 0), sock.incoming) == Some(d)
    modifies sock`incoming, if p.Pointer() == null then {} else {p.Pointer()}
    ensures sock.incoming == d.1 && SlotHolds(f, p', d.0)
    ensures p'.Pointer() == p.Pointer()
  {
    if f.count == 0 {
      var s := sock.Recv(f.size);
      p' := UInt(Narrow(s));
    } else {
      RecvInto(sock, p.b, f.count * f.size);
      p' := p;
    }
  }

  /** What a program sees of a received string: the code units before the first NUL. */
  function Seen(v: Value): Value {
    if v.Text? then Text(UpToNul(v.units)) else v
  }

  lemma {:induction false} UpToNulOfTerminated(us: seq<UInt16>)
    ensures UpToNul(us + [0]) == UpToNul(us)
  {
    if us == [] || us[0] == 0 {
    } else {
      UpToNulOfTerminated(us[1..]);
      assert (us + [0])[1..] == us[1..] + [0];
    }
  }

  /** The string case of recvMsg: allocates one unit more than announced, for the terminator. */
  method RecvString(h: Heap, sock: Socket, f: Field, ghost d: (Value, seq<Octet>)) returns (p: Parm)
    requires f.kind.Str?
    requires DecodeField(f, Regs(0, 0), sock.incoming) == Some(d)
    modifies h, sock`incoming
    ensures sock.incoming == d.1 && SlotHolds(f, p, Seen(d.0))
    ensures p.Pointer() != null && fresh(p.Pointer()) && h.live == old(h.live) + {p.Pointer()}
  {
    hide GetUnits, UpToNul;
    var b := sock.Recv(2);
    var len: nat := Narrow(b);
    var str := h.NewUnits(len + 1);
    var s := sock.Recv(len * 2);
    var us := GetUnits(s);
    var j := 0;
    while j < len
      invariant j <= len && str[..j] == us[..j]
      modifies str
    {
      str[j] := us[j];
      j := j + 1;
    }
    str[len] := 0;
    p := Chars(str);
    assert str[..] == us + [0];
    assert str[len] in str[..];
    UpToNulOfTerminated(us);
  }

  /** One step of recvMsg: the slot takes the decoded value, and owns what it owned or a new buffer. */
  method RecvField(h: Heap, sock: Socket, f: Field, p: Parm, size: UInt32, count: UInt32,
                   ghost d: (Value, seq<Octet>))
    returns (p': Parm, size': UInt32, count': UInt32)
    requires f.WellFormed() && Blank(f, p)
    requires DecodeField(f, Regs(size, count), sock.incoming) == Some(d)
    modifies h, sock`incoming, if p.Pointer() == null then {} else {p.Pointer()}
    ensures sock.incoming == d.1 && SlotFits(f, p') && SlotHolds(f, p', Seen(d.0))
    ensures Regs(size', count') == Step(f, d.0, Regs(size, count))
    ensures f.IsPointer() && p'.Pointer() != p.Pointer() ==>
      p.Pointer() == null && fresh(p'.Pointer()) && h.live == old(h.live) + {p'.Pointer()}
    ensures !f.IsPointer() || p'.Pointer() == p.Pointer() ==> h.live == old(h.live)
  {
    hide GetUnits, UpToNul;
    p', size', count' := p, size, count;
    match f.kind {
      case Integer | Float =>
        p' := RecvBasic(sock, p, f, d);
      case Str =>
        p' := RecvString(h, sock, f, d);
      case VarCount =>
        size' := f.size;
        var s := sock.Recv(4);
        count' := Narrow(s);
        p' := UInt(count');
      case VarPtr | RawVarPtr =>
        h.Delete(p.Pointer());
        var b := h.NewOctets(Mul32(size, count));
        RecvInto(sock, b, Mul32(size, count));
        p' := Octets(b);
        size', count' := 0, 0;
      case Data | Ptr | RawData | RawPtr =>
        RecvInto(sock, p.b, f.FixedSize());
    }
  }

  lemma {:induction false} DecodedEarlier(fs: seq<Field>, s: seq<Octet>, m: nat, n: nat)
    requires m <= n <= |fs| && DecodeUpTo(fs, s, n).Some?
    ensures DecodeUpTo(fs, s, m).Some?
    ensures DecodeUpTo(fs, s, m).value.values == DecodeUpTo(fs, s, n).value.values[..m]
  {
    hide DecodeField, Step;
    if m < n {
      DecodedEarlier(fs, s, m, n - 1);
      var shorter, longer := DecodeUpTo(fs, s, n - 1).value.values, DecodeUpTo(fs, s, n).value.values;
      assert longer[..m] == shorter[..m];
    } else {
      assert DecodeUpTo(fs, s, n).value.values[..n] == DecodeUpTo(fs, s, n).value.values;
    }
  }

  /** The step of the decoder at field i. */
  lemma DecodedAt(fs: seq<Field>, s: seq<Octet>, i: nat)
    requires i < |fs| && DecodeUpTo(fs, s, |fs|).Some?
    ensures DecodeUpTo(fs, s, i).Some? && DecodeUpTo(fs, s, i + 1).Some?
    ensures var d, d' := DecodeUpTo(fs, s, i).value, DecodeUpTo(fs, s, i + 1).value;
      var vs := DecodeUpTo(fs, s, |fs|).value.values;
      && DecodeField(fs[i], d.regs, d.rest) == Some((vs[i], d'.rest))
      && d'.regs == Step(fs[i], vs[i], d.regs)
  {
    hide DecodeField, Step;
    DecodedEarlier(fs, s, i, |fs|);
    DecodedEarlier(fs, s, i + 1, |fs|);
    var vs := DecodeUpTo(fs, s, |fs|).value.values;
    assert vs[..i + 1][i] == vs[i];
  }

  function SeenAll(vs: seq<Value>): (r: seq<Value>)
    ensures |r| == |vs|
  {
    seq(|vs|, i requires 0 <= i < |vs| => Seen(vs[i]))
  }

  /** What a change of slot i does to the buffers a message owns. */
  lemma {:induction false} OwnedUpdate(fs: seq<Field>, a: seq<Parm>, i: nat, p: Parm, n: nat)
    requires i < n <= |fs| && n <= |a|
    requires a[i].Pointer() == null || a[i].Pointer() == p.Pointer() || !fs[i].IsPointer()
    ensures Owned(fs, a[i := p], n)
         == Owned(fs, a, n) + if fs[i].IsPointer() && p.Pointer() != null then {p.Pointer()} else {}
  {
    if i == n - 1 {
      OwnedPrefix(fs, a, a[i := p], n - 1);
    } else {
      OwnedUpdate(fs, a, i, p, n - 1);
    }
  }

  /** A slot points only at a buffer of its message, and only if its field has a pointer. */
  lemma PointerOwned(fs: seq<Field>, a: seq<Parm>, i: nat)
    requires i < |fs| == |a| && SlotFits(fs[i], a[i]) && a[i].Pointer() != null
    ensures fs[i].IsPointer() && a[i].Pointer() in Owned(fs, a, |fs|)
  {
    OwnedMember(fs, a, |fs|, a[i].Pointer());
  }

  lemma AllPointersOwned(fs: seq<Field>, a: seq<Parm>)
    requires |a| == |fs| && forall i :: 0 <= i < |fs| ==> SlotFits(fs[i], a[i])
    ensures forall i :: 0 <= i < |fs| && a[i].Pointer() != null ==>
      fs[i].IsPointer() && a[i].Pointer() in Owned(fs, a, |fs|)
  {
    forall i | 0 <= i < |fs| && a[i].Pointer() != null
      ensures fs[i].IsPointer() && a[i].Pointer() in Owned(fs, a, |fs|)
    {
      PointerOwned(fs, a, i);
    }
  }

  /** One round of the loop of recvMsg: slot i is filled, the other slots keep their data. */
  method RecvSlot(h: Heap, sock: Socket, fs: seq<Field>, data: array<Parm>, i: nat, size: UInt32, count: UInt32,
                  ghost vs: seq<Value>, ghost rest: seq<Octet>)
    returns (size': UInt32, count': UInt32)
    requires WellFormed(fs) && |vs| == |fs| && i < |fs| && Tidy(fs, data) && Blank(fs[i], data[i])
    requires forall j :: 0 <= j < i ==> SlotHolds(fs[j], data[j], Seen(vs[j]))
    requires DecodeField(fs[i], Regs(size, count), sock.incoming) == Some((vs[i], rest))
    modifies h, sock`incoming, data, Owned(fs, data[..], |fs|)
    ensures sock.incoming == rest && Regs(size', count') == Step(fs[i], vs[i], Regs(size, count))
    ensures Tidy(fs, data) && data[..] == old(data[..])[i := data[i]]
    ensures forall j :: 0 <= j <= i ==> SlotHolds(fs[j], data[j], Seen(vs[j]))
    ensures h.live == old(h.live) + (Owned(fs, data[..], |fs|) - old(Owned(fs, data[..], |fs|)))
    ensures old(Owned(fs, data[..], |fs|)) <= Owned(fs, data[..], |fs|)
    ensures forall o :: o in Owned(fs, data[..], |fs|) - old(Owned(fs, data[..], |fs|)) ==> fresh(o)
  {
    hide DecodeField, Step, SlotHolds, SlotFits, Seen;
    ghost var was := data[..];
    AllPointersOwned(fs, was);
    ghost var own := Owned(fs, was, |fs|);
    assert forall j :: 0 <= j < |fs| ==> allocated(was[j].Pointer());
    forall o | o in own ensures allocated(o) {
      OwnedMember(fs, was, |fs|, o);
    }
    var p;
    p, size', count' := RecvField(h, sock, fs[i], data[i], size, count, (vs[i], rest));
    assert forall j :: 0 <= j < i ==> SlotHolds(fs[j], was[j], Seen(vs[j]));
    OwnedUpdate(fs, was, i, p, |fs|);
    if p.Pointer() != null {
      PointerOwned(fs, was[i := p], i);
    }
    assert h.live == old(h.live) + (Owned(fs, was[i := p], |fs|) - own);
    data[i] := p;
    assert data[..] == was[i := p];
  }

  /**
    * Receives one message: its slots hold the values decoded from the stream, exactly the bytes of the message are
    * taken, and the new live buffers are the slot array and the buffers of the slots.
    */
  method RecvMsg(h: Heap, sock: Socket, msg: Option<Msg>) returns (data: array?<Parm>)
    requires msg.Some? ==> WellFormed(msg.value.fields) && Decode(msg.value.fields, sock.incoming).Some?
    modifies h, sock
    ensures data == null <==> msg.None?
    ensures sock.sent == old(sock.sent)
    ensures msg.None? ==> sock.incoming == old(sock.incoming) && h.live == old(h.live)
    ensures msg.Some? ==>
      && fresh(data) && Owns(h, msg.value.fields, data)
      && h.live == old(h.live) + {data} + Owned(msg.value.fields, data[..], |msg.value.fields|)
      && (forall o :: o in Owned(msg.value.fields, data[..], |msg.value.fields|) ==> fresh(o))
    ensures msg.Some? ==>
      var d := Decode(msg.value.fields, old(sock.incoming)).value;
      Holds(msg.value.fields, data, SeenAll(d.0)) && sock.incoming == d.1
  {
    hide DecodeUpTo, DecodeField, Step, SlotHolds, SlotFits, Seen, Tidy, Owned, Blank;
    if msg.None? {
      return null;
    }
    var fs := msg.value.fields;
    ghost var s, n := sock.incoming, |fs|;
    DecodeNone(fs, s);
    ghost var vs := DecodeUpTo(fs, s, n).value.values;
    assert forall f :: f in fs ==> f.WellFormed() && f.Allocatable();
    var ok, blank := NCAllocMessage(h, msg);
    var slots: array<Parm> := blank;
    var size: UInt32 := 0;
    var count: UInt32 := 0;
    var i := 0;
    while i < |fs|
      invariant i <= |fs| && fresh(slots) && sock.sent == old(sock.sent)
      invariant DecodeUpTo(fs, s, i).Some?
      invariant sock.incoming == DecodeUpTo(fs, s, i).value.rest
      invariant Regs(size, count) == DecodeUpTo(fs, s, i).value.regs
      invariant forall j :: 0 <= j < i ==> SlotHolds(fs[j], slots[j], Seen(vs[j]))
      invariant forall j :: i <= j < |fs| ==> Blank(fs[j], slots[j])
      invariant Tidy(fs, slots)
      invariant h.live == old(h.live) + {slots} + Owned(fs, slots[..], n)
      invariant forall o :: o in Owned(fs, slots[..], n) ==> fresh(o)
    {
      ghost var was := slots[..];
      DecodedAt(fs, s, i);
      size, count := RecvSlot(h, sock, fs, slots, i, size, count, vs, DecodeUpTo(fs, s, i + 1).value.rest);
      assert forall j :: i < j < n ==> slots[..][j] == was[j];
      i := i + 1;
    }
    data := slots;
  }

  lemma {:induction false} UpToNulOfNulFree(us: seq<UInt16>)
    requires 0 !in us
    ensures UpToNul(us) == us
  {
    if us == [] {
    } else {
      UpToNulOfNulFree(us[1..]);
    }
  }

  lemma UpToNulIsWhole(us: seq<UInt16>, n: nat)
    requires n <= |us| && 0 !in us
    ensures UpToNul(us[..n]) == us[..n]
  {
    UpToNulOfNulFree(us[..n]);
  }

  /** A program sees all of the strings that were received, since no sent one has a NUL. */
  lemma SeenIsReceived(fs: seq<Field>, vs: seq<Value>)
    requires Matches(fs, vs)
    ensures SeenAll(ReceivedAll(fs, vs)) == ReceivedAll(fs, vs)
  {
    forall i | 0 <= i < |vs| ensures Seen(Received(fs[i], vs[i])) == Received(fs[i], vs[i]) {
      assert Fits(fs[i], vs[i], RegsAt(fs, vs, i));
      if vs[i].Text? {
        UpToNulIsWhole(vs[i].units, Length16(vs[i].units));
      }
    }
  }

  /** What the receiver makes of the bytes of one message: its id, then its data, then what follows. */
  lemma OnTheWire(msg: Msg, vs: seq<Value>, later: seq<Octet>)
    requires WellFormed(msg.fields) && Matches(msg.fields, vs)
    ensures var s := [] + PutInt(2, msg.id) + Encode(msg.fields, vs) + later;
      && Narrow(s[..2]) == msg.id % 0x1_0000
      && Decode(msg.fields, s[2..]) == Some((ReceivedAll(msg.fields, vs), later))
  {
    hide Matches, ShortStrings, WellFormed, Encode, Decode, PutInt, GetInt, CutAll, ReceivedAll;
    var s := [] + PutInt(2, msg.id) + Encode(msg.fields, vs) + later;
    assert s[..2] == PutInt(2, msg.id);
    assert s[2..] == Encode(msg.fields, vs) + later;
    WidthRoundTrip(msg.id);
    MessageRoundTrip(msg.fields, vs, later);
  }

  /** The receiving end: reads the id, then the message that it announces. */
  method ReceiveNext(h: Heap, peer: Socket, msg: Msg, ghost vs: seq<Value>, ghost later: seq<Octet>)
    returns (id: UInt32, copy: array<Parm>)
    requires WellFormed(msg.fields) && Matches(msg.fields, vs)
    requires peer.incoming == [] + PutInt(2, msg.id) + Encode(msg.fields, vs) + later
    modifies h, peer
    ensures id == msg.id % 0x1_0000 && peer.incoming == later
    ensures Holds(msg.fields, copy, ReceivedAll(msg.fields, vs))
    ensures fresh(copy) && Owns(h, msg.fields, copy)
    ensures h.live == old(h.live) + {copy} + Owned(msg.fields, copy[..], |msg.fields|)
  {
    hide Matches, WellFormed, Encode, Decode, PutInt, GetInt, ReceivedAll, SeenAll;
    hide Narrow, Owns, Owned, Holds;
    OnTheWire(msg, vs, later);
    var b := peer.Recv(2);
    id := Narrow(b);
    SeenIsReceived(msg.fields, vs);
    copy := RecvMsg(h, peer, Some(msg));
  }

  /** What sendMsg leaves between a message and the next one: the end of its buffer, empty if strings are short. */
  lemma Excess(sent: seq<Octet>, id: seq<Octet>, fs: seq<Field>, vs: seq<Value>, later: seq<Octet>)
    returns (excess: seq<Octet>)
    requires WellFormed(fs) && Matches(fs, vs)
    requires |id| == 2 && |sent| == 2 + Size(fs, vs) && [] + id + Encode(fs, vs) <= sent
    ensures sent + later == [] + id + Encode(fs, vs) + (excess + later)
    ensures |excess| == Size(fs, vs) - |Encode(fs, vs)|
    ensures excess == [] <==> ShortStrings(vs)
  {
    hide Matches, ShortStrings, WellFormed, Encode, Size;
    var front := [] + id + Encode(fs, vs);
    excess := sent[|front|..];
    SizeExact(fs, vs);
    assert sent == front + excess;
    Chain(front, excess, later);
  }

  /**
    * A message over the network: the other side holds a copy of the data in buffers of its own. It finds the next
    * message right behind if and only if no string is too long for its length field; otherwise the unused end of the
    * sender's buffer stands between. The sender's data stays.
    */
  method Transfer(h: Heap, msg: Msg, data: array<Parm>, later: seq<Octet>, ghost vs: seq<Value>)
    returns (peer: Socket, id: UInt32, copy: array<Parm>, ghost excess: seq<Octet>)
    requires WellFormed(msg.fields) && Matches(msg.fields, vs) && Holds(msg.fields, data, vs)
    modifies h
    ensures id == msg.id % 0x1_0000 && peer.incoming == excess + later
    ensures |excess| == Size(msg.fields, vs) - |Encode(msg.fields, vs)| && (excess == [] <==> ShortStrings(vs))
    ensures Holds(msg.fields, copy, ReceivedAll(msg.fields, vs)) && Holds(msg.fields, data, vs)
    ensures ReceivedAll(msg.fields, vs) == CutAll(msg.fields, vs) <==> ShortStrings(vs)
    ensures fresh(copy) && Owns(h, msg.fields, copy)
    ensures h.live == old(h.live) + {copy} + Owned(msg.fields, copy[..], |msg.fields|)
  {
    hide Matches, ShortStrings, WellFormed, Encode, Size, PutInt, CutAll, ReceivedAll, Owns, Owned, SlotHolds;
    assert forall j :: 0 <= j < data.Length ==> allocated(data[j].Pointer());
    var sock := new Socket([]);
    var ok := SendMsg(h, sock, data, Some(msg), vs);
    excess := Excess(sock.sent, PutInt(2, msg.id), msg.fields, vs, later);
    ReceivedIsCut(msg.fields, vs);
    peer := new Socket(sock.sent + later);
    id, copy := ReceiveNext(h, peer, msg, vs, excess + later);
  }

  /** Allocating a message and releasing it leaves the live buffers as they were. */
  method AllocateAndFree(h: Heap, msg: Msg) returns (ok: bool)
    modifies h
    ensures ok <==> forall f :: f in msg.fields ==> f.Allocatable()
    ensures ok ==> h.live == old(h.live)
  {
    hide Tidy;
    var data;
    ok, data := NCAllocMessage(h, Some(msg));
    if ok {
      NCFreeMessage(h, data, msg.fields);
    }
  }

  /** So does receiving one and releasing it, whatever the stream holds. */
  method ReceiveAndFree(h: Heap, sock: Socket, msg: Msg)
    requires WellFormed(msg.fields) && Decode(msg.fields, sock.incoming).Some?
    modifies h, sock
    ensures h.live == old(h.live)
    ensures sock.incoming == Decode(msg.fields, old(sock.incoming)).value.1
  {
    hide Decode, Tidy;
    var data := RecvMsg(h, sock, Some(msg));
    NCFreeMessage(h, data, msg.fields);
  }
}
