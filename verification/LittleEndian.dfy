/** Runs of bytes, and unsigned integers in them with the low byte first, as all formats here have it. */
module LittleEndian {
  import opened Wrappers

  type Octet = x: int | 0 <= x < 0x100 witness 0

  type UInt16 = x: int | 0 <= x < 0x1_0000 witness 0

  type UInt32 = x: int | 0 <= x < 0x1_0000_0000 witness 0

  /** The w low-order bytes of v. */
  function PutInt(w: nat, v: nat): (s: seq<Octet>)
    ensures |s| == w
  {
    if w == 0 then [] else [v % 0x100] + PutInt(w - 1, v / 0x100)
  }

  function GetInt(s: seq<Octet>): (v: nat)
  {
    if s == [] then 0 else s[0] + 0x100 * GetInt(s[1..])
  }

  /** 2 to the power 8w. */
  function Cap(w: nat): (c: nat)
    ensures c > 0
  {
    if w == 0 then 1 else 0x100 * Cap(w - 1)
  }

  lemma Caps()
    ensures Cap(1) == 0x100 && Cap(2) == 0x1_0000 && Cap(4) == 0x1_0000_0000
  {
    assert Cap(3) == 0x100_0000;
  }

  lemma SplitMod(v: nat, m: nat)
    requires m > 0
    ensures v % (0x100 * m) == v % 0x100 + 0x100 * ((v / 0x100) % m)
  {
    var q, r := (v / 0x100) / m, (v / 0x100) % m;
    var low := v % 0x100 + 0x100 * r;
    assert v == 0x100 * (q * m + r) + v % 0x100;
    assert v == q * (0x100 * m) + low;
    QuotientUnique(v, 0x100 * m, q, low);
  }

  lemma QuotientUnique(v: nat, m: nat, q: nat, r: nat)
    requires m > 0 && v == q * m + r && r < m
    ensures v % m == r
  {
    var k: int := v / m - q;
    assert k * m == r - v % m by {
      assert v == (v / m) * m + v % m;
      assert k * m == (v / m) * m - q * m;
    }
    MultipleBounds(k, m);
  }

  lemma {:induction false} MultipleBounds(k: int, m: int)
    requires m > 0
    ensures k > 0 ==> k * m >= m
    ensures k < 0 ==> k * m <= -m
    decreases if k < 0 then -k else k
  {
    if k > 1 {
      MultipleBounds(k - 1, m);
      assert k * m == (k - 1) * m + m;
    } else if k < -1 {
      MultipleBounds(k + 1, m);
      assert k * m == (k + 1) * m - m;
    }
  }

  /** Reading back what was written gives the value cut to the width. */
  lemma {:induction false} GetOfPut(w: nat, v: nat)
    ensures GetInt(PutInt(w, v)) == v % Cap(w)
  {
    if w == 0 {
    } else {
      GetOfPut(w - 1, v / 0x100);
      assert PutInt(w, v)[1..] == PutInt(w - 1, v / 0x100);
      SplitMod(v, Cap(w - 1));
    }
  }

  /** One byte more or less at the low end. */
  lemma GetStep(b: Octet, s: seq<Octet>)
    ensures GetInt([b] + s) == b + 0x100 * GetInt(s)
  {
    assert ([b] + s)[1..] == s;
  }

  lemma PutStep(b: Octet, n: nat, v: nat)
    ensures PutInt(1 + n, b + 0x100 * v) == [b] + PutInt(n, v)
  {
    ByteAndRest(b, v);
    PutSplit(1 + n, b + 0x100 * v);
  }

  lemma ByteAndRest(b: Octet, v: nat)
    ensures (b + 0x100 * v) % 0x100 == b && (b + 0x100 * v) / 0x100 == v
  {
  }

  lemma PutSplit(w: nat, v: nat)
    requires w > 0
    ensures PutInt(w, v) == [v % 0x100] + PutInt(w - 1, v / 0x100)
  {
  }

  lemma CapStep(n: nat)
    ensures Cap(1 + n) == 0x100 * Cap(n)
  {
  }

  lemma NoBytes()
    ensures GetInt([]) == 0 && PutInt(0, 0) == [] && Cap(0) == 1
  {
  }

  /** The converse: every byte sequence is what its value is written as. */
  lemma {:induction false} PutOfGet(s: seq<Octet>)
    ensures PutInt(|s|, GetInt(s)) == s
    ensures GetInt(s) < Cap(|s|)
  {
    hide *;
    if s == [] {
      NoBytes();
    } else {
      assert s == [s[0]] + s[1..];
      PutOfGet(s[1..]);
      GetStep(s[0], s[1..]);
      PutStep(s[0], |s| - 1, GetInt(s[1..]));
      CapStep(|s| - 1);
    }
  }

  function PutUnits(us: seq<UInt16>): (s: seq<Octet>)
    ensures |s| == 2 * |us|
  {
    if us == [] then [] else PutUnits(us[..|us| - 1]) + PutInt(2, us[|us| - 1])
  }

  function GetUnits(s: seq<Octet>): (us: seq<UInt16>)
    requires |s| % 2 == 0
    ensures |us| == |s| / 2
  {
    if s == [] then [] else
      var last := s[|s| - 2..];
      PutOfGet(last);
      Caps();
      GetUnits(s[..|s| - 2]) + [GetInt(last)]
  }

  lemma WidthRoundTrip(v: nat)
    ensures GetInt(PutInt(1, v)) == v % 0x100
    ensures GetInt(PutInt(2, v)) == v % 0x1_0000
    ensures GetInt(PutInt(4, v)) == v % 0x1_0000_0000
  {
    GetOfPut(1, v);
    GetOfPut(2, v);
    GetOfPut(4, v);
    Caps();
  }

  lemma NoUnits()
    ensures PutUnits([]) == [] && GetUnits([]) == []
  {
  }

  lemma {:induction false} UnitsRoundTrip(us: seq<UInt16>)
    ensures GetUnits(PutUnits(us)) == us
  {
    hide *;
    if us == [] {
      NoUnits();
    } else {
      var init, last := us[..|us| - 1], us[|us| - 1];
      assert us == init + [last];
      UnitsRoundTrip(init);
      WidthRoundTrip(last);
      AppendedValue(init, last);
      AppendedUnit(PutUnits(init), PutInt(2, last));
    }
  }

  /** The converse: every even run of bytes is what its code units are written as. */
  lemma {:induction false} BytesRoundTrip(s: seq<Octet>)
    requires |s| % 2 == 0
    ensures PutUnits(GetUnits(s)) == s
  {
    hide *;
    if s == [] {
      NoUnits();
    } else {
      var init, last := s[..|s| - 2], s[|s| - 2..];
      BytesRoundTrip(init);
      PutOfGet(last);
      Caps();
      AppendedUnit(init, last);
      assert s == init + last;
      AppendedValue(GetUnits(init), GetInt(last));
    }
  }

  lemma AppendedValue(us: seq<UInt16>, u: UInt16)
    ensures PutUnits(us + [u]) == PutUnits(us) + PutInt(2, u)
  {
    assert (us + [u])[..|us|] == us;
  }

  lemma AppendedUnit(s: seq<Octet>, u: seq<Octet>)
    requires |s| % 2 == 0 && |u| == 2
    ensures var t := s + u;
      GetUnits(t) == GetUnits(s) + [GetInt(t[|t| - 2..])] && t[|t| - 2..] == u
  {
    var t := s + u;
    assert t[..|t| - 2] == s;
  }

  function Repeat<T>(x: T, n: nat): (s: seq<T>)
    ensures |s| == n && forall i :: 0 <= i < n ==> s[i] == x
  {
    seq(n, _ => x)
  }

  /** n bytes off the front, if there are as many. */
  function Take(s: seq<Octet>, n: nat): Option<(seq<Octet>, seq<Octet>)> {
    if n <= |s| then Some((s[..n], s[n..])) else None
  }

  lemma TakeFront(a: seq<Octet>, b: seq<Octet>)
    ensures Take(a + b, |a|) == Some((a, b))
  {
    assert (a + b)[..|a|] == a && (a + b)[|a|..] == b;
  }

  lemma TakeParts(s: seq<Octet>, n: nat)
    requires Take(s, n).Some?
    ensures |Take(s, n).value.0| == n && Take(s, n).value.0 + Take(s, n).value.1 == s
  {
  }

  /** At most four bytes read into an unsigned int. */
  function Narrow(b: seq<Octet>): (n: UInt32)
    requires |b| <= 4
  {
    PutOfGet(b);
    assert Cap(|b|) <= Cap(4) by {
      Caps();
      assert Cap(3) == 0x100_0000;
    }
    Caps();
    GetInt(b)
  }

  /** Two bytes as a number. */
  function Short(b: seq<Octet>): (n: UInt16)
    requires |b| == 2
  {
    PutOfGet(b);
    Caps();
    GetInt(b)
  }

  lemma Chain(a: seq<Octet>, b: seq<Octet>, c: seq<Octet>)
    ensures a + b + c == a + (b + c)
  {
  }

  /** b is n in four bytes, two bytes or one byte, the low byte first. */
  predicate IsNumber(b: seq<Octet>, n: nat) {
    match |b|
    case 1 => b[0] == n % 0x100
    case 2 => b[0] == n % 0x100 && b[1] == n / 0x100 % 0x100
    case 4 =>
      && b[0] == n % 0x100 && b[1] == n / 0x100 % 0x100
      && b[2] == n / 0x1_0000 % 0x100 && b[3] == n / 0x100_0000 % 0x100
    case _ => false
  }

  lemma NumberBytes(w: nat, n: nat)
    requires w == 1 || w == 2 || w == 4
    ensures IsNumber(PutInt(w, n), n)
  {
    hide PutInt;
    var n1, n2, n3 := n / 0x100, n / 0x1_0000, n / 0x100_0000;
    assert n1 / 0x100 == n2 && n2 / 0x100 == n3;
    NextByte(w, n);
    if w == 2 {
      NextByte(1, n1);
    } else if w == 4 {
      NextByte(3, n1);
      NextByte(2, n2);
      NextByte(1, n3);
    }
  }

  lemma NextByte(w: nat, n: nat)
    requires w > 0
    ensures PutInt(w, n) == [n % 0x100] + PutInt(w - 1, n / 0x100)
  {
  }

  /** b is a run of 16-bit numbers, the low byte first. */
  predicate AreUnits(b: seq<Octet>, us: seq<UInt16>) {
    |b| == 2 * |us| && forall i :: 0 <= i < |us| ==> b[2 * i] == us[i] % 0x100 && b[2 * i + 1] == us[i] / 0x100
  }

  lemma {:induction false} UnitBytes(us: seq<UInt16>)
    ensures AreUnits(PutUnits(us), us)
  {
    if us == [] {
    } else {
      var n := |us| - 1;
      UnitBytes(us[..n]);
      NumberBytes(2, us[n]);
      var b := PutUnits(us[..n]) + PutInt(2, us[n]);
      assert PutUnits(us) == b;
      assert forall i :: 0 <= i < n ==> b[2 * i] == PutUnits(us[..n])[2 * i] && us[..n][i] == us[i];
    }
  }

  /** What is read of two or four bytes. */
  lemma FrontNumber(b: seq<Octet>)
    requires |b| == 2 || |b| == 4
    ensures IsNumber(b, GetInt(b))
  {
    hide PutInt, GetInt, IsNumber;
    PutOfGet(b);
    NumberBytes(|b|, GetInt(b));
  }
}
