/**
  * The reference tracer: prints the keys of a page that refer to a key, those that refer to these, and so on, each
  * indented below what it refers to. References may be cyclic; a stack of the keys being traced keeps the search
  * finite.
  */
module TraceKey {
  import opened Wrappers

  /** A page: its keys by type, with gaps, and whether the object of one key holds a reference to another key. */
  datatype Page<!K(==)> = Page(keys: seq<seq<Option<K>>>, hasRef: (K, K) -> bool)

  /** A printed line. */
  datatype Line<K> = Line(indent: nat, key: K)

  function Flat<K>(keys: seq<seq<Option<K>>>, n: nat): seq<Option<K>>
    requires n <= |keys|
  {
    if n == 0 then [] else Flat(keys, n - 1) + keys[n - 1]
  }

  /** The slots of a page in the order of the two loops over types and keys. */
  function Slots<K>(p: Page<K>): seq<Option<K>> { Flat(p.keys, |p.keys|) }

  function KeysOf<K>(slots: seq<Option<K>>): set<K> {
    set i | 0 <= i < |slots| && slots[i].Some? :: slots[i].value
  }

  function PageKeys<K>(p: Page<K>): set<K> { KeysOf(Slots(p)) }

  function Elements<K>(s: seq<K>): set<K> { set k | k in s }

  /** The keys of the page that are not being traced. */
  function Fresh<K>(p: Page<K>, stack: seq<K>): set<K> { PageKeys(p) - Elements(stack) }

  /** What is printed below a key at some indent, while the keys of the stack are being traced. */
  function Tree<K>(p: Page<K>, key: K, indent: nat, stack: seq<K>): (t: seq<Line<K>>)
    decreases |Fresh(p, stack)|, if key in PageKeys(p) then 0 else 1, 0
  {
    if key in stack then [] else
      FreshShrinks(p, key, stack);
      [Line(indent, key)] + Forest(p, key, indent + 1, stack + [key], |Slots(p)|)
  }

  /** What the first n slots of the page contribute below a key, which is on top of the stack. */
  function Forest<K>(p: Page<K>, key: K, indent: nat, stack: seq<K>, n: nat): seq<Line<K>>
    requires n <= |Slots(p)|
    decreases |Fresh(p, stack)|, 0, n
  {
    if n == 0 then [] else
      var slot := Slots(p)[n - 1];
      Forest(p, key, indent, stack, n - 1)
      + if slot.Some? && p.hasRef(slot.value, key) then Tree(p, slot.value, indent, stack) else []
  }

  lemma FreshShrinks<K>(p: Page<K>, key: K, stack: seq<K>)
    requires key !in stack
    ensures Fresh(p, stack + [key]) == Fresh(p, stack) - {key}
    ensures key in PageKeys(p) ==> |Fresh(p, stack + [key])| < |Fresh(p, stack)|
    ensures |Fresh(p, stack + [key])| <= |Fresh(p, stack)|
  {
  }

  /** Each key of a chain but the first is a key of the page and refers to the one before. */
  predicate Chain<K>(p: Page<K>, c: seq<K>) {
    |c| > 0 && forall i :: 0 < i < |c| ==> c[i] in PageKeys(p) && p.hasRef(c[i], c[i - 1])
  }

  predicate Simple<K(==)>(c: seq<K>) { forall i, j :: 0 <= i < j < |c| ==> c[i] != c[j] }

  /** A chain from one key to another. */
  predicate Links<K>(p: Page<K>, from: K, to: K, c: seq<K>) {
    Chain(p, c) && c[0] == from && c[|c| - 1] == to
  }

  /** The chain that a printed line stands for. */
  predicate Stands<K>(p: Page<K>, key: K, indent: nat, stack: seq<K>, line: Line<K>, c: seq<K>) {
    && Links(p, key, line.key, c) && line.indent == indent + |c| - 1
    && Simple(c) && forall k :: k in c ==> k !in stack
  }

  lemma {:induction false} ForestLine<K>(p: Page<K>, key: K, indent: nat, stack: seq<K>, n: nat, line: Line<K>)
    requires n <= |Slots(p)|
    ensures line in Forest(p, key, indent, stack, n) <==>
      exists i :: 0 <= i < n && Slots(p)[i].Some? && p.hasRef(Slots(p)[i].value, key)
                  && line in Tree(p, Slots(p)[i].value, indent, stack)
  {
    hide Tree;
    if n == 0 {
    } else {
      ForestLine(p, key, indent, stack, n - 1, line);
    }
  }

  /** A line comes from a chain. */
  lemma {:induction false} ChainOfLine<K>(p: Page<K>, key: K, indent: nat, stack: seq<K>, line: Line<K>)
    returns (c: seq<K>)
    requires line in Tree(p, key, indent, stack)
    ensures Stands(p, key, indent, stack, line, c)
    decreases |Fresh(p, stack)|, if key in PageKeys(p) then 0 else 1
  {
    hide Forest, Slots;
    FreshShrinks(p, key, stack);
    if line == Line(indent, key) {
      c := [key];
    } else {
      var below := stack + [key];
      ForestLine(p, key, indent + 1, below, |Slots(p)|, line);
      var i :| 0 <= i < |Slots(p)| && Slots(p)[i].Some? && p.hasRef(Slots(p)[i].value, key)
        && line in Tree(p, Slots(p)[i].value, indent + 1, below);
      var k := Slots(p)[i].value;
      var rest := ChainOfLine(p, k, indent + 1, below, line);
      c := [key] + rest;
      Prepend(p, key, indent, stack, line, rest);
    }
  }

  lemma Prepend<K>(p: Page<K>, key: K, indent: nat, stack: seq<K>, line: Line<K>, c: seq<K>)
    requires key !in stack && c != [] && c[0] in PageKeys(p) && p.hasRef(c[0], key)
    requires Stands(p, c[0], indent + 1, stack + [key], line, c)
    ensures Stands(p, key, indent, stack, line, [key] + c)
  {
    hide PageKeys;
    var d := [key] + c;
    forall i | 0 < i < |d| ensures d[i] in PageKeys(p) && p.hasRef(d[i], d[i - 1]) {
      assert d[i] == c[i - 1];
    }
    assert key in stack + [key];
  }

  /** A chain leads to a line. */
  lemma {:induction false} LineOfChain<K>(p: Page<K>, key: K, indent: nat, stack: seq<K>, line: Line<K>, c: seq<K>)
    requires Stands(p, key, indent, stack, line, c)
    ensures line in Tree(p, key, indent, stack)
    decreases |c|
  {
    hide Forest, Slots;
    FreshShrinks(p, key, stack);
    assert key in c;
    if |c| == 1 {
    } else {
      var rest, below := c[1..], stack + [key];
      assert Stands(p, c[1], indent + 1, below, line, rest) by {
        Shorten(p, key, indent, stack, line, c);
      }
      LineOfChain(p, c[1], indent + 1, below, line, rest);
      var i :| 0 <= i < |Slots(p)| && Slots(p)[i].Some? && Slots(p)[i].value == c[1];
      ForestLine(p, key, indent + 1, below, |Slots(p)|, line);
    }
  }

  lemma Shorten<K>(p: Page<K>, key: K, indent: nat, stack: seq<K>, line: Line<K>, c: seq<K>)
    requires |c| > 1 && Stands(p, key, indent, stack, line, c)
    ensures Stands(p, c[1], indent + 1, stack + [key], line, c[1..])
  {
    hide PageKeys;
    var d := c[1..];
    forall i | 0 < i < |d| ensures d[i] in PageKeys(p) && p.hasRef(d[i], d[i - 1]) {
      assert d[i] == c[i + 1];
    }
    forall k | k in d ensures k !in stack + [key] {
      var i :| 0 <= i < |d| && d[i] == k;
      assert c[i + 1] == k && k in c;
    }
  }

  /** The printed lines are exactly the chains of references without repetition: their ends, at their depths. */
  lemma LinesAreChains<K(!new)>(p: Page<K>, key: K, indent: nat, stack: seq<K>, line: Line<K>)
    ensures line in Tree(p, key, indent, stack) <==> exists c: seq<K> :: Stands(p, key, indent, stack, line, c)
  {
    hide Tree, Stands;
    if line in Tree(p, key, indent, stack) {
      var c := ChainOfLine(p, key, indent, stack, line);
    }
    if c: seq<K> :| Stands(p, key, indent, stack, line, c) {
      LineOfChain(p, key, indent, stack, line, c);
    }
  }

  /** Any chain can be cut down to one without repetition. */
  lemma {:induction false} SimpleChain<K>(p: Page<K>, from: K, to: K, c: seq<K>) returns (d: seq<K>)
    requires Links(p, from, to, c)
    ensures Links(p, from, to, d) && Simple(d)
    decreases |c|
  {
    hide PageKeys;
    if Simple(c) {
      d := c;
    } else {
      var i, j :| 0 <= i < j < |c| && c[i] == c[j];
      var e := c[..i] + c[j..];
      forall m | 0 < m < |e| ensures e[m] in PageKeys(p) && p.hasRef(e[m], e[m - 1]) {
        if m < i {
          assert e[m] == c[m] && e[m - 1] == c[m - 1];
        } else if m > i {
          assert e[m] == c[m - i + j] && e[m - 1] == c[m - i + j - 1];
        } else {
          assert e[m] == c[m] && e[m - 1] == c[m - 1];
        }
      }
      assert e[0] == c[0] && e[|e| - 1] == c[|c| - 1];
      d := SimpleChain(p, from, to, e);
    }
  }

  predicate Prints<K(==)>(t: seq<Line<K>>, key: K) { exists i :: 0 <= i < |t| && t[i].key == key }

  /** The printed keys are the start and all keys of the page that reach it by a chain of references. */
  lemma PrintedAreReaching<K(!new)>(p: Page<K>, start: K, key: K)
    ensures Prints(Tree(p, start, 0, []), key) <==> exists c: seq<K> :: Links(p, start, key, c)
  {
    hide Tree, Simple, Chain;
    var t := Tree(p, start, 0, []);
    if Prints(t, key) {
      var i :| 0 <= i < |t| && t[i].key == key;
      var c := ChainOfLine(p, start, 0, [], t[i]);
      assert Links(p, start, key, c);
    }
    if c: seq<K> :| Links(p, start, key, c) {
      var d := SimpleChain(p, start, key, c);
      assert |d| > 0 by {
        ChainNotEmpty(p, d);
      }
      var line := Line(|d| - 1, key);
      LineOfChain(p, start, 0, [], line, d);
      var i :| 0 <= i < |t| && t[i] == line;
    }
  }

  lemma ChainNotEmpty<K>(p: Page<K>, c: seq<K>)
    requires Chain(p, c)
    ensures |c| > 0
  {
  }

  /** Line j is what line i is indented below: the nearest line above with a smaller indent, and i refers to it. */
  predicate Below<K>(p: Page<K>, t: seq<Line<K>>, i: nat, j: nat) {
    && j < i < |t| && t[i].indent == t[j].indent + 1 && p.hasRef(t[i].key, t[j].key)
    && forall m :: j < m < i ==> t[m].indent >= t[i].indent
  }

  predicate HasParent<K>(p: Page<K>, t: seq<Line<K>>, i: nat) { exists j :: 0 <= j < i && Below(p, t, i, j) }

  /** A line keeps its parent when others are printed before and after. */
  lemma ParentStays<K>(p: Page<K>, a: seq<Line<K>>, t: seq<Line<K>>, i: nat)
    requires HasParent(p, t, i)
    ensures HasParent(p, a + t, |a| + i)
  {
    var j :| 0 <= j < i && Below(p, t, i, j);
    var u := a + t;
    forall m | |a| + j < m < |a| + i ensures u[m].indent >= u[|a| + i].indent {
      assert u[m] == t[m - |a|];
    }
    assert Below(p, u, |a| + i, |a| + j);
  }

  lemma ParentStaysBefore<K>(p: Page<K>, t: seq<Line<K>>, b: seq<Line<K>>, i: nat)
    requires HasParent(p, t, i)
    ensures HasParent(p, t + b, i)
  {
    var j :| 0 <= j < i && Below(p, t, i, j);
    assert Below(p, t + b, i, j);
  }

  /** Line i of the lines below a key refers to that key or to another of the lines, as its indent says. */
  predicate Outlined<K>(p: Page<K>, f: seq<Line<K>>, i: nat, key: K, indent: nat)
    requires i < |f|
  {
    f[i].indent >= indent && (HasParent(p, f, i) || (f[i].indent == indent && p.hasRef(f[i].key, key)))
  }

  predicate AllOutlined<K>(p: Page<K>, f: seq<Line<K>>, key: K, indent: nat) {
    forall i :: 0 <= i < |f| ==> Outlined(p, f, i, key, indent)
  }

  /** The indents show the references: each line but the first refers to the line it is indented below. */
  lemma {:induction false} IndentsShowReferences<K>(p: Page<K>, key: K, indent: nat, stack: seq<K>)
    ensures var t := Tree(p, key, indent, stack);
      t != [] ==> t[0] == Line(indent, key) && forall i :: 0 < i < |t| ==> t[i].indent > indent && HasParent(p, t, i)
    decreases |Fresh(p, stack)|, if key in PageKeys(p) then 0 else 1, 0
  {
    hide HasParent, Forest, Slots, Fresh, PageKeys;
    var t := Tree(p, key, indent, stack);
    if key !in stack {
      FreshShrinks(p, key, stack);
      var f := Forest(p, key, indent + 1, stack + [key], |Slots(p)|);
      assert t == [Line(indent, key)] + f;
      ForestOutline(p, key, indent + 1, stack + [key], |Slots(p)|);
      forall i | 0 < i < |t| ensures t[i].indent > indent && HasParent(p, t, i) {
        assert t[i] == f[i - 1] && Outlined(p, f, i - 1, key, indent + 1);
        if HasParent(p, f, i - 1) {
          ParentStays(p, [Line(indent, key)], f, i - 1);
        } else {
          ParentIsFirst(p, key, indent, f, i);
        }
      }
    }
  }

  lemma ParentIsFirst<K>(p: Page<K>, key: K, indent: nat, f: seq<Line<K>>, i: nat)
    requires 0 < i <= |f| && f[i - 1].indent == indent + 1 && p.hasRef(f[i - 1].key, key)
    requires AllOutlined(p, f, key, indent + 1)
    ensures HasParent(p, [Line(indent, key)] + f, i)
  {
    var t := [Line(indent, key)] + f;
    forall m | 0 < m < i ensures t[m].indent >= t[i].indent {
      assert Outlined(p, f, m - 1, key, indent + 1);
    }
    assert Below(p, t, i, 0);
  }

  lemma {:induction false} ForestOutline<K>(p: Page<K>, key: K, indent: nat, stack: seq<K>, n: nat)
    requires n <= |Slots(p)|
    ensures AllOutlined(p, Forest(p, key, indent, stack, n), key, indent)
    decreases |Fresh(p, stack)|, 0, n
  {
    hide HasParent, Tree, Slots, Fresh;
    if n == 0 {
    } else {
      ForestOutline(p, key, indent, stack, n - 1);
      var slot := Slots(p)[n - 1];
      if slot.Some? && p.hasRef(slot.value, key) {
        var a, t := Forest(p, key, indent, stack, n - 1), Tree(p, slot.value, indent, stack);
        assert slot.value in PageKeys(p);
        IndentsShowReferences(p, slot.value, indent, stack);
        var f := a + t;
        assert f == Forest(p, key, indent, stack, n);
        forall i | 0 <= i < |f| ensures Outlined(p, f, i, key, indent) {
          if i < |a| {
            assert f[i] == a[i] && Outlined(p, a, i, key, indent);
            if HasParent(p, a, i) {
              ParentStaysBefore(p, a, t, i);
            }
          } else {
            assert f[i] == t[i - |a|];
            if i > |a| {
              ParentStays(p, a, t, i - |a|);
            }
          }
        }
      } else {
        assert Forest(p, key, indent, stack, n) == Forest(p, key, indent, stack, n - 1);
      }
    }
  }

  lemma {:induction false} FlatAt<K>(keys: seq<seq<Option<K>>>, n: nat, t: nat, j: nat)
    requires t < n <= |keys| && j < |keys[t]|
    ensures |Flat(keys, t)| + |keys[t]| == |Flat(keys, t + 1)| <= |Flat(keys, n)|
    ensures Flat(keys, n)[|Flat(keys, t)| + j] == keys[t][j]
  {
    if t == n - 1 {
    } else {
      FlatAt(keys, n - 1, t, j);
    }
  }

  lemma {:induction false} FlatGrows<K>(keys: seq<seq<Option<K>>>, m: nat, n: nat)
    requires m <= n <= |keys|
    ensures |Flat(keys, m)| <= |Flat(keys, n)|
  {
    if m == n {
    } else {
      FlatGrows(keys, m, n - 1);
    }
  }

  lemma SlotsOfType<K>(p: Page<K>, t: nat)
    requires t < |p.keys|
    ensures |Flat(p.keys, t)| + |p.keys[t]| == |Flat(p.keys, t + 1)| <= |Slots(p)|
  {
    FlatGrows(p.keys, t + 1, |p.keys|);
  }

  lemma SlotAt<K>(p: Page<K>, t: nat, j: nat)
    requires t < |p.keys| && j < |p.keys[t]|
    ensures |Flat(p.keys, t)| + j < |Slots(p)| && Slots(p)[|Flat(p.keys, t)| + j] == p.keys[t][j]
  {
    FlatAt(p.keys, |p.keys|, t, j);
  }

  lemma Nothing<K>(p: Page<K>, key: K, indent: nat, stack: seq<K>)
    ensures Flat(p.keys, 0) == [] && Forest(p, key, indent, stack, 0) == []
  {
  }

  lemma Joined<T>(a: seq<T>, b: seq<T>, c: seq<T>)
    ensures a + b + c == a + (b + c)
  {
  }

  /** The keys of the lines at one indent, in order. */
  function KeysAt<K>(t: seq<Line<K>>, indent: nat): seq<K> {
    if t == [] then [] else
      var line := t[|t| - 1];
      KeysAt(t[..|t| - 1], indent) + if line.indent == indent then [line.key] else []
  }

  /** The keys in slots that refer to a key and are not in the stack, in order. */
  function Referrers<K>(p: Page<K>, slots: seq<Option<K>>, key: K, stack: seq<K>): seq<K> {
    if slots == [] then [] else
      var slot := slots[|slots| - 1];
      Referrers(p, slots[..|slots| - 1], key, stack)
      + if slot.Some? && p.hasRef(slot.value, key) && slot.value !in stack then [slot.value] else []
  }

  lemma {:induction false} KeysAtOfSum<K>(a: seq<Line<K>>, b: seq<Line<K>>, indent: nat)
    ensures KeysAt(a + b, indent) == KeysAt(a, indent) + KeysAt(b, indent)
  {
    if b == [] {
      assert a + b == a;
    } else {
      var n := |b| - 1;
      KeysAtOfSum(a, b[..n], indent);
      assert (a + b)[..|a| + n] == a + b[..n];
    }
  }

  /** Below a key all lines are indented further. */
  lemma {:induction false} ForestIndents<K>(p: Page<K>, key: K, indent: nat, stack: seq<K>, n: nat, line: Line<K>)
    requires n <= |Slots(p)| && line in Forest(p, key, indent, stack, n)
    ensures line.indent >= indent
    decreases |Fresh(p, stack)|, 0, n
  {
    ForestLine(p, key, indent, stack, n, line);
    var i :| 0 <= i < n && Slots(p)[i].Some? && p.hasRef(Slots(p)[i].value, key)
             && line in Tree(p, Slots(p)[i].value, indent, stack);
    var c := ChainOfLine(p, Slots(p)[i].value, indent, stack, line);
  }

  lemma {:induction false} NoneAt<K>(t: seq<Line<K>>, indent: nat)
    requires forall line :: line in t ==> line.indent > indent
    ensures KeysAt(t, indent) == []
  {
    if t == [] {
    } else {
      NoneAt(t[..|t| - 1], indent);
    }
  }

  /** A tree has its key at its own indent, and nothing else. */
  lemma RootOfTree<K>(p: Page<K>, key: K, indent: nat, stack: seq<K>)
    ensures KeysAt(Tree(p, key, indent, stack), indent) == if key in stack then [] else [key]
  {
    if key !in stack {
      var below := Forest(p, key, indent + 1, stack + [key], |Slots(p)|);
      TreeBelow(p, key, indent, stack);
      hide Tree, Forest, Slots;
      forall line | line in below ensures line.indent > indent {
        ForestIndents(p, key, indent + 1, stack + [key], |Slots(p)|, line);
      }
      NoneAt(below, indent);
      KeysAtOfSum([Line(indent, key)], below, indent);
      assert KeysAt([Line(indent, key)], indent) == KeysAt([], indent) + [key] == [key];
    }
  }

  lemma ReferrersStep<K>(p: Page<K>, slots: seq<Option<K>>, key: K, stack: seq<K>)
    requires slots != []
    ensures var slot := slots[|slots| - 1];
      Referrers(p, slots, key, stack) == Referrers(p, slots[..|slots| - 1], key, stack)
        + if slot.Some? && p.hasRef(slot.value, key) && slot.value !in stack then [slot.value] else []
  {
  }

  lemma {:induction false} RootsOfForest<K>(p: Page<K>, key: K, indent: nat, stack: seq<K>, n: nat)
    requires n <= |Slots(p)|
    ensures KeysAt(Forest(p, key, indent, stack, n), indent) == Referrers(p, Slots(p)[..n], key, stack)
  {
    if n == 0 {
    } else {
      var slot := Slots(p)[n - 1];
      RootsOfForest(p, key, indent, stack, n - 1);
      assert Slots(p)[..n][..n - 1] == Slots(p)[..n - 1];
      if slot.Some? && p.hasRef(slot.value, key) {
        RootOfTree(p, slot.value, indent, stack);
        KeysAtOfSum(Forest(p, key, indent, stack, n - 1), Tree(p, slot.value, indent, stack), indent);
      } else {
        ForestPassing(p, key, indent, stack, n - 1);
      }
      ReferrersStep(p, Slots(p)[..n], key, stack);
    }
  }

  /**
    * The lines one step below a key are the keys that refer to it and are not being traced, once for each slot of the
    * page and in the order of the page.
    */
  lemma ReferrersInOrder<K>(p: Page<K>, key: K, indent: nat, stack: seq<K>)
    requires key !in stack
    ensures KeysAt(Tree(p, key, indent, stack), indent + 1) == Referrers(p, Slots(p), key, stack + [key])
  {
    var below := Forest(p, key, indent + 1, stack + [key], |Slots(p)|);
    TreeBelow(p, key, indent, stack);
    hide Tree, Forest, Slots, Referrers;
    KeysAtOfSum([Line(indent, key)], below, indent + 1);
    assert KeysAt([Line(indent, key)], indent + 1) == KeysAt([], indent + 1) == [];
    RootsOfForest(p, key, indent + 1, stack + [key], |Slots(p)|);
    assert Slots(p)[..|Slots(p)|] == Slots(p);
  }

  /** A slot that refers to the key, behind what was printed before. */
  lemma ForestReferring<K>(p: Page<K>, key: K, indent: nat, stack: seq<K>, n: nat, k: K, before: seq<Line<K>>)
    requires n < |Slots(p)| && Slots(p)[n] == Some(k) && p.hasRef(k, key)
    ensures k in PageKeys(p)
    ensures before + Forest(p, key, indent, stack, n) + Tree(p, k, indent, stack)
         == before + Forest(p, key, indent, stack, n + 1)
  {
    hide Tree, Slots;
    Joined(before, Forest(p, key, indent, stack, n), Tree(p, k, indent, stack));
  }

  lemma ForestPassing<K>(p: Page<K>, key: K, indent: nat, stack: seq<K>, n: nat)
    requires n < |Slots(p)| && (Slots(p)[n].Some? ==> !p.hasRef(Slots(p)[n].value, key))
    ensures Forest(p, key, indent, stack, n) == Forest(p, key, indent, stack, n + 1)
  {
    hide Tree, Slots;
  }

  lemma TreeBelow<K>(p: Page<K>, key: K, indent: nat, stack: seq<K>)
    requires key !in stack
    ensures Tree(p, key, indent, stack)
         == [Line(indent, key)] + Forest(p, key, indent + 1, stack + [key], |Slots(p)|)
  {
  }

  /** The script's global state: the stack of the keys being traced, and what was printed. */
  class Tracer<!K(==)> {
    const page: Page<K>
    var refStack: seq<K>
    var printed: seq<Line<K>>

    constructor (page: Page<K>)
      ensures this.page == page && refStack == [] && printed == []
    {
      this.page := page;
      refStack, printed := [], [];
    }

    /** Prints the tree below a key, and leaves the stack as it was. */
    method DumpTree(key: K, indent: nat)
      modifies this
      ensures refStack == old(refStack)
      ensures printed == old(printed) + Tree(page, key, indent, refStack)
      decreases |Fresh(page, refStack)|, if key in PageKeys(page) then 0 else 1, 0
    {
      if key in refStack {
        return;
      }
      hide Tree, Flat, PageKeys, Fresh, Forest, Slots;
      TreeBelow(page, key, indent, refStack);
      FreshShrinks(page, key, refStack);
      Nothing(page, key, indent + 1, refStack + [key]);
      refStack := refStack + [key];
      printed := printed + [Line(indent, key)];
      ghost var stack, start := refStack, printed;
      var t := 0;
      while t < |page.keys|
        invariant t <= |page.keys| && refStack == stack && |Flat(page.keys, t)| <= |Slots(page)|
        invariant printed == start + Forest(page, key, indent + 1, stack, |Flat(page.keys, t)|)
      {
        DumpType(key, indent + 1, t, start);
        t := t + 1;
      }
      Joined(old(printed), [Line(indent, key)], Forest(page, key, indent + 1, stack, |Slots(page)|));
      refStack := refStack[..|refStack| - 1];
    }

    /** The inner loop of DumpTree, over the keys of one type; start was printed before the first type. */
    method DumpType(key: K, indent: nat, t: nat, ghost start: seq<Line<K>>)
      requires t < |page.keys| && |Flat(page.keys, t)| <= |Slots(page)|
      requires printed == start + Forest(page, key, indent, refStack, |Flat(page.keys, t)|)
      modifies this
      ensures refStack == old(refStack) && |Flat(page.keys, t + 1)| <= |Slots(page)|
      ensures printed == start + Forest(page, key, indent, refStack, |Flat(page.keys, t + 1)|)
      decreases |Fresh(page, refStack)|, 0, 1
    {
      hide Tree, Flat, PageKeys, Fresh, Forest, Slots;
      SlotsOfType(page, t);
      ghost var n := |Flat(page.keys, t)|;
      var j := 0;
      while j < |page.keys[t]|
        invariant j <= |page.keys[t]| && refStack == old(refStack) && n == |Flat(page.keys, t)| + j
        invariant printed == start + Forest(page, key, indent, refStack, n)
      {
        var slot := page.keys[t][j];
        SlotAt(page, t, j);
        if slot.Some? && page.hasRef(slot.value, key) {
          ForestReferring(page, key, indent, refStack, n, slot.value, start);
          DumpTree(slot.value, indent);
        } else {
          ForestPassing(page, key, indent, refStack, n);
        }
        j, n := j + 1, n + 1;
      }
    }
  }
}
