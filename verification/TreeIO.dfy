/** Saving a tree as characters and reading it back. Numbers are written as their memory images: two
    bytes for a short, low byte first, four for a float. */
module TreeIO {
  import opened Options
  import opened BitSets
  import opened C45Types

  type Stream = seq<bv8>
  type Float = f: seq<bv8> | |f| == 4 witness [0, 0, 0, 0]
  type FileTree = Tree<Float>

  const ZERO: Float := [0, 0, 0, 0]
  const EOF_BYTE: bv8 := 0xFF

  const MAX_SHORT := 0x7FFF

  predicate IsShort(i: int) { -0x8000 <= i < 0x8000 }

  function Byte(n: int): bv8
    requires 0 <= n < 256
  {
    n as bv8
  }

  function Number(c: bv8): (n: int)
    ensures 0 <= n < 256
  {
    c as int
  }

  function ShortBytes(i: int): (b: Stream)
    ensures |b| == 2
  {
    [Byte(i % 256), Byte(i / 256 % 256)]
  }

  function ShortOf(b: Stream): (i: int)
    requires |b| == 2
    ensures IsShort(i)
  {
    var n := Number(b[0]) + 256 * Number(b[1]);
    if n < 0x8000 then n else n - 0x10000
  }

  lemma {:induction false} ByteOf(n: nat) returns (c: bv8)
    requires n < 256
    ensures c as int == n && c == n as bv8
  {
    if n == 0 {
      c := 0;
    } else {
      c := ByteOf(n - 1);
      c := c + 1;
    }
  }

  lemma ByteRoundTrip(n: nat)
    requires n < 256
    ensures Number(Byte(n)) == n
  {
    var c := ByteOf(n);
  }

  lemma ShortNumber(i: int, lo: int, q: int, hi: int)
    requires IsShort(i) && lo == i % 256 && q == i / 256 && hi == q % 256
    ensures lo + 256 * hi == if i >= 0 then i else i + 0x10000
  {
    assert i == 256 * q + lo && -128 <= q < 128;
    assert hi == if q >= 0 then q else q + 256;
  }

  lemma ShortRoundTrip(i: int)
    requires IsShort(i)
    ensures ShortOf(ShortBytes(i)) == i
  {
    hide Byte, Number;
    var lo, hi := i % 256, i / 256 % 256;
    ByteRoundTrip(lo);
    ByteRoundTrip(hi);
    ShortNumber(i, lo, i / 256, hi);
    assert ShortBytes(i) == [Byte(lo), Byte(hi)];
  }

  // ---- Writing ----------------------------------------------------------------------------------

  function Flat(s: seq<Stream>): Stream { if s == [] then [] else s[0] + Flat(s[1..]) }

  /** The part of a test that depends on its kind. */
  function KindBytes(t: FileTree): Stream {
    if t.nodeType == THRESH_CONTIN then t.cut + t.lower + t.upper
    else if t.nodeType == BR_SUBSET then Flat(t.subset)
    else []
  }

  function HeadBytes(t: FileTree): Stream {
    ShortBytes(t.nodeType) + ShortBytes(t.leaf) + t.items + t.errors + Flat(t.dist)
  }

  function TestBytes(t: FileTree): Stream { ShortBytes(t.tested) + ShortBytes(t.forks) + KindBytes(t) }

  function TreeBytes(t: FileTree): Stream
    decreases t, |t.branch| + 1
  {
    if t.nodeType == LEAF then HeadBytes(t) else HeadBytes(t) + TestBytes(t) + BranchBytes(t, 0)
  }

  /** The branches from place i on. */
  function BranchBytes(t: FileTree, i: nat): Stream
    requires i <= |t.branch|
    decreases t, |t.branch| - i
  {
    if i == |t.branch| then [] else TreeBytes(t.branch[i]) + BranchBytes(t, i + 1)
  }

  /** The tree has the shape its own fields and the attributes call for. The branches are counted by a
      short, so that the loops over MAX_SHORT of them would not end. */
  predicate Writable(t: FileTree, classes: nat, maxAttVal: seq<nat>) {
    && IsShort(t.nodeType) && IsShort(t.leaf) && |t.dist| == classes
    && (t.nodeType != LEAF ==>
          && IsShort(t.tested) && IsShort(t.forks) && t.forks != MAX_SHORT && |t.branch| == Positive(t.forks)
          && (t.nodeType == BR_SUBSET ==>
                && 0 <= t.tested < |maxAttVal| && |t.subset| == Positive(t.forks)
                && forall v :: 0 <= v < |t.subset| ==> |t.subset[v]| == Bytes(maxAttVal[t.tested]))
          && forall v :: 0 <= v < |t.branch| ==> Writable(t.branch[v], classes, maxAttVal))
  }

  function Positive(i: int): nat { if i > 0 then i else 0 }

  /** A tree without the fields its kinds of node do not use. */
  function Visible(t: FileTree): FileTree
    decreases t, |t.branch| + 1
  {
    var h := Tree(t.nodeType, t.leaf, t.items, t.errors, t.dist, 0, 0, ZERO, ZERO, ZERO, [], []);
    if t.nodeType == LEAF then h
    else
      var n := h.(tested := t.tested, forks := t.forks, branch := VisibleFrom(t, 0));
      if t.nodeType == THRESH_CONTIN then n.(cut := t.cut, lower := t.lower, upper := t.upper)
      else if t.nodeType == BR_SUBSET then n.(subset := t.subset)
      else n
  }

  function VisibleFrom(t: FileTree, i: nat): (r: seq<FileTree>)
    requires i <= |t.branch|
    ensures |r| == |t.branch| - i
    decreases t, |t.branch| - i
  {
    if i == |t.branch| then [] else [Visible(t.branch[i])] + VisibleFrom(t, i + 1)
  }

  // ---- Reading ----------------------------------------------------------------------------------

  /** The next n characters; past the end of the file each one reads as EOF_BYTE. */
  function Next(b: Stream, n: nat): (r: Stream)
    ensures |r| == n
  {
    if n <= |b| then b[..n] else b + seq(n - |b|, _ => EOF_BYTE)
  }

  function After(b: Stream, n: nat): (r: Stream)
    ensures |r| <= |b| && (n > 0 && b != [] ==> |r| < |b|)
  {
    if n <= |b| then b[n..] else []
  }

  function Floats(b: Stream, n: nat): (r: seq<Float>)
    ensures |r| == n
    decreases n
  {
    if n == 0 then [] else [Next(b, 4)] + Floats(After(b, 4), n - 1)
  }

  lemma NextFloat(b: Stream, n: nat)
    requires n > 0
    ensures Floats(b, n) == [Next(b, 4)] + Floats(After(b, 4), n - 1)
    ensures AfterAll(b, n, 4) == AfterAll(After(b, 4), n - 1, 4)
  {}

  lemma NoFloats(b: Stream)
    ensures Floats(b, 0) == [] && AfterAll(b, 0, 4) == b
  {}

  function Sets(b: Stream, n: nat, size: nat): (r: seq<Bits>)
    ensures |r| == n
    decreases n
  {
    if n == 0 then [] else [Next(b, size)] + Sets(After(b, size), n - 1, size)
  }

  function AfterAll(b: Stream, n: nat, size: nat): (r: Stream)
    ensures |r| <= |b|
    decreases n
  {
    if n == 0 then b else AfterAll(After(b, size), n - 1, size)
  }

  /** The fixed fields of a node and the file after them. */
  function HeadOf(b: Stream, classes: nat): FileTree {
    Tree(ShortOf(Next(b, 2)), ShortOf(Next(After(b, 2), 2)), Next(After(After(b, 2), 2), 4),
         Next(After(After(After(b, 2), 2), 4), 4), Floats(After(After(After(After(b, 2), 2), 4), 4), classes),
         0, 0, ZERO, ZERO, ZERO, [], [])
  }

  function AfterHead(b: Stream, classes: nat): (r: Stream)
    ensures |r| <= |b| && (b != [] ==> |r| < |b|)
  {
    AfterAll(After(After(After(After(b, 2), 2), 4), 4), classes, 4)
  }

  /** The test of a node whose fixed fields are h: attribute, number of branches, and what its kind
      adds. */
  function TestOf(h: FileTree, b: Stream, maxAttVal: seq<nat>): FileTree {
    var tested, forks, r := ShortOf(Next(b, 2)), ShortOf(Next(After(b, 2), 2)), After(After(b, 2), 2);
    var t := h.(tested := tested, forks := forks);
    if h.nodeType == THRESH_CONTIN then
      t.(cut := Next(r, 4), lower := Next(After(r, 4), 4), upper := Next(After(After(r, 4), 4), 4))
    else if h.nodeType == BR_SUBSET && 0 <= tested < |maxAttVal| then
      t.(subset := Sets(r, Positive(forks), Bytes(maxAttVal[tested])))
    else t
  }

  function AfterTest(h: FileTree, b: Stream, maxAttVal: seq<nat>): (r: Stream)
    ensures |r| <= |b|
  {
    var tested, forks, r := ShortOf(Next(b, 2)), ShortOf(Next(After(b, 2), 2)), After(After(b, 2), 2);
    if h.nodeType == THRESH_CONTIN then After(After(After(r, 4), 4), 4)
    else if h.nodeType == BR_SUBSET && 0 <= tested < |maxAttVal|
      then AfterAll(r, Positive(forks), Bytes(maxAttVal[tested]))
    else r
  }

  /** Reading a subset test on an attribute that does not exist, or MAX_SHORT branches, has no defined
      effect. */
  predicate Undefined(h: FileTree, b: Stream, maxAttVal: seq<nat>) {
    || (h.nodeType == BR_SUBSET && !(0 <= ShortOf(Next(b, 2)) < |maxAttVal|))
    || ShortOf(Next(After(b, 2), 2)) == MAX_SHORT
  }

  /** What InTree makes of the characters b, and what it leaves unread. It ends on every file: past
      the end the number of branches reads as -1. */
  function Parse(b: Stream, classes: nat, maxAttVal: seq<nat>): (r: Option<(FileTree, Stream)>)
    ensures r.Some? ==> |r.value.1| <= |b|
    decreases |b|, 0
  {
    var h, b1 := HeadOf(b, classes), AfterHead(b, classes);
    if h.nodeType == LEAF then Some((h, b1))
    else if Undefined(h, b1, maxAttVal) then None
    else
      var t, b2 := TestOf(h, b1, maxAttVal), AfterTest(h, b1, maxAttVal);
      if t.forks <= 0 then Some((t, b2))
      else
        EmptyHasNoForks(b, classes, maxAttVal);
        var (branch, b3) :- ParseAll(b2, classes, maxAttVal, t.forks);
        Some((t.(branch := branch), b3))
  }

  function ParseAll(b: Stream, classes: nat, maxAttVal: seq<nat>, n: nat): (r: Option<(seq<FileTree>, Stream)>)
    ensures r.Some? ==> |r.value.1| <= |b| && |r.value.0| == n
    decreases |b|, n + 1
  {
    if n == 0 then Some(([], b))
    else
      var (t, b1) :- Parse(b, classes, maxAttVal);
      var (ts, b2) :- ParseAll(b1, classes, maxAttVal, n - 1);
      Some(([t] + ts, b2))
  }

  lemma EmptyHasNoForks(b: Stream, classes: nat, maxAttVal: seq<nat>)
    ensures b == [] ==>
              AfterHead(b, classes) == [] && TestOf(HeadOf(b, classes), AfterHead(b, classes), maxAttVal).forks == -1
  {
    if b == [] {
      var e := Next([], 2);
      assert e == [EOF_BYTE, EOF_BYTE];
      assert ShortOf(e) == -1;
    }
  }

  // ---- What is written is read back -------------------------------------------------------------

  lemma NextOf(a: Stream, r: Stream)
    ensures Next(a + r, |a|) == a && After(a + r, |a|) == r
  {}

  lemma {:induction false} FloatsOf(d: seq<Float>, r: Stream)
    ensures Floats(Flat(d) + r, |d|) == d && AfterAll(Flat(d) + r, |d|, 4) == r
  {
    if d == [] {
      assert Flat(d) + r == r;
    } else {
      assert Flat(d) + r == d[0] + (Flat(d[1..]) + r);
      NextOf(d[0], Flat(d[1..]) + r);
      FloatsOf(d[1..], r);
    }
  }

  lemma {:induction false} SetsOf(d: seq<Bits>, size: nat, r: Stream)
    requires forall v :: 0 <= v < |d| ==> |d[v]| == size
    ensures Sets(Flat(d) + r, |d|, size) == d && AfterAll(Flat(d) + r, |d|, size) == r
  {
    if d == [] {
      assert Flat(d) + r == r;
    } else {
      assert Flat(d) + r == d[0] + (Flat(d[1..]) + r);
      NextOf(d[0], Flat(d[1..]) + r);
      SetsOf(d[1..], size, r);
    }
  }

  lemma HeadRoundTrip(t: FileTree, r: Stream)
    requires IsShort(t.nodeType) && IsShort(t.leaf)
    ensures HeadOf(HeadBytes(t) + r, |t.dist|)
         == Tree(t.nodeType, t.leaf, t.items, t.errors, t.dist, 0, 0, ZERO, ZERO, ZERO, [], [])
    ensures AfterHead(HeadBytes(t) + r, |t.dist|) == r
  {
    hide Next, After, Floats, AfterAll, ShortBytes, ShortOf, Flat;
    var r4 := Flat(t.dist) + r;
    var r3 := t.errors + r4;
    var r2 := t.items + r3;
    var r1 := ShortBytes(t.leaf) + r2;
    assert HeadBytes(t) + r == ShortBytes(t.nodeType) + r1;
    ShortRoundTrip(t.nodeType);
    ShortRoundTrip(t.leaf);
    NextOf(ShortBytes(t.nodeType), r1);
    NextOf(ShortBytes(t.leaf), r2);
    NextOf(t.items, r3);
    NextOf(t.errors, r4);
    FloatsOf(t.dist, r);
  }

  /** The fields of a test that its kind uses. */
  function WithTest(h: FileTree, t: FileTree): FileTree {
    var n := h.(tested := t.tested, forks := t.forks);
    if h.nodeType == THRESH_CONTIN then n.(cut := t.cut, lower := t.lower, upper := t.upper)
    else if h.nodeType == BR_SUBSET then n.(subset := t.subset)
    else n
  }

  lemma TestRoundTrip(h: FileTree, t: FileTree, r: Stream, classes: nat, maxAttVal: seq<nat>)
    requires Writable(t, classes, maxAttVal) && t.nodeType != LEAF && h.nodeType == t.nodeType
    ensures !Undefined(h, TestBytes(t) + r, maxAttVal)
    ensures TestOf(h, TestBytes(t) + r, maxAttVal) == WithTest(h, t)
    ensures AfterTest(h, TestBytes(t) + r, maxAttVal) == r
  {
    hide Next, After, Sets, AfterAll, ShortBytes, ShortOf, Flat;
    var r2 := KindBytes(t) + r;
    var r1 := ShortBytes(t.forks) + r2;
    assert TestBytes(t) + r == ShortBytes(t.tested) + r1;
    ShortRoundTrip(t.tested);
    ShortRoundTrip(t.forks);
    NextOf(ShortBytes(t.tested), r1);
    NextOf(ShortBytes(t.forks), r2);
    if t.nodeType == THRESH_CONTIN {
      assert r2 == t.cut + (t.lower + (t.upper + r));
      NextOf(t.cut, t.lower + (t.upper + r));
      NextOf(t.lower, t.upper + r);
      NextOf(t.upper, r);
    } else if t.nodeType == BR_SUBSET {
      SetsOf(t.subset, Bytes(maxAttVal[t.tested]), r);
    } else {
      assert r2 == r;
    }
  }

  /** Reading what was written for a tree, whatever follows it in the file, gives the tree again and
      leaves what follows. */
  lemma {:induction false} TreeRoundTrip(t: FileTree, r: Stream, classes: nat, maxAttVal: seq<nat>)
    requires Writable(t, classes, maxAttVal)
    ensures Parse(TreeBytes(t) + r, classes, maxAttVal) == Some((Visible(t), r))
    decreases t, |t.branch| + 1
  {
    hide HeadOf, AfterHead, TestOf, AfterTest, HeadBytes, TestBytes, Undefined;
    if t.nodeType == LEAF {
      HeadRoundTrip(t, r);
    } else {
      var r2 := BranchBytes(t, 0) + r;
      var r1 := TestBytes(t) + r2;
      assert TreeBytes(t) + r == HeadBytes(t) + r1;
      HeadRoundTrip(t, r1);
      var h := HeadOf(HeadBytes(t) + r1, classes);
      TestRoundTrip(h, t, r2, classes, maxAttVal);
      BranchRoundTrip(t, 0, r, classes, maxAttVal);
      assert t.forks <= 0 ==> r2 == r && VisibleFrom(t, 0) == [];
    }
  }

  lemma {:induction false} BranchRoundTrip(t: FileTree, i: nat, r: Stream, classes: nat, maxAttVal: seq<nat>)
    requires Writable(t, classes, maxAttVal) && t.nodeType != LEAF && i <= |t.branch|
    ensures ParseAll(BranchBytes(t, i) + r, classes, maxAttVal, |t.branch| - i) == Some((VisibleFrom(t, i), r))
    decreases t, |t.branch| - i
  {
    hide HeadOf, AfterHead, TestOf, AfterTest, HeadBytes, TestBytes, Undefined, Parse;
    if i < |t.branch| {
      assert BranchBytes(t, i) + r == TreeBytes(t.branch[i]) + (BranchBytes(t, i + 1) + r);
      TreeRoundTrip(t.branch[i], BranchBytes(t, i + 1) + r, classes, maxAttVal);
      BranchRoundTrip(t, i + 1, r, classes, maxAttVal);
    } else {
      assert BranchBytes(t, i) + r == r;
    }
  }

  // ---- What is read is what the file holds ------------------------------------------------------

  /** Character by character b is a and then r, where a may run past the end of b. */
  predicate Splits(b: Stream, a: Stream, r: Stream) {
    a + r == b || (r == [] && b <= a && forall i :: |b| <= i < |a| ==> a[i] == EOF_BYTE)
  }

  lemma SplitsNext(b: Stream, n: nat)
    ensures Splits(b, Next(b, n), After(b, n))
  {}

  lemma SplitsTwice(b: Stream, a1: Stream, r1: Stream, a2: Stream, r2: Stream)
    requires Splits(b, a1, r1) && Splits(r1, a2, r2)
    ensures Splits(b, a1 + a2, r2)
  {}

  lemma ShortBack(b: Stream)
    requires |b| == 2
    ensures ShortBytes(ShortOf(b)) == b
  {
    ByteBack(b[0]);
    ByteBack(b[1]);
    hide ShortBytes, Byte, Number;
    BytesOfShort(ShortOf(b), Number(b[0]), Number(b[1]));
    assert b == [b[0], b[1]];
  }

  lemma BytesOfShort(i: int, lo: int, hi: int)
    requires 0 <= lo < 256 && 0 <= hi < 256 && (i == lo + 256 * hi || i == lo + 256 * hi - 0x10000)
    ensures ShortBytes(i) == [Byte(lo), Byte(hi)]
  {
    hide Byte;
    ShortParts(lo, hi);
  }

  lemma ByteBack(c: bv8)
    ensures Byte(Number(c)) == c
  {}

  lemma ShortParts(lo: int, hi: int)
    requires 0 <= lo < 256 && 0 <= hi < 256
    ensures (lo + 256 * hi) % 256 == lo && (lo + 256 * hi) / 256 % 256 == hi
    ensures (lo + 256 * hi - 0x10000) % 256 == lo && (lo + 256 * hi - 0x10000) / 256 % 256 == hi
  {}

  lemma {:induction false} SplitsFloats(b: Stream, n: nat)
    ensures Splits(b, Flat(Floats(b, n)), AfterAll(b, n, 4))
    decreases n
  {
    hide Splits, Next, After;
    if n == 0 {
      assert Splits(b, [], b) by { SplitsNext(b, 0); assert Next(b, 0) == [] && After(b, 0) == b; }
    } else {
      SplitsNext(b, 4);
      SplitsFloats(After(b, 4), n - 1);
      SplitsTwice(b, Next(b, 4), After(b, 4), Flat(Floats(After(b, 4), n - 1)), AfterAll(b, n, 4));
      assert Floats(b, n)[1..] == Floats(After(b, 4), n - 1);
    }
  }

  lemma {:induction false} SplitsSets(b: Stream, n: nat, size: nat)
    ensures Splits(b, Flat(Sets(b, n, size)), AfterAll(b, n, size))
    ensures forall v :: 0 <= v < n ==> |Sets(b, n, size)[v]| == size
    decreases n
  {
    hide Splits, Next, After;
    if n == 0 {
      assert Splits(b, [], b) by { SplitsNext(b, 0); assert Next(b, 0) == [] && After(b, 0) == b; }
    } else {
      SplitsNext(b, size);
      SplitsSets(After(b, size), n - 1, size);
      SplitsTwice(b, Next(b, size), After(b, size), Flat(Sets(After(b, size), n - 1, size)), AfterAll(b, n, size));
      assert Sets(b, n, size)[1..] == Sets(After(b, size), n - 1, size);
    }
  }

  lemma SplitsShorts(b: Stream)
    ensures Splits(b, ShortBytes(ShortOf(Next(b, 2))) + ShortBytes(ShortOf(Next(After(b, 2), 2))),
            After(After(b, 2), 2))
  {
    hide Splits, Next, After, ShortBytes, ShortOf;
    SplitsNext(b, 2);
    SplitsNext(After(b, 2), 2);
    ShortBack(Next(b, 2));
    ShortBack(Next(After(b, 2), 2));
    SplitsTwice(b, Next(b, 2), After(b, 2), Next(After(b, 2), 2), After(After(b, 2), 2));
  }

  lemma SplitsHead(b: Stream, classes: nat)
    ensures Splits(b, HeadBytes(HeadOf(b, classes)), AfterHead(b, classes))
  {
    hide Splits, Next, After, ShortBytes, ShortOf, Flat, Floats, AfterAll;
    var h, b2 := HeadOf(b, classes), After(After(b, 2), 2);
    var b3 := After(b2, 4);
    var b4 := After(b3, 4);
    var a := ShortBytes(h.nodeType) + ShortBytes(h.leaf);
    SplitsShorts(b);
    SplitsNext(b2, 4);
    SplitsTwice(b, a, b2, h.items, b3);
    SplitsNext(b3, 4);
    SplitsTwice(b, a + h.items, b3, h.errors, b4);
    SplitsFloats(b4, classes);
    SplitsTwice(b, a + h.items + h.errors, b4, Flat(h.dist), AfterHead(b, classes));
  }

  lemma SplitsTest(h: FileTree, b: Stream, maxAttVal: seq<nat>)
    requires !Undefined(h, b, maxAttVal)
    ensures Splits(b, TestBytes(TestOf(h, b, maxAttVal)), AfterTest(h, b, maxAttVal))
    ensures h.nodeType == BR_SUBSET ==>
              forall v :: 0 <= v < |TestOf(h, b, maxAttVal).subset| ==>
                |TestOf(h, b, maxAttVal).subset[v]| == Bytes(maxAttVal[TestOf(h, b, maxAttVal).tested])
  {
    hide Splits, Next, After, ShortBytes, ShortOf, Flat, Sets, AfterAll;
    var t, r := TestOf(h, b, maxAttVal), After(After(b, 2), 2);
    var a := ShortBytes(t.tested) + ShortBytes(t.forks);
    SplitsShorts(b);
    if h.nodeType == THRESH_CONTIN {
      SplitsNext(r, 4);
      SplitsNext(After(r, 4), 4);
      SplitsNext(After(After(r, 4), 4), 4);
      SplitsTwice(r, t.cut, After(r, 4), t.lower, After(After(r, 4), 4));
      SplitsTwice(r, t.cut + t.lower, After(After(r, 4), 4), t.upper, AfterTest(h, b, maxAttVal));
      SplitsTwice(b, a, r, KindBytes(t), AfterTest(h, b, maxAttVal));
    } else if h.nodeType == BR_SUBSET {
      SplitsSets(r, Positive(t.forks), Bytes(maxAttVal[t.tested]));
      SplitsTwice(b, a, r, KindBytes(t), AfterTest(h, b, maxAttVal));
    } else {
      assert a + KindBytes(t) == a;
    }
  }

  /** Whatever file a tree is read from, the tree is of the right shape, and writing it gives the
      characters that were read again. */
  lemma {:induction false} WhatWasRead(b: Stream, classes: nat, maxAttVal: seq<nat>)
    requires Parse(b, classes, maxAttVal).Some?
    ensures Writable(Parse(b, classes, maxAttVal).value.0, classes, maxAttVal)
    ensures Splits(b, TreeBytes(Parse(b, classes, maxAttVal).value.0), Parse(b, classes, maxAttVal).value.1)
    decreases |b|, 0
  {
    var t, r := Parse(b, classes, maxAttVal).value.0, Parse(b, classes, maxAttVal).value.1;
    var h, b1 := HeadOf(b, classes), AfterHead(b, classes);
    SplitsHead(b, classes);
    hide Splits, HeadBytes, HeadOf, AfterHead, TestBytes, TestOf, AfterTest, Writable;
    if h.nodeType == LEAF {
      LeafWritable(b, classes, maxAttVal);
    } else {
      var u, b2 := TestOf(h, b1, maxAttVal), AfterTest(h, b1, maxAttVal);
      SplitsTest(h, b1, maxAttVal);
      SplitsTwice(b, HeadBytes(h), b1, TestBytes(u), b2);
      EmptyHasNoForks(b, classes, maxAttVal);
      SameHead(h, b1, maxAttVal);
      if u.forks > 0 {
        WhatWereRead(b2, classes, maxAttVal, u.forks, t);
        SameBytes(u, t);
        SplitsTwice(b, HeadBytes(h) + TestBytes(u), b2, BranchBytes(t, 0), r);
      } else {
        assert BranchBytes(t, 0) == [] && HeadBytes(t) + TestBytes(t) + [] == HeadBytes(t) + TestBytes(t);
      }
      NodeWritable(b, classes, maxAttVal, t);
    }
  }

  lemma LeafWritable(b: Stream, classes: nat, maxAttVal: seq<nat>)
    requires HeadOf(b, classes).nodeType == LEAF
    ensures Writable(HeadOf(b, classes), classes, maxAttVal)
  {
    hide Next, After, Floats, ShortOf;
  }

  lemma NodeWritable(b: Stream, classes: nat, maxAttVal: seq<nat>, t: FileTree)
    requires HeadOf(b, classes).nodeType != LEAF && !Undefined(HeadOf(b, classes), AfterHead(b, classes), maxAttVal)
    requires t == TestOf(HeadOf(b, classes), AfterHead(b, classes), maxAttVal).(branch := t.branch)
    requires |t.branch| == Positive(t.forks) && forall v :: 0 <= v < |t.branch| ==>
               Writable(t.branch[v], classes, maxAttVal)
    ensures Writable(t, classes, maxAttVal)
  {
    hide Next, After, Floats, ShortOf;
    SplitsTest(HeadOf(b, classes), AfterHead(b, classes), maxAttVal);
    hide Splits;
  }

  lemma SameBytes(u: FileTree, t: FileTree)
    requires t == u.(branch := t.branch)
    ensures HeadBytes(t) == HeadBytes(u) && TestBytes(t) == TestBytes(u)
  {}

  lemma SameHead(h: FileTree, b: Stream, maxAttVal: seq<nat>)
    ensures HeadBytes(TestOf(h, b, maxAttVal)) == HeadBytes(h)
  {
    hide Next, After, Sets, Flat, ShortBytes, ShortOf;
  }

  lemma {:induction false} WhatWereRead(b: Stream, classes: nat, maxAttVal: seq<nat>, n: nat, t: FileTree)
    requires n <= |t.branch|
    requires ParseAll(b, classes, maxAttVal, n).Some?
    requires ParseAll(b, classes, maxAttVal, n).value.0 == t.branch[|t.branch| - n..]
    ensures forall v :: |t.branch| - n <= v < |t.branch| ==> Writable(t.branch[v], classes, maxAttVal)
    ensures Splits(b, BranchBytes(t, |t.branch| - n), ParseAll(b, classes, maxAttVal, n).value.1)
    decreases |b|, n + 1
  {
    hide Splits, Parse;
    if n == 0 {
      assert Splits(b, [], b) by { SplitsNext(b, 0); assert Next(b, 0) == [] && After(b, 0) == b; }
    } else {
      var i := |t.branch| - n;
      var (x, b1) := Parse(b, classes, maxAttVal).value;
      WhatWasRead(b, classes, maxAttVal);
      assert x == t.branch[i];
      assert ParseAll(b1, classes, maxAttVal, n - 1).value.0 == t.branch[i + 1..];
      WhatWereRead(b1, classes, maxAttVal, n - 1, t);
      SplitsTwice(b, TreeBytes(x), b1, BranchBytes(t, i + 1), ParseAll(b, classes, maxAttVal, n).value.1);
    }
  }

  // ---- Exactly the files that spell a tree are read ---------------------------------------------

  /** b' is b with some EOF_BYTE added. */
  predicate Pads(b: Stream, b': Stream) { b <= b' && forall i :: |b| <= i < |b'| ==> b'[i] == EOF_BYTE }

  lemma PadsNext(b: Stream, b': Stream, n: nat)
    requires Pads(b, b')
    ensures Next(b, n) == Next(b', n) && Pads(After(b, n), After(b', n))
  {}

  lemma {:induction false} PadsFloats(b: Stream, b': Stream, n: nat)
    requires Pads(b, b')
    ensures Floats(b, n) == Floats(b', n) && Pads(AfterAll(b, n, 4), AfterAll(b', n, 4))
    decreases n
  {
    hide Next, After;
    if n > 0 {
      PadsNext(b, b', 4);
      PadsFloats(After(b, 4), After(b', 4), n - 1);
    }
  }

  lemma {:induction false} PadsSets(b: Stream, b': Stream, n: nat, size: nat)
    requires Pads(b, b')
    ensures Sets(b, n, size) == Sets(b', n, size) && Pads(AfterAll(b, n, size), AfterAll(b', n, size))
    decreases n
  {
    hide Next, After;
    if n > 0 {
      PadsNext(b, b', size);
      PadsSets(After(b, size), After(b', size), n - 1, size);
    }
  }

  lemma PadsHead(b: Stream, b': Stream, classes: nat)
    requires Pads(b, b')
    ensures HeadOf(b, classes) == HeadOf(b', classes) && Pads(AfterHead(b, classes), AfterHead(b', classes))
  {
    hide Next, After, Floats, AfterAll, Pads;
    PadsNext(b, b', 2);
    PadsNext(After(b, 2), After(b', 2), 2);
    var c, c' := After(After(b, 2), 2), After(After(b', 2), 2);
    PadsNext(c, c', 4);
    PadsNext(After(c, 4), After(c', 4), 4);
    PadsFloats(After(After(c, 4), 4), After(After(c', 4), 4), classes);
  }

  lemma PadsTest(h: FileTree, b: Stream, b': Stream, maxAttVal: seq<nat>)
    requires Pads(b, b')
    ensures Undefined(h, b, maxAttVal) <==> Undefined(h, b', maxAttVal)
    ensures TestOf(h, b, maxAttVal) == TestOf(h, b', maxAttVal)
            && Pads(AfterTest(h, b, maxAttVal), AfterTest(h, b', maxAttVal))
  {
    hide Next, After, Sets, AfterAll, Pads;
    PadsNext(b, b', 2);
    PadsNext(After(b, 2), After(b', 2), 2);
    var r, r' := After(After(b, 2), 2), After(After(b', 2), 2);
    PadsNext(r, r', 4);
    PadsNext(After(r, 4), After(r', 4), 4);
    PadsNext(After(After(r, 4), 4), After(After(r', 4), 4), 4);
    var tested, forks := ShortOf(Next(b, 2)), ShortOf(Next(After(b, 2), 2));
    if 0 <= tested < |maxAttVal| {
      PadsSets(r, r', Positive(forks), Bytes(maxAttVal[tested]));
    }
  }

  /** The end of a file reads like any number of EOF_BYTE. */
  lemma {:induction false} ParsePadded(b: Stream, b': Stream, classes: nat, maxAttVal: seq<nat>)
    requires Pads(b, b')
    ensures Parse(b, classes, maxAttVal).Some? <==> Parse(b', classes, maxAttVal).Some?
    ensures Parse(b, classes, maxAttVal).Some? ==>
              && Parse(b, classes, maxAttVal).value.0 == Parse(b', classes, maxAttVal).value.0
              && Pads(Parse(b, classes, maxAttVal).value.1, Parse(b', classes, maxAttVal).value.1)
    decreases |b'|, 0
  {
    hide HeadOf, AfterHead, TestOf, AfterTest, Undefined, Pads;
    PadsHead(b, b', classes);
    var h, b1, b1' := HeadOf(b, classes), AfterHead(b, classes), AfterHead(b', classes);
    if h.nodeType != LEAF {
      PadsTest(h, b1, b1', maxAttVal);
      if !Undefined(h, b1, maxAttVal) && TestOf(h, b1, maxAttVal).forks > 0 {
        EmptyHasNoForks(b', classes, maxAttVal);
        ParseAllPadded(AfterTest(h, b1, maxAttVal), AfterTest(h, b1', maxAttVal), classes, maxAttVal,
          TestOf(h, b1, maxAttVal).forks);
      }
    }
  }

  lemma {:induction false} ParseAllPadded(b: Stream, b': Stream, classes: nat, maxAttVal: seq<nat>, n: nat)
    requires Pads(b, b')
    ensures ParseAll(b, classes, maxAttVal, n).Some? <==> ParseAll(b', classes, maxAttVal, n).Some?
    ensures ParseAll(b, classes, maxAttVal, n).Some? ==>
              && ParseAll(b, classes, maxAttVal, n).value.0 == ParseAll(b', classes, maxAttVal, n).value.0
              && Pads(ParseAll(b, classes, maxAttVal, n).value.1, ParseAll(b', classes, maxAttVal, n).value.1)
    decreases |b'|, n + 1
  {
    hide Parse, Pads;
    if n > 0 {
      ParsePadded(b, b', classes, maxAttVal);
      if Parse(b, classes, maxAttVal).Some? {
        ParseAllPadded(Parse(b, classes, maxAttVal).value.1, Parse(b', classes, maxAttVal).value.1, classes, maxAttVal,
          n - 1);
      }
    }
  }

  /** The file spells tree t and goes on with r; a file that ends in the middle spells EOF_BYTE. */
  ghost predicate Spells(b: Stream, t: FileTree, r: Stream, classes: nat, maxAttVal: seq<nat>) {
    Writable(t, classes, maxAttVal) && Splits(b, TreeBytes(t), r)
  }

  /** What a file spells is what is read, so that it spells one tree. */
  lemma SpelledIsRead(b: Stream, t: FileTree, r: Stream, classes: nat, maxAttVal: seq<nat>)
    requires Spells(b, t, r, classes, maxAttVal)
    ensures Parse(b, classes, maxAttVal) == Some((Visible(t), r))
  {
    hide TreeBytes, Parse, Writable, Visible;
    TreeRoundTrip(t, r, classes, maxAttVal);
    if TreeBytes(t) + r != b {
      assert TreeBytes(t) + r == TreeBytes(t);
      ParsePadded(b, TreeBytes(t), classes, maxAttVal);
    }
  }

  /** A file can be read if and only if it spells a tree. */
  lemma ReadableFiles(b: Stream, classes: nat, maxAttVal: seq<nat>)
    ensures Parse(b, classes, maxAttVal).Some? <==> exists t, r :: Spells(b, t, r, classes, maxAttVal)
  {
    hide TreeBytes, Parse, Writable, Visible, Splits;
    if Parse(b, classes, maxAttVal).Some? {
      WhatWasRead(b, classes, maxAttVal);
      assert Spells(b, Parse(b, classes, maxAttVal).value.0, Parse(b, classes, maxAttVal).value.1, classes, maxAttVal);
    }
    if t, r :| Spells(b, t, r, classes, maxAttVal) {
      SpelledIsRead(b, t, r, classes, maxAttVal);
    }
  }

  /** A file of two characters, a subset node that breaks off, cannot be read: its attribute is -1. */
  lemma BrokenOffFile(classes: nat, maxAttVal: seq<nat>)
    ensures Parse([3, 0], classes, maxAttVal) == None
  {
    var b: Stream := [3, 0];
    assert Next(b, 2) == b && After(b, 2) == [];
    AfterNothing(classes);
    assert ShortOf(b) == BR_SUBSET;
    var e := Next([], 2);
    assert e == [EOF_BYTE, EOF_BYTE] && ShortOf(e) == -1;
    assert HeadOf(b, classes).nodeType == BR_SUBSET && AfterHead(b, classes) == [];
  }

  /** A node with MAX_SHORT branches cannot be read, whatever follows it. */
  lemma EndlessNode(t: FileTree, r: Stream, classes: nat, maxAttVal: seq<nat>)
    requires IsShort(t.nodeType) && IsShort(t.leaf) && IsShort(t.tested) && |t.dist| == classes
    requires t.nodeType != LEAF && t.forks == MAX_SHORT
    ensures Parse(HeadBytes(t) + TestBytes(t) + r, classes, maxAttVal) == None
  {
    hide Next, After, AfterAll, ShortBytes, ShortOf, Flat, HeadOf, AfterHead, HeadBytes;
    var r2 := KindBytes(t) + r;
    var r1 := ShortBytes(t.forks) + r2;
    assert HeadBytes(t) + TestBytes(t) + r == HeadBytes(t) + (ShortBytes(t.tested) + r1);
    HeadRoundTrip(t, ShortBytes(t.tested) + r1);
    ShortRoundTrip(t.forks);
    NextOf(ShortBytes(t.tested), r1);
    NextOf(ShortBytes(t.forks), r2);
  }

  lemma NoKindBytes(t: FileTree)
    requires t.nodeType == BR_DISCR
    ensures KindBytes(t) == []
  {}

  lemma EndlessBytes()
    ensures ShortBytes(1) == [1, 0] && ShortBytes(0) == [0, 0] && ShortBytes(MAX_SHORT) == [0xFF, 0x7F]
  {}

  /** A file with one such node, for two classes. */
  lemma EndlessFile(maxAttVal: seq<nat>)
    ensures Parse([1, 0, 0, 0] + ZERO + ZERO + ZERO + ZERO + [0, 0, 0xFF, 0x7F], 2, maxAttVal) == None
  {
    hide ShortBytes, Parse, KindBytes;
    var t := Tree(BR_DISCR, 0, ZERO, ZERO, [ZERO, ZERO], 0, MAX_SHORT, ZERO, ZERO, ZERO, [], []);
    assert KindBytes(t) == [] by { NoKindBytes(t); }
    EndlessNode(t, [], 2, maxAttVal);
    EndlessBytes();
    assert Flat([ZERO]) == ZERO + Flat([]) && Flat(t.dist) == ZERO + Flat([ZERO]);
    assert HeadBytes(t) == [1, 0, 0, 0] + ZERO + ZERO + (ZERO + (ZERO + []));
    assert TestBytes(t) == [0, 0, 0xFF, 0x7F];
    assert HeadBytes(t) + TestBytes(t) + []
        == [1, 0, 0, 0] + ZERO + ZERO + ZERO + ZERO + [0, 0, 0xFF, 0x7F];
  }

  lemma {:induction false} AfterNothing(n: nat)
    ensures AfterAll([], n, 4) == []
  {
    if n > 0 {
      AfterNothing(n - 1);
    }
  }

  // ---- Written with one table of attributes and read with another -------------------------------

  /** The grouped tests are on attributes of the second table whose sets are of the same size. */
  predicate Agrees(t: FileTree, written: seq<nat>, known: seq<nat>) {
    t.nodeType != LEAF ==>
      && (t.nodeType == BR_SUBSET ==>
            && 0 <= t.tested < |written| && t.tested < |known|
            && (t.forks > 0 ==> Bytes(written[t.tested]) == Bytes(known[t.tested])))
      && forall v :: 0 <= v < |t.branch| ==> Agrees(t.branch[v], written, known)
  }

  lemma {:induction false} AgreesWritable(t: FileTree, classes: nat, written: seq<nat>, known: seq<nat>)
    requires Writable(t, classes, written)
    ensures Writable(t, classes, known) <==> Agrees(t, written, known)
  {
    hide Bytes;
    if t.nodeType != LEAF {
      forall v | 0 <= v < |t.branch|
        ensures Writable(t.branch[v], classes, known) <==> Agrees(t.branch[v], written, known)
      {
        AgreesWritable(t.branch[v], classes, written, known);
      }
      if t.nodeType == BR_SUBSET && t.forks > 0 {
        assert |t.subset[0]| == Bytes(written[t.tested]);
      }
    }
  }

  lemma {:induction false} VisibleWritable(t: FileTree, classes: nat, maxAttVal: seq<nat>)
    requires Writable(Visible(t), classes, maxAttVal)
    ensures Writable(t, classes, maxAttVal)
  {
    hide Bytes;
    if t.nodeType != LEAF {
      forall v | 0 <= v < |t.branch|
        ensures Writable(t.branch[v], classes, maxAttVal)
      {
        VisibleAt(t, 0, v);
        assert Writable(Visible(t).branch[v], classes, maxAttVal);
        VisibleWritable(t.branch[v], classes, maxAttVal);
      }
    }
  }

  lemma {:induction false} VisibleAt(t: FileTree, i: nat, v: nat)
    requires i <= v < |t.branch|
    ensures VisibleFrom(t, i)[v - i] == Visible(t.branch[v])
    decreases v - i
  {
    hide Visible;
    if i < v {
      VisibleAt(t, i + 1, v);
    }
  }

  /** A tree is read back by a program with another table of attributes if and only if the sets of its
      grouped tests are of the same size there. */
  lemma TwoTables(t: FileTree, r: Stream, classes: nat, written: seq<nat>, known: seq<nat>)
    requires Writable(t, classes, written)
    ensures Parse(TreeBytes(t) + r, classes, known) == Some((Visible(t), r)) <==> Agrees(t, written, known)
  {
    hide TreeBytes, Parse, Writable, Agrees, Visible;
    AgreesWritable(t, classes, written, known);
    if Agrees(t, written, known) {
      TreeRoundTrip(t, r, classes, known);
    }
    if Parse(TreeBytes(t) + r, classes, known) == Some((Visible(t), r)) {
      WhatWasRead(TreeBytes(t) + r, classes, known);
      VisibleWritable(t, classes, known);
    }
  }

  /** A grouped test on an attribute of eight values or more is not read back where the values of the
      attribute are not known yet. */
  lemma UndeclaredValues(t: FileTree, r: Stream, classes: nat, written: seq<nat>, known: seq<nat>)
    requires Writable(t, classes, written) && t.nodeType == BR_SUBSET && t.forks > 0
    requires t.tested < |known| && written[t.tested] >= 8 && known[t.tested] == 0
    ensures Parse(TreeBytes(t) + r, classes, known) != Some((Visible(t), r))
  {
    TwoTables(t, r, classes, written, known);
  }

  // ---- The file ---------------------------------------------------------------------------------

  class TreeFile {
    const classes: nat
    const maxAttVal: seq<nat>
    var written: Stream
    var unread: Stream

    constructor (classes: nat, maxAttVal: seq<nat>, data: Stream)
      ensures this.classes == classes && this.maxAttVal == maxAttVal && written == [] && unread == data
    {
      this.classes, this.maxAttVal, written, unread := classes, maxAttVal, [], data;
    }

    method PutC(c: bv8)
      modifies `written
      ensures written == old(written) + [c]
    {
      written := written + [c];
    }

    method GetC() returns (c: int)
      modifies `unread
      ensures unread == After(old(unread), 1)
      ensures c == if old(unread) == [] then -1 else old(unread)[0] as int
    {
      if unread == [] { return -1; }
      c := unread[0] as int;
      unread := unread[1..];
    }

    method StreamOut(s: Stream)
      modifies `written
      ensures written == old(written) + s
    {
      var i := 0;
      while i < |s|
        invariant 0 <= i <= |s| && written == old(written) + s[..i]
      {
        PutC(s[i]);
        i := i + 1;
      }
    }

    method StreamIn(n: nat) returns (s: Stream)
      modifies `unread
      ensures s == Next(old(unread), n) && unread == After(old(unread), n)
    {
      s := [];
      ghost var b := unread;
      while |s| < n
        invariant |s| <= n && s == Next(b, |s|) && unread == After(b, |s|)
      {
        var c := GetC();
        s := s + [if c < 0 then EOF_BYTE else c as bv8];
      }
    }

    method OutTree(t: FileTree)
      requires Writable(t, classes, maxAttVal)
      modifies `written
      ensures written == old(written) + TreeBytes(t)
      decreases t
    {
      hide HeadBytes, TestBytes;
      ghost var b := written;
      OutHead(t);
      if t.nodeType != LEAF {
        OutTest(t);
        assert written == b + HeadBytes(t) + TestBytes(t);
        var v := 0;
        while v < t.forks
          invariant 0 <= v <= |t.branch|
          invariant written + BranchBytes(t, v) == b + HeadBytes(t) + TestBytes(t) + BranchBytes(t, 0)
        {
          ghost var w := written;
          OutTree(t.branch[v]);
          assert w + BranchBytes(t, v) == written + BranchBytes(t, v + 1);
          v := v + 1;
        }
        assert written + [] == written;
      }
    }

    method OutHead(t: FileTree)
      modifies `written
      ensures written == old(written) + HeadBytes(t)
    {
      hide ShortBytes, Flat;
      StreamOut(ShortBytes(t.nodeType));
      StreamOut(ShortBytes(t.leaf));
      StreamOut(t.items);
      StreamOut(t.errors);
      OutAll(t.dist);
    }

    method OutAll(d: seq<Stream>)
      modifies `written
      ensures written == old(written) + Flat(d)
    {
      var i := 0;
      assert d[0..] == d;
      while i < |d|
        invariant 0 <= i <= |d| && written + Flat(d[i..]) == old(written) + Flat(d)
      {
        ghost var w := written;
        StreamOut(d[i]);
        assert d[i..][1..] == d[i + 1..];
        assert w + Flat(d[i..]) == written + Flat(d[i + 1..]);
        i := i + 1;
      }
    }

    method OutTest(t: FileTree)
      requires Writable(t, classes, maxAttVal) && t.nodeType != LEAF
      modifies `written
      ensures written == old(written) + TestBytes(t)
    {
      hide ShortBytes;
      StreamOut(ShortBytes(t.tested));
      StreamOut(ShortBytes(t.forks));
      if t.nodeType == THRESH_CONTIN {
        StreamOut(t.cut);
        StreamOut(t.lower);
        StreamOut(t.upper);
      } else if t.nodeType == BR_SUBSET {
        OutAll(t.subset);
      }
    }

    /** No tree when the test of a node is a subset test on an attribute that does not exist, or a node
        has MAX_SHORT branches. */
    method InTree() returns (r: Option<FileTree>)
      modifies `unread
      ensures Parse(old(unread), classes, maxAttVal) == if r.Some? then Some((r.value, unread)) else None
      ensures |unread| <= |old(unread)|
      decreases |unread|
    {
      hide HeadOf, AfterHead, TestOf, AfterTest, Undefined;
      ghost var b := unread;
      var t := InHead();
      if t.nodeType == LEAF { return Some(t); }
      ghost var h, b1 := t, unread;
      var u := InTest(t);
      if u.None? { return None; }
      t := u.value;
      ghost var b2 := unread;
      EmptyHasNoForks(b, classes, maxAttVal);
      assert t.branch == [] by { BranchesLast(b, h, b1, classes, maxAttVal); }
      JoinedNone(ParseAll(b2, classes, maxAttVal, Positive(t.forks)));
      while |t.branch| < t.forks
        invariant |unread| <= |b2| && (t.forks > 0 ==> |b2| < |b|)
        invariant t.(branch := []) == u.value && |t.branch| <= Positive(t.forks)
        invariant ParseAll(b2, classes, maxAttVal, Positive(t.forks))
               == Joined(t.branch, ParseAll(unread, classes, maxAttVal, Positive(t.forks) - |t.branch|))
      {
        var x := InTree();
        if x.None? { return None; }
        JoinedOne(t.branch, x.value, ParseAll(unread, classes, maxAttVal, t.forks - |t.branch| - 1));
        t := t.(branch := t.branch + [x.value]);
      }
      assert t.branch + [] == t.branch;
      return Some(t);
    }

    method InHead() returns (t: FileTree)
      modifies `unread
      ensures t == HeadOf(old(unread), classes) && unread == AfterHead(old(unread), classes)
    {
      hide Next, After, ShortOf, Floats, AfterAll;
      var a := StreamIn(2);
      var c := StreamIn(2);
      var items: Float := StreamIn(4);
      var errors: Float := StreamIn(4);
      var dist: seq<Float> := [];
      ghost var b := unread;
      while |dist| < classes
        invariant |dist| <= classes
        invariant Floats(b, classes) == dist + Floats(unread, classes - |dist|)
        invariant AfterAll(b, classes, 4) == AfterAll(unread, classes - |dist|, 4)
      {
        NextFloat(unread, classes - |dist|);
        ghost var rest := Floats(After(unread, 4), classes - |dist| - 1);
        var x: Float := StreamIn(4);
        assert dist + ([x] + rest) == (dist + [x]) + rest;
        dist := dist + [x];
      }
      NoFloats(unread);
      assert dist + [] == dist;
      t := Tree(ShortOf(a), ShortOf(c), items, errors, dist, 0, 0, ZERO, ZERO, ZERO, [], []);
    }

    method InSets(n: nat, bytes: nat) returns (subset: seq<Bits>)
      modifies `unread
      ensures subset == Sets(old(unread), n, bytes) && unread == AfterAll(old(unread), n, bytes)
    {
      hide Next, After;
      subset := [];
      while |subset| < n
        invariant |subset| <= n
        invariant Sets(old(unread), n, bytes) == subset + Sets(unread, n - |subset|, bytes)
        invariant AfterAll(old(unread), n, bytes) == AfterAll(unread, n - |subset|, bytes)
      {
        var x := StreamIn(bytes);
        subset := subset + [x];
      }
    }

    method InTest(h: FileTree) returns (r: Option<FileTree>)
      modifies `unread
      ensures r == if Undefined(h, old(unread), maxAttVal) then None else Some(TestOf(h, old(unread), maxAttVal))
      ensures r.Some? ==> unread == AfterTest(h, old(unread), maxAttVal)
      ensures |unread| <= |old(unread)|
    {
      hide Next, ShortOf, Sets, AfterAll;
      var a := StreamIn(2);
      var f := StreamIn(2);
      var t := h.(tested := ShortOf(a), forks := ShortOf(f));
      if t.forks == MAX_SHORT { return None; }
      if t.nodeType == THRESH_CONTIN {
        var cut: Float := StreamIn(4);
        var lower: Float := StreamIn(4);
        var upper: Float := StreamIn(4);
        t := t.(cut := cut, lower := lower, upper := upper);
      } else if t.nodeType == BR_SUBSET {
        if !(0 <= t.tested < |maxAttVal|) { return None; }
        var subset := InSets(Positive(t.forks), Bytes(maxAttVal[t.tested]));
        t := t.(subset := subset);
      }
      return Some(t);
    }
  }

  function Joined(d: seq<FileTree>, r: Option<(seq<FileTree>, Stream)>): Option<(seq<FileTree>, Stream)> {
    if r.None? then None else Some((d + r.value.0, r.value.1))
  }

  lemma JoinedNone(r: Option<(seq<FileTree>, Stream)>)
    ensures Joined([], r) == r
  {
    if r.Some? {
      assert [] + r.value.0 == r.value.0;
    }
  }

  lemma JoinedOne(d: seq<FileTree>, x: FileTree, r: Option<(seq<FileTree>, Stream)>)
    ensures Joined(d, Joined([x], r)) == Joined(d + [x], r)
  {
    if r.Some? {
      assert d + ([x] + r.value.0) == (d + [x]) + r.value.0;
    }
  }

  lemma BranchesLast(b: Stream, h: FileTree, b1: Stream, classes: nat, maxAttVal: seq<nat>)
    requires h == HeadOf(b, classes)
    ensures TestOf(h, b1, maxAttVal).branch == []
  {}
}
