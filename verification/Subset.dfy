/** Grouping the values of a discrete attribute: EvalSubset merges rows of the frequency tables and
    the bit sets that go with them. */
module Subset {
  import opened Options
  import opened BitSets
  import opened C45Types
  import opened Weighted
  import opened ClassSearch

  type Row = seq<real>

  function AddRows(a: Row, b: Row): Row
    requires |a| == |b|
  {
    seq(|a|, c requires 0 <= c < |a| => a[c] + b[c])
  }

  // ---- Measures -----------------------------------------------------------------------------

  /** Rows 1 to n that carry at least m. The last column of a row holds its total. */
  function Reasonable(rows: seq<Row>, n: nat, m: real): nat
    requires n < |rows| && forall v :: 0 <= v < |rows| ==> |rows[v]| > 0
  {
    if n == 0 then 0 else Reasonable(rows, n - 1, m) + if rows[n][|rows[n]| - 1] >= m then 1 else 0
  }

  /** The measures of information, of which nothing is known. */
  datatype Measures = Measures(total: Row -> real, base: seq<Row> -> real, gainRatio: bool)

  function InfoSum(rows: seq<Row>, n: nat, total: Row -> real): real
    requires n < |rows| && forall v :: 0 <= v < |rows| ==> |rows[v]| > 0
  {
    if n == 0 then 0.0 else InfoSum(rows, n - 1, total) + total(rows[n][..|rows[n]| - 1])
  }

  /** The gain of a split into rows 1 to n, or -EPSILON unless two of them carry at least m. */
  function GainOf(rows: seq<Row>, base: real, unknown: real, n: nat, items: real, m: real, total: Row -> real): real
    requires n < |rows| && forall v :: 0 <= v < |rows| ==> |rows[v]| > 0
  {
    if items == 0.0 || Reasonable(rows, n, m) < 2 then 0.0 - EPSILON
    else (1.0 - unknown) * (base - InfoSum(rows, n, total) / items)
  }

  function Worth(info: real, gain: real, minGain: real, gainRatio: bool): real {
    if gainRatio then (if gain >= minGain - EPSILON && info > EPSILON then gain / info else 0.0 - EPSILON)
    else if info > 0.0 && gain > 0.0 - EPSILON then gain else 0.0 - EPSILON
  }

  // ---- Blocks of values ---------------------------------------------------------------------

  /** Which block a value is in after blocks x and y have become x, and block last has become y. */
  function Moved(b: nat, x: nat, y: nat, last: nat): nat {
    if b == y then x else if b == last then y else b
  }

  function Merge(owner: seq<nat>, x: nat, y: nat, last: nat): (r: seq<nat>)
    ensures |r| == |owner| && forall v :: 0 <= v < |owner| ==> r[v] == Moved(owner[v], x, y, last)
  {
    seq(|owner|, v requires 0 <= v < |owner| => Moved(owner[v], x, y, last))
  }

  /** The sum of column c over the values 1 to n of block b. */
  ghost function Column(orig: seq<Row>, owner: seq<nat>, b: nat, c: nat, n: nat): real
    requires n < |orig| && n < |owner| && forall v :: 0 <= v < |orig| ==> c < |orig[v]|
  {
    if n == 0 then 0.0 else Column(orig, owner, b, c, n - 1) + if owner[n] == b then orig[n][c] else 0.0
  }

  lemma {:induction false} ColumnMerge(orig: seq<Row>, owner: seq<nat>, x: nat, y: nat, last: nat, b: nat, c: nat,
                                       n: nat)
    requires n < |orig| && n < |owner| && forall v :: 0 <= v < |orig| ==> c < |orig[v]|
    requires x < y <= last && b < last && forall v :: 1 <= v <= n ==> owner[v] <= last
    ensures Column(orig, Merge(owner, x, y, last), b, c, n)
         == if b == x then Column(orig, owner, x, c, n) + Column(orig, owner, y, c, n)
            else if b == y then Column(orig, owner, last, c, n)
            else Column(orig, owner, b, c, n)
  {
    if n > 0 {
      ColumnMerge(orig, owner, x, y, last, b, c, n - 1);
    }
  }

  /** The values 1 to k are shared out among the sets 0 to blocks: value v is in set owner[v]. */
  ghost predicate Partition(sets: seq<Bits>, owner: seq<nat>, blocks: nat, n: nat, k: nat) {
    && blocks < |sets| && |owner| == n + 1 && k <= n
    && (forall b :: 0 <= b <= blocks ==> |sets[b]| == Bytes(n))
    && (forall v :: 1 <= v <= k ==> owner[v] <= blocks)
    && (forall b, v :: 0 <= b <= blocks && 0 <= v <= n ==> Held(sets, owner, k, b, v))
  }

  ghost predicate Held(sets: seq<Bits>, owner: seq<nat>, k: nat, b: nat, v: nat)
    requires b < |sets| && v < |owner|
  {
    In(v, sets[b]) <==> 1 <= v <= k && owner[v] == b
  }

  /** Row b holds the sums of the original rows of those values up to k that block b owns. */
  ghost predicate Sums(rows: seq<Row>, orig: seq<Row>, owner: seq<nat>, blocks: nat, k: nat, width: nat) {
    && k < |orig| == |rows| == |owner| && blocks <= k && width > 0
    && (forall v :: 0 <= v < |rows| ==> |rows[v]| == width && |orig[v]| == width)
    && (forall b, c :: 1 <= b <= blocks && 0 <= c < width ==> rows[b][c] == Column(orig, owner, b, c, k))
  }

  lemma MergeSums(rows: seq<Row>, orig: seq<Row>, owner: seq<nat>, blocks: nat, n: nat, width: nat, x: nat, y: nat)
    requires Sums(rows, orig, owner, blocks, n, width) && 1 <= x < y <= blocks
    requires forall v :: 1 <= v <= n ==> owner[v] <= blocks
    ensures Sums(MergedRows(rows, x, y, blocks), orig, Merge(owner, x, y, blocks), blocks - 1, n, width)
  {
    var r := MergedRows(rows, x, y, blocks);
    forall b, c | 1 <= b <= blocks - 1 && 0 <= c < width
      ensures r[b][c] == Column(orig, Merge(owner, x, y, blocks), b, c, n)
    {
      ColumnMerge(orig, owner, x, y, blocks, b, c, n);
    }
  }

  /** Row x becomes the sum of rows x and y, and row y becomes row last. */
  function MergedRows(rows: seq<Row>, x: nat, y: nat, last: nat): seq<Row>
    requires x < |rows| && y < |rows| && last < |rows| && |rows[x]| == |rows[y]|
  {
    rows[x := AddRows(rows[x], rows[y])][y := rows[last]]
  }

  lemma MergePartition(sets: seq<Bits>, owner: seq<nat>, blocks: nat, n: nat, x: nat, y: nat)
    requires Partition(sets, owner, blocks, n, n) && 1 <= x < y <= blocks
    ensures Partition(sets[x := Union(sets[x], sets[y])][y := sets[blocks]], Merge(owner, x, y, blocks), blocks - 1, n,
            n)
  {
    hide In, Union, Bytes;
    UnionLength(sets[x], sets[y]);
    forall v | 0 <= v <= n
      ensures In(v, Union(sets[x], sets[y])) <==> In(v, sets[x]) || In(v, sets[y])
    {
      InUnion(sets[x], sets[y], v);
    }
    var sets', owner' := sets[x := Union(sets[x], sets[y])][y := sets[blocks]], Merge(owner, x, y, blocks);
    forall b, v | 0 <= b <= blocks - 1 && 0 <= v <= n
      ensures Held(sets', owner', n, b, v)
    {
      PartitionAt(sets, owner, blocks, n, n, b, v);
      PartitionAt(sets, owner, blocks, n, n, y, v);
      PartitionAt(sets, owner, blocks, n, n, blocks, v);
    }
  }

  lemma UnionLength(s: Bits, t: Bits)
    requires |s| == |t|
    ensures |Union(s, t)| == |s|
  {}

  lemma PartitionAt(sets: seq<Bits>, owner: seq<nat>, blocks: nat, n: nat, k: nat, b: nat, v: nat)
    requires Partition(sets, owner, blocks, n, k) && b <= blocks && v <= n
    ensures In(v, sets[b]) <==> 1 <= v <= k && owner[v] == b
  {
    assert Held(sets, owner, k, b, v);
  }

  /** A represented value v starts block b. */
  lemma BlockStarts(sets: seq<Bits>, owner: seq<nat>, b: nat, n: nat, v: nat)
    requires 1 <= b <= v <= n && b < |sets| && Partition(sets, owner, b - 1, n, v - 1)
    ensures |Cleared(Bytes(n))| == Bytes(n) && v / 8 < Bytes(n) && |owner| == n + 1
    ensures Partition(sets[b := WithBit(v, Cleared(Bytes(n)))], owner[v := b], b, n, v)
  {
    assert |Cleared(Bytes(n))| == Bytes(n) && v / 8 < Bytes(n);
    var one := WithBit(v, Cleared(Bytes(n)));
    hide In, Bytes, WithBit, Cleared;
    WithBitLength(v, Cleared(Bytes(n)));
    forall u | 0 <= u <= n
      ensures In(u, one) <==> u == v
    {
      InWithBit(v, Cleared(Bytes(n)), u);
      InCleared(u, Bytes(n));
    }
    var sets', owner' := sets[b := one], owner[v := b];
    forall a, u | 0 <= a <= b && 0 <= u <= n
      ensures Held(sets', owner', v, a, u)
    {
      if a < b {
        PartitionAt(sets, owner, b - 1, n, v - 1, a, u);
      }
    }
    assert forall a :: 0 <= a <= b ==> |sets'[a]| == Bytes(n);
    assert Partition(sets', owner', b, n, v);
  }

  lemma WithBitLength(b: nat, s: Bits)
    requires b / 8 < |s|
    ensures |WithBit(b, s)| == |s|
  {}

  /** An unrepresented value v joins the set of the missing ones. */
  lemma JoinMissing(sets: seq<Bits>, owner: seq<nat>, blocks: nat, n: nat, v: nat)
    requires 1 <= v <= n && Partition(sets, owner, blocks, n, v - 1)
    ensures |sets| > 0 && v / 8 < |sets[0]| && |owner| == n + 1
    ensures Partition(sets[0 := WithBit(v, sets[0])], owner[v := 0], blocks, n, v)
  {
    assert |sets[0]| == Bytes(n) && v / 8 < Bytes(n);
    hide In, Bytes, WithBit;
    WithBitLength(v, sets[0]);
    forall u | 0 <= u <= n
      ensures In(u, WithBit(v, sets[0])) <==> u == v || In(u, sets[0])
    {
      InWithBit(v, sets[0], u);
    }
    var sets', owner' := sets[0 := WithBit(v, sets[0])], owner[v := 0];
    forall a, u | 0 <= a <= blocks && 0 <= u <= n
      ensures Held(sets', owner', v, a, u)
    {
      PartitionAt(sets, owner, blocks, n, v - 1, a, u);
    }
    assert forall a :: 0 <= a <= blocks ==> |sets'[a]| == Bytes(n);
    assert Partition(sets', owner', blocks, n, v);
  }

  lemma {:induction false} ColumnFresh(orig: seq<Row>, owner: seq<nat>, b: nat, c: nat, v: nat, k: nat, w: nat)
    requires k < v < |owner| && k < |orig| && forall u :: 0 <= u < |orig| ==> c < |orig[u]|
    ensures Column(orig, owner[v := w], b, c, k) == Column(orig, owner, b, c, k)
  {
    if k > 0 {
      ColumnFresh(orig, owner, b, c, v, k - 1, w);
    }
  }

  lemma {:induction false} ColumnNone(orig: seq<Row>, owner: seq<nat>, b: nat, c: nat, k: nat)
    requires k < |orig| && k < |owner| && forall u :: 0 <= u < |orig| ==> c < |orig[u]|
    requires forall v :: 1 <= v <= k ==> owner[v] != b
    ensures Column(orig, owner, b, c, k) == 0.0
  {
    if k > 0 {
      ColumnNone(orig, owner, b, c, k - 1);
    }
  }

  lemma StartSums(rows: seq<Row>, orig: seq<Row>, owner: seq<nat>, b: nat, v: nat, width: nat)
    requires 1 <= b <= v < |orig| && Sums(rows, orig, owner, b - 1, v - 1, width) && rows[v] == orig[v]
    requires forall u :: 1 <= u < v ==> owner[u] < b
    ensures Sums(rows[b := rows[v]], orig, owner[v := b], b, v, width)
  {
    var r := rows[b := rows[v]];
    forall a, c | 1 <= a <= b && 0 <= c < width
      ensures r[a][c] == Column(orig, owner[v := b], a, c, v)
    {
      ColumnFresh(orig, owner, a, c, v, v - 1, b);
      if a == b {
        ColumnNone(orig, owner, b, c, v - 1);
      }
    }
  }

  lemma StartStep(sets: seq<Bits>, rows: seq<Row>, orig: seq<Row>, owner: seq<nat>, b: nat, n: nat, v: nat, width: nat)
    requires 1 <= b <= v <= n < |orig| && b < |sets| && Partition(sets, owner, b - 1, n, v - 1)
    requires Sums(rows, orig, owner, b - 1, v - 1, width) && rows[v] == orig[v]
    ensures |Cleared(Bytes(n))| == Bytes(n) && v / 8 < Bytes(n)
    ensures Partition(sets[b := WithBit(v, Cleared(Bytes(n)))], owner[v := b], b, n, v)
    ensures Sums(rows[b := rows[v]], orig, owner[v := b], b, v, width)
  {
    hide WithBit, Cleared, In, Held;
    BlockStarts(sets, owner, b, n, v);
    StartSums(rows, orig, owner, b, v, width);
  }

  lemma MissingSums(rows: seq<Row>, orig: seq<Row>, owner: seq<nat>, blocks: nat, v: nat, width: nat)
    requires 1 <= v < |orig| && Sums(rows, orig, owner, blocks, v - 1, width)
    ensures Sums(rows, orig, owner[v := 0], blocks, v, width)
  {
    forall a, c | 1 <= a <= blocks && 0 <= c < width
      ensures rows[a][c] == Column(orig, owner[v := 0], a, c, v)
    {
      ColumnFresh(orig, owner, a, c, v, v - 1, 0);
    }
  }

  // ---- Classes of a block -------------------------------------------------------------------

  ghost predicate NonNegative(rows: seq<Row>) {
    forall b, c :: 0 <= b < |rows| && 0 <= c < |rows[b]| ==> rows[b][c] >= 0.0
  }

  /** Some class of the row has at least 0.1. */
  ghost predicate HasClass(r: Row) { exists c :: 0 <= c < |r| - 1 && r[c] >= 0.1 }

  lemma MergeNonNegative(rows: seq<Row>, blocks: nat, x: nat, y: nat)
    requires 1 <= x < y <= blocks < |rows| && |rows[x]| == |rows[y]| && NonNegative(rows)
    ensures NonNegative(MergedRows(rows, x, y, blocks))
  {}

  /** A represented row in which no class has 0.1. */
  ghost predicate Classless(r: Row) { r != [] && r[|r| - 1] > 0.5 && !HasClass(r) }

  ghost predicate TwoClassless(rows: seq<Row>, blocks: nat) {
    blocks < |rows| && exists a, b :: 1 <= a < b <= blocks && Classless(rows[a]) && Classless(rows[b])
  }

  /** The weight of the row is in class c, up to 0.1. */
  predicate Sole(r: Row, c: nat) { c < |r| && r[c] >= r[|r| - 1] - 0.1 }

  /** The first class from c on with at least 0.1. */
  function FirstFrom(r: Row, c: nat): Option<nat>
    decreases |r| - c
  {
    if c >= |r| - 1 then None else if r[c] >= 0.1 then Some(c) else FirstFrom(r, c + 1)
  }

  /** What the search for the classes of the blocks looks at in a row. */
  function LabelOf(r: Row): Label { Label(FirstFrom(r, 0), set c: nat | c < |r| - 1 && Sole(r, c)) }

  function Labels(s: seq<Row>): (k: seq<Label>)
    ensures |k| == |s| && forall i :: 0 <= i < |k| ==> k[i] == LabelOf(s[i])
  {
    seq(|s|, i requires 0 <= i < |s| => LabelOf(s[i]))
  }

  lemma {:induction false} FirstHas(r: Row, c: nat)
    requires forall d :: 0 <= d < c && d < |r| - 1 ==> r[d] < 0.1
    ensures FirstFrom(r, c).Some? <==> HasClass(r)
    decreases |r| - c
  {
    if c < |r| - 1 && r[c] < 0.1 {
      FirstHas(r, c + 1);
    }
  }

  lemma {:induction false} FirstIs(r: Row, c: nat, d: nat)
    requires c <= d < |r| - 1 && r[d] >= 0.1 && forall e :: c <= e < d ==> r[e] < 0.1
    ensures FirstFrom(r, c) == Some(d)
    decreases d - c
  {
    if c < d {
      FirstIs(r, c + 1, d);
    }
  }

  lemma ClasslessIsLoose(r: Row)
    requires Classless(r)
    ensures Loose(LabelOf(r))
  {
    FirstHas(r, 0);
    forall c: nat | c < |r| - 1
      ensures !Sole(r, c)
    {
      assert r[c] < 0.1;
    }
  }

  // ---- The search for classes, block by block -----------------------------------------------

  /** The labels of blocks v to last. */
  function LabelsFrom(rows: seq<Row>, v: nat, last: nat): (k: seq<Label>)
    requires v <= last + 1 <= |rows|
    ensures |k| == last + 1 - v
  {
    Labels(rows[v..last + 1])
  }

  lemma FirstLabel(rows: seq<Row>, v: nat, last: nat)
    requires v <= last < |rows|
    ensures LabelsFrom(rows, v, last)[0] == LabelOf(rows[v])
            && LabelsFrom(rows, v, last)[1..] == LabelsFrom(rows, v + 1, last)
  {
    hide LabelOf;
  }

  lemma LooksRunOff(rows: seq<Row>, v: nat, last: nat)
    requires v < last < |rows| && FirstFrom(rows[v], 0).None?
    ensures !Stays(LabelsFrom(rows, v, last))
  {
    hide LabelsFrom, FirstFrom, Rest;
    FirstLabel(rows, v, last);
  }

  /** Block v has been looked at, and those of its class taken into it if it is of one class alone. */
  lemma LooksOn(rows: seq<Row>, v: nat, last: nat, c: nat, r: seq<Row>, left: nat)
    requires v < last < |rows| && FirstFrom(rows[v], 0) == Some(c) && c < |rows[v]| - 1
             && v <= left < |r|
    requires LabelsFrom(r, v + 1, left)
          == if Sole(rows[v], c) then Absorb(LabelsFrom(rows, v + 1, last), 0, c) else LabelsFrom(rows, v + 1, last)
    ensures Stays(LabelsFrom(rows, v, last)) <==> Stays(LabelsFrom(r, v + 1, left))
    ensures Left(LabelsFrom(rows, v, last)) == 1 + Left(LabelsFrom(r, v + 1, left))
  {
    hide LabelsFrom, FirstFrom, Absorb, Sole;
    FirstLabel(rows, v, last);
    assert Alone(LabelOf(rows[v])) <==> Sole(rows[v], c);
  }

  lemma LooksNoMore(rows: seq<Row>, v: nat, last: nat)
    requires last <= v <= last + 1 <= |rows|
    ensures Stays(LabelsFrom(rows, v, last)) && Left(LabelsFrom(rows, v, last)) == last + 1 - v
  {
    hide LabelsFrom, FirstFrom, Absorb, Sole;
  }

  /** What is left of the blocks after v when those from w on of class c alone are taken out. */
  ghost function Absorbed(rows: seq<Row>, v: nat, w: nat, last: nat, c: nat): seq<Label>
    requires v < w <= last + 1 <= |rows|
  {
    Absorb(LabelsFrom(rows, v + 1, last), w - v - 1, c)
  }

  lemma AbsorbSkips(rows: seq<Row>, v: nat, w: nat, last: nat, c: nat)
    requires v < w <= last < |rows| && !Sole(rows[w], c)
    ensures Absorbed(rows, v, w, last, c) == Absorbed(rows, v, w + 1, last, c)
  {
    assert LabelsFrom(rows, v + 1, last)[w - v - 1] == LabelOf(rows[w]);
  }

  lemma AbsorbTakes(rows: seq<Row>, v: nat, w: nat, last: nat, c: nat)
    requires v < w <= last < |rows| && c < |rows[w]| - 1 && Sole(rows[w], c) && |rows[v]| == |rows[w]|
    ensures Absorbed(rows, v, w, last, c) == Absorbed(MergedRows(rows, v, w, last), v, w, last - 1, c)
  {
    hide LabelOf, AddRows;
    var k, r := LabelsFrom(rows, v + 1, last), MergedRows(rows, v, w, last);
    assert k[w - v - 1] == LabelOf(rows[w]) && k[|k| - 1] == LabelOf(rows[last]);
    assert c in LabelOf(rows[w]).sole by { SoleLabel(rows[w], c); }
    var taken := k[w - v - 1 := k[|k| - 1]][..|k| - 1];
    forall i | 0 <= i < |k| - 1
      ensures LabelsFrom(r, v + 1, last - 1)[i] == taken[i]
    {
      assert r[v + 1..last][i] == r[v + 1 + i];
      assert i != w - v - 1 ==> r[v + 1 + i] == rows[v + 1 + i] == rows[v + 1..last + 1][i];
    }
    assert LabelsFrom(r, v + 1, last - 1) == taken;
  }

  lemma SoleLabel(r: Row, c: nat)
    requires c < |r| - 1
    ensures c in LabelOf(r).sole <==> Sole(r, c)
  {}

  lemma AbsorbStarts(rows: seq<Row>, v: nat, last: nat, c: nat)
    requires v <= last < |rows|
    ensures Absorbed(rows, v, v + 1, last, c) == Absorb(LabelsFrom(rows, v + 1, last), 0, c)
  {}

  lemma AbsorbEnds(rows: seq<Row>, v: nat, last: nat, c: nat)
    requires v <= last < |rows|
    ensures Absorbed(rows, v, last + 1, last, c) == LabelsFrom(rows, v + 1, last)
  {}

  // ---- The blocks of a table ----------------------------------------------------------------

  /** The rows of the values from 1 to n of weight over 0.5. */
  function Kept(rows: seq<Row>, classes: nat, n: nat): (r: seq<Row>)
    requires n < |rows| && forall v :: 0 <= v < |rows| ==> classes < |rows[v]|
    ensures |r| <= n
  {
    if n == 0 then [] else Kept(rows, classes, n - 1) + if rows[n][classes] > 0.5 then [rows[n]] else []
  }

  lemma {:induction false} KeptAre(rows: seq<Row>, classes: nat, n: nat)
    requires n < |rows| && forall v :: 0 <= v < |rows| ==> |rows[v]| == classes + 1
    ensures forall r :: r in Kept(rows, classes, n) ==> exists v :: 1 <= v <= n && rows[v] == r && r[classes] > 0.5
  {
    if n > 0 {
      KeptAre(rows, classes, n - 1);
    }
  }

  lemma {:induction false} KeptAt(rows: seq<Row>, classes: nat, n: nat, v: nat) returns (i: nat)
    requires 1 <= v <= n < |rows| && (forall u :: 0 <= u < |rows| ==> |rows[u]| == classes + 1)
             && rows[v][classes] > 0.5
    ensures i == |Kept(rows, classes, v - 1)| && i < |Kept(rows, classes, n)| && Kept(rows, classes, n)[i] == rows[v]
    decreases n
  {
    if v == n {
      i := |Kept(rows, classes, n - 1)|;
    } else {
      i := KeptAt(rows, classes, n - 1, v);
    }
  }

  /** The search for classes in the table of all values. */
  ghost predicate SearchStays(rows: seq<Row>, classes: nat, n: nat)
    requires n < |rows| && forall v :: 0 <= v < |rows| ==> classes < |rows[v]|
  {
    Stays(Labels(Kept(rows, classes, n)))
  }

  /** It stays in the rows when every represented value has a class. */
  lemma ClassesStay(rows: seq<Row>, classes: nat, n: nat)
    requires n < |rows| && forall v :: 0 <= v < |rows| ==> |rows[v]| == classes + 1
    requires forall v :: 1 <= v <= n && rows[v][classes] > 0.5 ==> HasClass(rows[v])
    ensures SearchStays(rows, classes, n)
  {
    hide HasClass, FirstFrom, Sole;
    KeptAre(rows, classes, n);
    forall x | x in Labels(Kept(rows, classes, n))
      ensures x.first.Some?
    {
      var i :| 0 <= i < |Kept(rows, classes, n)| && x == LabelOf(Kept(rows, classes, n)[i]);
      assert Kept(rows, classes, n)[i] in Kept(rows, classes, n);
      FirstHas(Kept(rows, classes, n)[i], 0);
    }
    AllStay(Labels(Kept(rows, classes, n)));
  }

  /** It leaves one when two represented values have none. */
  lemma ClasslessRunOff(rows: seq<Row>, classes: nat, n: nat)
    requires n < |rows| && forall v :: 0 <= v < |rows| ==> |rows[v]| == classes + 1
    requires TwoClassless(rows, n)
    ensures !SearchStays(rows, classes, n)
  {
    hide HasClass, FirstFrom, Sole, LabelOf;
    var a, b :| 1 <= a < b <= n && Classless(rows[a]) && Classless(rows[b]);
    var i := KeptAt(rows, classes, n, a);
    var j := KeptAt(rows, classes, n, b);
    ClasslessIsLoose(rows[a]);
    ClasslessIsLoose(rows[b]);
    KeptGrows(rows, classes, a, b - 1);
    var k := Labels(Kept(rows, classes, n));
    assert Loose(k[i]) && Loose(k[j]) && i < j;
    TwoRunOff(k);
  }

  lemma {:induction false} KeptGrows(rows: seq<Row>, classes: nat, m: nat, n: nat)
    requires m <= n < |rows| && forall v :: 0 <= v < |rows| ==> classes < |rows[v]|
    ensures |Kept(rows, classes, m)| <= |Kept(rows, classes, n)|
    decreases n
  {
    if m < n {
      KeptGrows(rows, classes, m, n - 1);
    }
  }

  lemma TableSearch(rows: seq<Row>, classes: nat, n: nat)
    requires n < |rows| && forall v :: 0 <= v < |rows| ==> |rows[v]| == classes + 1
    ensures (forall v :: 1 <= v <= n && rows[v][classes] > 0.5 ==> HasClass(rows[v])) ==> SearchStays(rows, classes, n)
    ensures TwoClassless(rows, n) ==> !SearchStays(rows, classes, n)
  {
    hide HasClass, SearchStays, TwoClassless;
    if forall v :: 1 <= v <= n && rows[v][classes] > 0.5 ==> HasClass(rows[v]) {
      ClassesStay(rows, classes, n);
    }
    if TwoClassless(rows, n) {
      ClasslessRunOff(rows, classes, n);
    }
  }

  lemma TableLabels(rows: seq<Row>, r: seq<Row>, classes: nat, n: nat, blocks: nat)
    requires n < |rows| && forall v :: 0 <= v < |rows| ==> classes < |rows[v]|
    requires blocks < |r| && r[1..blocks + 1] == Kept(rows, classes, n)
    ensures Stays(LabelsFrom(r, 1, blocks)) <==> SearchStays(rows, classes, n)
  {
    hide Stays, Labels;
  }

  /** Where no represented value has its whole weight in the class of another one alone, nothing is
      merged, and the search stays in the rows if and only if every represented value but the last has a
      class. */
  lemma UnmergedStay(rows: seq<Row>, classes: nat, n: nat)
    requires n < |rows| && forall v :: 0 <= v < |rows| ==> |rows[v]| == classes + 1
    requires Quiet(Labels(Kept(rows, classes, n)))
    ensures SearchStays(rows, classes, n) <==>
              forall v, w :: 1 <= v < w <= n && rows[v][classes] > 0.5 && rows[w][classes] > 0.5 ==> HasClass(rows[v])
  {
    hide HasClass, LabelOf, Kept, Stays, Quiet;
    var s := Kept(rows, classes, n);
    QuietStays(Labels(s));
    if SearchStays(rows, classes, n) {
      forall v, w | 1 <= v < w <= n && rows[v][classes] > 0.5 && rows[w][classes] > 0.5
        ensures HasClass(rows[v])
      {
        var i := KeptBefore(rows, classes, n, v, w);
        LabelHas(s[i]);
      }
    } else {
      var i :| 0 <= i < |s| - 1 && Labels(s)[i].first.None?;
      var v, w := KeptFrom(rows, classes, n, i);
      LabelHas(s[i]);
    }
  }

  lemma LabelHas(r: Row)
    ensures LabelOf(r).first.Some? <==> HasClass(r)
  {
    FirstHas(r, 0);
  }

  /** A kept row that is not the last. */
  lemma KeptBefore(rows: seq<Row>, classes: nat, n: nat, v: nat, w: nat) returns (i: nat)
    requires 1 <= v < w <= n < |rows| && (forall u :: 0 <= u < |rows| ==> |rows[u]| == classes + 1)
             && rows[v][classes] > 0.5 && rows[w][classes] > 0.5
    ensures i < |Kept(rows, classes, n)| - 1 && Kept(rows, classes, n)[i] == rows[v]
  {
    i := KeptAt(rows, classes, n, v);
    var j := KeptAt(rows, classes, n, w);
    KeptGrows(rows, classes, v, w - 1);
  }

  /** The values of a kept row and of a later one. */
  lemma {:induction false} KeptFrom(rows: seq<Row>, classes: nat, n: nat, i: nat) returns (v: nat, w: nat)
    requires n < |rows| && forall u :: 0 <= u < |rows| ==> |rows[u]| == classes + 1
    requires i < |Kept(rows, classes, n)| - 1
    ensures 1 <= v < w <= n && rows[v] == Kept(rows, classes, n)[i] && rows[v][classes] > 0.5 && rows[w][classes] > 0.5
    decreases n
  {
    if i < |Kept(rows, classes, n - 1)| - 1 {
      v, w := KeptFrom(rows, classes, n - 1, i);
    } else {
      v := KeptLast(rows, classes, n - 1);
      w := n;
    }
  }

  lemma {:induction false} KeptLast(rows: seq<Row>, classes: nat, n: nat) returns (v: nat)
    requires n < |rows| && forall u :: 0 <= u < |rows| ==> |rows[u]| == classes + 1
    requires Kept(rows, classes, n) != []
    ensures 1 <= v <= n && rows[v] == Kept(rows, classes, n)[|Kept(rows, classes, n)| - 1] && rows[v][classes] > 0.5
    decreases n
  {
    if rows[n][classes] > 0.5 {
      v := n;
    } else {
      v := KeptLast(rows, classes, n - 1);
    }
  }

  /** Row v has a class in which no later row has its whole weight, or has not the whole of its own. */
  ghost predicate Apart(rows: seq<Row>, v: nat, last: nat) {
    && last < |rows|
    && exists c :: HasIn(rows, v, c) && (!Sole(rows[v], c) || forall w :: v < w <= last ==> !Sole(rows[w], c))
  }

  ghost predicate HasIn(rows: seq<Row>, v: nat, c: nat) { v < |rows| && c < |rows[v]| - 1 && rows[v][c] >= 0.1 }

  lemma ApartHasClass(rows: seq<Row>, v: nat, last: nat)
    requires Apart(rows, v, last)
    ensures v < |rows| && HasClass(rows[v])
  {}

  lemma CopyNonNegative(rows: seq<Row>, b: nat, v: nat)
    requires NonNegative(rows) && b < |rows| && v < |rows|
    ensures NonNegative(rows[b := rows[v]])
  {}

  /** Merging later rows, none of them of a class met before, keeps an earlier row apart. */
  lemma MergeKeepsApart(rows: seq<Row>, v: nat, x: nat, y: nat, last: nat)
    requires Apart(rows, v, last) && 1 <= v < x < y <= last && forall w :: 0 <= w < |rows| ==> |rows[w]| == |rows[v]|
    ensures Apart(MergedRows(rows, x, y, last), v, last - 1)
  {
    var r := MergedRows(rows, x, y, last);
    var c :| HasIn(rows, v, c) && (!Sole(rows[v], c) || forall w :: v < w <= last ==> !Sole(rows[w], c));
    assert HasIn(r, v, c) && r[v] == rows[v];
    if Sole(rows[v], c) {
      forall w | v < w <= last - 1
        ensures !Sole(r[w], c)
      {
        assert !Sole(rows[x], c) && !Sole(rows[y], c) && !Sole(rows[last], c) && !Sole(rows[w], c);
      }
    }
  }

  // ---- The groups found ---------------------------------------------------------------------

  datatype Grouping = Grouping(gain: real, info: real, sets: seq<Bits>)

  /** Every value from 1 to n is in exactly one of the sets, the unknown value 0 in none. */
  ghost predicate Groups(sets: seq<Bits>, owner: seq<nat>, n: nat) {
    && |owner| == n + 1
    && (forall v :: 1 <= v <= n ==> 1 <= owner[v] <= |sets|)
    && (forall b, v :: 1 <= b <= |sets| && 0 <= v <= n ==> InGroup(sets, owner, b, v))
  }

  ghost predicate InGroup(sets: seq<Bits>, owner: seq<nat>, b: nat, v: nat)
    requires 1 <= b <= |sets| && v < |owner|
  {
    In(v, sets[b - 1]) <==> v > 0 && owner[v] == b
  }

  ghost predicate TwoGroups(orig: seq<Row>, owner: seq<nat>, groups: nat, c: nat, n: nat, m: real)
    requires n < |orig| && n < |owner| && forall v :: 0 <= v < |orig| ==> c < |orig[v]|
  {
    exists a, b :: 1 <= a < b <= groups && Column(orig, owner, a, c, n) >= m && Column(orig, owner, b, c, n) >= m
  }

  /** The missing values become block k. */
  function Renamed(owner: seq<nat>, k: nat): (r: seq<nat>)
    ensures |r| == |owner| && forall v :: 0 <= v < |owner| ==> r[v] == if owner[v] == 0 then k else owner[v]
  {
    seq(|owner|, v requires 0 <= v < |owner| => if owner[v] == 0 then k else owner[v])
  }

  /** The sets after the missing values have been made the last group. */
  function FinalSets(sets: seq<Bits>, blocks: nat, missing: nat): seq<Bits>
    requires blocks + missing < |sets|
  {
    if missing > 0 then sets[blocks + 1 := sets[0]][1..blocks + 2] else sets[1..blocks + 1]
  }

  lemma {:induction false} ColumnRenamed(orig: seq<Row>, owner: seq<nat>, b: nat, c: nat, n: nat, k: nat)
    requires n < |orig| && n < |owner| && forall v :: 0 <= v < |orig| ==> c < |orig[v]|
    requires b > 0 && b != k
    ensures Column(orig, Renamed(owner, k), b, c, n) == Column(orig, owner, b, c, n)
  {
    if n > 0 {
      ColumnRenamed(orig, owner, b, c, n - 1, k);
    }
  }

  /** The rows hold the sums of the original rows over the values of each block. */
  ghost predicate BlockSums(rows: seq<Row>, orig: seq<Row>, owner: seq<nat>, blocks: nat, n: nat, width: nat) {
    && n < |orig| == |rows| == |owner| && blocks <= n && width > 0
    && (forall v :: 0 <= v < |rows| ==> |rows[v]| == width && |orig[v]| == width)
    && forall b, c :: 1 <= b <= blocks && 0 <= c < width ==> rows[b][c] == Column(orig, owner, b, c, n)
  }

  lemma RenamedSums(rows: seq<Row>, orig: seq<Row>, owner: seq<nat>, blocks: nat, n: nat, width: nat, k: nat)
    requires Sums(rows, orig, owner, blocks, n, width) && (k == 0 || k == blocks + 1)
    ensures BlockSums(rows, orig, Renamed(owner, k), blocks, n, width)
  {
    forall b, c | 1 <= b <= blocks && 0 <= c < width
      ensures rows[b][c] == Column(orig, Renamed(owner, k), b, c, n)
    {
      ColumnRenamed(orig, owner, b, c, n, k);
    }
  }

  /** The rows of the values 1 and up, without their totals. */
  function ClassRows(rows: seq<Row>, classes: nat): seq<Row>
    requires rows != [] && forall v :: 0 <= v < |rows| ==> classes <= |rows[v]|
  {
    seq(|rows| - 1, v requires 0 <= v < |rows| - 1 => rows[v + 1][..classes])
  }

  function BaseOf(rows: seq<Row>, classes: nat, meas: Measures): real
    requires rows != [] && forall v :: 0 <= v < |rows| ==> classes <= |rows[v]|
  {
    meas.base(ClassRows(rows, classes))
  }

  lemma NoBlocksNoGain(rows: seq<Row>, base: real, unknown: real, items: real, m: real, total: Row -> real)
    requires rows != [] && forall v :: 0 <= v < |rows| ==> |rows[v]| > 0
    ensures GainOf(rows, base, unknown, 0, items, m, total) == 0.0 - EPSILON
  {}

  lemma {:induction false} ReasonableOne(rows: seq<Row>, n: nat, m: real) returns (a: nat)
    requires n < |rows| && forall v :: 0 <= v < |rows| ==> |rows[v]| > 0
    requires Reasonable(rows, n, m) >= 1
    ensures 1 <= a <= n && rows[a][|rows[a]| - 1] >= m
  {
    if rows[n][|rows[n]| - 1] >= m {
      a := n;
    } else {
      a := ReasonableOne(rows, n - 1, m);
    }
  }

  lemma {:induction false} ReasonableTwo(rows: seq<Row>, n: nat, m: real) returns (a: nat, b: nat)
    requires n < |rows| && forall v :: 0 <= v < |rows| ==> |rows[v]| > 0
    requires Reasonable(rows, n, m) >= 2
    ensures 1 <= a < b <= n && rows[a][|rows[a]| - 1] >= m && rows[b][|rows[b]| - 1] >= m
  {
    if rows[n][|rows[n]| - 1] >= m {
      a := ReasonableOne(rows, n - 1, m);
      b := n;
    } else {
      a, b := ReasonableTwo(rows, n - 1, m);
    }
  }

  lemma ReasonableGain(rows: seq<Row>, base: real, unknown: real, n: nat, items: real, m: real, total: Row -> real)
    requires n < |rows| && forall v :: 0 <= v < |rows| ==> |rows[v]| > 0
    ensures GainOf(rows, base, unknown, n, items, m, total) > 0.0 - EPSILON ==> Reasonable(rows, n, m) >= 2
  {}

  lemma FinalGroups(sets: seq<Bits>, rows: seq<Row>, orig: seq<Row>, owner: seq<nat>, blocks: nat, missing: nat,
                    n: nat, classes: nat, m: real)
    requires |sets| == n + 1 && Partition(sets, owner, blocks, n, n) && Sums(rows, orig, owner, blocks, n, classes + 1)
    requires blocks + missing <= n && (missing == 0 ==> forall v :: 1 <= v <= n ==> owner[v] > 0)
    ensures var k := if missing > 0 then blocks + 1 else 0;
            && Groups(FinalSets(sets, blocks, missing), Renamed(owner, k), n)
            && (Reasonable(rows, blocks, m) >= 2 ==>
                TwoGroups(orig, Renamed(owner, k), |FinalSets(sets, blocks, missing)|, classes, n, m))
  {
    hide In, Bytes;
    var k := if missing > 0 then blocks + 1 else 0;
    var groups, owner' := FinalSets(sets, blocks, missing), Renamed(owner, k);
    forall b, v | 1 <= b <= |groups| && 0 <= v <= n
      ensures InGroup(groups, owner', b, v)
    {
      PartitionAt(sets, owner, blocks, n, n, if b == k then 0 else b, v);
    }
    if Reasonable(rows, blocks, m) >= 2 {
      var a, b := ReasonableTwo(rows, blocks, m);
      ColumnRenamed(orig, owner, a, classes, n, k);
      ColumnRenamed(orig, owner, b, classes, n, k);
    }
  }

  /** The totals of the first rows. */
  function TotalsOf(rows: seq<Row>, classes: nat, k: nat): (t: seq<real>)
    requires k <= |rows| && forall v :: 0 <= v < |rows| ==> classes < |rows[v]|
    ensures |t| == k && forall v :: 0 <= v < k ==> t[v] == rows[v][classes]
  {
    seq(k, v requires 0 <= v < k => rows[v][classes])
  }

  /** The information of the weights of the first rows of the table. */
  function InfoOf(rows: seq<Row>, classes: nat, blocks: nat, items: real, total: Row -> real): real
    requires blocks < |rows| && items > 0.0 && forall v :: 0 <= v < |rows| ==> classes < |rows[v]|
  {
    total(TotalsOf(rows, classes, blocks + 1)) / items
  }

  /** The information of the groups: that of their table, or of the table of all values if no two of
      them have been merged. */
  function GroupInfo(rows: seq<Row>, orig: seq<Row>, classes: nat, blocks: nat, n: nat, items: real,
                     total: Row -> real): real
    requires blocks < |rows| && n < |orig| && items > 0.0
    requires forall v :: 0 <= v < |rows| ==> classes < |rows[v]|
    requires forall v :: 0 <= v < |orig| ==> classes < |orig[v]|
  {
    if blocks == |Kept(orig, classes, n)| then InfoOf(orig, classes, n, items, total)
    else InfoOf(rows, classes, blocks, items, total)
  }

  /** One cell counts w more. */
  function Counted(rows: seq<Row>, v: nat, c: nat, w: real): seq<Row>
    requires v < |rows| && c < |rows[v]|
  {
    rows[v := rows[v][c := rows[v][c] + w]]
  }

  ghost predicate Untotalled(rows: seq<Row>, classes: nat) {
    forall v :: 0 <= v < |rows| ==> |rows[v]| == classes + 1 && rows[v][classes] == 0.0
  }

  ghost predicate WithTotals(rows: seq<Row>, r: seq<Row>, classes: nat) {
    && |r| == |rows|
    && forall v :: 0 <= v < |rows| ==> |rows[v]| == classes + 1 && r[v] == rows[v][classes := SumTo(rows[v], classes)]
  }

  // ---- The tables -----------------------------------------------------------------------------

  /** A pair of blocks with the value, gain and information of merging them; v1 is 0 for none. */
  datatype Merger = Merger(v1: nat, v2: nat, val: real, gain: real, info: real)

  predicate Bars(barred: nat, a: nat, b: nat) { a == barred || b == barred }

  const NO_MERGER := Merger(0, 0, 0.0, 0.0 - EPSILON, 0.0)

  /** Whether merger x takes the place of the best one so far. */
  predicate Beats(x: Merger, best: Merger, minGain: real, forced: bool) {
    || (x.gain >= minGain && best.gain < minGain)
    || x.val >= best.val
    || (best.v1 == 0 && forced)
  }

  /** The best of the mergers, tried in their order. */
  function Preferred(trials: seq<Merger>, minGain: real, forced: bool): Merger {
    if trials == [] then NO_MERGER else
    var best, x := Preferred(trials[..|trials| - 1], minGain, forced), trials[|trials| - 1];
    if Beats(x, best, minGain, forced) then x else best
  }

  /** The state of the tables in which mergers of two blocks are tried. */
  datatype Search = Search(rows: seq<Row>, classes: nat, blocks: nat, barred: nat, base: real, unknown: real,
                           known: real, items: real, meas: Measures)

  ghost predicate Searchable(q: Search) {
    q.blocks < |q.rows| && (forall v :: 0 <= v < |q.rows| ==> |q.rows[v]| == q.classes + 1) && q.items > 0.0
  }

  /** What merging blocks v1 and v2 would give. */
  ghost function Trial(q: Search, v1: nat, v2: nat): (x: Merger)
    requires Searchable(q) && 1 <= v1 < v2 <= q.blocks
    ensures x.v1 == v1 && x.v2 == v2
  {
    var merged := MergedRows(q.rows, v1, v2, q.blocks);
    var gain := GainOf(merged, q.base, q.unknown, q.blocks - 1, q.known, 1.0, q.meas.total);
    var info := q.meas.total(TotalsOf(merged, q.classes, q.blocks)) / q.items;
    Merger(v1, v2, Worth(info, gain, EPSILON, q.meas.gainRatio), gain, info)
  }

  lemma TrialIs(q: Search, v1: nat, v2: nat)
    requires Searchable(q) && 1 <= v1 < v2 <= q.blocks
    ensures var r := MergedRows(q.rows, v1, v2, q.blocks);
            && q.blocks - 1 < |r| && (forall v :: 0 <= v < |r| ==> |r[v]| == q.classes + 1)
            && Trial(q, v1, v2).gain == GainOf(r, q.base, q.unknown, q.blocks - 1, q.known, 1.0, q.meas.total)
            && Trial(q, v1, v2).info == InfoOf(r, q.classes, q.blocks - 1, q.items, q.meas.total)
            && Trial(q, v1, v2).val
               == Worth(Trial(q, v1, v2).info, Trial(q, v1, v2).gain, EPSILON, q.meas.gainRatio)
  {}

  /** The mergers of block v1 with the blocks before v2, without the barred one. */
  ghost function TrialsOf(q: Search, v1: nat, v2: nat): seq<Merger>
    requires Searchable(q) && 1 <= v1 < v2 <= q.blocks + 1
    decreases v2
  {
    if v2 == v1 + 1 then [] else
    TrialsOf(q, v1, v2 - 1) + if Bars(q.barred, v1, v2 - 1) then [] else [Trial(q, v1, v2 - 1)]
  }

  /** The mergers of the blocks before v1 with later ones. */
  ghost function Trials(q: Search, v1: nat): seq<Merger>
    requires Searchable(q) && 1 <= v1 <= q.blocks
  {
    if v1 == 1 then [] else Trials(q, v1 - 1) + TrialsOf(q, v1 - 1, q.blocks + 1)
  }

  ghost predicate IsTrial(q: Search, x: Merger)
    requires Searchable(q)
  {
    1 <= x.v1 < x.v2 <= q.blocks && !Bars(q.barred, x.v1, x.v2) && x == Trial(q, x.v1, x.v2)
  }

  lemma {:induction false} TrialsOfAre(q: Search, v1: nat, v2: nat)
    requires Searchable(q) && 1 <= v1 < v2 <= q.blocks + 1
    ensures forall x :: x in TrialsOf(q, v1, v2) ==> IsTrial(q, x)
    ensures forall w :: v1 < w < v2 && !Bars(q.barred, v1, w) ==> Trial(q, v1, w) in TrialsOf(q, v1, v2)
    decreases v2
  {
    hide Trial;
    if v2 > v1 + 1 {
      TrialsOfAre(q, v1, v2 - 1);
    }
  }

  lemma {:induction false} AllAreTrials(q: Search, v1: nat)
    requires Searchable(q) && 1 <= v1 <= q.blocks
    ensures forall x :: x in Trials(q, v1) ==> IsTrial(q, x)
  {
    hide Trial, IsTrial, Searchable, TrialsOf;
    if v1 > 1 {
      AllAreTrials(q, v1 - 1);
      TrialsOfAre(q, v1 - 1, q.blocks + 1);
    }
  }

  lemma {:induction false} PairIsTried(q: Search, v1: nat, u: nat, w: nat)
    requires Searchable(q) && 1 <= u < v1 <= q.blocks && u < w <= q.blocks && !Bars(q.barred, u, w)
    ensures Trial(q, u, w) in Trials(q, v1)
    decreases v1
  {
    hide Trial, IsTrial, Searchable, TrialsOf;
    if u == v1 - 1 {
      TrialsOfAre(q, v1 - 1, q.blocks + 1);
    } else {
      PairIsTried(q, v1 - 1, u, w);
    }
  }

  /** The mergers tried are those of any two blocks of which none is barred. */
  lemma TrialsAre(q: Search, v1: nat)
    requires Searchable(q) && 1 <= v1 <= q.blocks
    ensures forall x :: x in Trials(q, v1) ==> IsTrial(q, x)
    ensures forall u, w :: 1 <= u < v1 && u < w <= q.blocks && !Bars(q.barred, u, w) ==> Trial(q, u, w) in Trials(q, v1)
  {
    hide Trial, Trials, IsTrial, Searchable;
    AllAreTrials(q, v1);
    forall u, w | 1 <= u < v1 && u < w <= q.blocks && !Bars(q.barred, u, w)
      ensures Trial(q, u, w) in Trials(q, v1)
    {
      PairIsTried(q, v1, u, w);
    }
  }

  lemma PreferredTrial(q: Search, minGain: real, forced: bool)
    requires Searchable(q) && q.blocks > 2
    ensures var best := Preferred(Trials(q, q.blocks), minGain, forced);
            && (best.v1 > 0 ==> IsTrial(q, best)) && (best.v1 == 0 ==> !forced)
  {
    hide Trial, Beats;
    TrialsAre(q, q.blocks);
    assert forall i :: 0 <= i < |Trials(q, q.blocks)| ==> IsTrial(q, Trials(q, q.blocks)[i]);
    var k := PreferredIs(Trials(q, q.blocks), minGain, forced);
    assert Bars(q.barred, 1, 2) ==> Bars(q.barred, 1, 3) ==> !Bars(q.barred, 2, 3);
  }

  lemma PreferredNone(minGain: real, forced: bool)
    ensures Preferred([], minGain, forced) == NO_MERGER
  {}

  /** The preferred merger is one of those tried and no later one beats it; there is one when a
      merger is forced. */
  lemma {:induction false} PreferredIs(trials: seq<Merger>, minGain: real, forced: bool) returns (k: int)
    requires forall i :: 0 <= i < |trials| ==> trials[i].v1 > 0
    ensures -1 <= k < |trials|
    ensures k == -1 <==> Preferred(trials, minGain, forced).v1 == 0
    ensures Preferred(trials, minGain, forced) == if k == -1 then NO_MERGER else trials[k]
    ensures forall i :: k < i < |trials| ==> !Beats(trials[i], Preferred(trials, minGain, forced), minGain, forced)
    ensures forced && trials != [] ==> k >= 0
  {
    k := -1;
    if trials != [] {
      var before, x := trials[..|trials| - 1], trials[|trials| - 1];
      k := PreferredIs(before, minGain, forced);
      if Beats(x, Preferred(before, minGain, forced), minGain, forced) {
        k := |trials| - 1;
      }
    }
  }

  /** Where no merger reaches the gain asked for, the preferred one has the greatest value. */
  lemma {:induction false} PreferredIsGreatest(trials: seq<Merger>, minGain: real, forced: bool)
    requires forall i :: 0 <= i < |trials| ==> trials[i].v1 > 0 && trials[i].gain < minGain
    ensures forall i :: 0 <= i < |trials| ==> trials[i].val <= Preferred(trials, minGain, forced).val
  {
    if trials != [] {
      var before := trials[..|trials| - 1];
      PreferredIsGreatest(before, minGain, forced);
      forall i | 0 <= i < |before|
        ensures trials[i].val <= Preferred(before, minGain, forced).val
      {
        assert trials[i] == before[i];
      }
      if forced && Preferred(before, minGain, forced).v1 == 0 {
        var k := PreferredIs(before, minGain, forced);
      }
    }
  }

  /** A merger is preferred that reaches the gain asked for, or one worth at least as much as some
      merger that reaches it. */
  lemma {:induction false} PreferredReaches(trials: seq<Merger>, minGain: real, forced: bool, i: nat)
    requires forall i :: 0 <= i < |trials| ==> trials[i].v1 > 0
    requires i < |trials| && trials[i].gain >= minGain
    ensures Preferred(trials, minGain, forced).gain >= minGain
         || exists j :: 0 <= j < |trials| && trials[j].gain >= minGain
              && trials[j].val <= Preferred(trials, minGain, forced).val
  {
    var before, n := trials[..|trials| - 1], |trials| - 1;
    var best := Preferred(before, minGain, forced);
    if i < n {
      PreferredReaches(before, minGain, forced, i);
      if best.gain < minGain {
        var j :| 0 <= j < |before| && before[j].gain >= minGain && before[j].val <= best.val;
        assert trials[j] == before[j];
        if forced && best.v1 == 0 {
          var k := PreferredIs(before, minGain, forced);
        }
      } else if !Beats(trials[n], best, minGain, forced) {
      } else if trials[n].gain < minGain {
        var k := PreferredIs(before, minGain, forced);
        if k >= 0 {
          assert trials[k] == before[k];
        }
      }
    }
  }

  /** Block barred takes no part in mergers: the first of the largest, or none when three blocks carry m. */
  ghost predicate IsBarred(rows: seq<Row>, classes: nat, blocks: nat, m: real, barred: nat)
    requires blocks < |rows| && forall v :: 0 <= v < |rows| ==> |rows[v]| == classes + 1
  {
    && barred <= blocks && (barred == 0 <==> Reasonable(rows, blocks, m) >= 3)
    && (barred > 0 ==> forall v :: 1 <= v <= blocks ==> rows[v][classes] <= rows[barred][classes])
    && (forall v :: 1 <= v < barred ==> rows[v][classes] < rows[barred][classes])
  }

  /** No merger is forced, and the preferred one, if any, is not worth more than what has been reached. */
  ghost predicate Settled(q: Search, minGain: real, m: real, val: real)
    requires Searchable(q) && q.blocks >= 1
  {
    && q.meas.gainRatio && Reasonable(q.rows, q.blocks, m) >= 2 && IsBarred(q.rows, q.classes, q.blocks, m, q.barred)
    && (Preferred(Trials(q, q.blocks), minGain, false).v1 == 0
        || Preferred(Trials(q, q.blocks), minGain, false).val < val + 0.00001)
  }

  /** Then, if none of the mergers reaches the gain asked for, none of any two blocks but the barred one
      is worth more. */
  lemma SettledMeans(q: Search, minGain: real, m: real, val: real)
    requires Searchable(q) && q.blocks >= 1 && Settled(q, minGain, m, val) && val >= 0.0
    requires forall x :: IsTrial(q, x) ==> x.gain < minGain
    ensures forall u, w :: 1 <= u < w <= q.blocks && !Bars(q.barred, u, w) ==> Trial(q, u, w).val < val + 0.00001
  {
    hide Trial, Beats, Reasonable;
    TrialsAre(q, q.blocks);
    var trials := Trials(q, q.blocks);
    forall i | 0 <= i < |trials|
      ensures IsTrial(q, trials[i])
    {
      assert trials[i] in trials;
    }
    var k := PreferredIs(trials, minGain, false);
    forall u, w | 1 <= u < w <= q.blocks && !Bars(q.barred, u, w)
      ensures Trial(q, u, w).val < val + 0.00001
    {
      assert Trial(q, u, w) in trials;
      var i :| 0 <= i < |trials| && trials[i] == Trial(q, u, w);
      PreferredIsGreatest(trials, minGain, false);
    }
  }

  class Tables {
    const n: nat
    const classes: nat
    const freq: array2<real>
    const valFreq: array<real>
    const slice1: array<real>
    const slice2: array<real>
    const sets: array<Bits>
    // row v is Freq[v] followed by ValFreq[v]
    ghost var rows: seq<Row>

    ghost predicate Valid()
      reads this, freq, valFreq, slice1, slice2, sets
    {
      && freq.Length0 == valFreq.Length == |rows| == sets.Length == n + 1 && freq.Length1 == classes > 0
      && slice1.Length == slice2.Length == classes + 1
      && slice1 != slice2 && slice1 != valFreq && slice2 != valFreq
      && (forall v :: 0 <= v <= n ==> |rows[v]| == classes + 1 && rows[v][classes] == valFreq[v])
      && (forall v, c :: 0 <= v <= n && 0 <= c < classes ==> rows[v][c] == freq[v, c])
    }

    constructor (n: nat, classes: nat)
      requires classes > 0
      ensures Valid() && this.n == n && this.classes == classes && |rows| == n + 1
      ensures forall v :: 0 <= v <= n ==> |rows[v]| == classes + 1
      ensures fresh(freq) && fresh(valFreq) && fresh(slice1) && fresh(slice2) && fresh(sets)
      ensures forall v, c :: 0 <= v <= n && 0 <= c <= classes ==> rows[v][c] == 0.0
    {
      this.n := n;
      this.classes := classes;
      freq := new real[n + 1, classes]((v, c) => 0.0);
      valFreq := new real[n + 1](v => 0.0);
      slice1 := new real[classes + 1](c => 0.0);
      slice2 := new real[classes + 1](c => 0.0);
      sets := new Bits[n + 1](v => []);
      rows := seq(n + 1, v => seq(classes + 1, c => 0.0));
    }

    method Count(v: nat, c: nat, w: real)
      requires Valid() && v <= n && c < classes
      modifies freq, `rows
      ensures Valid() && |rows| == |old(rows)| && rows == Counted(old(rows), v, c, w)
    {
      freq[v, c] := freq[v, c] + w;
      rows := rows[v := rows[v][c := rows[v][c] + w]];
    }

    /** The total of row v becomes the sum of its cells. */
    method Total(v: nat)
      requires Valid() && v <= n && rows[v][classes] == 0.0
      modifies valFreq, `rows
      ensures Valid() && rows == old(rows)[v := old(rows)[v][classes := SumTo(old(rows)[v], classes)]]
    {
      var c := 0;
      while c < classes
        invariant 0 <= c <= classes && rows == old(rows) && valFreq[v] == SumTo(rows[v], c)
        invariant forall u :: 0 <= u <= n && u != v ==> valFreq[u] == rows[u][classes]
      {
        valFreq[v] := valFreq[v] + freq[v, c];
        c := c + 1;
      }
      rows := rows[v := rows[v][classes := valFreq[v]]];
    }

    method ClassRow(v: nat) returns (row: Row)
      requires Valid() && v <= n
      ensures row == rows[v][..classes]
    {
      row := seq(classes, c requires 0 <= c < classes reads freq => freq[v, c]);
    }

    method SetTotal(v: nat, w: real)
      requires Valid() && v <= n
      modifies valFreq, `rows
      ensures Valid() && rows == old(rows)[v := old(rows)[v][classes := w]]
    {
      valFreq[v] := w;
      rows := rows[v := rows[v][classes := w]];
    }

    /** The totals of all rows are formed. */
    method Totals()
      requires Valid() && Untotalled(rows, classes)
      modifies valFreq, `rows
      ensures Valid() && WithTotals(old(rows), rows, classes)
    {
      var v := 0;
      while v <= n
        invariant 0 <= v <= n + 1 && Valid()
        invariant forall u :: 0 <= u < v ==> rows[u] == old(rows)[u][classes := SumTo(old(rows)[u], classes)]
        invariant forall u :: v <= u <= n ==> rows[u] == old(rows)[u]
      {
        Total(v);
        v := v + 1;
      }
    }

    /** Row y is added to row x and overwritten by row last; the old rows go to the slices. */
    method Combine(x: nat, y: nat, last: nat)
      requires Valid() && 1 <= x < y <= last <= n
      modifies freq, valFreq, slice1, slice2, `rows
      ensures Valid() && rows == MergedRows(old(rows), x, y, last)
      ensures slice1[..] == old(rows)[x] && slice2[..] == old(rows)[y]
    {
      var c := 0;
      while c < classes
        invariant 0 <= c <= classes
        invariant rows == old(rows)
        invariant forall d :: 0 <= d < c ==> slice1[d] == rows[x][d] && slice2[d] == rows[y][d]
        invariant forall d :: 0 <= d < c ==> freq[x, d] == rows[x][d] + rows[y][d] && freq[y, d] == rows[last][d]
        invariant forall v, d :: 0 <= v <= n && 0 <= d < classes && ((v != x && v != y) || c <= d) ==>
                    freq[v, d] == rows[v][d]
        invariant forall v :: 0 <= v <= n ==> valFreq[v] == rows[v][classes]
      {
        slice1[c] := freq[x, c];
        slice2[c] := freq[y, c];
        freq[x, c] := freq[x, c] + freq[y, c];
        freq[y, c] := freq[last, c];
        c := c + 1;
      }
      slice1[classes] := valFreq[x];
      slice2[classes] := valFreq[y];
      valFreq[x] := valFreq[x] + valFreq[y];
      valFreq[y] := valFreq[last];
      assert slice1[..] == rows[x] && slice2[..] == rows[y];
      rows := MergedRows(rows, x, y, last);
    }

    /** Puts the rows saved in the slices back. */
    method Uncombine(x: nat, y: nat)
      requires Valid() && 1 <= x < y <= n
      modifies freq, valFreq, `rows
      ensures Valid() && rows == old(rows)[x := slice1[..]][y := slice2[..]]
    {
      var c := 0;
      while c < classes
        invariant 0 <= c <= classes
        invariant rows == old(rows)
        invariant forall d :: 0 <= d < c ==> freq[x, d] == slice1[d] && freq[y, d] == slice2[d]
        invariant forall v, d :: 0 <= v <= n && 0 <= d < classes && ((v != x && v != y) || c <= d) ==>
                    freq[v, d] == rows[v][d]
        invariant forall v :: 0 <= v <= n ==> valFreq[v] == rows[v][classes]
      {
        freq[x, c] := slice1[c];
        freq[y, c] := slice2[c];
        c := c + 1;
      }
      valFreq[x] := slice1[classes];
      valFreq[y] := slice2[classes];
      rows := rows[x := slice1[..]][y := slice2[..]];
    }

    /** The values are shared out among blocks 0 to blocks, block 0 holding the missing ones, and the
        tables hold the sums of the original rows over each block. */
    ghost predicate Blocked(orig: seq<Row>, owner: seq<nat>, blocks: nat, missing: nat)
      reads this, freq, valFreq, slice1, slice2, sets
    {
      && Valid() && NonNegative(rows)
      && Partition(sets[..], owner, blocks, n, n) && Sums(rows, orig, owner, blocks, n, classes + 1)
      && blocks + missing <= n && (missing == 0 ==> forall v :: 1 <= v <= n ==> owner[v] > 0)
    }

    /** Counts the rows with at least m and sums up their information. */
    method ComputeGain(base: real, unknown: real, last: nat, items: real, m: real, meas: Measures) returns (g: real)
      requires Valid() && last <= n
      ensures g == GainOf(rows, base, unknown, last, items, m, meas.total)
    {
      if items == 0.0 {
        return 0.0 - EPSILON;
      }
      var reasonable := 0;
      var v := 1;
      while v <= last
        invariant 1 <= v <= last + 1 && reasonable == Reasonable(rows, v - 1, m)
      {
        if valFreq[v] >= m {
          reasonable := reasonable + 1;
        }
        v := v + 1;
      }
      if reasonable < 2 {
        return 0.0 - EPSILON;
      }
      var info := 0.0;
      v := 1;
      while v <= last
        invariant 1 <= v <= last + 1 && info == InfoSum(rows, v - 1, meas.total)
      {
        var row := ClassRow(v);
        info := info + meas.total(row);
        v := v + 1;
      }
      g := (1.0 - unknown) * (base - info / items);
    }

    /** One block for each value with a weight over 0.5; the others are missing. */
    method FormBlocks() returns (blocks: nat, missing: nat, ghost owner: seq<nat>)
      requires Valid() && NonNegative(rows)
      modifies freq, valFreq, sets, `rows
      ensures Blocked(old(rows), owner, blocks, missing) && rows[1..blocks + 1] == Kept(old(rows), classes, n)
      ensures forall v :: 1 <= v <= n ==> (owner[v] == 0 <==> old(rows)[v][classes] <= 0.5)
    {
      hide Bytes, Cleared, WithBit, Partition, Sums, NonNegative;
      sets[0] := Cleared(Bytes(n));
      blocks, missing := 0, 0;
      owner := seq(n + 1, _ => 0);
      StartPartition(sets[..], owner, n);
      StartSums0(rows, owner, n, classes + 1);
      var v := 1;
      while v <= n
        invariant Valid() && NonNegative(rows) && 1 <= v <= n + 1 && blocks + missing == v - 1 && |owner| == n + 1
        invariant Partition(sets[..], owner, blocks, n, v - 1)
                  && Sums(rows, old(rows), owner, blocks, v - 1, classes + 1)
        invariant missing == 0 ==> forall u :: 1 <= u < v ==> owner[u] > 0
        invariant forall u :: v <= u <= n ==> rows[u] == old(rows)[u]
        invariant forall u :: 1 <= u < v ==> (owner[u] == 0 <==> old(rows)[u][classes] <= 0.5)
        invariant rows[1..blocks + 1] == Kept(old(rows), classes, v - 1)
      {
        ghost var sets0, rows0, owner0 := sets[..], rows, owner;
        if valFreq[v] > 0.5 {
          blocks := blocks + 1;
          StartStep(sets0, rows0, old(rows), owner0, blocks, n, v, classes + 1);
          StartBlock(blocks, v);
          CopyNonNegative(rows0, blocks, v);
          assert rows[1..blocks + 1] == rows0[1..blocks] + [rows0[v]];
          owner := owner[v := blocks];
        } else {
          JoinMissing(sets0, owner0, blocks, n, v);
          MissingSums(rows0, old(rows), owner0, blocks, v, classes + 1);
          sets[0] := WithBit(v, sets[0]);
          missing := missing + 1;
          owner := owner[v := 0];
          assert sets[..] == sets0[0 := WithBit(v, sets0[0])];
        }
        v := v + 1;
      }
    }

    /** Block x starts with the single value v. */
    method StartBlock(x: nat, v: nat)
      requires Valid() && 1 <= x <= v <= n
      modifies freq, valFreq, sets, `rows
      ensures Valid() && rows == old(rows)[x := old(rows)[v]]
              && sets[..] == old(sets[..])[x := WithBit(v, Cleared(Bytes(n)))]
    {
      hide WithBit;
      if x < v {
        CopyRow(x, v);
      } else {
        assert rows == rows[x := rows[v]];
      }
      sets[x] := WithBit(v, Cleared(Bytes(n)));
    }

    method CopyRow(x: nat, y: nat)
      requires Valid() && x <= n && y <= n
      modifies freq, valFreq, `rows
      ensures Valid() && rows == old(rows)[x := old(rows)[y]]
    {
      valFreq[x] := valFreq[y];
      var c := 0;
      while c < classes
        invariant 0 <= c <= classes && rows == old(rows)
        invariant forall d :: 0 <= d < c ==> freq[x, d] == rows[y][d]
        invariant forall v, d :: 0 <= v <= n && 0 <= d < classes && (v != x || c <= d) ==> freq[v, d] == rows[v][d]
        invariant forall v :: 0 <= v <= n ==> valFreq[v] == if v == x then rows[y][classes] else rows[v][classes]
      {
        freq[x, c] := freq[y, c];
        c := c + 1;
      }
      rows := rows[x := rows[y]];
    }

    /** Blocks x and y become block x, and block last becomes block y. */
    method MergeBlocks(x: nat, y: nat, last: nat, ghost orig: seq<Row>, ghost owner: seq<nat>, ghost missing: nat)
      returns (ghost owner': seq<nat>)
      requires Blocked(orig, owner, last, missing) && 1 <= x < y <= last
      modifies freq, valFreq, slice1, slice2, sets, `rows
      ensures owner' == Merge(owner, x, y, last) && Blocked(orig, owner', last - 1, missing)
      ensures rows == MergedRows(old(rows), x, y, last)
    {
      hide In, Bytes, Union, Held, NonNegative;
      ghost var rows0, sets0 := rows, sets[..];
      Combine(x, y, last);
      sets[x] := Union(sets[x], sets[y]);
      sets[y] := sets[last];
      owner' := Merge(owner, x, y, last);
      assert sets[..] == sets0[x := Union(sets0[x], sets0[y])][y := sets0[last]];
      MergePartition(sets0, owner, last, n, x, y);
      MergeSums(rows0, orig, owner, last, n, classes + 1, x, y);
      MergeNonNegative(rows0, last, x, y);
    }

    /** The first class of a row with at least 0.1; None when the search runs off the end of the row. */
    method FirstClass(v: nat) returns (c: Option<nat>)
      requires Valid() && v <= n
      ensures c.Some? ==> c.value < classes && rows[v][c.value] >= 0.1
      ensures c == FirstFrom(rows[v], 0) && (c.None? <==> !HasClass(rows[v]))
    {
      FirstHas(rows[v], 0);
      var d := 0;
      while d < classes && freq[v, d] < 0.1
        invariant 0 <= d <= classes && forall e :: 0 <= e < d ==> rows[v][e] < 0.1
      {
        d := d + 1;
      }
      if d == classes {
        return None;
      }
      FirstIs(rows[v], 0, d);
      return Some(d);
    }

    /** Merges any single-class blocks with others of the same class. left is the number of blocks when
        the search for classes ends, which it does early when it runs off a row. */
    method MergeSingleClass(blocks: nat, ghost orig: seq<Row>, ghost owner: seq<nat>, ghost missing: nat)
      returns (r: Option<nat>, merged: bool, ghost owner': seq<nat>, ghost left: nat)
      requires Blocked(orig, owner, blocks, missing)
      modifies freq, valFreq, slice1, slice2, sets, `rows
      ensures Valid() && left <= blocks && (r.Some? ==> r.value == left && Blocked(orig, owner', r.value, missing))
      ensures r.Some? <==> Stays(LabelsFrom(old(rows), 1, blocks))
      ensures r.Some? ==> left == Left(LabelsFrom(old(rows), 1, blocks))
      ensures r.Some? <==> forall b :: 1 <= b < left ==> HasClass(rows[b])
      ensures r.Some? ==> forall b :: 1 <= b < left ==> Apart(rows, b, left)
      ensures if merged then left < blocks else rows == old(rows) && left == blocks
    {
      hide Partition, Sums, NonNegative, HasClass, Apart, FirstFrom, Absorb, Stays, Left, LabelsFrom, Absorbed, Sole;
      left := blocks;
      var last: nat := blocks;
      merged := false;
      owner' := owner;
      var v1 := 1;
      while v1 <= last - 1
        invariant 1 <= v1 <= last + 1 && left == last <= blocks && Blocked(orig, owner', last, missing)
        invariant Stays(LabelsFrom(rows, v1, last)) <==> Stays(LabelsFrom(old(rows), 1, blocks))
        invariant Left(LabelsFrom(rows, v1, last)) + v1 - 1 == Left(LabelsFrom(old(rows), 1, blocks))
        invariant forall b :: 1 <= b < v1 && b <= last ==> Apart(rows, b, last)
        invariant if merged then left < blocks else rows == old(rows) && left == blocks
        decreases blocks - v1
      {
        ghost var rows0, last0 := rows, last;
        var found := FirstClass(v1);
        if found.None? {
          LooksRunOff(rows, v1, last);
          return None, merged, owner', left;
        }
        var c := found.value;
        assert HasIn(rows, v1, c);
        SoleIs(v1, c);
        if freq[v1, c] >= valFreq[v1] - 0.1 {
          var did;
          last, did, owner' := MergeInto(v1, c, last, orig, owner', missing);
          merged := merged || did;
          left := last;
        } else {
          AloneApart(rows, v1, c, last);
        }
        LooksOn(rows0, v1, last0, c, rows, last);
        v1 := v1 + 1;
      }
      LooksNoMore(rows, v1, last);
      forall b | 1 <= b < last
        ensures HasClass(rows[b])
      {
        ApartHasClass(rows, b, last);
      }
      return Some(last), merged, owner', left;
    }

    /** Merges into block v1, which is of class c alone, the later blocks of that class. */
    method MergeInto(v1: nat, c: nat, blocks: nat, ghost orig: seq<Row>, ghost owner: seq<nat>, ghost missing: nat)
      returns (last: nat, merged: bool, ghost owner': seq<nat>)
      requires Blocked(orig, owner, blocks, missing) && 1 <= v1 < blocks && HasIn(rows, v1, c)
      modifies freq, valFreq, slice1, slice2, sets, `rows
      ensures v1 <= last <= blocks && Blocked(orig, owner', last, missing)
      ensures LabelsFrom(rows, v1 + 1, last) == Absorb(LabelsFrom(old(rows), v1 + 1, blocks), 0, c)
      ensures forall b :: 1 <= b < v1 && Apart(old(rows), b, blocks) ==> Apart(rows, b, last)
      ensures Apart(rows, v1, last)
      ensures if merged then last < blocks else rows == old(rows) && last == blocks
    {
      hide Partition, Sums, NonNegative, HasClass, Apart, FirstFrom, LabelsFrom, Absorb, Sole, Absorbed;
      last, merged, owner' := blocks, false, owner;
      var v2 := v1 + 1;
      while v2 <= last
        invariant v1 < v2 <= last + 1 && last <= blocks && Blocked(orig, owner', last, missing) && HasIn(rows, v1, c)
        invariant Absorbed(rows, v1, v2, last, c) == Absorbed(old(rows), v1, v1 + 1, blocks, c)
        invariant forall b :: 1 <= b < v1 && Apart(old(rows), b, blocks) ==> Apart(rows, b, last)
        invariant forall w :: v1 < w < v2 && w <= last ==> !Sole(rows[w], c)
        invariant if merged then last < blocks else rows == old(rows) && last == blocks
        decreases last - v2
      {
        ghost var rows0 := rows;
        SoleIs(v2, c);
        if freq[v2, c] < valFreq[v2] - 0.1 {
          AbsorbSkips(rows, v1, v2, last, c);
          v2 := v2 + 1;
        } else {
          owner' := MergeBlocks(v1, v2, last, orig, owner', missing);
          MergedIn(rows0, v1, v2, last, c);
          AbsorbTakes(rows0, v1, v2, last, c);
          forall b | 1 <= b < v1 && Apart(old(rows), b, blocks)
            ensures Apart(rows, b, last - 1)
          {
            MergeKeepsApart(rows0, b, v1, v2, last);
          }
          last := last - 1;
          merged := true;
        }
      }
      AbsorbEnds(rows, v1, last, c);
      AbsorbStarts(old(rows), v1, blocks, c);
      SoleApart(rows, v1, c, last);
    }

    lemma SoleIs(v: nat, c: nat)
      requires Valid() && v <= n && c < classes
      ensures Sole(rows[v], c) <==> freq[v, c] >= valFreq[v] - 0.1
    {}

    /** The largest block, to be kept out of mergers when fewer than three blocks are reasonable;
        0 otherwise. */
    method FindBarred(blocks: nat, m: real) returns (barred: nat, reasonable: nat)
      requires Valid() && 1 <= blocks <= n
      ensures reasonable == Reasonable(rows, blocks, m) && IsBarred(rows, classes, blocks, m, barred)
    {
      reasonable := 0;
      barred := 1;
      var v := 1;
      while v <= blocks
        invariant 1 <= v <= blocks + 1 && 1 <= barred <= blocks && reasonable == Reasonable(rows, v - 1, m)
        invariant forall u :: 1 <= u < v ==> rows[u][classes] <= rows[barred][classes]
        invariant forall u :: 1 <= u < barred ==> rows[u][classes] < rows[barred][classes]
      {
        if valFreq[v] >= m {
          reasonable := reasonable + 1;
        }
        if valFreq[v] > valFreq[barred] {
          barred := v;
        }
        v := v + 1;
      }
      if reasonable >= 3 {
        barred := 0;
      }
    }

    /** Tries every pair of blocks, undoing each trial, and returns the preferred one. */
    method FindBest(blocks: nat, barred: nat, reasonable: nat, base: real, unknown: real, known: real, items: real,
                    minGain: real, meas: Measures) returns (best: Merger)
      requires Valid() && 2 < blocks <= n && barred <= blocks && items > 0.0
      modifies freq, valFreq, slice1, slice2, `rows
      ensures Valid() && rows == old(rows)
      ensures best == Preferred(
                Trials(Search(rows, classes, blocks, barred, base, unknown, known, items, meas), blocks), minGain,
                !meas.gainRatio || reasonable < 2)
      ensures best.v1 == 0 || 1 <= best.v1 < best.v2 <= blocks
      ensures best.v1 == 0 ==> meas.gainRatio && reasonable >= 2
      ensures best.v1 > 0 ==>
                best == Trial(Search(rows, classes, blocks, barred, base, unknown, known, items, meas), best.v1,
                  best.v2)
    {
      hide Trial, Beats, Preferred;
      ghost var q := Search(rows, classes, blocks, barred, base, unknown, known, items, meas);
      ghost var forced := !meas.gainRatio || reasonable < 2;
      ghost var trials: seq<Merger> := [];
      best := NO_MERGER;
      PreferredNone(minGain, forced);
      var v1 := 1;
      while v1 <= blocks - 1
        invariant Valid() && rows == old(rows) && 1 <= v1 <= blocks
        invariant trials == Trials(q, v1) && best == Preferred(trials, minGain, forced)
      {
        ghost var before := trials;
        var v2 := v1 + 1;
        while v2 <= blocks
          invariant Valid() && rows == old(rows) && v1 < v2 <= blocks + 1
          invariant trials == before + TrialsOf(q, v1, v2) && best == Preferred(trials, minGain, forced)
        {
          best, trials := TryPair(v1, v2, blocks, barred, reasonable, base, unknown, known, items, minGain, meas, best,
            q, trials);
          assert trials == before + TrialsOf(q, v1, v2 + 1);
          v2 := v2 + 1;
        }
        v1 := v1 + 1;
      }
      PreferredTrial(q, minGain, forced);
    }

    /** Tries to merge two blocks, unless one of them is barred, and keeps the better merger. */
    method TryPair(v1: nat, v2: nat, blocks: nat, barred: nat, reasonable: nat, base: real, unknown: real, known: real,
                   items: real, minGain: real, meas: Measures, best: Merger, ghost q: Search, ghost tried: seq<Merger>)
      returns (best': Merger, ghost trials: seq<Merger>)
      requires Valid() && 1 <= v1 < v2 <= blocks <= n && items > 0.0
      requires q == Search(rows, classes, blocks, barred, base, unknown, known, items, meas)
      requires best == Preferred(tried, minGain, !meas.gainRatio || reasonable < 2)
      modifies freq, valFreq, slice1, slice2, `rows
      ensures Valid() && rows == old(rows) && trials == tried + if Bars(barred, v1, v2) then [] else [Trial(q, v1, v2)]
      ensures best' == Preferred(trials, minGain, !meas.gainRatio || reasonable < 2)
    {
      hide Trial;
      best', trials := best, tried;
      if v1 != barred && v2 != barred {
        var x := Try(v1, v2, blocks, base, unknown, known, items, meas, q);
        trials := tried + [x];
        assert trials[..|tried|] == tried;
        if (x.gain >= minGain && best.gain < minGain) || x.val >= best.val
           || (best.v1 == 0 && (!meas.gainRatio || reasonable < 2)) {
          best' := x;
        }
      }
    }

    /** Merges two blocks, evaluates the tables and takes the merger back. */
    method Try(v1: nat, v2: nat, blocks: nat, base: real, unknown: real, known: real, items: real, meas: Measures,
               ghost q: Search)
      returns (x: Merger)
      requires Valid() && 1 <= v1 < v2 <= blocks <= n && items > 0.0
      requires q == Search(rows, classes, blocks, q.barred, base, unknown, known, items, meas)
      modifies freq, valFreq, slice1, slice2, `rows
      ensures Valid() && rows == old(rows) && x == Trial(q, v1, v2)
    {
      hide GainOf, Worth, Reasonable;
      Combine(v1, v2, blocks);
      var gain := ComputeGain(base, unknown, blocks - 1, known, 1.0, meas);
      assert valFreq[..blocks] == TotalsOf(rows, classes, blocks);
      var info := meas.total(valFreq[..blocks]) / items;
      x := Merger(v1, v2, Worth(info, gain, EPSILON, meas.gainRatio), gain, info);
      Uncombine(v1, v2);
      assert rows == old(rows);
    }

    lemma TotalsIn(blocks: nat)
      requires Valid() && blocks <= n
      ensures valFreq[..blocks + 1] == TotalsOf(rows, classes, blocks + 1)
      ensures forall items, meas: Measures :: items > 0.0 ==>
                InfoOf(rows, classes, blocks, items, meas.total) == meas.total(valFreq[..blocks + 1]) / items
    {}

    /** Groups the values of the attribute and evaluates a test on the groups. None when the search
        for the class of a single-class block runs off its row. */
    method EvalSubset(items: real, unknown: real, minObjs: nat, meas: Measures)
      returns (r: Option<Grouping>, minObjs': nat, ghost owner: seq<nat>, ghost blocks: nat)
      requires Valid() && NonNegative(rows) && items > 0.0
      modifies freq, valFreq, slice1, slice2, sets, `rows
      ensures Valid()
      ensures r.Some? ==> minObjs' == if items - old(rows)[0][classes] < EPSILON then 1 else minObjs
      ensures items - old(rows)[0][classes] < EPSILON ==> r == Some(Grouping(0.0 - EPSILON, 0.0, []))
      ensures r.Some? && r.value.sets == [] ==> r.value.gain == 0.0 - EPSILON
      ensures r.Some? && r.value.sets != [] ==>
                && Groups(r.value.sets, owner, n) && BlockSums(rows, old(rows), owner, blocks, n, classes + 1)
                && r.value.gain == GainOf(rows, BaseOf(old(rows), classes, meas), unknown, blocks,
                  items - old(rows)[0][classes], minObjs as real, meas.total)
                && r.value.info == GroupInfo(rows, old(rows), classes, blocks, n, items, meas.total)
      ensures r.Some? && r.value.gain > 0.0 - EPSILON ==>
                Groups(r.value.sets, owner, n)
                  && TwoGroups(old(rows), owner, |r.value.sets|, classes, n, minObjs as real)
      ensures (forall v :: 1 <= v <= n && old(rows)[v][classes] > 0.5 ==> HasClass(old(rows)[v])) ==> r.Some?
      ensures items - old(rows)[0][classes] >= EPSILON && TwoClassless(old(rows), n) ==> r.None?
      ensures r.None? <==> items - old(rows)[0][classes] >= EPSILON && !SearchStays(old(rows), classes, n)
    {
      hide Partition, Sums, NonNegative, HasClass, GainOf, Worth, Column, TwoClassless, Trial, Preferred,
        LabelsFrom, Kept, Stays, SearchStays, Left, Trials, BlockSums, Groups, TwoGroups, Apart, BaseOf, Reasonable,
        InfoOf, Settled;
      minObjs' := 1;
      owner := [];
      blocks := 0;
      var known := items - valFreq[0];
      if known < EPSILON {
        return Some(Grouping(0.0 - EPSILON, 0.0, [])), minObjs', owner, blocks;
      }
      ghost var orig := rows;
      var base := BaseInfo(meas);
      var gain := ComputeGain(base, unknown, n, known, 1.0, meas);
      TotalsIn(n);
      assert valFreq[..] == valFreq[..n + 1];
      var info := meas.total(valFreq[..]) / items;
      var val := Worth(info, gain, EPSILON, meas.gainRatio);
      var count: nat, missing: nat;
      TableSearch(rows, classes, n);
      count, missing, owner := FormBlocks();
      TableLabels(orig, rows, classes, n, count);
      var left, merged, owner1, _ := MergeSingleClass(count, orig, owner, missing);
      if left.None? {
        return None, minObjs', owner1, blocks;
      }
      owner := owner1;
      count := left.value;
      if merged {
        gain := ComputeGain(base, unknown, count, known, 1.0, meas);
        TotalsIn(count);
        info := meas.total(valFreq[..count + 1]) / items;
        val := Worth(info, gain, EPSILON, meas.gainRatio);
      }
      count, info, val, owner :=
        Climb(count, base, unknown, known, items, gain, info, val, minObjs, meas, orig, owner, missing);
      minObjs' := minObjs;
      if val <= 0.0 {
        return Some(Grouping(0.0 - EPSILON, 0.0, [])), minObjs', owner, blocks;
      }
      var g;
      g, owner := FinishGroups(base, unknown, count, known, info, minObjs, meas, orig, owner, missing);
      blocks := count;
      r := Some(g);
    }

    /** Merges pairs of blocks as long as that is worthwhile or forced; returns how many blocks are left,
        with the information and value of the last merger. */
    method Climb(blocks: nat, base: real, unknown: real, known: real, items: real, gain: real, info: real, val: real,
                 minObjs: nat, meas: Measures, ghost orig: seq<Row>, ghost owner: seq<nat>, ghost missing: nat)
      returns (count: nat, info': real, val': real, ghost owner': seq<nat>)
      requires Blocked(orig, owner, blocks, missing) && items > 0.0
      modifies freq, valFreq, slice1, slice2, sets, `rows
      ensures Blocked(orig, owner', count, missing) && count <= blocks && (blocks >= 2 ==> count >= 2)
      ensures count == blocks ==> rows == old(rows) && info' == info && val' == val
      ensures count < blocks ==> info' == InfoOf(rows, classes, count, items, meas.total)
      ensures count < blocks ==>
                val' == Worth(info', GainOf(rows, base, unknown, count, known, 1.0, meas.total), EPSILON,
                  meas.gainRatio)
      ensures count > 2 ==> exists barred ::
                  Settled(Search(rows, classes, count, barred, base, unknown, known, items, meas), gain / 2.0,
                    minObjs as real, val')
    {
      hide Partition, Sums, NonNegative, GainOf, Worth, Column, Trial, Preferred, Trials, Reasonable, InfoOf, IsBarred;
      count, info', val', owner' := blocks, info, val, owner;
      var gain' := gain;
      var minGain := gain / 2.0;
      while count > 2
        invariant Blocked(orig, owner', count, missing) && count <= blocks && (blocks >= 2 ==> count >= 2)
        invariant count == blocks ==> rows == old(rows) && info' == info && val' == val
        invariant count < blocks ==>
                    info' == InfoOf(rows, classes, count, items, meas.total)
                    && gain' == GainOf(rows, base, unknown, count, known, 1.0, meas.total)
                    && val' == Worth(info', gain', EPSILON, meas.gainRatio)
        decreases count
      {
        var barred, reasonable := FindBarred(count, minObjs as real);
        var best := FindBest(count, barred, reasonable, base, unknown, known, items, minGain, meas);
        if meas.gainRatio && reasonable >= 2
           && (best.v1 == 0 || best.val < val' + 0.00001 || (best.val == val' && best.gain < gain')) {
          assert Settled(Search(rows, classes, count, barred, base, unknown, known, items, meas), minGain,
              minObjs as real, val');
          break;
        }
        gain', info', val' := best.gain, best.info, best.val;
        TrialIs(Search(rows, classes, count, barred, base, unknown, known, items, meas), best.v1, best.v2);
        owner' := MergeBlocks(best.v1, best.v2, count, orig, owner', missing);
        count := count - 1;
      }
    }

    /** The final gain, and the missing values as one more group. */
    method FinishGroups(base: real, unknown: real, blocks: nat, known: real, info: real, minObjs: nat, meas: Measures,
                        ghost orig: seq<Row>, ghost owner: seq<nat>, missing: nat)
      returns (g: Grouping, ghost owner': seq<nat>)
      requires Blocked(orig, owner, blocks, missing)
      modifies sets
      ensures Valid() && g.info == info
              && g.gain == GainOf(rows, base, unknown, blocks, known, minObjs as real, meas.total)
      ensures g.sets == [] ==> g.gain == 0.0 - EPSILON
      ensures Groups(g.sets, owner', n) && BlockSums(rows, orig, owner', blocks, n, classes + 1)
      ensures g.gain > 0.0 - EPSILON ==> TwoGroups(orig, owner', |g.sets|, classes, n, minObjs as real)
    {
      hide Partition, Sums, NonNegative, GainOf, Column, TwoGroups, Groups;
      var gain := ComputeGain(base, unknown, blocks, known, minObjs as real, meas);
      ReasonableGain(rows, base, unknown, blocks, known, minObjs as real, meas.total);
      FinalGroups(sets[..], rows, orig, owner, blocks, missing, n, classes, minObjs as real);
      owner' := Renamed(owner, if missing > 0 then blocks + 1 else 0);
      RenamedSums(rows, orig, owner, blocks, n, classes + 1, if missing > 0 then blocks + 1 else 0);
      var last := blocks;
      if missing > 0 {
        last := blocks + 1;
        sets[last] := sets[0];
      }
      if blocks == 0 {
        NoBlocksNoGain(rows, base, unknown, known, minObjs as real, meas.total);
      }
      g := Grouping(gain, info, sets[1..last + 1]);
    }

    method BaseInfo(meas: Measures) returns (base: real)
      requires Valid()
      ensures base == BaseOf(rows, classes, meas)
    {
      var table := seq(n, v requires 0 <= v < n reads freq =>
                            seq(classes, c requires 0 <= c < classes reads freq => freq[v + 1, c]));
      base := meas.base(table);
      forall v | 0 <= v < n
        ensures table[v] == rows[v + 1][..classes]
      {}
      assert table == ClassRows(rows, classes);
    }
  }

  lemma AloneApart(rows: seq<Row>, v: nat, c: nat, last: nat)
    requires HasIn(rows, v, c) && !Sole(rows[v], c) && last < |rows|
    ensures Apart(rows, v, last)
  {}

  lemma SoleApart(rows: seq<Row>, v: nat, c: nat, last: nat)
    requires HasIn(rows, v, c) && last < |rows| && forall w :: v < w <= last ==> !Sole(rows[w], c)
    ensures Apart(rows, v, last)
  {}

  /** A row merged into one that has class c leaves it that class. */
  lemma MergedIn(rows: seq<Row>, x: nat, y: nat, last: nat, c: nat)
    requires 1 <= x < y <= last < |rows| && |rows[x]| == |rows[y]| && HasIn(rows, x, c) && NonNegative(rows)
    ensures HasIn(MergedRows(rows, x, y, last), x, c)
  {}

  lemma StartSums0(rows: seq<Row>, owner: seq<nat>, n: nat, width: nat)
    requires |rows| == n + 1 == |owner| && width > 0 && forall v :: 0 <= v < |rows| ==> |rows[v]| == width
    ensures Sums(rows, rows, owner, 0, 0, width)
  {}

  lemma StartPartition(sets: seq<Bits>, owner: seq<nat>, n: nat)
    requires |sets| == n + 1 && |owner| == n + 1 && sets[0] == Cleared(Bytes(n))
    ensures Partition(sets, owner, 0, n, 0)
  {
    assert |Cleared(Bytes(n))| == Bytes(n);
    forall v | 0 <= v <= n
      ensures Held(sets, owner, 0, 0, v)
    {
      InCleared(v, Bytes(n));
    }
  }
}
