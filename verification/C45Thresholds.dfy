/** Which cut of a continuous attribute is the best one. */
module C45Thresholds {
  import opened C45Types
  import opened Weighted
  import opened Ranges
  import opened C45Tests
  import opened Subset
  import opened C45Cuts

  /** The class weights of the items from lo up to hi and their total. */
  ghost function SideRow(s: seq<Item>, lo: nat, hi: nat, n: nat): Row
    requires lo <= hi <= |s|
  {
    ClassTotals(s[lo..hi], n) + [Load(s, lo, hi)]
  }

  ghost function CutRows(s: seq<Item>, fp: nat, xp: nat, i: nat, hi: nat, n: nat): (rows: seq<Row>)
    requires fp <= xp <= i < hi <= |s|
    ensures |rows| == 3 && forall v :: 0 <= v < 3 ==> |rows[v]| == n + 1
  {
    [SideRow(s, fp, xp, n), SideRow(s, xp, i + 1, n), SideRow(s, i + 1, hi, n)]
  }

  /** The gain of the cut after item i, where the items before xp are unknown. */
  ghost function CutGain(s: seq<Item>, fp: nat, xp: nat, i: nat, hi: nat, n: nat, meas: Measures, m: real): real
    requires fp <= xp <= i < hi <= |s| && Load(s, xp, hi) > 0.0 && Load(s, fp, hi) > 0.0
  {
    GainOf(CutRows(s, fp, xp, i, hi, n), meas.total(ClassTotals(s[xp..hi], n)) / Load(s, xp, hi),
      1.0 - Load(s, xp, hi) / Load(s, fp, hi), 2, Load(s, xp, hi), m, meas.total)
  }

  /** The least weight on a side of a cut: a tenth of the mean class weight, between m and 25. */
  function MinSplit(known: real, n: nat, m: real): real
    requires n > 0
  {
    var least := 0.10 * known / n as real;
    if least <= m then m else if least > 25.0 then 25.0 else least
  }

  /** The cut after item i is tried: its neighbours are apart, and neither side is too light. */
  ghost predicate MayCut(s: seq<Item>, a: nat, xp: nat, i: nat, hi: nat, n: nat, m: real)
    requires n > 0
  {
    && xp <= i < hi - 1 && hi <= |s| && CVal(s[i].desc, a) < CVal(s[i + 1].desc, a) - 0.00001
    && MinSplit(Load(s, xp, hi), n, m) <= Load(s, xp, i + 1)
       <= Load(s, xp, hi) - MinSplit(Load(s, xp, hi), n, m)
  }

  /** The number of cuts tried before item i. */
  ghost function Cuts(s: seq<Item>, a: nat, xp: nat, i: nat, hi: nat, n: nat, m: real): nat
    requires n > 0
  {
    if i <= xp then 0 else Cuts(s, a, xp, i - 1, hi, n, m) + if MayCut(s, a, xp, i - 1, hi, n, m) then 1 else 0
  }

  /** The cost of having tried so many cuts. */
  function Cost(log: nat -> real, tries: nat, items: real): real
    requires items > 0.0
  {
    (if tries == 0 then 0.0 else log(tries)) / items
  }

  /** The first cut of greatest gain above the cost, or none when there is no such cut. */
  ghost predicate BestOf(c: Candidate, s: seq<Item>, a: nat, fp: nat, xp: nat, hi: nat, n: nat, meas: Measures,
                         log: nat -> real, m: real)
    requires fp <= xp <= hi <= |s| && n > 0 && Load(s, xp, hi) > 0.0 && Load(s, fp, hi) > 0.0
  {
    var cost := Cost(log, Cuts(s, a, xp, hi, hi, n, m), Load(s, fp, hi));
    if c.gain > 0.0 - EPSILON then exists i: nat :: BestAt(c, s, a, fp, xp, i, hi, n, meas, cost, m)
    else
      && c.gain == 0.0 - EPSILON
      && forall j: nat :: MayCut(s, a, xp, j, hi, n, m) ==> CutGain(s, fp, xp, j, hi, n, meas, m) <= cost
  }

  ghost predicate BestAt(c: Candidate, s: seq<Item>, a: nat, fp: nat, xp: nat, i: nat, hi: nat, n: nat, meas: Measures,
                         cost: real, m: real)
    requires fp <= xp <= hi <= |s| && n > 0 && Load(s, xp, hi) > 0.0 && Load(s, fp, hi) > 0.0
  {
    && MayCut(s, a, xp, i, hi, n, m)
    && c.gain == CutGain(s, fp, xp, i, hi, n, meas, m) - cost > 0.0
    && c.info == CutInfo(s, fp, xp, i, hi, Load(s, fp, hi), meas)
    && c.bar == (CVal(s[i].desc, a) + CVal(s[i + 1].desc, a)) / 2.0
    && (forall j: nat :: MayCut(s, a, xp, j, hi, n, m) ==>
          CutGain(s, fp, xp, j, hi, n, meas, m) <= CutGain(s, fp, xp, i, hi, n, meas, m))
    && (forall j: nat :: j < i && MayCut(s, a, xp, j, hi, n, m) ==>
          CutGain(s, fp, xp, j, hi, n, meas, m) < CutGain(s, fp, xp, i, hi, n, meas, m))
  }

  /** The items in some order, the unknown ones in front and the others sorted, which of those with equal
      values comes first being open. */
  ghost predicate Arranges(r: seq<Item>, s: seq<Item>, a: nat, xp: nat) {
    multiset(r) == multiset(s) && SortedKnown(r, a, 0, xp, |r|)
  }

  /** What the evaluation of a continuous attribute finds. */
  ghost predicate ThresholdGain(c: Candidate, s: seq<Item>, a: nat, n: nat, meas: Measures, log: nat -> real, m: nat) {
    var known := Sum(s, Weigh()) - Sum(s, Nowhere(a));
    if known < 2.0 * m as real then c.gain == 0.0 - EPSILON
    else exists r, xp :: Arranges(r, s, a, xp) && BestIn(c, r, a, xp, n, meas, log, m as real)
  }

  ghost predicate BestIn(c: Candidate, r: seq<Item>, a: nat, xp: nat, n: nat, meas: Measures, log: nat -> real,
                         m: real) {
    && xp <= |r| && n > 0 && Load(r, xp, |r|) > 0.0 && Load(r, 0, |r|) > 0.0
    && BestOf(c, r, a, 0, xp, |r|, n, meas, log, m)
  }

  lemma ThresholdGainPerm(c: Candidate, s: seq<Item>, r: seq<Item>, a: nat, n: nat, meas: Measures, log: nat -> real,
                          m: nat)
    requires multiset(s) == multiset(r) && ThresholdGain(c, s, a, n, meas, log, m)
    ensures ThresholdGain(c, r, a, n, meas, log, m)
  {
    hide BestIn, SortedKnown;
    SumPerm(s, r, Weigh());
    SumPerm(s, r, Nowhere(a));
    if Sum(s, Weigh()) - Sum(s, Nowhere(a)) >= 2.0 * m as real {
      var q, xp :| Arranges(q, s, a, xp) && BestIn(c, q, a, xp, n, meas, log, m as real);
      assert Arranges(q, r, a, xp);
    }
  }

  // ---- The stretch of the items on its own ----------------------------------------------------

  lemma SliceOfSlice(s: seq<Item>, fp: nat, hi: nat, x: nat, y: nat)
    requires fp <= x <= y <= hi <= |s|
    ensures s[fp..hi][x - fp..y - fp] == s[x..y]
  {
    forall k | 0 <= k < y - x
      ensures s[fp..hi][x - fp..y - fp][k] == s[x..y][k]
    {}
  }

  lemma CutOnItsOwn(s: seq<Item>, a: nat, fp: nat, xp: nat, i: nat, hi: nat, n: nat, meas: Measures, m: real)
    requires fp <= xp <= i < hi <= |s| && n > 0 && Load(s, xp, hi) > 0.0 && Load(s, fp, hi) > 0.0
    ensures Load(s[fp..hi], xp - fp, hi - fp) == Load(s, xp, hi) && Load(s[fp..hi], 0, hi - fp) == Load(s, fp, hi)
    ensures MayCut(s[fp..hi], a, xp - fp, i - fp, hi - fp, n, m) <==> MayCut(s, a, xp, i, hi, n, m)
    ensures CutGain(s[fp..hi], 0, xp - fp, i - fp, hi - fp, n, meas, m) == CutGain(s, fp, xp, i, hi, n, meas, m)
    ensures CutInfo(s[fp..hi], 0, xp - fp, i - fp, hi - fp, Load(s, fp, hi), meas)
         == CutInfo(s, fp, xp, i, hi, Load(s, fp, hi), meas)
  {
    hide GainOf, MinSplit, CVal;
    SliceOfSlice(s, fp, hi, fp, hi);
    SliceOfSlice(s, fp, hi, fp, xp);
    SliceOfSlice(s, fp, hi, xp, hi);
    SliceOfSlice(s, fp, hi, xp, i + 1);
    SliceOfSlice(s, fp, hi, i + 1, hi);
  }

  lemma {:induction false} CutsOnTheirOwn(s: seq<Item>, a: nat, fp: nat, xp: nat, i: nat, hi: nat, n: nat,
                                          meas: Measures, m: real)
    requires fp <= xp <= i <= hi <= |s| && n > 0 && Load(s, xp, hi) > 0.0 && Load(s, fp, hi) > 0.0
    ensures Cuts(s[fp..hi], a, xp - fp, i - fp, hi - fp, n, m) == Cuts(s, a, xp, i, hi, n, m)
  {
    hide MayCut, CutGain, CutInfo;
    if i > xp {
      CutsOnTheirOwn(s, a, fp, xp, i - 1, hi, n, meas, m);
      CutOnItsOwn(s, a, fp, xp, i - 1, hi, n, meas, m);
    }
  }

  // ---- Finding the cuts -----------------------------------------------------------------------

  /** The row holds the class weights of the items from lo up to hi. */
  ghost predicate Holds(row: Row, s: seq<Item>, lo: nat, hi: nat, n: nat) {
    lo <= hi <= |s| && |row| == n + 1 && row[..n] == ClassTotals(s[lo..hi], n)
  }

  lemma HoldsNone(row: Row, s: seq<Item>, lo: nat, n: nat)
    requires lo <= |s| && |row| == n + 1 && forall c :: 0 <= c < n ==> row[c] == 0.0
    ensures Holds(row, s, lo, lo, n)
  {
    forall c | 0 <= c < n
      ensures row[..n][c] == ClassTotals(s[lo..lo], n)[c]
    {
      assert s[lo..lo] == [];
    }
  }

  lemma RowHeld(row: Row, s: seq<Item>, lo: nat, hi: nat, n: nat)
    requires Holds(row, s, lo, hi, n)
    ensures lo <= hi <= |s| && |row| == n + 1 && row[..n] == ClassTotals(s[lo..hi], n)
  {}

  lemma HoldsTotal(row: Row, s: seq<Item>, lo: nat, hi: nat, n: nat, w: real)
    requires Holds(row, s, lo, hi, n)
    ensures |row| == n + 1 && Holds(row[n := w], s, lo, hi, n)
  {
    assert row[n := w][..n] == row[..n];
  }

  lemma HoldsMore(row: Row, s: seq<Item>, lo: nat, i: nat, n: nat)
    requires Holds(row, s, lo, i, n) && i < |s| && s[i].desc.cls < n
    ensures Holds(row[s[i].desc.cls := row[s[i].desc.cls] + s[i].weight], s, lo, i + 1, n)
  {
    var row' := row[s[i].desc.cls := row[s[i].desc.cls] + s[i].weight];
    assert s[lo..i + 1] == s[lo..i] + [s[i]];
    forall c | 0 <= c < n
      ensures row'[..n][c] == ClassTotals(s[lo..i + 1], n)[c]
    {
      assert row[c] == row[..n][c] == Sum(s[lo..i], InClass(c));
      SumSnoc(s[lo..i], s[i], InClass(c));
    }
  }

  lemma HoldsLess(row: Row, s: seq<Item>, i: nat, hi: nat, n: nat)
    requires Holds(row, s, i, hi, n) && i < hi && s[i].desc.cls < n
    ensures Holds(row[s[i].desc.cls := row[s[i].desc.cls] + (0.0 - s[i].weight)], s, i + 1, hi, n)
  {
    var row' := row[s[i].desc.cls := row[s[i].desc.cls] + (0.0 - s[i].weight)];
    assert s[i..hi] == [s[i]] + s[i + 1..hi];
    assert [s[i]] == [] + [s[i]];
    forall c | 0 <= c < n
      ensures row'[..n][c] == ClassTotals(s[i + 1..hi], n)[c]
    {
      assert row[c] == row[..n][c] == Sum(s[i..hi], InClass(c));
      SumConcat([s[i]], s[i + 1..hi], InClass(c));
      SumSnoc([], s[i], InClass(c));
    }
  }

  /** Only the rows of the two sides matter. */
  lemma SidesGain(rows: seq<Row>, r: seq<Row>, base: real, unknown: real, items: real, m: real, total: Row -> real)
    requires |rows| == |r| == 3 && forall v :: 0 <= v < 3 ==> |rows[v]| > 0 && |r[v]| > 0
    requires rows[1] == r[1] && rows[2] == r[2]
    ensures GainOf(rows, base, unknown, 2, items, m, total) == GainOf(r, base, unknown, 2, items, m, total)
  {
    assert Reasonable(rows, 0, m) == Reasonable(r, 0, m);
    assert Reasonable(rows, 1, m) == Reasonable(r, 1, m);
    assert InfoSum(rows, 0, total) == InfoSum(r, 0, total);
    assert InfoSum(rows, 1, total) == InfoSum(r, 1, total);
  }

  /** The tables hold the two sides of the cut after item i. */
  lemma SidesHeld(rows: seq<Row>, s: seq<Item>, fp: nat, xp: nat, i: nat, hi: nat, n: nat, meas: Measures, m: real,
                  base: real)
    requires |rows| == 3 && |rows[0]| == n + 1 && fp <= xp <= i < hi && Holds(rows[1], s, xp, i + 1, n)
             && Holds(rows[2], s, i + 1, hi, n)
    requires rows[1][n] == Load(s, xp, i + 1) && rows[2][n] == Load(s, i + 1, hi) && Load(s, xp, hi) > 0.0
             && Load(s, fp, hi) > 0.0
    requires base == meas.total(ClassTotals(s[xp..hi], n)) / Load(s, xp, hi)
    ensures GainOf(rows, base, 1.0 - Load(s, xp, hi) / Load(s, fp, hi), 2, Load(s, xp, hi), m, meas.total)
         == CutGain(s, fp, xp, i, hi, n, meas, m)
  {
    hide GainOf;
    assert rows[1] == SideRow(s, xp, i + 1, n);
    assert rows[2] == SideRow(s, i + 1, hi, n);
    SidesGain(rows, CutRows(s, fp, xp, i, hi, n), base, 1.0 - Load(s, xp, hi) / Load(s, fp, hi), Load(s, xp, hi), m,
      meas.total);
  }

  /** The gains of the cuts before item i have been found. */
  ghost predicate GainsFound(g: seq<real>, tries: nat, s: seq<Item>, a: nat, fp: nat, xp: nat, i: nat, hi: nat, n: nat,
                             meas: Measures, m: real) {
    && |g| == |s| && fp <= xp <= i <= hi <= |s| && n > 0 && Load(s, xp, hi) > 0.0 && Load(s, fp, hi) > 0.0
    && tries == Cuts(s, a, xp, i, hi, n, m)
    && (forall j :: xp <= j < hi ==>
          g[j] == if j < i && MayCut(s, a, xp, j, hi, n, m) then CutGain(s, fp, xp, j, hi, n, meas, m)
                  else 0.0 - EPSILON)
  }

  lemma NoneFound(g: seq<real>, s: seq<Item>, a: nat, fp: nat, xp: nat, hi: nat, n: nat, meas: Measures, m: real)
    requires |g| == |s| && fp <= xp <= hi <= |s| && n > 0 && Load(s, xp, hi) > 0.0 && Load(s, fp, hi) > 0.0
    requires forall j :: 0 <= j < |g| ==> g[j] == 0.0 - EPSILON
    ensures GainsFound(g, 0, s, a, fp, xp, xp, hi, n, meas, m)
  {}

  lemma FoundSkip(g: seq<real>, tries: nat, s: seq<Item>, a: nat, fp: nat, xp: nat, i: nat, hi: nat, n: nat,
                  meas: Measures, m: real)
    requires GainsFound(g, tries, s, a, fp, xp, i, hi, n, meas, m) && i < hi && !MayCut(s, a, xp, i, hi, n, m)
    ensures GainsFound(g, tries, s, a, fp, xp, i + 1, hi, n, meas, m)
  {
    hide CutGain, MayCut;
  }

  lemma FoundCut(g: seq<real>, tries: nat, s: seq<Item>, a: nat, fp: nat, xp: nat, i: nat, hi: nat, n: nat,
                 meas: Measures, m: real)
    requires GainsFound(g, tries, s, a, fp, xp, i, hi, n, meas, m) && i < hi && MayCut(s, a, xp, i, hi, n, m)
    ensures GainsFound(g[i := CutGain(s, fp, xp, i, hi, n, meas, m)], tries + 1, s, a, fp, xp, i + 1, hi, n, meas, m)
  {
    hide CutGain, MayCut;
  }

  lemma {:induction false} LoadGrows(s: seq<Item>, xp: nat, i: nat, j: nat)
    requires xp <= i <= j <= |s| && forall k :: i <= k < j ==> s[k].weight > 0.0
    ensures Load(s, xp, i) <= Load(s, xp, j)
  {
    if i < j {
      LoadGrows(s, xp, i, j - 1);
      LoadStep(s, xp, j - 1, j);
    }
  }

  /** Once the lower side is too heavy no later cut is tried. */
  lemma {:induction false} NoMoreCuts(g: seq<real>, tries: nat, s: seq<Item>, a: nat, fp: nat, xp: nat, i: nat, hi: nat,
                                      n: nat, meas: Measures, m: real)
    requires GainsFound(g, tries, s, a, fp, xp, i, hi, n, meas, m)
    requires i >= hi - 1 || Load(s, xp, i + 1) > Load(s, xp, hi) - MinSplit(Load(s, xp, hi), n, m)
    requires forall k :: xp <= k < hi ==> s[k].weight > 0.0
    ensures GainsFound(g, tries, s, a, fp, xp, hi, hi, n, meas, m)
    decreases hi - i
  {
    hide CutGain, MinSplit, CVal, Load, GainsFound;
    FoundBounds(g, tries, s, a, fp, xp, i, hi, n, meas, m);
    if i < hi {
      FoundSkip(g, tries, s, a, fp, xp, i, hi, n, meas, m);
      if i < hi - 1 {
        LoadGrows(s, xp, i + 1, i + 2);
      }
      NoMoreCuts(g, tries, s, a, fp, xp, i + 1, hi, n, meas, m);
    }
  }

  lemma FoundBounds(g: seq<real>, tries: nat, s: seq<Item>, a: nat, fp: nat, xp: nat, i: nat, hi: nat, n: nat,
                    meas: Measures, m: real)
    requires GainsFound(g, tries, s, a, fp, xp, i, hi, n, meas, m)
    ensures |g| == |s| && fp <= xp <= i <= hi <= |s| && n > 0 && Load(s, xp, hi) > 0.0 && Load(s, fp, hi) > 0.0
  {}

  // ---- The best of them -----------------------------------------------------------------------

  /** No cut gains more than it costs. */
  lemma NothingFound(g: seq<real>, tries: nat, s: seq<Item>, a: nat, fp: nat, xp: nat, hi: nat, n: nat, meas: Measures,
                     m: nat, log: nat -> real, c: Candidate)
    requires GainsFound(g, tries, s, a, fp, xp, hi, hi, n, meas, m as real) && SortedKnown(s, a, fp, xp, hi)
    requires c.gain == 0.0 - EPSILON
    requires forall j :: xp <= j < hi - 1 ==> g[j] <= Cost(log, tries, Load(s, fp, hi))
    ensures ThresholdGain(c, s[fp..hi], a, n, meas, log, m)
  {
    hide CutGain, CutInfo, MinSplit, Cost, GainsFound, MayCut;
    var r, x, h, z := s[fp..hi], xp - fp, hi - fp, m as real;
    FoundBounds(g, tries, s, a, fp, xp, hi, hi, n, meas, z);
    LoadsOnTheirOwn(s, fp, xp, hi);
    CutsOnTheirOwn(s, a, fp, xp, hi, hi, n, meas, z);
    FoundAt(g, tries, s, a, fp, xp, hi, n, meas, z);
    CutsWithin(r, a, x, h, n, z);
    forall j: nat | MayCut(r, a, x, j, h, n, z)
      ensures CutGain(r, 0, x, j, h, n, meas, z) <= Cost(log, tries, Load(s, fp, hi))
    {
      CutOnItsOwn(s, a, fp, xp, fp + j, hi, n, meas, z);
    }
    OwnArrangement(s, a, fp, xp, hi);
    assert BestIn(c, r, a, x, n, meas, log, z);
  }

  lemma FoundAt(g: seq<real>, tries: nat, s: seq<Item>, a: nat, fp: nat, xp: nat, hi: nat, n: nat, meas: Measures,
                m: real)
    requires GainsFound(g, tries, s, a, fp, xp, hi, hi, n, meas, m)
    ensures fp <= xp <= hi <= |s| && n > 0 && Load(s, xp, hi) > 0.0 && Load(s, fp, hi) > 0.0 && |g| == |s|
    ensures tries == Cuts(s, a, xp, hi, hi, n, m)
    ensures forall j :: xp <= j < hi ==>
              g[j] == if MayCut(s, a, xp, j, hi, n, m) then CutGain(s, fp, xp, j, hi, n, meas, m) else 0.0 - EPSILON
  {
    hide MayCut, CutGain;
  }

  lemma CutsWithin(s: seq<Item>, a: nat, xp: nat, hi: nat, n: nat, m: real)
    requires n > 0
    ensures forall i: nat :: MayCut(s, a, xp, i, hi, n, m) ==> xp <= i < hi - 1
  {}

  lemma LoadsOnTheirOwn(s: seq<Item>, fp: nat, xp: nat, hi: nat)
    requires fp <= xp <= hi <= |s|
    ensures Load(s[fp..hi], xp - fp, hi - fp) == Load(s, xp, hi) && Load(s[fp..hi], 0, hi - fp) == Load(s, fp, hi)
  {
    SliceOfSlice(s, fp, hi, xp, hi);
    SliceOfSlice(s, fp, hi, fp, hi);
  }

  lemma OwnArrangement(s: seq<Item>, a: nat, fp: nat, xp: nat, hi: nat)
    requires SortedKnown(s, a, fp, xp, hi)
    ensures fp <= xp <= hi <= |s| && Arranges(s[fp..hi], s[fp..hi], a, xp - fp)
  {}

  lemma KnownIsLoad(s: seq<Item>, a: nat, fp: nat, xp: nat, hi: nat)
    requires SortedKnown(s, a, fp, xp, hi)
    ensures fp <= xp <= hi <= |s|
    ensures Sum(s[fp..hi], Weigh()) - Sum(s[fp..hi], Nowhere(a)) == Load(s, xp, hi)
  {
    SplitSlice(s, fp, xp, hi);
    SumConcat(s[fp..xp], s[xp..hi], Weigh());
    SumConcat(s[fp..xp], s[xp..hi], Nowhere(a));
    SumSame(s[fp..xp], Weigh(), Nowhere(a));
    SumIsZero(s[xp..hi], Nowhere(a));
  }

  /** Item i has the first cut of greatest gain. */
  lemma CutFound(g: seq<real>, tries: nat, s: seq<Item>, a: nat, fp: nat, xp: nat, i: nat, hi: nat, n: nat,
                 meas: Measures, m: nat, log: nat -> real, c: Candidate)
    requires GainsFound(g, tries, s, a, fp, xp, hi, hi, n, meas, m as real) && SortedKnown(s, a, fp, xp, hi)
    requires Load(s, xp, hi) >= 2.0 * m as real && xp <= i < hi - 1 && Cost(log, tries, Load(s, fp, hi)) >= 0.0
    requires g[i] - Cost(log, tries, Load(s, fp, hi)) == c.gain > 0.0
    requires c.info == CutInfo(s, fp, xp, i, hi, Load(s, fp, hi), meas)
             && c.bar == (CVal(s[i].desc, a) + CVal(s[i + 1].desc, a)) / 2.0
    requires forall j :: xp <= j < hi - 1 ==> g[j] <= g[i]
    requires forall j :: xp <= j < i ==> g[j] < g[i]
    ensures ThresholdGain(c, s[fp..hi], a, n, meas, log, m)
  {
    hide CutGain, CutInfo, MinSplit, Cost, GainsFound, MayCut, CVal;
    FoundAt(g, tries, s, a, fp, xp, hi, n, meas, m as real);
    var r, x, h, z, cost := s[fp..hi], xp - fp, hi - fp, m as real, Cost(log, tries, Load(s, fp, hi));
    KnownIsLoad(s, a, fp, xp, hi);
    LoadsOnTheirOwn(s, fp, xp, hi);
    CutsOnTheirOwn(s, a, fp, xp, hi, hi, n, meas, z);
    CutOnItsOwn(s, a, fp, xp, i, hi, n, meas, z);
    CutsWithin(r, a, x, h, n, z);
    forall j: nat | MayCut(r, a, x, j, h, n, z)
      ensures x <= j < h - 1
      ensures CutGain(r, 0, x, j, h, n, meas, z) == g[fp + j]
    {
      CutOnItsOwn(s, a, fp, xp, fp + j, hi, n, meas, z);
    }
    OwnArrangement(s, a, fp, xp, hi);
    assert BestAt(c, r, a, 0, x, i - fp, h, n, meas, cost, z);
    assert BestIn(c, r, a, x, n, meas, log, z);
  }

  /** Too few items are known. */
  lemma TooFewKnown(c: Candidate, s: seq<Item>, a: nat, n: nat, meas: Measures, log: nat -> real, m: nat)
    requires Sum(s, Weigh()) - Sum(s, Nowhere(a)) < 2.0 * m as real && c.gain == 0.0 - EPSILON
    ensures ThresholdGain(c, s, a, n, meas, log, m)
  {}

  // ---- The order of equal values does not matter ----------------------------------------------

  /** Unknown, known and at most v, or known and above v. */
  function SideOf(x: Item, a: nat, v: real): nat {
    if CVal(x.desc, a) == UNKNOWN then 0 else if CVal(x.desc, a) <= v then 1 else 2
  }

  ghost predicate OnSide(s: seq<Item>, a: nat, v: real, side: nat) { forall x :: x in s ==> SideOf(x, a, v) == side }

  /** The items fall into three parts in one way only. */
  lemma PartsAlike(r: seq<seq<Item>>, q: seq<seq<Item>>, a: nat, v: real, k: nat)
    requires |r| == |q| == 3 && multiset(r[0] + r[1] + r[2]) == multiset(q[0] + q[1] + q[2]) && k < 3
    requires forall j :: 0 <= j < 3 ==> OnSide(r[j], a, v, j) && OnSide(q[j], a, v, j)
    ensures multiset(r[k]) == multiset(q[k]) && |r[k]| == |q[k]|
  {
    hide SideOf;
    forall x | true
      ensures multiset(r[k])[x] == multiset(q[k])[x]
    {
      OnlyThere(r, a, v, k, x);
      OnlyThere(q, a, v, k, x);
    }
    assert multiset(r[k]) == multiset(q[k]);
    SameSize(r[k], q[k]);
  }

  lemma OnlyThere(r: seq<seq<Item>>, a: nat, v: real, k: nat, x: Item)
    requires |r| == 3 && k < 3 && forall j :: 0 <= j < 3 ==> OnSide(r[j], a, v, j)
    ensures multiset(r[k])[x] == if SideOf(x, a, v) == k then multiset(r[0] + r[1] + r[2])[x] else 0
  {
    hide SideOf;
    forall j | 0 <= j < 3 && SideOf(x, a, v) != j
      ensures multiset(r[j])[x] == 0
    {
      assert x !in r[j];
    }
    assert multiset(r[0] + r[1] + r[2])[x] == multiset(r[0])[x] + multiset(r[1])[x] + multiset(r[2])[x];
  }

  /** Where the values above v begin. */
  lemma {:induction false} Boundary(q: seq<Item>, a: nat, yp: nat, v: real, n: nat) returns (k: nat)
    requires SortedKnown(q, a, 0, yp, |q|) && yp <= n <= |q|
    ensures yp <= k <= n && OnSide(q[..yp], a, v, 0) && OnSide(q[yp..k], a, v, 1) && OnSide(q[k..n], a, v, 2)
  {
    if n == yp {
      k := yp;
    } else {
      k := Boundary(q, a, yp, v, n - 1);
      if CVal(q[n - 1].desc, a) <= v {
        assert forall j :: k <= j < n - 1 ==> q[j] in q[k..n - 1];
        k := n;
      }
    }
  }

  /** The known stretch of an arrangement is cut after item i. */
  lemma SidesOf(r: seq<Item>, a: nat, xp: nat, i: nat)
    requires SortedKnown(r, a, 0, xp, |r|) && xp <= i < |r| - 1 && CVal(r[i].desc, a) < CVal(r[i + 1].desc, a)
    ensures OnSide(r[..xp], a, CVal(r[i].desc, a), 0) && OnSide(r[xp..i + 1], a, CVal(r[i].desc, a), 1)
            && OnSide(r[i + 1..], a, CVal(r[i].desc, a), 2)
  {}

  /** Two arrangements have the same items on either side of a gap between the values. */
  lemma SidesAlike(r: seq<Item>, q: seq<Item>, a: nat, xp: nat, yp: nat, i: nat)
    requires multiset(r) == multiset(q) && SortedKnown(r, a, 0, xp, |r|) && SortedKnown(q, a, 0, yp, |q|)
    requires xp <= i < |r| - 1 && CVal(r[i].desc, a) < CVal(r[i + 1].desc, a)
    ensures xp == yp && |r| == |q| && multiset(r[..xp]) == multiset(q[..xp])
    ensures multiset(r[xp..i + 1]) == multiset(q[xp..i + 1]) && multiset(r[i + 1..]) == multiset(q[i + 1..])
  {
    hide OnSide, SortedKnown, CVal;
    ArrangedBounds(q, a, yp);
    SidesOf(r, a, xp, i);
    var v := CVal(r[i].desc, a);
    var k := Boundary(q, a, yp, v, |q|);
    var x, y := [r[..xp], r[xp..i + 1], r[i + 1..]], [q[..yp], q[yp..k], q[k..]];
    assert r == x[0] + x[1] + x[2] && q == y[0] + y[1] + y[2] && q[k..|q|] == q[k..];
    PartsAlike(x, y, a, v, 0);
    PartsAlike(x, y, a, v, 1);
    PartsAlike(x, y, a, v, 2);
  }

  lemma ArrangedBounds(q: seq<Item>, a: nat, yp: nat)
    requires SortedKnown(q, a, 0, yp, |q|)
    ensures yp <= |q| && SortedOn(q, a, yp, |q|)
  {}

  /** Two arrangements agree on either side of a gap between the values. */
  lemma GapAlike(r: seq<Item>, q: seq<Item>, a: nat, xp: nat, yp: nat, i: nat)
    requires multiset(r) == multiset(q) && SortedKnown(r, a, 0, xp, |r|) && SortedKnown(q, a, 0, yp, |q|)
    requires xp <= i < |r| - 1 && CVal(r[i].desc, a) < CVal(r[i + 1].desc, a)
    ensures xp == yp && |r| == |q| && multiset(r[..xp]) == multiset(q[..xp])
    ensures multiset(r[xp..i + 1]) == multiset(q[xp..i + 1]) && multiset(r[i + 1..]) == multiset(q[i + 1..])
    ensures multiset(r[xp..]) == multiset(q[xp..])
    ensures CVal(q[i].desc, a) == CVal(r[i].desc, a) && CVal(q[i + 1].desc, a) == CVal(r[i + 1].desc, a)
  {
    hide SortedKnown, CVal, SortedOn;
    SidesAlike(r, q, a, xp, yp, i);
    ArrangedBounds(r, a, xp);
    ArrangedBounds(q, a, xp);
    assert r[xp..] == r[xp..i + 1] + r[i + 1..] && q[xp..] == q[xp..i + 1] + q[i + 1..];
    LastOfSorted(r, q, a, xp, i + 1);
    FirstOfSorted(r, q, a, xp, i + 1);
  }

  /** Sorted stretches of the same items end in the same value. */
  lemma LastOfSorted(r: seq<Item>, q: seq<Item>, a: nat, xp: nat, k: nat)
    requires xp < k <= |r| == |q| && multiset(r[xp..k]) == multiset(q[xp..k])
    requires SortedOn(r, a, xp, |r|) && SortedOn(q, a, xp, |q|)
    ensures CVal(r[k - 1].desc, a) == CVal(q[k - 1].desc, a)
  {
    PermMembers(r[xp..k], q[xp..k]);
    assert r[k - 1] in r[xp..k] && q[k - 1] in q[xp..k];
  }

  /** They begin with the same value. */
  lemma FirstOfSorted(r: seq<Item>, q: seq<Item>, a: nat, xp: nat, k: nat)
    requires xp <= k < |r| == |q| && multiset(r[k..]) == multiset(q[k..])
    requires SortedOn(r, a, xp, |r|) && SortedOn(q, a, xp, |q|)
    ensures CVal(r[k].desc, a) == CVal(q[k].desc, a)
  {
    PermMembers(r[k..], q[k..]);
    assert r[k] in r[k..] && q[k] in q[k..];
  }

  /** Some cut of the one arrangement is a cut of the other, with the same gain. */
  lemma CutAlike(r: seq<Item>, q: seq<Item>, a: nat, xp: nat, yp: nat, i: nat, n: nat, meas: Measures, m: real)
    requires multiset(r) == multiset(q) && SortedKnown(r, a, 0, xp, |r|) && SortedKnown(q, a, 0, yp, |q|)
    requires n > 0 && MayCut(r, a, xp, i, |r|, n, m) && Load(r, xp, |r|) > 0.0 && Load(r, 0, |r|) > 0.0
    ensures xp == yp && |r| == |q| && MayCut(q, a, yp, i, |q|, n, m)
    ensures Load(q, yp, |q|) == Load(r, xp, |r|) && Load(q, 0, |q|) == Load(r, 0, |r|)
    ensures CutGain(q, 0, yp, i, |q|, n, meas, m) == CutGain(r, 0, xp, i, |r|, n, meas, m)
    ensures CutInfo(q, 0, yp, i, |q|, Load(q, 0, |q|), meas) == CutInfo(r, 0, xp, i, |r|, Load(r, 0, |r|), meas)
    ensures CVal(q[i].desc, a) == CVal(r[i].desc, a) && CVal(q[i + 1].desc, a) == CVal(r[i + 1].desc, a)
  {
    hide GainOf, MinSplit, CVal, SortedKnown, SideRow, Load, ClassTotals;
    GapAlike(r, q, a, xp, yp, i);
    assert r[0..xp] == r[..xp] && q[0..xp] == q[..xp] && r[i + 1..|r|] == r[i + 1..] && q[i + 1..|q|] == q[i + 1..];
    assert r[xp..|r|] == r[xp..] && q[xp..|q|] == q[xp..] && r[0..|r|] == r && q[0..|q|] == q;
    SlicesAlike(r, q, 0, xp, n);
    SlicesAlike(r, q, xp, i + 1, n);
    SlicesAlike(r, q, i + 1, |r|, n);
    SlicesAlike(r, q, xp, |r|, n);
    SlicesAlike(r, q, 0, |r|, n);
  }

  lemma SlicesAlike(r: seq<Item>, q: seq<Item>, lo: nat, hi: nat, n: nat)
    requires lo <= hi <= |r| == |q| && multiset(r[lo..hi]) == multiset(q[lo..hi])
    ensures Load(r, lo, hi) == Load(q, lo, hi) && ClassTotals(r[lo..hi], n) == ClassTotals(q[lo..hi], n)
    ensures SideRow(r, lo, hi, n) == SideRow(q, lo, hi, n)
  {
    SumPerm(r[lo..hi], q[lo..hi], Weigh());
    forall c | 0 <= c < n
      ensures ClassTotals(r[lo..hi], n)[c] == ClassTotals(q[lo..hi], n)[c]
    {
      SumPerm(r[lo..hi], q[lo..hi], InClass(c));
    }
  }

  lemma {:induction false} CutsAlike(r: seq<Item>, q: seq<Item>, a: nat, xp: nat, i: nat, n: nat, meas: Measures,
                                     m: real)
    requires multiset(r) == multiset(q) && SortedKnown(r, a, 0, xp, |r|) && SortedKnown(q, a, 0, xp, |q|)
    requires n > 0 && Load(r, xp, |r|) > 0.0 && Load(r, 0, |r|) > 0.0
    requires Load(q, xp, |q|) > 0.0 && Load(q, 0, |q|) > 0.0
    ensures Cuts(r, a, xp, i, |r|, n, m) == Cuts(q, a, xp, i, |q|, n, m)
  {
    hide MayCut, CutGain, CutInfo, SortedKnown;
    if i > xp {
      CutsAlike(r, q, a, xp, i - 1, n, meas, m);
      if MayCut(r, a, xp, i - 1, |r|, n, m) {
        CutAlike(r, q, a, xp, xp, i - 1, n, meas, m);
      }
      if MayCut(q, a, xp, i - 1, |q|, n, m) {
        CutAlike(q, r, a, xp, xp, i - 1, n, meas, m);
      }
    }
  }

  /** The first best cut of one arrangement is that of the other. */
  lemma BestAlike(c: Candidate, d: Candidate, r: seq<Item>, q: seq<Item>, a: nat, xp: nat, yp: nat, n: nat,
                  meas: Measures, log: nat -> real, m: real)
    requires multiset(r) == multiset(q) && SortedKnown(r, a, 0, xp, |r|) && SortedKnown(q, a, 0, yp, |q|)
    requires BestIn(c, r, a, xp, n, meas, log, m) && BestIn(d, q, a, yp, n, meas, log, m) && c.gain > 0.0 - EPSILON
    ensures d.gain == c.gain && d.info == c.info && d.bar == c.bar
  {
    hide MayCut, CutGain, CutInfo, SortedKnown, Cost, Load, CVal;
    var cost := Cost(log, Cuts(r, a, xp, |r|, |r|, n, m), Load(r, 0, |r|));
    var i: nat :| BestAt(c, r, a, 0, xp, i, |r|, n, meas, cost, m);
    CutAlike(r, q, a, xp, yp, i, n, meas, m);
    CutsAlike(r, q, a, xp, |r|, n, meas, m);
    assert d.gain > 0.0 - EPSILON;
    var j: nat :| BestAt(d, q, a, 0, yp, j, |q|, n, meas, cost, m);
    CutAlike(q, r, a, yp, xp, j, n, meas, m);
    assert i == j;
  }

  /** The items determine what the evaluation of a continuous attribute finds, however those with equal
      values are ordered. */
  lemma ThresholdGainIs(c: Candidate, d: Candidate, s: seq<Item>, a: nat, n: nat, meas: Measures, log: nat -> real,
                        m: nat)
    requires ThresholdGain(c, s, a, n, meas, log, m) && ThresholdGain(d, s, a, n, meas, log, m)
    ensures d.gain == c.gain && (c.gain > 0.0 - EPSILON ==> d.info == c.info && d.bar == c.bar)
  {
    hide BestIn, SortedKnown;
    if Sum(s, Weigh()) - Sum(s, Nowhere(a)) >= 2.0 * m as real {
      var r, xp :| Arranges(r, s, a, xp) && BestIn(c, r, a, xp, n, meas, log, m as real);
      var q, yp :| Arranges(q, s, a, yp) && BestIn(d, q, a, yp, n, meas, log, m as real);
      if c.gain > 0.0 - EPSILON {
        BestAlike(c, d, r, q, a, xp, yp, n, meas, log, m as real);
      } else if d.gain > 0.0 - EPSILON {
        BestAlike(d, c, q, r, a, yp, xp, n, meas, log, m as real);
      } else {
        NoneBest(c, r, a, xp, n, meas, log, m as real);
        NoneBest(d, q, a, yp, n, meas, log, m as real);
      }
    }
  }

  lemma NoneBest(c: Candidate, r: seq<Item>, a: nat, xp: nat, n: nat, meas: Measures, log: nat -> real, m: real)
    requires BestIn(c, r, a, xp, n, meas, log, m) && c.gain <= 0.0 - EPSILON
    ensures c.gain == 0.0 - EPSILON
  {}
}
