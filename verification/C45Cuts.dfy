/** Why the tests that the evaluation of attributes proposes divide the cases. */
module C45Cuts {
  import opened BitSets
  import opened C45Types
  import opened Weighted
  import opened Ranges
  import opened C45Tests
  import opened Subset

  // ---- Frequency tables ---------------------------------------------------------------------

  function Cell(a: nat, v: nat, c: nat): Item -> real {
    (x: Item) => if DVal(x.desc, a) == v && x.desc.cls == c then x.weight else 0.0
  }

  function HasValue(a: nat, v: nat): Item -> real {
    (x: Item) => if DVal(x.desc, a) == v then x.weight else 0.0
  }

  /** The entries of the table are the weights of the cases with value v of attribute a and class c;
      the last column holds the weight of all cases with value v. */
  ghost predicate Frequencies(rows: seq<Row>, s: seq<Item>, a: nat, classes: nat) {
    && (forall v :: 0 <= v < |rows| ==> |rows[v]| == classes + 1 && rows[v][classes] == Sum(s, HasValue(a, v)))
    && (forall v, c :: 0 <= v < |rows| && 0 <= c < classes ==> rows[v][c] == Sum(s, Cell(a, v, c)))
  }

  /** The sum of a row of cells. */
  ghost function CellsTo(s: seq<Item>, a: nat, v: nat, n: nat): real {
    if n == 0 then 0.0 else CellsTo(s, a, v, n - 1) + Sum(s, Cell(a, v, n - 1))
  }

  lemma {:induction false} CellsToSnoc(s: seq<Item>, x: Item, a: nat, v: nat, n: nat)
    ensures CellsTo(s + [x], a, v, n)
         == CellsTo(s, a, v, n) + if DVal(x.desc, a) == v && x.desc.cls < n then x.weight else 0.0
  {
    if n > 0 {
      CellsToSnoc(s, x, a, v, n - 1);
      SumSnoc(s, x, Cell(a, v, n - 1));
    }
  }

  lemma {:induction false} CellsToEmpty(a: nat, v: nat, n: nat)
    ensures CellsTo([], a, v, n) == 0.0
  {
    if n > 0 {
      CellsToEmpty(a, v, n - 1);
    }
  }

  lemma {:induction false} CellsSum(s: seq<Item>, a: nat, v: nat, n: nat)
    requires forall x :: x in s ==> x.desc.cls < n
    ensures CellsTo(s, a, v, n) == Sum(s, HasValue(a, v))
  {
    if s == [] {
      CellsToEmpty(a, v, n);
    } else {
      var s', x := s[..|s| - 1], s[|s| - 1];
      CellsSum(s', a, v, n);
      CellsToSnoc(s', x, a, v, n);
      assert s == s' + [x];
    }
  }

  lemma {:induction false} CellNonNegative(s: seq<Item>, a: nat, v: nat, c: nat)
    requires Positive(s)
    ensures Sum(s, Cell(a, v, c)) >= 0.0 && Sum(s, HasValue(a, v)) >= 0.0
  {
    if s != [] {
      CellNonNegative(s[..|s| - 1], a, v, c);
    }
  }

  lemma FrequenciesNonNegative(rows: seq<Row>, s: seq<Item>, a: nat, classes: nat)
    requires Frequencies(rows, s, a, classes) && Positive(s)
    ensures NonNegative(rows)
  {
    forall v, c | 0 <= v < |rows| && 0 <= c < |rows[v]|
      ensures rows[v][c] >= 0.0
    {
      CellNonNegative(s, a, v, c);
    }
  }

  /** The cells have been counted, the totals not yet formed. */
  ghost predicate Cells(rows: seq<Row>, s: seq<Item>, a: nat, classes: nat) {
    && (forall v :: 0 <= v < |rows| ==> |rows[v]| == classes + 1 && rows[v][classes] == 0.0)
    && (forall v, c :: 0 <= v < |rows| && 0 <= c < classes ==> rows[v][c] == Sum(s, Cell(a, v, c)))
  }

  ghost predicate CellsIn(rows: seq<Row>, s: seq<Item>, lo: nat, hi: nat, a: nat, classes: nat) {
    lo <= hi <= |s| && Cells(rows, s[lo..hi], a, classes)
  }

  ghost predicate FrequenciesIn(rows: seq<Row>, s: seq<Item>, lo: nat, hi: nat, a: nat, classes: nat) {
    lo <= hi <= |s| && Frequencies(rows, s[lo..hi], a, classes) && NonNegative(rows)
  }

  ghost predicate ClassesIn(s: seq<Item>, lo: nat, hi: nat, classes: nat) {
    lo <= hi <= |s| && forall x :: x in s[lo..hi] ==> x.desc.cls < classes
  }

  lemma StartCells(rows: seq<Row>, s: seq<Item>, lo: nat, a: nat, classes: nat)
    requires lo <= |s| && (forall v :: 0 <= v < |rows| ==> |rows[v]| == classes + 1)
    requires forall v, c :: 0 <= v < |rows| && 0 <= c <= classes ==> rows[v][c] == 0.0
    ensures CellsIn(rows, s, lo, lo, a, classes)
  {}

  lemma CountCell(rows: seq<Row>, s: seq<Item>, lo: nat, i: nat, a: nat, classes: nat, d: nat, k: nat, w: real)
    requires CellsIn(rows, s, lo, i, a, classes) && i < |s|
    requires d == DVal(s[i].desc, a) < |rows| && k == s[i].desc.cls < classes && w == s[i].weight
    ensures |rows[d]| == classes + 1 && CellsIn(Counted(rows, d, k, w), s, lo, i + 1, a, classes)
  {
    var x := s[i];
    var r := Counted(rows, d, k, w);
    assert s[lo..i + 1] == s[lo..i] + [x];
    forall v, c | 0 <= v < |r| && 0 <= c < classes
      ensures r[v][c] == Sum(s[lo..i + 1], Cell(a, v, c))
    {
      SumSnoc(s[lo..i], x, Cell(a, v, c));
    }
  }

  lemma NoTotals(rows: seq<Row>, s: seq<Item>, lo: nat, hi: nat, a: nat, classes: nat)
    requires CellsIn(rows, s, lo, hi, a, classes)
    ensures Untotalled(rows, classes)
  {}

  lemma GoodStretch(s: seq<Item>, lo: nat, hi: nat, maxClass: nat, maxAttVal: seq<nat>, a: nat)
    requires AllGood(s, maxClass, maxAttVal) && lo <= hi <= |s| && a < |maxAttVal| && maxAttVal[a] > 0
    ensures forall i :: lo <= i < hi ==> DVal(s[i].desc, a) <= maxAttVal[a] && s[i].desc.cls <= maxClass
    ensures ClassesIn(s, lo, hi, maxClass + 1)
  {
    assert forall i :: lo <= i < hi ==> Good(s[i].desc, maxClass, maxAttVal);
  }

  lemma {:induction false} RowSum(r: Row, s: seq<Item>, a: nat, v: nat, n: nat)
    requires n <= |r| && forall c :: 0 <= c < n ==> r[c] == Sum(s, Cell(a, v, c))
    ensures SumTo(r, n) == CellsTo(s, a, v, n)
  {
    if n > 0 {
      RowSum(r, s, a, v, n - 1);
    }
  }

  lemma TotalRows(rows: seq<Row>, r: seq<Row>, s: seq<Item>, lo: nat, hi: nat, a: nat, classes: nat)
    requires CellsIn(rows, s, lo, hi, a, classes) && WithTotals(rows, r, classes)
    requires AllPositive(s, lo, hi) && ClassesIn(s, lo, hi, classes)
    ensures FrequenciesIn(r, s, lo, hi, a, classes)
  {
    forall v | 0 <= v < |r|
      ensures r[v][classes] == Sum(s[lo..hi], HasValue(a, v))
    {
      RowSum(rows[v], s[lo..hi], a, v, classes);
      CellsSum(s[lo..hi], a, v, classes);
    }
    FrequenciesNonNegative(r, s[lo..hi], a, classes);
  }

  lemma {:induction false} SmallSum(r: Row, n: nat)
    requires n <= |r| && forall c :: 0 <= c < n ==> r[c] < 0.1
    ensures SumTo(r, n) <= 0.1 * n as real
  {
    if n > 0 {
      SmallSum(r, n - 1);
    }
  }

  /** With at most five classes a value of weight over 0.5 has a class of weight 0.1. */
  lemma FewClasses(rows: seq<Row>, s: seq<Item>, lo: nat, hi: nat, a: nat, maxClass: nat, maxAttVal: seq<nat>)
    requires FrequenciesIn(rows, s, lo, hi, a, maxClass + 1) && SoundItems(s, lo, hi, maxClass, maxAttVal)
    requires maxClass < 5 && a < |maxAttVal| && maxAttVal[a] > 0
    ensures forall v :: 0 <= v < |rows| && rows[v][maxClass + 1] > 0.5 ==> HasClass(rows[v])
  {
    GoodStretch(s, lo, hi, maxClass, maxAttVal, a);
    forall v | 0 <= v < |rows| && rows[v][maxClass + 1] > 0.5
      ensures HasClass(rows[v])
    {
      RowSum(rows[v], s[lo..hi], a, v, maxClass + 1);
      CellsSum(s[lo..hi], a, v, maxClass + 1);
      if !HasClass(rows[v]) {
        SmallSum(rows[v], maxClass + 1);
      }
    }
  }

  // ---- Tests on a discrete attribute ----------------------------------------------------------

  function DiscreteTest(node: Tree<real>, a: nat, forks: nat): Tree<real> {
    node.(nodeType := BR_DISCR, tested := a, forks := forks, errors := 0.0)
  }

  lemma DiscreteTakes(node: Tree<real>, a: nat, n: nat, c: Case)
    requires DVal(c, a) <= n
    ensures Takes(DiscreteTest(node, a, n), c, DVal(c, a))
  {}

  lemma DiscreteReady(node: Tree<real>, s: seq<Item>, a: nat, n: nat, i: nat, j: nat, m: real)
    requires forall x :: x in s ==> DVal(x.desc, a) <= n
    requires 1 <= i < j <= n && Sum(s, HasValue(a, i)) >= m && Sum(s, HasValue(a, j)) >= m && m > 0.0
    ensures Ready(DiscreteTest(node, a, n), s, m)
  {
    var t := DiscreteTest(node, a, n);
    forall x | x in s
      ensures Decided(t, x.desc)
    {
      DiscreteTakes(node, a, n, x.desc);
    }
    SumSame(s, HasValue(a, i), InBranch(t, i));
    SumSame(s, HasValue(a, j), InBranch(t, j));
  }

  /** Two values with a weight of m each are what the gain of a split asks for. */
  lemma DiscreteGainReady(node: Tree<real>, rows: seq<Row>, s: seq<Item>, a: nat, n: nat, classes: nat, m: real)
    requires |rows| == n + 1 && Frequencies(rows, s, a, classes) && m > 0.0 && Reasonable(rows, n, m) >= 2
    requires forall x :: x in s ==> DVal(x.desc, a) <= n
    ensures Ready(DiscreteTest(node, a, n), s, m)
  {
    var i, j := ReasonableTwo(rows, n, m);
    DiscreteReady(node, s, a, n, i, j, m);
  }

  // ---- Tests on groups of values --------------------------------------------------------------

  function SubsetTest(node: Tree<real>, a: nat, sets: seq<Bits>): Tree<real> {
    node.(nodeType := BR_SUBSET, tested := a, forks := |sets|, errors := 0.0, subset := sets)
  }

  /** The cases whose value is at most n and in block b. */
  function Owned(a: nat, owner: seq<nat>, b: nat, n: nat): Item -> real {
    (x: Item) => if 1 <= DVal(x.desc, a) <= n && DVal(x.desc, a) < |owner| && owner[DVal(x.desc, a)] == b then x.weight
      else 0.0
  }

  lemma {:induction false} SumAdd(s: seq<Item>, f: Item -> real, g: Item -> real, h: Item -> real)
    requires forall x :: x in s ==> f(x) == g(x) + h(x)
    ensures Sum(s, f) == Sum(s, g) + Sum(s, h)
  {
    if s != [] {
      SumAdd(s[..|s| - 1], f, g, h);
    }
  }

  lemma {:induction false} ColumnIsOwned(rows: seq<Row>, s: seq<Item>, a: nat, classes: nat, owner: seq<nat>, b: nat,
                                         n: nat)
    requires n < |rows| && n < |owner| && Frequencies(rows, s, a, classes)
    ensures Column(rows, owner, b, classes, n) == Sum(s, Owned(a, owner, b, n))
  {
    if n == 0 {
      SumIsZero(s, Owned(a, owner, b, 0));
    } else {
      ColumnIsOwned(rows, s, a, classes, owner, b, n - 1);
      if owner[n] == b {
        SumAdd(s, Owned(a, owner, b, n), Owned(a, owner, b, n - 1), HasValue(a, n));
      } else {
        SumSame(s, Owned(a, owner, b, n), Owned(a, owner, b, n - 1));
      }
    }
  }

  lemma SubsetTakes(node: Tree<real>, a: nat, sets: seq<Bits>, owner: seq<nat>, n: nat, c: Case)
    requires Groups(sets, owner, n) && DVal(c, a) <= n
    ensures Takes(SubsetTest(node, a, sets), c, if DVal(c, a) == 0 then 0 else owner[DVal(c, a)])
  {
    hide In;
    var t, d := SubsetTest(node, a, sets), DVal(c, a);
    forall b: nat | 1 <= b <= |sets|
      ensures Goes(t, b, c) <==> d > 0 && owner[d] == b
    {
      assert InGroup(sets, owner, b, d);
    }
  }

  lemma SubsetReady(node: Tree<real>, rows: seq<Row>, s: seq<Item>, a: nat, n: nat, classes: nat,
                    sets: seq<Bits>, owner: seq<nat>, m: real)
    requires |rows| == n + 1 && Frequencies(rows, s, a, classes) && m > 0.0
    requires Groups(sets, owner, n) && TwoGroups(rows, owner, |sets|, classes, n, m)
    requires forall x :: x in s ==> DVal(x.desc, a) <= n
    ensures Ready(SubsetTest(node, a, sets), s, m)
  {
    hide In, Goes, InGroup;
    var t := SubsetTest(node, a, sets);
    forall x | x in s
      ensures Decided(t, x.desc)
    {
      SubsetTakes(node, a, sets, owner, n, x.desc);
    }
    var i, j :| 1 <= i < j <= |sets| && Column(rows, owner, i, classes, n) >= m
      && Column(rows, owner, j, classes, n) >= m;
    SubsetBranch(node, rows, s, a, n, classes, sets, owner, i);
    SubsetBranch(node, rows, s, a, n, classes, sets, owner, j);
  }

  lemma SubsetBranch(node: Tree<real>, rows: seq<Row>, s: seq<Item>, a: nat, n: nat, classes: nat,
                     sets: seq<Bits>, owner: seq<nat>, b: nat)
    requires |rows| == n + 1 && Frequencies(rows, s, a, classes) && Groups(sets, owner, n) && 1 <= b <= |sets|
    requires forall x :: x in s ==> DVal(x.desc, a) <= n
    ensures Sum(s, InBranch(SubsetTest(node, a, sets), b)) == Column(rows, owner, b, classes, n)
  {
    GroupsLength(sets, owner, n);
    hide In, Goes, Groups, Frequencies;
    var t := SubsetTest(node, a, sets);
    forall i | 0 <= i < |s|
      ensures InBranch(t, b)(s[i]) == Owned(a, owner, b, n)(s[i])
    {
      assert s[i] in s;
      SubsetTakes(node, a, sets, owner, n, s[i].desc);
    }
    SumSame(s, InBranch(t, b), Owned(a, owner, b, n));
    ColumnIsOwned(rows, s, a, classes, owner, b, n);
  }

  lemma GroupsLength(sets: seq<Bits>, owner: seq<nat>, n: nat)
    requires Groups(sets, owner, n)
    ensures |owner| == n + 1 && forall v :: 1 <= v <= n ==> 1 <= owner[v] <= |sets|
  {}

  // ---- Tests on a continuous attribute --------------------------------------------------------

  function Below(a: nat, t: real): Item -> real {
    (x: Item) => if CVal(x.desc, a) != UNKNOWN && CVal(x.desc, a) <= t then x.weight else 0.0
  }

  function Above(a: nat, t: real): Item -> real {
    (x: Item) => if CVal(x.desc, a) != UNKNOWN && CVal(x.desc, a) > t then x.weight else 0.0
  }

  function Nowhere(a: nat): Item -> real {
    (x: Item) => if CVal(x.desc, a) == UNKNOWN then x.weight else 0.0
  }

  /** The weights of the unknown values, of those up to t and of those above t. */
  function SplitWeights(s: seq<Item>, a: nat, t: real): Row
  {
    [Sum(s, Nowhere(a)), Sum(s, Below(a, t)), Sum(s, Above(a, t))]
  }

  function ContinTest(node: Tree<real>, a: nat, cut: real): Tree<real> {
    node.(nodeType := THRESH_CONTIN, tested := a, forks := 2, cut := cut, lower := cut, upper := cut, errors := 0.0)
  }

  ghost predicate Splits(s: seq<Item>, a: nat, bar: real, m: real) {
    Sum(s, Below(a, bar)) >= m && Sum(s, Above(a, bar)) >= m
  }

  lemma ContinTakes(node: Tree<real>, a: nat, cut: real, c: Case)
    ensures Takes(ContinTest(node, a, cut), c, if CVal(c, a) == UNKNOWN then 0 else if CVal(c, a) <= cut then 1 else 2)
  {}

  /** Moving the threshold from bar to the greatest value not above it changes no side. */
  lemma ContinReady(node: Tree<real>, s: seq<Item>, a: nat, bar: real, cut: real, m: real)
    requires Splits(s, a, bar, m) && m > 0.0 && cut <= bar
    requires forall x :: x in s && CVal(x.desc, a) != UNKNOWN && CVal(x.desc, a) <= bar ==> CVal(x.desc, a) <= cut
    ensures Ready(ContinTest(node, a, cut), s, m)
  {
    var t := ContinTest(node, a, cut);
    forall x | x in s
      ensures Decided(t, x.desc)
    {
      ContinTakes(node, a, cut, x.desc);
    }
    SumSame(s, Below(a, bar), InBranch(t, 1));
    SumSame(s, Above(a, bar), InBranch(t, 2));
  }

  lemma SplitsPerm(s: seq<Item>, r: seq<Item>, a: nat, bar: real, m: real)
    requires multiset(s) == multiset(r) && Splits(s, a, bar, m)
    ensures Splits(r, a, bar, m)
  {
    SumPerm(s, r, Below(a, bar));
    SumPerm(s, r, Above(a, bar));
  }

  ghost predicate SortedOn(s: seq<Item>, a: nat, lo: nat, hi: nat) {
    lo <= hi <= |s| && forall i, j :: lo <= i <= j < hi ==> CVal(s[i].desc, a) <= CVal(s[j].desc, a)
  }

  /** A bar between two neighbours in the sorted stretch of known values splits it there. */
  lemma CutSplits(s: seq<Item>, a: nat, fp: nat, xp: nat, i: nat, hi: nat, bar: real, m: real)
    requires fp <= xp <= i < hi - 1 && SortedOn(s, a, xp, hi)
    requires forall j :: fp <= j < xp ==> CVal(s[j].desc, a) == UNKNOWN
    requires forall j :: xp <= j < hi ==> CVal(s[j].desc, a) != UNKNOWN
    requires CVal(s[i].desc, a) <= bar < CVal(s[i + 1].desc, a)
    requires Load(s, xp, i + 1) >= m && Load(s, i + 1, hi) >= m
    ensures Splits(s[fp..hi], a, bar, m)
    ensures SplitWeights(s[fp..hi], a, bar) == [Load(s, fp, xp), Load(s, xp, i + 1), Load(s, i + 1, hi)]
  {
    SplitSlice(s, fp, xp, hi);
    SplitSlice(s, xp, i + 1, hi);
    var u, l, h := s[fp..xp], s[xp..i + 1], s[i + 1..hi];
    SumConcat(u, l + h, Nowhere(a));
    SumConcat(l, h, Nowhere(a));
    SumSame(u, Weigh(), Nowhere(a));
    SumIsZero(l, Nowhere(a));
    SumIsZero(h, Nowhere(a));
    SumConcat(u, l + h, Below(a, bar));
    SumConcat(u, l + h, Above(a, bar));
    SumConcat(l, h, Below(a, bar));
    SumConcat(l, h, Above(a, bar));
    SumIsZero(u, Below(a, bar));
    SumIsZero(u, Above(a, bar));
    SumSame(l, Weigh(), Below(a, bar));
    SumSame(h, Weigh(), Above(a, bar));
    SumIsZero(h, Below(a, bar));
    SumIsZero(l, Above(a, bar));
  }

  lemma GoodValues(s: seq<Item>, lo: nat, hi: nat, maxClass: nat, maxAttVal: seq<nat>, a: nat)
    requires AllGood(s, maxClass, maxAttVal) && lo <= hi <= |s| && a < |maxAttVal| && maxAttVal[a] > 0
    ensures forall x :: x in s[lo..hi] ==> DVal(x.desc, a) <= maxAttVal[a]
  {
    forall x | x in s[lo..hi]
      ensures DVal(x.desc, a) <= maxAttVal[a]
    {
      var i :| lo <= i < hi && s[i] == x;
      assert Good(s[i].desc, maxClass, maxAttVal);
    }
  }

  lemma GoodClass(s: seq<Item>, i: nat, maxClass: nat, maxAttVal: seq<nat>)
    requires AllGood(s, maxClass, maxAttVal) && i < |s|
    ensures s[i].desc.cls <= maxClass
  {
    assert Good(s[i].desc, maxClass, maxAttVal);
  }

  lemma ReadyWeaker(t: Tree<real>, s: seq<Item>, m: real, m': real)
    requires Ready(t, s, m) && 0.0 < m' <= m
    ensures Ready(t, s, m')
  {
    hide Goes, Decides;
  }

  // ---- Candidates -----------------------------------------------------------------------------

  const CONTIN := 0
  const DISCR := 1
  const GROUPED := 2

  /** What the evaluation of an attribute leaves: the gain and information of a test on it, its bar
      or its groups of values. */
  datatype Candidate = Candidate(gain: real, info: real, bar: real, sets: seq<Bits>)

  /** A candidate with a gain above -EPSILON stands for a test that divides the cases of s. */
  ghost predicate Usable(s: seq<Item>, lo: nat, hi: nat, node: Tree<real>, a: nat, n: nat, kind: int, c: Candidate,
                         m: real) {
    && lo <= hi <= |s|
    && (c.gain > 0.0 - EPSILON ==>
          if kind == CONTIN then Splits(s[lo..hi], a, c.bar, m)
          else Ready(if kind == DISCR then DiscreteTest(node, a, n) else SubsetTest(node, a, c.sets), s[lo..hi], m))
  }

  lemma ReadyPerm(t: Tree<real>, s: seq<Item>, r: seq<Item>, m: real)
    requires multiset(s) == multiset(r) && Ready(t, s, m)
    ensures Ready(t, r, m)
  {
    hide Goes, Decides, Divides;
    PermDivides(t, s, r, m);
  }

  lemma UsablePerm(s: seq<Item>, r: seq<Item>, lo: nat, hi: nat, node: Tree<real>, a: nat, n: nat, kind: int,
                   c: Candidate, m: real, m': real)
    requires Usable(s, lo, hi, node, a, n, kind, c, m) && Perm(s, r, lo, hi) && 0.0 < m' <= m
    ensures Usable(r, lo, hi, node, a, n, kind, c, m')
  {
    hide Ready, Splits, DiscreteTest, SubsetTest;
    if c.gain > 0.0 - EPSILON {
      if kind == CONTIN {
        SplitsPerm(s[lo..hi], r[lo..hi], a, c.bar, m);
        SplitsWeaker(r[lo..hi], a, c.bar, m, m');
      } else {
        var t := if kind == DISCR then DiscreteTest(node, a, n) else SubsetTest(node, a, c.sets);
        ReadyPerm(t, s[lo..hi], r[lo..hi], m);
        ReadyWeaker(t, r[lo..hi], m, m');
      }
    }
  }

  lemma SplitsWeaker(s: seq<Item>, a: nat, bar: real, m: real, m': real)
    requires Splits(s, a, bar, m) && m' <= m
    ensures Splits(s, a, bar, m')
  {}

  ghost predicate AllUsable(s: seq<Item>, lo: nat, hi: nat, node: Tree<real>, maxAttVal: seq<nat>, kinds: seq<int>,
                            cands: seq<Candidate>, m: real) {
    |cands| <= |kinds| == |maxAttVal| && forall a :: 0 <= a < |cands| ==>
        Usable(s, lo, hi, node, a, maxAttVal[a], kinds[a], cands[a], m)
  }

  /** The next candidate is usable, and the earlier ones stay so. */
  lemma AllUsableStep(s: seq<Item>, r: seq<Item>, lo: nat, hi: nat, node: Tree<real>, maxAttVal: seq<nat>,
                      kinds: seq<int>, cands: seq<Candidate>, c: Candidate, m: real, m': real)
    requires AllUsable(s, lo, hi, node, maxAttVal, kinds, cands, m) && Perm(s, r, lo, hi) && 0.0 < m' <= m
    requires |cands| < |kinds| && Usable(r, lo, hi, node, |cands|, maxAttVal[|cands|], kinds[|cands|], c, m')
    ensures AllUsable(r, lo, hi, node, maxAttVal, kinds, cands + [c], m')
  {
    hide Usable;
    forall a | 0 <= a < |cands + [c]|
      ensures Usable(r, lo, hi, node, a, maxAttVal[a], kinds[a], (cands + [c])[a], m')
    {
      if a < |cands| {
        UsablePerm(s, r, lo, hi, node, a, maxAttVal[a], kinds[a], cands[a], m, m');
      }
    }
  }

  lemma NoGain(s: seq<Item>, lo: nat, hi: nat, node: Tree<real>, a: nat, n: nat, kind: int, c: Candidate, m: real)
    requires lo <= hi <= |s| && c.gain <= 0.0 - EPSILON
    ensures Usable(s, lo, hi, node, a, n, kind, c, m)
  {}

  // ---- Cuts between neighbours ----------------------------------------------------------------

  /** Between items i and i + 1 of the sorted stretch from xp there may be a cut. */
  ghost predicate CutAt(s: seq<Item>, a: nat, xp: nat, i: nat, hi: nat, m: real) {
    && xp <= i < hi - 1 && hi <= |s|
    && CVal(s[i].desc, a) < CVal(s[i + 1].desc, a) - 0.00001
    && Load(s, xp, i + 1) >= m && Load(s, i + 1, hi) >= m
  }

  /** A gain above -EPSILON marks a cut. */
  ghost predicate CutsMarked(g: seq<real>, s: seq<Item>, a: nat, xp: nat, hi: nat, m: real) {
    |g| == |s| && hi <= |s| && forall i :: xp <= i < hi ==> g[i] > 0.0 - EPSILON ==> CutAt(s, a, xp, i, hi, m)
  }

  lemma NoCuts(g: seq<real>, s: seq<Item>, a: nat, xp: nat, hi: nat, m: real)
    requires |g| == |s| && hi <= |s| && forall i :: xp <= i < hi ==> g[i] == 0.0 - EPSILON
    ensures CutsMarked(g, s, a, xp, hi, m)
  {}

  /** The information of every cut marked is that of the weights unknown, below and above it. */
  ghost predicate InfosMarked(g: seq<real>, info: seq<real>, s: seq<Item>, fp: nat, xp: nat, hi: nat, items: real,
                              meas: Measures) {
    && |g| == |info| == |s| && fp <= xp <= hi <= |s| && items > 0.0
    && forall i :: xp <= i < hi && g[i] > 0.0 - EPSILON ==> info[i] == CutInfo(s, fp, xp, i, hi, items, meas)
  }

  ghost function CutInfo(s: seq<Item>, fp: nat, xp: nat, i: nat, hi: nat, items: real, meas: Measures): real
    requires fp <= xp <= i < hi <= |s| && items > 0.0
  {
    meas.total([Load(s, fp, xp), Load(s, xp, i + 1), Load(s, i + 1, hi)]) / items
  }

  lemma NoInfos(g: seq<real>, info: seq<real>, s: seq<Item>, fp: nat, xp: nat, hi: nat, items: real, meas: Measures)
    requires |g| == |info| == |s| && fp <= xp <= hi <= |s| && items > 0.0
    requires forall i :: xp <= i < hi ==> g[i] == 0.0 - EPSILON
    ensures InfosMarked(g, info, s, fp, xp, hi, items, meas)
  {}

  lemma MarkInfo(g: seq<real>, info: seq<real>, s: seq<Item>, fp: nat, xp: nat, i: nat, hi: nat, items: real,
                 meas: Measures, x: real, y: real)
    requires InfosMarked(g, info, s, fp, xp, hi, items, meas) && xp <= i < hi
             && y == CutInfo(s, fp, xp, i, hi, items, meas)
    ensures InfosMarked(g[i := x], info[i := y], s, fp, xp, hi, items, meas)
  {}

  lemma MarkCut(g: seq<real>, s: seq<Item>, a: nat, xp: nat, i: nat, hi: nat, m: real, gain: real, low: real)
    requires CutsMarked(g, s, a, xp, hi, m) && xp <= i < hi - 1 && low == Load(s, xp, i + 1)
    requires CVal(s[i].desc, a) < CVal(s[i + 1].desc, a) - 0.00001
    requires gain > 0.0 - EPSILON ==> low >= m && Load(s, xp, hi) - low >= m
    ensures CutsMarked(g[i := gain], s, a, xp, hi, m)
  {
    LoadStep(s, xp, i, hi);
  }

  /** The known stretch is sorted, the unknown one in front of it. */
  ghost predicate SortedKnown(s: seq<Item>, a: nat, fp: nat, xp: nat, hi: nat) {
    && fp <= xp <= hi <= |s| && SortedOn(s, a, xp, hi)
    && (forall j :: fp <= j < xp ==> CVal(s[j].desc, a) == UNKNOWN)
    && (forall j :: xp <= j < hi ==> CVal(s[j].desc, a) != UNKNOWN)
  }

  lemma CutIsSplit(s: seq<Item>, a: nat, fp: nat, xp: nat, i: nat, hi: nat, bar: real, m: real)
    requires SortedKnown(s, a, fp, xp, hi) && CutAt(s, a, xp, i, hi, m)
    requires bar == (CVal(s[i].desc, a) + CVal(s[i + 1].desc, a)) / 2.0
    ensures SplitsIn(s, fp, hi, a, bar, m)
    ensures SplitWeights(s[fp..hi], a, bar) == [Load(s, fp, xp), Load(s, xp, i + 1), Load(s, i + 1, hi)]
  {
    CutSplits(s, a, fp, xp, i, hi, bar, m);
  }

  /** What is known of a cut that has been marked. */
  lemma MarkedCut(g: seq<real>, info: seq<real>, s: seq<Item>, a: nat, fp: nat, xp: nat, i: nat, hi: nat, items: real,
                  meas: Measures, m: real)
    requires CutsMarked(g, s, a, xp, hi, m) && InfosMarked(g, info, s, fp, xp, hi, items, meas)
    requires xp <= i < hi && g[i] > 0.0 - EPSILON
    ensures CutAt(s, a, xp, i, hi, m) && info[i] == CutInfo(s, fp, xp, i, hi, items, meas)
  {}

  /** The information of a cut is that of the weights unknown, below and above the bar. */
  lemma InfoIs(s: seq<Item>, a: nat, fp: nat, xp: nat, i: nat, hi: nat, items: real, meas: Measures, bar: real)
    requires fp <= xp <= i < hi <= |s| && items > 0.0
    requires SplitWeights(s[fp..hi], a, bar) == [Load(s, fp, xp), Load(s, xp, i + 1), Load(s, i + 1, hi)]
    ensures CutInfo(s, fp, xp, i, hi, items, meas) == meas.total(SplitWeights(s[fp..hi], a, bar)) / items
  {}

  /** The unknown items in front and the others after them. */
  lemma KnownIs(s0: seq<Item>, s1: seq<Item>, t: Tree<real>, a: nat, fp: nat, xp: nat, hi: nat)
    requires Perm(s0, s1, fp, hi) && Cut(s1, t, fp, xp, hi) && t.nodeType == THRESH_CONTIN && t.tested == a
    ensures fp <= xp <= hi <= |s0| == |s1|
    ensures Sum(s0[fp..hi], Nowhere(a)) == Load(s1, fp, xp)
  {
    UnknownHere(s1, t, a, fp, xp, hi);
    SumPerm(s0[fp..hi], s1[fp..hi], Nowhere(a));
    SplitSlice(s1, fp, xp, hi);
    SumConcat(s1[fp..xp], s1[xp..hi], Nowhere(a));
    SumSame(s1[fp..xp], Weigh(), Nowhere(a));
    SumIsZero(s1[xp..hi], Nowhere(a));
  }

  ghost predicate SplitsIn(s: seq<Item>, lo: nat, hi: nat, a: nat, bar: real, m: real) {
    lo <= hi <= |s| && Splits(s[lo..hi], a, bar, m)
  }

  lemma LoadStep(s: seq<Item>, xp: nat, i: nat, hi: nat)
    requires xp <= i < hi <= |s|
    ensures Load(s, xp, i + 1) == Load(s, xp, i) + s[i].weight
    ensures Load(s, xp, hi) == Load(s, xp, i + 1) + Load(s, i + 1, hi)
  {
    assert s[xp..i + 1] == s[xp..i] + [s[i]];
    SumSnoc(s[xp..i], s[i], Weigh());
    SplitSlice(s, xp, i + 1, hi);
    SumConcat(s[xp..i + 1], s[i + 1..hi], Weigh());
  }

  /** A sound gain of a binary split says that both sides carry at least m. */
  lemma BothSides(rows: seq<Row>, m: real)
    requires |rows| == 3 && (forall v :: 0 <= v < 3 ==> |rows[v]| > 0) && Reasonable(rows, 2, m) >= 2
    ensures rows[1][|rows[1]| - 1] >= m && rows[2][|rows[2]| - 1] >= m
  {
    assert Reasonable(rows, 0, m) == 0;
    assert Reasonable(rows, 1, m) <= 1;
  }

  /** The unknown values have been grouped and the rest sorted. */
  lemma GroupedAndSorted(s0: seq<Item>, s1: seq<Item>, s: seq<Item>, t: Tree<real>, a: nat, fp: nat, xp: nat, hi: nat)
    requires Perm(s0, s1, fp, hi) && Cut(s1, t, fp, xp, hi) && Perm(s1, s, xp, hi) && SortedOn(s, a, xp, hi)
    requires t.nodeType == THRESH_CONTIN && t.tested == a
    ensures Perm(s0, s, fp, hi) && SortedKnown(s, a, fp, xp, hi)
    ensures Load(s0, fp, hi) == Load(s1, fp, xp) + Load(s, xp, hi)
  {
    PermLoad(s0, s1, fp, hi);
    SplitSlice(s1, fp, xp, hi);
    SumConcat(s1[fp..xp], s1[xp..hi], Weigh());
    PermLoad(s1, s, xp, hi);
    PermIsTwoPerms(s1, s, fp, xp, hi);
    PermKeepsCut(s1, s, t, fp, xp, hi);
    PermWider(s1, s, xp, hi, fp, hi);
    PermTrans(s0, s1, s, fp, hi);
    UnknownHere(s, t, a, fp, xp, hi);
  }

  lemma UnknownHere(s: seq<Item>, t: Tree<real>, a: nat, fp: nat, xp: nat, hi: nat)
    requires Cut(s, t, fp, xp, hi) && t.nodeType == THRESH_CONTIN && t.tested == a
    ensures forall j :: fp <= j < xp ==> CVal(s[j].desc, a) == UNKNOWN
    ensures forall j :: xp <= j < hi ==> CVal(s[j].desc, a) != UNKNOWN
  {}

  /** Some known value is not above the bar. */
  lemma SomeBelow(s: seq<Item>, lo: nat, hi: nat, a: nat, bar: real, m: real) returns (i: nat)
    requires lo <= hi <= |s| && Splits(s[lo..hi], a, bar, m) && m > 0.0
    ensures i < |s| && CVal(s[i].desc, a) != UNKNOWN && CVal(s[i].desc, a) <= bar
  {
    var j := SomeMember(s[lo..hi], Below(a, bar));
    i := lo + j;
    assert s[lo..hi][j] == s[i];
  }

  lemma ContinUsable(s: seq<Item>, lo: nat, hi: nat, node: Tree<real>, a: nat, n: nat, gain: real, info: real,
                     bar: real, m: real)
    requires lo <= hi <= |s| && (gain > 0.0 - EPSILON ==> SplitsIn(s, lo, hi, a, bar, m))
    ensures Usable(s, lo, hi, node, a, n, CONTIN, Candidate(gain, info, bar, []), m)
  {}

  lemma NoneUsable(s: seq<Item>, lo: nat, hi: nat, node: Tree<real>, maxAttVal: seq<nat>, kinds: seq<int>, m: real)
    requires |kinds| == |maxAttVal|
    ensures AllUsable(s, lo, hi, node, maxAttVal, kinds, [], m)
  {}

  lemma UsableAt(s: seq<Item>, lo: nat, hi: nat, node: Tree<real>, maxAttVal: seq<nat>, kinds: seq<int>,
                 cands: seq<Candidate>, m: real, a: nat)
    requires AllUsable(s, lo, hi, node, maxAttVal, kinds, cands, m) && a < |cands|
    ensures Usable(s, lo, hi, node, a, maxAttVal[a], kinds[a], cands[a], m)
  {}

  // ---- The tables of a binary split -----------------------------------------------------------

  lemma TablesShape(tables: Tables)
    requires tables.Valid()
    ensures |tables.rows| == tables.n + 1 && forall v :: 0 <= v <= tables.n ==> |tables.rows[v]| == tables.classes + 1
  {}

  /** The row holds the class weights of the items from lo up to i, its total is not yet formed. */
  ghost predicate ClassCounts(row: Row, s: seq<Item>, lo: nat, i: nat, classes: nat) {
    && lo <= i <= |s| && |row| == classes + 1 && row[classes] == 0.0
    && forall c :: 0 <= c < classes ==> row[c] == Sum(s[lo..i], InClass(c))
  }

  lemma NoClasses(row: Row, s: seq<Item>, lo: nat, classes: nat)
    requires lo <= |s| && |row| == classes + 1 && forall c :: 0 <= c <= classes ==> row[c] == 0.0
    ensures ClassCounts(row, s, lo, lo, classes)
  {}

  lemma ClassCounted(row: Row, s: seq<Item>, lo: nat, i: nat, classes: nat)
    requires ClassCounts(row, s, lo, i, classes) && i < |s| && s[i].desc.cls < classes
    ensures ClassCounts(row[s[i].desc.cls := row[s[i].desc.cls] + s[i].weight], s, lo, i + 1, classes)
  {
    assert s[lo..i + 1] == s[lo..i] + [s[i]];
    forall c | 0 <= c < classes
      ensures Sum(s[lo..i + 1], InClass(c)) == Sum(s[lo..i], InClass(c)) + if s[i].desc.cls == c then s[i].weight
              else 0.0
    {
      SumSnoc(s[lo..i], s[i], InClass(c));
    }
  }

  lemma ClassesCounted(row: Row, s: seq<Item>, lo: nat, hi: nat, maxClass: nat, maxAttVal: seq<nat>)
    requires ClassCounts(row, s, lo, hi, maxClass + 1) && AllGood(s, maxClass, maxAttVal)
    ensures row[maxClass + 1] == 0.0 && SumTo(row, maxClass + 1) == Load(s, lo, hi)
  {
    hide Good;
    forall i | 0 <= i < hi - lo
      ensures s[lo..hi][i].desc.cls < maxClass + 1
    {
      GoodClass(s, lo + i, maxClass, maxAttVal);
    }
    ClassTotalsSum(s[lo..hi], maxClass + 1);
    SumToPrefix(row, ClassTotals(s[lo..hi], maxClass + 1), maxClass + 1);
  }
}
