/** What the evaluation of the attributes at a node finds, and when the node becomes a leaf. */
module C45Choice {
  import opened Options
  import opened C45Types
  import opened Weighted
  import opened Ranges
  import opened C45Tests
  import opened Subset
  import opened C45Cuts
  import opened C45Thresholds

  /** The kind of an attribute that is not to be tested. */
  const IGNORED := -1

  /** How each attribute is evaluated, its number of discrete values, and whether it is among those
      without very many values; and all cases, of which a test may use the values. */
  datatype Plan = Plan(kinds: seq<int>, values: seq<nat>, classes: nat, meas: Measures, few: seq<bool>,
                       log: nat -> real, table: set<Case>)

  // ---- Unknown values -------------------------------------------------------------------------

  predicate KnownAt(c: Case, a: nat, kind: int) {
    if kind == CONTIN then CVal(c, a) != UNKNOWN else kind == IGNORED || DVal(c, a) > 0
  }

  /** The items from lo up to hi have no unknown values of the attributes, ignored ones apart. */
  ghost predicate Complete(s: seq<Item>, lo: nat, hi: nat, kinds: seq<int>) {
    lo <= hi <= |s| && forall i, a :: lo <= i < hi && 0 <= a < |kinds| ==> KnownAt(s[i].desc, a, kinds[a])
  }

  /** Only the attributes whose values are grouped. */
  function OnlyGrouped(kinds: seq<int>): (g: seq<int>)
    ensures |g| == |kinds| && forall a :: 0 <= a < |g| ==> g[a] == if kinds[a] == GROUPED then GROUPED else IGNORED
  {
    seq(|kinds|, a requires 0 <= a < |kinds| => if kinds[a] == GROUPED then GROUPED else IGNORED)
  }

  lemma PermKeepsComplete(s: seq<Item>, r: seq<Item>, lo: nat, hi: nat, kinds: seq<int>)
    requires Complete(s, lo, hi, kinds) && Perm(s, r, lo, hi)
    ensures Complete(r, lo, hi, kinds)
  {
    PermParts(s, r, lo, hi);
    forall i, a | lo <= i < hi && 0 <= a < |kinds|
      ensures KnownAt(r[i].desc, a, kinds[a])
    {
      assert r[i] in r[lo..hi];
      var j :| lo <= j < hi && s[j] == r[i];
    }
  }

  lemma CompleteStretch(s: seq<Item>, lo: nat, hi: nat, lo': nat, hi': nat, kinds: seq<int>)
    requires Complete(s, lo, hi, kinds) && lo <= lo' <= hi' <= hi
    ensures Complete(s, lo', hi', kinds)
  {}

  lemma ScaledComplete(s: seq<Item>, lo: nat, hi: nat, kp: nat, k: real, kinds: seq<int>)
    requires Complete(s, lo, hi, kinds) && lo <= kp <= |s|
    ensures Complete(ScaledIn(s, lo, kp, k), lo, hi, kinds)
  {}

  /** The weight of the items with a known value of a discrete attribute. */
  ghost function KnownWeight(s: seq<Item>, a: nat): real { Sum(s, Weigh()) - Sum(s, HasValue(a, 0)) }

  /** Next to nothing is known of attribute a. */
  ghost predicate Blank(s: seq<Item>, a: nat) { KnownWeight(s, a) < EPSILON }

  /** Next to nothing is known of some grouped attribute before n. */
  ghost predicate BlankBelow(s: seq<Item>, kinds: seq<int>, n: nat) {
    exists a: nat :: a < n && a < |kinds| && kinds[a] == GROUPED && Blank(s, a)
  }

  /** What MINOBJS is when attribute n is evaluated. */
  ghost function MinimumAt(s: seq<Item>, kinds: seq<int>, n: nat, m: nat): nat
  {
    if BlankBelow(s, kinds, n) then 1 else m
  }

  lemma BlankPerm(s: seq<Item>, r: seq<Item>, a: nat)
    requires multiset(s) == multiset(r)
    ensures KnownWeight(s, a) == KnownWeight(r, a)
  {
    SumPerm(s, r, Weigh());
    SumPerm(s, r, HasValue(a, 0));
  }

  lemma BlankBelowPerm(s: seq<Item>, r: seq<Item>, kinds: seq<int>, n: nat, m: nat)
    requires multiset(s) == multiset(r)
    ensures BlankBelow(s, kinds, n) <==> BlankBelow(r, kinds, n)
    ensures MinimumAt(s, kinds, n, m) == MinimumAt(r, kinds, n, m)
  {
    forall a: nat
      ensures Blank(s, a) <==> Blank(r, a)
    {
      BlankPerm(s, r, a);
    }
  }

  /** The step of MINOBJS from one attribute to the next. */
  lemma MinimumStep(s: seq<Item>, kinds: seq<int>, n: nat, m: nat)
    requires n < |kinds|
    ensures MinimumAt(s, kinds, n + 1, m) == if kinds[n] == GROUPED && Blank(s, n) then 1 else MinimumAt(s, kinds, n, m)
  {
    hide Blank;
  }

  lemma MinimumStart(s: seq<Item>, kinds: seq<int>, m: nat)
    ensures MinimumAt(s, kinds, 0, m) == m
  {}

  /** Where the grouped attributes are known, nothing is blank. */
  lemma CompleteNotBlank(s: seq<Item>, lo: nat, hi: nat, kinds: seq<int>, n: nat, m: nat)
    requires Complete(s, lo, hi, OnlyGrouped(kinds)) && Load(s, lo, hi) >= EPSILON
    ensures lo <= hi <= |s| && MinimumAt(s[lo..hi], kinds, n, m) == m
  {
    forall a: nat | a < |kinds| && kinds[a] == GROUPED
      ensures !Blank(s[lo..hi], a)
    {
      forall i | 0 <= i < hi - lo
        ensures HasValue(a, 0)(s[lo..hi][i]) == 0.0
      {
        assert KnownAt(s[lo + i].desc, a, OnlyGrouped(kinds)[a]);
      }
      SumIsZero(s[lo..hi], HasValue(a, 0));
    }
  }

  // ---- Classes of the values ------------------------------------------------------------------

  /** The table of attribute a: a row for each value, its last entry the total. */
  ghost function TableOf(s: seq<Item>, a: nat, n: nat, classes: nat): (rows: seq<Row>)
    ensures |rows| == n + 1 && Frequencies(rows, s, a, classes)
  {
    seq(n + 1, v requires 0 <= v <= n =>
      seq(classes + 1, c requires 0 <= c <= classes => if c < classes then Sum(s, Cell(a, v, c))
        else Sum(s, HasValue(a, v))))
  }

  lemma TableIs(rows: seq<Row>, s: seq<Item>, a: nat, n: nat, classes: nat)
    requires |rows| == n + 1 && Frequencies(rows, s, a, classes)
    ensures rows == TableOf(s, a, n, classes)
  {
    var r := TableOf(s, a, n, classes);
    forall v | 0 <= v <= n
      ensures rows[v] == r[v]
    {
      assert forall c :: 0 <= c < classes ==> rows[v][c] == r[v][c];
      assert rows[v][classes] == r[v][classes];
    }
  }

  lemma TablePerm(s: seq<Item>, r: seq<Item>, a: nat, n: nat, classes: nat)
    requires multiset(s) == multiset(r)
    ensures TableOf(s, a, n, classes) == TableOf(r, a, n, classes)
  {
    var rows := TableOf(s, a, n, classes);
    forall v | 0 <= v <= n
      ensures rows[v][classes] == Sum(r, HasValue(a, v))
    {
      SumPerm(s, r, HasValue(a, v));
    }
    forall v, c | 0 <= v <= n && 0 <= c < classes
      ensures rows[v][c] == Sum(r, Cell(a, v, c))
    {
      SumPerm(s, r, Cell(a, v, c));
    }
    TableIs(rows, r, a, n, classes);
  }

  lemma {:induction false} MemberSum(s: seq<Item>, f: Item -> real, i: nat)
    requires i < |s| && forall j :: 0 <= j < |s| ==> f(s[j]) >= 0.0
    ensures Sum(s, f) >= f(s[i])
  {
    var s', x := s[..|s| - 1], s[|s| - 1];
    if i < |s| - 1 {
      MemberSum(s', f, i);
    } else {
      SumNonNegative(s', f);
    }
  }

  lemma {:induction false} SumNonNegative(s: seq<Item>, f: Item -> real)
    requires forall j :: 0 <= j < |s| ==> f(s[j]) >= 0.0
    ensures Sum(s, f) >= 0.0
  {
    if s != [] {
      SumNonNegative(s[..|s| - 1], f);
    }
  }

  /** Where all weights are 1, every value that occurs has a class of weight 1. */
  lemma OnesHaveClass(s: seq<Item>, a: nat, v: nat, n: nat, classes: nat)
    requires v <= n && forall i :: 0 <= i < |s| ==> s[i].weight == 1.0 && s[i].desc.cls < classes
    ensures TableOf(s, a, n, classes)[v][classes] > 0.5 ==> HasClass(TableOf(s, a, n, classes)[v])
  {
    var row := TableOf(s, a, n, classes)[v];
    if row[classes] > 0.5 {
      var i := SomeMember(s, HasValue(a, v));
      var c := s[i].desc.cls;
      MemberSum(s, Cell(a, v, c), i);
      assert row[c] >= 1.0;
    }
  }

  /** For some grouped attribute before n the search for the classes of its values leaves a row. */
  ghost predicate LostBelow(s: seq<Item>, p: Plan, n: nat) {
    exists a: nat :: a < n && a < |p.kinds| && a < |p.values| && p.kinds[a] == GROUPED && Lost(s, p, a)
  }

  ghost predicate Lost(s: seq<Item>, p: Plan, a: nat)
    requires a < |p.values|
  {
    !Blank(s, a) && !SearchStays(TableOf(s, a, p.values[a], p.classes), p.classes, p.values[a])
  }

  lemma LostPerm(s: seq<Item>, r: seq<Item>, p: Plan, a: nat)
    requires multiset(s) == multiset(r) && a < |p.values|
    ensures Lost(s, p, a) <==> Lost(r, p, a)
  {
    TablePerm(s, r, a, p.values[a], p.classes);
    BlankPerm(s, r, a);
  }

  lemma LostBelowPerm(s: seq<Item>, r: seq<Item>, p: Plan, n: nat)
    requires multiset(s) == multiset(r)
    ensures LostBelow(s, p, n) <==> LostBelow(r, p, n)
  {
    hide Lost;
    forall a: nat | a < |p.values|
      ensures Lost(s, p, a) <==> Lost(r, p, a)
    {
      LostPerm(s, r, p, a);
    }
  }

  /** Two values of the table are known. */
  lemma {:induction false} TwoKnown(s: seq<Item>, a: nat, u: nat, v: nat)
    requires Positive(s) && 0 < u < v
    ensures KnownWeight(s, a) >= Sum(s, HasValue(a, u)) + Sum(s, HasValue(a, v))
  {
    if s != [] {
      TwoKnown(s[..|s| - 1], a, u, v);
    }
  }

  /** It leaves one where two values of weight over 0.5 have no class of weight 0.1. */
  lemma TwoLost(s: seq<Item>, p: Plan, a: nat)
    requires Positive(s) && a < |p.values| && TwoClassless(TableOf(s, a, p.values[a], p.classes), p.values[a])
    ensures Lost(s, p, a)
  {
    hide HasClass, SearchStays;
    var rows := TableOf(s, a, p.values[a], p.classes);
    var u, v :| 1 <= u < v <= p.values[a] && Classless(rows[u]) && Classless(rows[v]);
    TwoKnown(s, a, u, v);
    ClasslessRunOff(rows, p.classes, p.values[a]);
  }

  // ---- Leaves ---------------------------------------------------------------------------------

  ghost predicate OneClass(s: seq<Item>) { forall x, y :: x in s && y in s ==> x.desc.cls == y.desc.cls }

  /** The items are of one class or too few to divide. */
  ghost predicate Stops(s: seq<Item>, m: nat) { OneClass(s) || Sum(s, Weigh()) < 2.0 * m as real }

  lemma {:induction false} ClassWithin(s: seq<Item>, c: nat)
    requires Positive(s)
    ensures Sum(s, InClass(c)) <= Sum(s, Weigh())
    ensures Sum(s, InClass(c)) == Sum(s, Weigh()) <==> forall x :: x in s ==> x.desc.cls == c
  {
    if s != [] {
      var s', x := s[..|s| - 1], s[|s| - 1];
      ClassWithin(s', c);
      assert s == s' + [x];
    }
  }

  /** The most frequent class has all the weight exactly where there is one class. */
  lemma PureLeaf(s: seq<Item>, d: seq<real>, leaf: int, n: nat)
    requires Positive(s) && d == ClassTotals(s, n) && IsBest(d, leaf) && forall x :: x in s ==> x.desc.cls < n
    ensures d[leaf] <= Sum(s, Weigh()) && (d[leaf] == Sum(s, Weigh()) <==> OneClass(s))
  {
    ClassWithin(s, leaf);
    if s != [] && OneClass(s) {
      var c := s[0].desc.cls;
      assert s[0] in s;
      ClassWithin(s, c);
      assert d[c] <= d[leaf];
    }
  }

  // ---- Evaluating and choosing ----------------------------------------------------------------

  /** The gain of a test with a branch for each value. */
  ghost function DiscreteGain(s: seq<Item>, a: nat, p: Plan, m: nat): real
    requires a < |p.values|
  {
    var rows, cases := TableOf(s, a, p.values[a], p.classes), Sum(s, Weigh());
    if cases == 0.0 || cases <= rows[0][p.classes] then 0.0 - EPSILON
    else GainOf(rows, BaseOf(rows, p.classes, p.meas), rows[0][p.classes] / cases, p.values[a],
      cases - rows[0][p.classes],
                m as real, p.meas.total)
  }

  ghost function DiscreteInfo(s: seq<Item>, a: nat, p: Plan): real
    requires a < |p.values|
  {
    var rows, cases := TableOf(s, a, p.values[a], p.classes), Sum(s, Weigh());
    if cases == 0.0 || cases <= rows[0][p.classes] then 0.0
    else p.meas.total(TotalsOf(rows, p.classes, p.values[a] + 1)) / cases
  }

  /** The gain and information of a test with a branch for each group: its groups partition the values,
      and they are those of the table of the groups, those of the missing values apart. */
  ghost predicate GroupedGain(c: Candidate, s: seq<Item>, a: nat, p: Plan, m: nat)
    requires a < |p.values|
  {
    if c.sets == [] then c.gain == 0.0 - EPSILON else
    exists rows, owner, blocks :: GroupTable(rows, owner, blocks, c, s, a, p)
      && c.gain == GroupTableGain(rows, blocks, s, a, p, m) && c.info == GroupTableInfo(rows, blocks, s, a, p)
  }

  ghost predicate GroupTable(rows: seq<Row>, owner: seq<nat>, blocks: nat, c: Candidate, s: seq<Item>, a: nat, p: Plan)
    requires a < |p.values|
  {
    && Groups(c.sets, owner, p.values[a])
    && BlockSums(rows, TableOf(s, a, p.values[a], p.classes), owner, blocks, p.values[a], p.classes + 1)
  }

  ghost function GroupTableGain(rows: seq<Row>, blocks: nat, s: seq<Item>, a: nat, p: Plan, m: nat): real
    requires a < |p.values| && blocks < |rows| && forall v :: 0 <= v < |rows| ==> |rows[v]| > 0
  {
    var orig, cases := TableOf(s, a, p.values[a], p.classes), Sum(s, Weigh());
    if cases == 0.0 then 0.0 else
    GainOf(rows, BaseOf(orig, p.classes, p.meas), orig[0][p.classes] / cases, blocks, cases - orig[0][p.classes],
      m as real, p.meas.total)
  }

  ghost function GroupTableInfo(rows: seq<Row>, blocks: nat, s: seq<Item>, a: nat, p: Plan): real
    requires a < |p.values| && blocks < |rows| && forall v :: 0 <= v < |rows| ==> |rows[v]| == p.classes + 1
  {
    var orig, cases := TableOf(s, a, p.values[a], p.classes), Sum(s, Weigh());
    if cases <= 0.0 then 0.0 else GroupInfo(rows, orig, p.classes, blocks, p.values[a], cases, p.meas.total)
  }

  lemma GroupedGainIs(c: Candidate, s: seq<Item>, a: nat, p: Plan, m: nat, rows: seq<Row>, owner: seq<nat>, blocks: nat)
    requires a < |p.values| && Sum(s, Weigh()) > 0.0
    requires c.sets == [] ==> c.gain == 0.0 - EPSILON
    requires c.sets != [] ==>
               && GroupTable(rows, owner, blocks, c, s, a, p) && c.gain == GroupTableGain(rows, blocks, s, a, p, m)
               && c.info == GroupTableInfo(rows, blocks, s, a, p)
    ensures GroupedGain(c, s, a, p, m)
  {}

  lemma AllOnesHaveClass(s: seq<Item>, lo: nat, hi: nat, a: nat, maxClass: nat, maxAttVal: seq<nat>)
    requires AllOnes(s, lo, hi) && SoundItems(s, lo, hi, maxClass, maxAttVal) && a < |maxAttVal|
    ensures var rows := TableOf(s[lo..hi], a, maxAttVal[a], maxClass + 1);
            forall v :: 0 <= v <= maxAttVal[a] && rows[v][maxClass + 1] > 0.5 ==> HasClass(rows[v])
  {
    hide HasClass, TableOf;
    SoundGood(s, lo, hi, maxClass, maxAttVal);
    forall i | 0 <= i < hi - lo
      ensures s[lo..hi][i].desc.cls < maxClass + 1
    {
      GoodClass(s, lo + i, maxClass, maxAttVal);
    }
    var rows := TableOf(s[lo..hi], a, maxAttVal[a], maxClass + 1);
    forall v | 0 <= v < |rows|
      ensures rows[v][maxClass + 1] > 0.5 ==> HasClass(rows[v])
    {
      OnesHaveClass(s[lo..hi], a, v, maxAttVal[a], maxClass + 1);
    }
  }

  /** What is known of the classes when an attribute is about to be grouped. */
  lemma ClassesFound(rows: seq<Row>, s: seq<Item>, lo: nat, hi: nat, a: nat, maxClass: nat, maxAttVal: seq<nat>,
                     p: Plan)
    requires FrequenciesIn(rows, s, lo, hi, a, maxClass + 1) && SoundItems(s, lo, hi, maxClass, maxAttVal)
    requires a < |maxAttVal| && maxAttVal[a] > 0 && |rows| == maxAttVal[a] + 1 && p.values == maxAttVal
             && p.classes == maxClass + 1
    ensures lo <= hi <= |s| && rows == TableOf(s[lo..hi], a, maxAttVal[a], maxClass + 1)
    ensures maxClass < 5 || AllOnes(s, lo, hi) ==> forall v :: 0 <= v < |rows| && rows[v][maxClass + 1] > 0.5 ==>
              HasClass(rows[v])
    ensures Lost(s[lo..hi], p, a) <==>
              Load(s, lo, hi) - rows[0][maxClass + 1] >= EPSILON && !SearchStays(rows, maxClass + 1, maxAttVal[a])
  {
    hide HasClass, SearchStays;
    TableIs(rows, s[lo..hi], a, maxAttVal[a], maxClass + 1);
    if maxClass < 5 {
      FewClasses(rows, s, lo, hi, a, maxClass, maxAttVal);
    }
    if AllOnes(s, lo, hi) {
      AllOnesHaveClass(s, lo, hi, a, maxClass, maxAttVal);
    }
  }

  lemma DiscretePerm(s: seq<Item>, r: seq<Item>, a: nat, p: Plan, m: nat)
    requires multiset(s) == multiset(r) && a < |p.values|
    ensures DiscreteGain(s, a, p, m) == DiscreteGain(r, a, p, m) && DiscreteInfo(s, a, p) == DiscreteInfo(r, a, p)
  {
    TablePerm(s, r, a, p.values[a], p.classes);
    SumPerm(s, r, Weigh());
  }

  lemma GroupedPerm(c: Candidate, s: seq<Item>, r: seq<Item>, a: nat, p: Plan, m: nat)
    requires multiset(s) == multiset(r) && a < |p.values| && GroupedGain(c, s, a, p, m)
    ensures GroupedGain(c, r, a, p, m)
  {
    TablePerm(s, r, a, p.values[a], p.classes);
    SumPerm(s, r, Weigh());
    hide Groups, GainOf, TableOf, BaseOf, GroupInfo;
    if c.sets != [] {
      var rows, owner, blocks :| GroupTable(rows, owner, blocks, c, s, a, p)
        && c.gain == GroupTableGain(rows, blocks, s, a, p, m) && c.info == GroupTableInfo(rows, blocks, s, a, p);
      assert GroupTable(rows, owner, blocks, c, r, a, p);
    }
  }

  /** What attribute a was evaluated to; a discrete attribute is not tested twice on a path. */
  ghost predicate Evaluated(c: Candidate, s: seq<Item>, p: Plan, a: nat, tested: nat, m: nat)
    requires a < |p.kinds| == |p.values|
  {
    if p.kinds[a] == IGNORED || (p.kinds[a] == DISCR && tested > 0) then c.gain == 0.0 - EPSILON
    else if p.kinds[a] == DISCR then c.gain == DiscreteGain(s, a, p, m) && c.info == DiscreteInfo(s, a, p)
    else if p.kinds[a] == CONTIN then ThresholdGain(c, s, a, p.classes, p.meas, p.log, m)
    else p.kinds[a] == GROUPED ==> GroupedGain(c, s, a, p, m) && (Blank(s, a) ==> c.gain == 0.0 - EPSILON)
  }

  ghost predicate AllEvaluated(cands: seq<Candidate>, s: seq<Item>, p: Plan, tested: seq<nat>, m: nat) {
    && |cands| <= |p.kinds| == |p.values| == |tested|
    && forall a :: 0 <= a < |cands| ==> Evaluated(cands[a], s, p, a, tested[a], MinimumAt(s, p.kinds, a, m))
  }

  lemma EvaluatedPerm(c: Candidate, s: seq<Item>, r: seq<Item>, p: Plan, a: nat, tested: nat, m: nat)
    requires a < |p.kinds| == |p.values| && multiset(s) == multiset(r) && Evaluated(c, s, p, a, tested, m)
    ensures Evaluated(c, r, p, a, tested, m)
  {
    hide DiscreteGain, DiscreteInfo, GroupedGain, ThresholdGain;
    DiscretePerm(s, r, a, p, m);
    BlankPerm(s, r, a);
    if p.kinds[a] == CONTIN && ThresholdGain(c, s, a, p.classes, p.meas, p.log, m) {
      ThresholdGainPerm(c, s, r, a, p.classes, p.meas, p.log, m);
    }
    if p.kinds[a] == GROUPED {
      GroupedPerm(c, s, r, a, p, m);
    }
  }

  lemma NoneEvaluated(s: seq<Item>, p: Plan, tested: seq<nat>, m: nat)
    requires |p.kinds| == |p.values| == |tested|
    ensures AllEvaluated([], s, p, tested, m)
  {}

  lemma AllEvaluatedStep(cands: seq<Candidate>, c: Candidate, s: seq<Item>, r: seq<Item>, p: Plan, tested: seq<nat>,
                         m: nat)
    requires AllEvaluated(cands, s, p, tested, m) && |cands| < |p.kinds| && multiset(r) == multiset(s)
    requires Evaluated(c, r, p, |cands|, tested[|cands|], MinimumAt(s, p.kinds, |cands|, m))
    ensures AllEvaluated(cands + [c], s, p, tested, m)
  {
    hide Evaluated, MinimumAt;
    EvaluatedPerm(c, r, s, p, |cands|, tested[|cands|], MinimumAt(s, p.kinds, |cands|, m));
  }

  lemma StretchPerm(s: seq<Item>, r: seq<Item>, lo: nat, hi: nat)
    requires Perm(s, r, lo, hi)
    ensures lo <= hi <= |s| == |r| && multiset(s[lo..hi]) == multiset(r[lo..hi])
  {}

  lemma SameBlank(s: seq<Item>, r: seq<Item>, a: nat)
    requires multiset(s) == multiset(r)
    ensures Blank(s, a) <==> Blank(r, a)
  {
    BlankPerm(s, r, a);
  }

  lemma NotLostYet(s: seq<Item>, p: Plan)
    ensures !LostBelow(s, p, 0)
  {}

  lemma LostBefore(s: seq<Item>, p: Plan, n: nat, m: nat)
    requires LostBelow(s, p, n) && n <= m
    ensures LostBelow(s, p, m)
  {
    hide Lost;
  }

  lemma LostStep(s: seq<Item>, r: seq<Item>, p: Plan, n: nat)
    requires multiset(s) == multiset(r) && n < |p.kinds| == |p.values|
    ensures LostBelow(s, p, n + 1) <==> LostBelow(s, p, n) || (p.kinds[n] == GROUPED && Lost(r, p, n))
  {
    hide Lost;
    LostPerm(s, r, p, n);
  }

  lemma GainStep(cands: seq<Candidate>, c: Candidate, few: seq<bool>)
    requires |cands| < |few|
    ensures GainSum(cands + [c], few, |cands| + 1)
         == GainSum(cands, few, |cands|) + if c.gain > 0.0 - EPSILON && few[|cands|] then c.gain else 0.0
    ensures GainCount(cands + [c], few, |cands| + 1)
         == GainCount(cands, few, |cands|) + if c.gain > 0.0 - EPSILON && few[|cands|] then 1 else 0
  {
    GainPrefix(cands, c, few, |cands|);
  }

  lemma {:induction false} GainPrefix(cands: seq<Candidate>, c: Candidate, few: seq<bool>, n: nat)
    requires n <= |cands| <= |few|
    ensures GainSum(cands + [c], few, n) == GainSum(cands, few, n)
            && GainCount(cands + [c], few, n) == GainCount(cands, few, n)
  {
    if n > 0 {
      GainPrefix(cands, c, few, n - 1);
    }
  }

  /** The sum and number of the gains that count in the average. */
  function GainSum(cands: seq<Candidate>, few: seq<bool>, n: nat): real
    requires n <= |cands| && n <= |few|
  {
    if n == 0 then 0.0 else GainSum(cands, few, n - 1) + if cands[n - 1].gain > 0.0 - EPSILON && few[n - 1]
      then cands[n - 1].gain else 0.0
  }

  function GainCount(cands: seq<Candidate>, few: seq<bool>, n: nat): nat
    requires n <= |cands| && n <= |few|
  {
    if n == 0 then 0 else GainCount(cands, few, n - 1) + if cands[n - 1].gain > 0.0 - EPSILON && few[n - 1] then 1
      else 0
  }

  lemma GainStart(few: seq<bool>)
    ensures GainSum([], few, 0) == 0.0 && GainCount([], few, 0) == 0
  {}

  function AverageGain(cands: seq<Candidate>, few: seq<bool>): real
    requires |cands| == |few|
  {
    if GainCount(cands, few, |few|) == 0 then 1000000.0
      else GainSum(cands, few, |few|) / GainCount(cands, few, |few|) as real
  }

  predicate Pays(c: Candidate, average: real, gainRatio: bool) {
    c.gain > 0.0 - EPSILON && Worth(c.info, c.gain, average, gainRatio) > 0.0 - EPSILON
  }

  /** The first of the most worthwhile tests. */
  predicate FirstBest(cands: seq<Candidate>, average: real, gainRatio: bool, best: int) {
    && 0 <= best < |cands| && Pays(cands[best], average, gainRatio)
    && (forall a :: 0 <= a < |cands| && Pays(cands[a], average, gainRatio) ==>
          Worth(cands[a].info, cands[a].gain, average, gainRatio) <= Worth(cands[best].info, cands[best].gain, average,
            gainRatio))
    && (forall a :: 0 <= a < best && Pays(cands[a], average, gainRatio) ==>
          Worth(cands[a].info, cands[a].gain, average, gainRatio) < Worth(cands[best].info, cands[best].gain, average,
            gainRatio))
  }

  /** No test is worthwhile and none is chosen, or the first of the best is. */
  ghost predicate Picked(cands: seq<Candidate>, s: seq<Item>, p: Plan, tested: seq<nat>, m: nat, best: int) {
    && AllEvaluated(cands, s, p, tested, m) && |cands| == |p.kinds| == |p.few|
    && if best < 0 then forall a :: 0 <= a < |cands| ==> !Pays(cands[a], AverageGain(cands, p.few), p.meas.gainRatio)
       else FirstBest(cands, AverageGain(cands, p.few), p.meas.gainRatio, best)
  }

  /** The node carries the test that was evaluated: its groups, or the greatest value of all cases that
      is not above its bar. */
  ghost predicate Carries(t: Tree<real>, c: Candidate, p: Plan)
    requires 0 <= t.tested < |p.kinds| == |p.values|
  {
    if p.kinds[t.tested] == CONTIN then
      t.forks == 2 && t.lower == t.cut == t.upper && GreatestBelow(t.cut, c.bar, t.tested, p.table)
    else if p.kinds[t.tested] == DISCR then t.forks == p.values[t.tested]
    else t.forks == |c.sets| && t.subset == c.sets
  }

  /** The greatest value of the attribute among the cases that is not above t. */
  ghost predicate GreatestBelow(v: real, t: real, a: nat, table: set<Case>) {
    && v != UNKNOWN && v <= t && (exists c :: c in table && CVal(c, a) == v)
    && forall c :: c in table && CVal(c, a) != UNKNOWN && CVal(c, a) <= t ==> CVal(c, a) <= v
  }

  /** The node has no branches although its items could be divided, because no test is worthwhile, or
      branches on the first of the best attributes by the test that was evaluated, unless it has been made
      a leaf again. */
  ghost predicate WellChosen(t: Tree<real>, s: seq<Item>, p: Plan, tested: seq<nat>, m: nat) {
    exists cands :: ChosenFrom(t, cands, s, p, tested, m)
  }

  ghost predicate ChosenFrom(t: Tree<real>, cands: seq<Candidate>, s: seq<Item>, p: Plan, tested: seq<nat>, m: nat) {
    && Picked(cands, s, p, tested, m, Choice(t))
    && (t.branch != [] ==>
          && 0 <= t.tested < |cands| && Carries(t, cands[t.tested], p)
          && |t.branch| == t.forks && t.nodeType in {LEAF, TypeOf(t.tested, p)})
  }

  /** The test is the one of the first of the best attributes. */
  ghost predicate TestChosen(t: Tree<real>, s: seq<Item>, p: Plan, tested: seq<nat>, m: nat) {
    exists cands :: TestFrom(t, cands, s, p, tested, m)
  }

  ghost predicate TestFrom(t: Tree<real>, cands: seq<Candidate>, s: seq<Item>, p: Plan, tested: seq<nat>, m: nat) {
    && 0 <= t.tested < |cands| && Picked(cands, s, p, tested, m, t.tested)
    && OfKind(t, p) && Carries(t, cands[t.tested], p)
  }

  /** The attribute a node branches on, -1 for none. */
  function Choice(t: Tree<real>): int { if t.branch == [] then -1 else t.tested }

  /** The test chosen at a node, or none. */
  ghost predicate PicksTest(t: Option<Tree<real>>, s: seq<Item>, p: Plan, tested: seq<nat>, m: nat, node: Tree<real>) {
    exists cands :: PickedFrom(t, cands, s, p, tested, m, node)
  }

  ghost predicate PickedFrom(t: Option<Tree<real>>, cands: seq<Candidate>, s: seq<Item>, p: Plan, tested: seq<nat>,
                             m: nat, node: Tree<real>) {
    && Picked(cands, s, p, tested, m, ChoiceOf(t))
    && (t.Some? ==> 0 <= t.value.tested < |cands| && Suits(t.value, p, node, cands[t.value.tested]))
  }

  function TypeOf(a: int, p: Plan): int
    requires 0 <= a < |p.kinds|
  {
    if p.kinds[a] == CONTIN then THRESH_CONTIN else if p.kinds[a] == DISCR then BR_DISCR else BR_SUBSET
  }

  /** The test is of its attribute's kind. */
  ghost predicate OfKind(t: Tree<real>, p: Plan) {
    && 0 <= t.tested < |p.kinds| == |p.values| && p.kinds[t.tested] in {CONTIN, DISCR, GROUPED}
    && t.nodeType == TypeOf(t.tested, p)
  }

  /** The test of the node as it was evaluated. */
  ghost predicate Suits(t: Tree<real>, p: Plan, node: Tree<real>, c: Candidate) {
    && OfKind(t, p) && Carries(t, c, p)
    && t == if p.kinds[t.tested] == CONTIN then ContinTest(node, t.tested, t.cut)
            else if p.kinds[t.tested] == DISCR then DiscreteTest(node, t.tested, p.values[t.tested])
            else SubsetTest(node, t.tested, c.sets)
  }

  /** The node keeps the test, but may have been made a leaf. */
  predicate KeepsTest(t: Tree<real>, r: Tree<real>) {
    && |r.branch| == t.forks > 0 && r.tested == t.tested && r.forks == t.forks && r.subset == t.subset
    && r.cut == t.cut && r.lower == t.lower && r.upper == t.upper && r.nodeType in {LEAF, t.nodeType}
  }

  /** A test on an attribute without unknown values has no unknown items. */
  lemma CompleteNoUnknown(s: seq<Item>, t: Tree<real>, fp: nat, kp: nat, hi: nat, p: Plan)
    requires OfKind(t, p) && Complete(s, fp, hi, p.kinds) && Cut(s, t, fp, kp, hi)
    ensures kp == fp
  {
    assert fp < kp ==> KnownAt(s[fp].desc, t.tested, p.kinds[t.tested]);
  }

  /** The items a branch is grown from are as well known as those of the node. */
  lemma BranchComplete(s0: seq<Item>, s1: seq<Item>, fp: nat, kp: nat, m: nat, hi: nat, k: real, kinds: seq<int>)
    requires Complete(s0, fp, hi, kinds) && fp <= kp <= m <= hi && Perm(s0, s1, kp, hi)
    ensures |s1| == |s0| && Complete(ScaledIn(s1, fp, kp, k), fp, m, kinds)
  {
    PermWider(s0, s1, kp, hi, fp, hi);
    PermKeepsComplete(s0, s1, fp, hi, kinds);
    ScaledComplete(s1, fp, hi, kp, k, kinds);
    CompleteStretch(ScaledIn(s1, fp, kp, k), fp, hi, fp, m, kinds);
  }

  function ChoiceOf(t: Option<Tree<real>>): int { if t.Some? then t.value.tested else -1 }

  /** What the test chosen says of the node made from it. */
  lemma ChosenWell(t: Option<Tree<real>>, r: Tree<real>, s: seq<Item>, p: Plan, tested: seq<nat>, m: nat,
                   node: Tree<real>)
    requires PicksTest(t, s, p, tested, m, node)
    requires if t.Some? then KeepsTest(t.value, r) else r.branch == []
    ensures WellChosen(r, s, p, tested, m)
  {
    hide Picked;
    var cands :| PickedFrom(t, cands, s, p, tested, m, node);
    assert ChosenFrom(r, cands, s, p, tested, m);
  }

  lemma NonePicked(cands: seq<Candidate>, s: seq<Item>, p: Plan, tested: seq<nat>, m: nat, node: Tree<real>)
    requires AllEvaluated(cands, s, p, tested, m) && |cands| == |p.kinds| == |p.few|
    requires forall a :: 0 <= a < |cands| ==> !Pays(cands[a], AverageGain(cands, p.few), p.meas.gainRatio)
    ensures PicksTest(None, s, p, tested, m, node)
  {
    assert PickedFrom(None, cands, s, p, tested, m, node);
  }

  lemma OnePicked(cands: seq<Candidate>, s: seq<Item>, p: Plan, tested: seq<nat>, m: nat, node: Tree<real>,
                  t: Tree<real>)
    requires AllEvaluated(cands, s, p, tested, m) && |cands| == |p.kinds| == |p.few| && 0 <= t.tested < |p.kinds|
    requires FirstBest(cands, AverageGain(cands, p.few), p.meas.gainRatio, t.tested)
    requires p.kinds[t.tested] != IGNORED ==> Suits(t, p, node, cands[t.tested])
    ensures PicksTest(Some(t), s, p, tested, m, node)
  {
    hide DiscreteGain, DiscreteInfo, GroupedGain, Suits;
    assert Evaluated(cands[t.tested], s, p, t.tested, tested[t.tested], MinimumAt(s, p.kinds, t.tested, m));
    assert PickedFrom(Some(t), cands, s, p, tested, m, node);
  }

  lemma PickIsOfKind(t: Tree<real>, s: seq<Item>, p: Plan, tested: seq<nat>, m: nat, node: Tree<real>)
    requires PicksTest(Some(t), s, p, tested, m, node)
    ensures OfKind(t, p) && TestChosen(t, s, p, tested, m)
  {
    hide Picked, Carries;
    var cands :| PickedFrom(Some(t), cands, s, p, tested, m, node);
    assert TestFrom(t, cands, s, p, tested, m);
  }

  /** What is picked does not depend on the order of the items. */
  lemma PickedPerm(cands: seq<Candidate>, s: seq<Item>, r: seq<Item>, p: Plan, tested: seq<nat>, m: nat, best: int)
    requires multiset(s) == multiset(r) && Picked(cands, s, p, tested, m, best)
    ensures Picked(cands, r, p, tested, m, best)
  {
    hide Evaluated, MinimumAt, AverageGain, Pays, FirstBest;
    forall a | 0 <= a < |cands|
      ensures Evaluated(cands[a], r, p, a, tested[a], MinimumAt(r, p.kinds, a, m))
    {
      BlankBelowPerm(s, r, p.kinds, a, m);
      EvaluatedPerm(cands[a], s, r, p, a, tested[a], MinimumAt(s, p.kinds, a, m));
    }
  }

  lemma WellChosenPerm(t: Tree<real>, s: seq<Item>, r: seq<Item>, p: Plan, tested: seq<nat>, m: nat)
    requires multiset(s) == multiset(r) && WellChosen(t, s, p, tested, m)
    ensures WellChosen(t, r, p, tested, m)
  {
    hide Picked, Carries;
    var cands :| ChosenFrom(t, cands, s, p, tested, m);
    PickedPerm(cands, s, r, p, tested, m, Choice(t));
    assert ChosenFrom(t, cands, r, p, tested, m);
  }

  lemma TestChosenPerm(t: Tree<real>, s: seq<Item>, r: seq<Item>, p: Plan, tested: seq<nat>, m: nat)
    requires multiset(s) == multiset(r) && TestChosen(t, s, p, tested, m)
    ensures TestChosen(t, r, p, tested, m)
  {
    hide Picked, Carries;
    var cands :| TestFrom(t, cands, s, p, tested, m);
    PickedPerm(cands, s, r, p, tested, m, t.tested);
    assert TestFrom(t, cands, r, p, tested, m);
  }

  // ---- What is known of the items -------------------------------------------------------------

  /** As BranchComplete, for all attributes and for the grouped ones; with weights of 1 no item is
      unknown. */
  lemma BranchKnown(s0: seq<Item>, s1: seq<Item>, t: Tree<real>, fp: nat, kp: nat, m: nat, hi: nat, k: real, p: Plan)
    requires fp <= kp <= m <= hi && Perm(s0, s1, kp, hi) && OfKind(t, p) && Cut(s0, t, fp, kp, hi)
    ensures |s1| == |s0| && kp <= |s1|
    ensures Complete(s0, fp, hi, OnlyGrouped(p.kinds)) ==>
              Complete(ScaledIn(s1, fp, kp, k), fp, m, OnlyGrouped(p.kinds))
    ensures Complete(s0, fp, hi, p.kinds) ==> kp == fp && Complete(ScaledIn(s1, fp, kp, k), fp, m, p.kinds)
  {
    hide Complete, OfKind, OnlyGrouped;
    if Complete(s0, fp, hi, OnlyGrouped(p.kinds)) {
      BranchComplete(s0, s1, fp, kp, m, hi, k, OnlyGrouped(p.kinds));
    }
    if Complete(s0, fp, hi, p.kinds) {
      BranchComplete(s0, s1, fp, kp, m, hi, k, p.kinds);
      CompleteNoUnknown(s0, t, fp, kp, hi, p);
    }
  }

  lemma StillComplete(s: seq<Item>, r: seq<Item>, lo: nat, hi: nat, p: Plan)
    requires Perm(s, r, lo, hi)
    ensures Complete(s, lo, hi, p.kinds) ==> Complete(r, lo, hi, p.kinds)
    ensures Complete(s, lo, hi, OnlyGrouped(p.kinds)) ==> Complete(r, lo, hi, OnlyGrouped(p.kinds))
  {
    hide Complete, OnlyGrouped;
    if Complete(s, lo, hi, p.kinds) {
      PermKeepsComplete(s, r, lo, hi, p.kinds);
    }
    if Complete(s, lo, hi, OnlyGrouped(p.kinds)) {
      PermKeepsComplete(s, r, lo, hi, OnlyGrouped(p.kinds));
    }
  }

  /** After some branches have been grown the items are as well known as before the grouping. */
  lemma StillKnown(s0: seq<Item>, s1: seq<Item>, s2: seq<Item>, fp: nat, kp: nat, hi: nat, p: Plan)
    requires Perm(s0, s1, fp, hi) && TwoPerms(s1, s2, fp, kp, hi)
    ensures Complete(s0, fp, hi, p.kinds) ==> Complete(s2, fp, hi, p.kinds)
    ensures Complete(s0, fp, hi, OnlyGrouped(p.kinds)) ==> Complete(s2, fp, hi, OnlyGrouped(p.kinds))
  {
    hide Complete, OnlyGrouped;
    TwoPermsPerm(s0, s1, s2, fp, kp, hi);
    StillComplete(s0, s2, fp, hi, p);
  }

  /** Where the grouped attributes are known and there are items enough, MINOBJS stays; where one is
      blank it drops. */
  lemma FormedKnown(s: seq<Item>, lo: nat, hi: nat, p: Plan, m: nat, n: nat)
    requires lo <= hi <= |s| && Load(s, lo, hi) >= 2.0 * m as real && m >= 1
    ensures Complete(s, lo, hi, OnlyGrouped(p.kinds)) ==> MinimumAt(s[lo..hi], p.kinds, n, m) == m
    ensures BlankBelow(s[lo..hi], p.kinds, n) ==> MinimumAt(s[lo..hi], p.kinds, n, m) == 1
  {
    hide Complete, OnlyGrouped, BlankBelow;
    if Complete(s, lo, hi, OnlyGrouped(p.kinds)) {
      CompleteNotBlank(s, lo, hi, p.kinds, n, m);
    }
  }

  lemma LoadIs(s: seq<Item>, lo: nat, hi: nat)
    requires lo <= hi <= |s|
    ensures Load(s, lo, hi) == Sum(s[lo..hi], Weigh())
  {}

  lemma LeafPure(s: seq<Item>, lo: nat, hi: nat, d: seq<real>, leaf: int, maxClass: nat, maxAttVal: seq<nat>)
    requires SoundItems(s, lo, hi, maxClass, maxAttVal) && Distribution(d, s, lo, hi, maxClass + 1) && IsBest(d, leaf)
    ensures 0 <= leaf < |d| && d[leaf] <= Load(s, lo, hi) && (d[leaf] == Load(s, lo, hi) <==> OneClass(s[lo..hi]))
  {
    hide OneClass, IsBest;
    BestBounds(d, leaf);
    SoundGood(s, lo, hi, maxClass, maxAttVal);
    forall x | x in s[lo..hi]
      ensures x.desc.cls < maxClass + 1
    {
      var i :| lo <= i < hi && s[i] == x;
      GoodClass(s, i, maxClass, maxAttVal);
    }
    PureLeaf(s[lo..hi], d, leaf, maxClass + 1);
  }
}
