/** Two inputs on which the building of trees does not keep what it promises. */
module C45Inputs {
  import opened Options
  import opened C45Types
  import opened Weighted
  import opened Ranges
  import opened C45Tests
  import opened C45Formed
  import opened Subset
  import opened C45Cuts
  import opened C45Choice
  import opened C45Minimum
  import opened C45Build

  // ---- Two branches with MINOBJS items --------------------------------------------------------

  /** Four cases of two classes. Nothing is known of the first attribute, which has three values; the
      second, of two values, separates the classes. */
  function FourCases(): seq<Case>
  {
    [Case([0, 1], [], 0), Case([0, 2], [], 1), Case([0, 2], [], 1), Case([0, 2], [], 1)]
  }

  function FourItems(): seq<Item> {
    [Item(FourCases()[0], 1.0), Item(FourCases()[1], 1.0), Item(FourCases()[2], 1.0), Item(FourCases()[3], 1.0)]
  }

  /** A measure of information as the source has it: rows of one class carry none, mixed ones some. */
  predicate Informative(meas: Measures) {
    && !meas.gainRatio && meas.total([1.0, 0.0]) == 0.0 && meas.total([0.0, 3.0]) == 0.0
      && meas.total([0.0, 1.0, 3.0]) > 0.0
    && meas.base([[1.0, 0.0], [0.0, 3.0]]) > 0.0
  }

  /** The tables of the four items. */
  lemma FourTables()
    ensures TableOf(FourItems(), 1, 2, 2) == [[0.0, 0.0, 0.0], [1.0, 0.0, 1.0], [0.0, 3.0, 3.0]]
    ensures Blank(FourItems(), 0) && Sum(FourItems(), Weigh()) == 4.0
  {
    var s := FourItems();
    assert s[..3][..2][..1][..0] == [];
    var r := [[0.0, 0.0, 0.0], [1.0, 0.0, 1.0], [0.0, 3.0, 3.0]];
    FourSum(Weigh());
    FourSum(HasValue(0, 0));
    forall v | 0 <= v < 3
      ensures r[v][2] == Sum(s, HasValue(1, v))
    {
      FourSum(HasValue(1, v));
    }
    forall v, c | 0 <= v < 3 && 0 <= c < 2
      ensures r[v][c] == Sum(s, Cell(1, v, c))
    {
      FourSum(Cell(1, v, c));
    }
    TableIs(r, s, 1, 2, 2);
  }

  lemma FourSum(f: Item -> real)
    ensures Sum(FourItems(), f) == f(FourItems()[0]) + f(FourItems()[1]) + f(FourItems()[2]) + f(FourItems()[3])
  {
    var s := FourItems();
    assert s == [s[0]] + [s[1]] + [s[2]] + [s[3]];
    SumSnoc([], s[0], f);
    SumSnoc([s[0]], s[1], f);
    SumSnoc([s[0]] + [s[1]], s[2], f);
    SumSnoc([s[0]] + [s[1]] + [s[2]], s[3], f);
    assert [] + [s[0]] == [s[0]];
  }

  /** When MINOBJS is 1 the second attribute has a gain. */
  lemma FourGain(p: Plan)
    requires p.values == [3, 2] && p.classes == 2 && Informative(p.meas)
    ensures DiscreteGain(FourItems(), 1, p, 1) > 0.0 && DiscreteInfo(FourItems(), 1, p) > 0.0
  {
    FourTables();
    var rows: seq<Row> := [[0.0, 0.0, 0.0], [1.0, 0.0, 1.0], [0.0, 3.0, 3.0]];
    assert rows[1][..2] == [1.0, 0.0] && rows[2][..2] == [0.0, 3.0];
    assert ClassRows(rows, 2)[0] == rows[1][..2] && ClassRows(rows, 2)[1] == rows[2][..2];
    assert ClassRows(rows, 2) == [[1.0, 0.0], [0.0, 3.0]];
    assert Reasonable(rows, 0, 1.0) == 0 && Reasonable(rows, 1, 1.0) == 1 && Reasonable(rows, 2, 1.0) == 2;
    assert InfoSum(rows, 1, p.meas.total) == 0.0 && InfoSum(rows, 2, p.meas.total) == 0.0;
    assert TotalsOf(rows, 2, 3) == [0.0, 1.0, 3.0];
  }

  /** The first attribute without a gain leaves MINOBJS at 1, so that the second one is picked. */
  lemma FourPicked(cands: seq<Candidate>, p: Plan, best: int)
    requires p.kinds == [GROUPED, DISCR] && p.values == [3, 2] && p.classes == 2 && Informative(p.meas)
    requires Picked(cands, FourItems(), p, [0, 0], 2, best)
    ensures best == 1
  {
    hide DiscreteGain, DiscreteInfo, GroupedGain, Blank, AverageGain, Informative;
    var s := FourItems();
    FourTables();
    FourGain(p);
    assert MinimumAt(s, p.kinds, 1, 2) == 1 by {
      assert p.kinds[0] == GROUPED && Blank(s, 0);
    }
    assert Evaluated(cands[0], s, p, 0, 0, MinimumAt(s, p.kinds, 0, 2));
    assert Evaluated(cands[1], s, p, 1, 0, 1);
    assert Pays(cands[1], AverageGain(cands, p.few), false) by {
      assert !p.meas.gainRatio by {
        InformativeGain(p.meas);
      }
    }
    InformativeGain(p.meas);
  }

  lemma InformativeGain(meas: Measures)
    requires Informative(meas)
    ensures !meas.gainRatio
  {}

  /** A branch of items of one class is a leaf without errors. */
  lemma PureBranch(b: Tree<real>, s: seq<Item>, p: Plan, tested: seq<nat>, m: nat)
    requires Greedy(b, s, p, tested, m) && OneClass(s) && Positive(s) && forall x :: x in s ==> x.desc.cls < p.classes
    ensures b.items == Sum(s, Weigh()) && b.errors == 0.0
  {
    if b.items > 0.0 {
      PureLeaf(s, b.dist, b.leaf, p.classes);
    }
  }

  /** The two branches of the test on the second attribute. */
  lemma FourShares(t: Tree<real>)
    requires t.nodeType == BR_DISCR && t.tested == 1
    ensures Share(FourItems(), t, 1) == [FourItems()[0]]
    ensures Share(FourItems(), t, 2) == [FourItems()[1], FourItems()[2], FourItems()[3]]
  {
    var s := FourItems();
    assert s == [] + [s[0]] + [s[1]] + [s[2]] + [s[3]];
    forall v, k | 1 <= v <= 2
      ensures Part(s, t, v, k) == if v == 1 then [s[0]] else [s[1], s[2], s[3]]
    {
      PartSnoc([], s[0], t, v, k);
      PartSnoc([] + [s[0]], s[1], t, v, k);
      PartSnoc([] + [s[0]] + [s[1]], s[2], t, v, k);
      PartSnoc([] + [s[0]] + [s[1]] + [s[2]], s[3], t, v, k);
    }
  }

  lemma FourWeights()
    ensures Sum([FourItems()[0]], Weigh()) == 1.0
    ensures Sum([FourItems()[1], FourItems()[2], FourItems()[3]], Weigh()) == 3.0
    ensures ClassTotals(FourItems(), 2) == [1.0, 3.0] && Sum(FourItems(), Weigh()) == 4.0 && !Stops(FourItems(), 2)
  {
    var s := FourItems();
    assert [s[0]] == [] + [s[0]] && [s[1], s[2], s[3]] == [] + [s[1]] + [s[2]] + [s[3]];
    SumSnoc([], s[0], Weigh());
    SumSnoc([], s[1], Weigh());
    SumSnoc([] + [s[1]], s[2], Weigh());
    SumSnoc([] + [s[1]] + [s[2]], s[3], Weigh());
    FourSum(InClass(0));
    FourSum(InClass(1));
    FourSum(Weigh());
    assert s[0] in s && s[1] in s && s[0].desc.cls != s[1].desc.cls;
  }

  /** The tree formed from the four items. */
  lemma FourTree(t: Tree<real>, p: Plan)
    requires p.kinds == [GROUPED, DISCR] && p.values == [3, 2] && p.classes == 2 && Informative(p.meas)
    requires Greedy(t, FourItems(), p, [0, 0], 2)
    ensures t.nodeType == BR_DISCR && |t.branch| == 2 && t.branch[0].items == 1.0 && t.branch[1].items == 3.0
  {
    hide Informative, Picked, Carries, Share, OneClass, Headed, MinimumPast, LostBelow, Stops;
    var s := FourItems();
    FourWeights();
    var cands :| ChosenFrom(t, cands, s, p, [0, 0], 2);
    FourPicked(cands, p, Choice(t));
    FourCarries(t, cands[1], p);
    var test := TestOf(t, p);
    FourShares(test);
    FourPure();
    assert Greedy(t.branch[0], Share(s, test, 1), p, Marked([0, 0], 1),
        MinimumPast(t.branch[..0], s, test, p, MinimumAt(s, p.kinds, 2, 2)));
    assert Greedy(t.branch[1], Share(s, test, 2), p, Marked([0, 0], 1),
        MinimumPast(t.branch[..1], s, test, p, MinimumAt(s, p.kinds, 2, 2)));
    PureBranch(t.branch[0], Share(s, test, 1), p, Marked([0, 0], 1),
      MinimumPast(t.branch[..0], s, test, p, MinimumAt(s, p.kinds, 2, 2)));
    PureBranch(t.branch[1], Share(s, test, 2), p, Marked([0, 0], 1),
      MinimumPast(t.branch[..1], s, test, p, MinimumAt(s, p.kinds, 2, 2)));
    NoErrors(t, s);
  }

  lemma FourCarries(t: Tree<real>, c: Candidate, p: Plan)
    requires p.kinds == [GROUPED, DISCR] && p.values == [3, 2] && t.tested == 1 && Carries(t, c, p)
    ensures t.forks == 2 && TypeOf(1, p) == BR_DISCR
  {}

  lemma FourPure()
    ensures OneClass([FourItems()[0]]) && OneClass([FourItems()[1], FourItems()[2], FourItems()[3]])
  {}

  /** A node of the four items whose branches make no errors stays a test. */
  lemma NoErrors(t: Tree<real>, s: seq<Item>)
    requires Headed(t, s, 2) && |t.branch| == 2 && t.branch[0].errors == 0.0 == t.branch[1].errors
    requires ClassTotals(s, 2) == [1.0, 3.0] && Sum(s, Weigh()) == 4.0
    ensures t.nodeType != LEAF
  {
    assert Errors(t.branch[..1]) == 0.0 && t.branch[..1][..0] == [];
  }

  method FourBuilder(meas: Measures, log: nat -> real) returns (b: Builder)
    requires NonNegativeLog(log)
    ensures fresh(b) && fresh(b.item) && fresh(b.weight) && b.Sound(0, 4) && b.s == FourItems() == b.s[0..4]
    ensures b.maxAtt == 1 && b.maxClass == 1 && b.subsetTests && b.tested == [0, 0] && b.minObjs == 2
    ensures b.plan.kinds == [GROUPED, DISCR] && b.plan.values == [3, 2] && b.plan.classes == 2 && b.plan.meas == meas
  {
    hide NonNegativeLog;
    b := new Builder(FourCases(), 1, 1, [3, 2], [false, false], true, meas, log, 2);
    b.InitialiseWeights();
    b.allKnown := true;
    assert b.s == FourItems();
    assert b.plan.kinds == [GROUPED, DISCR];
    assert b.tested == [0, 0];
  }

  /** The tree formed branches on the second attribute, and one of its two branches has a single item,
      although MINOBJS was 2. */
  method MinimumLost(meas: Measures, log: nat -> real) returns (t: Option<Tree<real>>, minObjs: nat)
    requires Informative(meas) && NonNegativeLog(log)
    ensures minObjs == 1 && t.Some? && t.value.nodeType == BR_DISCR
    ensures |t.value.branch| == 2 && t.value.branch[0].items == 1.0 && !TwoBranches(t.value.branch, 2.0)
  {
    hide Informative, MinimumAfter, Greedy, Grown, FormedIn, Distribution, Builder.Valid, Builder.Sound, FourItems,
      FourCases, Blank, LostBelow, Stops, NonNegativeLog;
    var b := FourBuilder(meas, log);
    FourTables();
    FourWeights();
    BlankFirst(FourItems(), b.plan.kinds);
    t := b.FormTree(0, 3);
    FourTree(t.value, b.plan);
    minObjs := b.minObjs;
  }

  lemma BlankFirst(s: seq<Item>, kinds: seq<int>)
    requires Blank(s, 0) && kinds == [GROUPED, DISCR]
    ensures BlankBelow(s, kinds, 2)
  {
    assert kinds[0] == GROUPED && Blank(s, 0);
  }

  // ---- A search for classes that leaves its row -------------------------------------------------

  /** Six items with value v, one of each class. */
  function Six(v: nat, w: real): (r: seq<Item>)
    ensures |r| == 6 && forall i :: 0 <= i < 6 ==> r[i] == Item(Case([v], [], i), w)
  {
    seq(6, i requires 0 <= i < 6 => Item(Case([v], [], i), w))
  }

  function Three(): seq<Item> {
    [Item(Case([3], [], 0), 1.0), Item(Case([3], [], 0), 1.0), Item(Case([3], [], 0), 1.0)]
  }

  /** Of the fifteen items twelve were unknown to a test above, and their weights have been scaled to the
      share of a branch. */
  function FifteenItems(): seq<Item> { Six(1, 0.09) + Six(2, 0.09) + Three() }

  function FifteenCases(): (r: seq<Case>)
    ensures |r| == 15
  {
    var s := Six(1, 1.0) + Six(2, 1.0) + Three();
    seq(15, i requires 0 <= i < 15 => s[i].desc)
  }

  lemma SixSum(v: nat, w: real, f: Item -> real)
    ensures var s := Six(v, w);
            Sum(s, f) == f(s[0]) + f(s[1]) + f(s[2]) + f(s[3]) + f(s[4]) + f(s[5])
  {
    var s := Six(v, w);
    assert s[..5][..4][..3][..2][..1][..0] == [];
    assert Sum(s[..1], f) == f(s[0]);
    assert Sum(s[..2], f) == f(s[0]) + f(s[1]) by { assert s[..2][..1] == s[..1]; }
    assert Sum(s[..3], f) == f(s[0]) + f(s[1]) + f(s[2]) by { assert s[..3][..2] == s[..2]; }
    assert Sum(s[..4], f) == f(s[0]) + f(s[1]) + f(s[2]) + f(s[3]) by { assert s[..4][..3] == s[..3]; }
    assert Sum(s[..5], f) == f(s[0]) + f(s[1]) + f(s[2]) + f(s[3]) + f(s[4]) by { assert s[..5][..4] == s[..4]; }
  }

  lemma ThreeSum(f: Item -> real)
    ensures Sum(Three(), f) == f(Three()[0]) + f(Three()[1]) + f(Three()[2])
  {
    var s := Three();
    assert s == [] + [s[0]] + [s[1]] + [s[2]];
    SumSnoc([], s[0], f);
    SumSnoc([] + [s[0]], s[1], f);
    SumSnoc([] + [s[0]] + [s[1]], s[2], f);
  }

  lemma FifteenSum(f: Item -> real)
    ensures Sum(FifteenItems(), f) == Sum(Six(1, 0.09), f) + Sum(Six(2, 0.09), f) + Sum(Three(), f)
  {
    SumConcat(Six(1, 0.09) + Six(2, 0.09), Three(), f);
    SumConcat(Six(1, 0.09), Six(2, 0.09), f);
  }

  /** Values 1 and 2 have weight 0.54 each and no class of weight 0.1. */
  lemma SmallClasses(v: nat)
    requires 1 <= v <= 2
    ensures Classless(TableOf(FifteenItems(), 0, 3, 6)[v])
  {
    hide FifteenItems, Six, Three;
    var row := TableOf(FifteenItems(), 0, 3, 6)[v];
    FifteenSum(HasValue(0, v));
    SixSum(1, 0.09, HasValue(0, v));
    SixSum(2, 0.09, HasValue(0, v));
    NoThree(HasValue(0, v), v, 0);
    forall c | 0 <= c < 6
      ensures row[c] < 0.1
    {
      FifteenSum(Cell(0, v, c));
      SixSum(1, 0.09, Cell(0, v, c));
      SixSum(2, 0.09, Cell(0, v, c));
      NoThree(Cell(0, v, c), v, c);
    }
  }

  lemma NoThree(f: Item -> real, v: nat, c: nat)
    requires 1 <= v <= 2 && (f == HasValue(0, v) || f == Cell(0, v, c))
    ensures Sum(Three(), f) == 0.0
  {
    ThreeSum(f);
  }

  /** The items are divided further, and two values of the attribute have no class. */
  lemma FifteenLost(p: Plan)
    requires p.kinds == [GROUPED] && p.values == [3] && p.classes == 6
    ensures !Stops(FifteenItems(), 2) && LostBelow(FifteenItems(), p, 1)
  {
    hide Classless, TableOf, Lost;
    var s := FifteenItems();
    FifteenSum(Weigh());
    SixSum(1, 0.09, Weigh());
    SixSum(2, 0.09, Weigh());
    ThreeSum(Weigh());
    assert s[0] in s && s[1] in s && s[0].desc.cls != s[1].desc.cls;
    SmallClasses(1);
    SmallClasses(2);
    assert Positive(s);
    TwoLost(s, p, 0);
  }

  method FifteenBuilder(meas: Measures, log: nat -> real) returns (b: Builder)
    requires NonNegativeLog(log)
    ensures fresh(b) && fresh(b.item) && fresh(b.weight) && b.Sound(0, 15) && b.s == FifteenItems() == b.s[0..15]
    ensures b.maxAtt == 0 && b.minObjs == 2
    ensures b.plan.kinds == [GROUPED] && b.plan.values == [3] && b.plan.classes == 6
  {
    hide NonNegativeLog;
    b := new Builder(FifteenCases(), 0, 5, [3], [false], true, meas, log, 2);
    b.InitialiseWeights();
    b.Multiply(0, 12, 0.09);
    b.allKnown := false;
    assert b.s == FifteenItems();
    assert b.plan.kinds == [GROUPED];
  }

  /** No tree can be formed of fifteen items with MINOBJS 2: for the only attribute, of three values, the
      search for the classes of the values leaves a row. */
  method SearchRunsOff(meas: Measures, log: nat -> real) returns (t: Option<Tree<real>>)
    requires NonNegativeLog(log)
    ensures t.None?
  {
    hide Builder.Valid, Builder.Sound, FifteenItems, LostBelow, Stops, NonNegativeLog;
    var b := FifteenBuilder(meas, log);
    FifteenLost(b.plan);
    t := b.FormTree(0, 14);
  }
}
