/** Building a decision tree: FormTree permutes the items and their weights in place. */
module C45Build {
  import opened Options
  import opened BitSets
  import opened C45Types
  import opened Weighted
  import opened Ranges
  import opened C45Tests
  import opened C45Formed
  import opened Subset
  import opened C45Cuts
  import opened C45Thresholds
  import opened C45Choice
  import opened C45Minimum
  import opened C45Sort

  ghost predicate NonNegativeLog(log: nat -> real) { forall k: nat :: k > 0 ==> log(k) >= 0.0 }

  /** The tree is well grown, and was formed from the items from lo up to hi: its root carries their
      weight and class distribution. */
  ghost predicate GrownFrom(t: Tree<real>, s: seq<Item>, lo: nat, hi: nat, n: nat, m: real) {
    && Grown(t, n, m) && lo <= hi <= |s| && t.items == Load(s, lo, hi)
    && Distribution(t.dist, s, lo, hi, n) && FormedIn(t, s, lo, hi, n)
  }

  lemma GrownFromItems(t: Tree<real>, s: seq<Item>, lo: nat, hi: nat, n: nat, m: real)
    requires GrownFrom(t, s, lo, hi, n, m)
    ensures lo <= hi <= |s| && t.items == Load(s, lo, hi)
  {}

  /** What the root carries. */
  lemma HeadOf(t: Tree<real>, s: seq<Item>, lo: nat, hi: nat, n: nat, m: real)
    requires GrownFrom(t, s, lo, hi, n, m)
    ensures lo <= hi <= |s| && Headed(t, s[lo..hi], n)
  {}

  lemma GrownFromPerm(t: Tree<real>, s: seq<Item>, r: seq<Item>, lo: nat, hi: nat, n: nat, m: real, m': real)
    requires GrownFrom(t, s, lo, hi, n, m) && Perm(s, r, lo, hi) && m' <= m
    ensures GrownFrom(t, r, lo, hi, n, m')
  {
    hide Grown;
    GrownWeaker(t, n, m, m');
    PermLoad(s, r, lo, hi);
    FormedInPerm(t, s, r, lo, hi, n);
    DistributionPerm(t.dist, s, r, lo, hi, n);
  }

  lemma GrownFromBack(t: Tree<real>, s0: seq<Item>, s1: seq<Item>, s: seq<Item>, lo: nat, hi: nat, n: nat, m: real)
    requires GrownFrom(t, s1, lo, hi, n, m) && Perm(s0, s1, lo, hi) && (s == s1 || Perm(s1, s, lo, hi))
    ensures GrownFrom(t, s0, lo, hi, n, m) && Perm(s0, s, lo, hi)
  {
    hide GrownFrom;
    PermBack(s0, s1, lo, hi);
    GrownFromPerm(t, s1, s0, lo, hi, n, m, m);
    if s != s1 {
      PermTrans(s0, s1, s, lo, hi);
    }
  }

  /** The test of a node, or the leaf it stays when the branches make no fewer errors. */
  function TestOrLeaf(node: Tree<real>, t: Tree<real>, branch: seq<Tree<real>>, errors: real): Tree<real>
    requires 0 <= node.leaf < |node.dist|
  {
    var tree := Tested(node, t, branch, errors);
    if errors >= node.items - node.dist[node.leaf] - EPSILON then tree.(nodeType := LEAF) else tree
  }

  ghost predicate Shaped(t: Tree<real>) {
    && t.nodeType in {BR_DISCR, THRESH_CONTIN, BR_SUBSET}
    && (t.nodeType == THRESH_CONTIN ==> t.forks == 2) && (t.nodeType == BR_SUBSET ==> |t.subset| == t.forks)
  }

  lemma TestGrown(s: seq<Item>, lo: nat, hi: nat, node: Tree<real>, t: Tree<real>, branch: seq<Tree<real>>,
                  errors: real, n: nat, m: real, m': real)
    requires GrownFrom(node, s, lo, hi, n, m) && m' <= m && node.items > 0.0 && |branch| == t.forks && Shaped(t)
    requires Items(branch) == node.items && Errors(branch) == errors && forall b :: b in branch ==> Grown(b, n, m')
    requires TwoBranches(branch, m') && BranchesFormed(branch, s, lo, hi, t, n) && KnownIn(s, lo, hi, t)
    requires 0 <= node.leaf < |node.dist| && node.dist[node.leaf] < node.items
    ensures GrownFrom(TestOrLeaf(node, t, branch, errors), s, lo, hi, n, m')
  {
    hide Items, Errors, TwoBranches, BranchesFormed, KnownIn, FormedIn, Grown, Distribution;
    GrownWeaker(node, n, m, m');
    GrownNode(node, t, branch, errors, n, m');
    TestFormed(s, lo, hi, node, t, branch, errors, n);
  }

  lemma NoDistribution(d: seq<real>, s: seq<Item>, lo: nat, n: nat)
    requires |d| == n && lo <= |s| && forall c :: 0 <= c < n ==> d[c] == 0.0
    ensures Distribution(d, s, lo, lo, n)
  {
    assert s[lo..lo] == [];
  }

  lemma DistributionStep(d: seq<real>, s: seq<Item>, lo: nat, i: nat, n: nat)
    requires Distribution(d, s, lo, i, n) && lo <= i < |s| && s[i].desc.cls < n
    ensures |d| == n && Distribution(d[s[i].desc.cls := d[s[i].desc.cls] + s[i].weight], s, lo, i + 1, n)
  {
    assert s[lo..i + 1] == s[lo..i] + [s[i]];
    forall c | 0 <= c < n
      ensures Sum(s[lo..i + 1], InClass(c)) == Sum(s[lo..i], InClass(c)) + if s[i].desc.cls == c then s[i].weight
              else 0.0
    {
      SumSnoc(s[lo..i], s[i], InClass(c));
    }
  }

  lemma DistributionPerm(d: seq<real>, s: seq<Item>, r: seq<Item>, lo: nat, hi: nat, n: nat)
    requires Distribution(d, s, lo, hi, n) && Perm(s, r, lo, hi)
    ensures Distribution(d, r, lo, hi, n)
  {
    forall c | 0 <= c < n
      ensures Sum(r[lo..hi], InClass(c)) == Sum(s[lo..hi], InClass(c))
    {
      SumPerm(s[lo..hi], r[lo..hi], InClass(c));
    }
    assert ClassTotals(r[lo..hi], n) == ClassTotals(s[lo..hi], n);
  }

  /** How an attribute with so many discrete values is evaluated. */
  function KindFor(values: nat, subsetTests: bool): int {
    if values == 0 then CONTIN else if subsetTests && values > 2 then GROUPED else DISCR
  }

  class Builder {
    const maxAtt: nat
    const maxClass: nat
    const maxAttVal: seq<nat>
    const ignored: seq<bool>
    const subsetTests: bool
    const multiVal: bool
    const meas: Measures
    const log: nat -> real
    const item: array<Case>
    const weight: array<real>
    var allKnown: bool
    var tested: seq<nat>
    var minObjs: nat
    // the items with their weights
    ghost var s: seq<Item>
    // the attributes as the evaluation sees them
    ghost const plan: Plan

    /** Allocates the tables and finds out whether all attributes have many discrete values. */
    constructor (items: seq<Case>, maxAtt: nat, maxClass: nat, maxAttVal: seq<nat>, ignored: seq<bool>,
                 subsetTests: bool, meas: Measures, log: nat -> real, minObjs: nat)
      requires |maxAttVal| == maxAtt + 1 == |ignored| && minObjs >= 1 && NonNegativeLog(log)
      ensures Valid() && fresh(item) && fresh(weight) && |s| == |items|
      ensures forall i :: 0 <= i < |s| ==> s[i] == Item(items[i], 0.0)
      ensures this.maxAtt == maxAtt && this.maxClass == maxClass && this.maxAttVal == maxAttVal
              && this.ignored == ignored
      ensures this.subsetTests == subsetTests && this.meas == meas && this.log == log && this.minObjs == minObjs
      ensures tested == seq(maxAtt + 1, _ => 0)
      ensures multiVal <==> subsetTests || forall a :: 0 <= a <= maxAtt && !ignored[a] ==>
                maxAttVal[a] as real >= 0.3 * |items| as real
    {
      this.maxAtt, this.maxClass, this.maxAttVal, this.ignored := maxAtt, maxClass, maxAttVal, ignored;
      this.subsetTests, this.meas, this.log, this.minObjs := subsetTests, meas, log, minObjs;
      item := new Case[|items|](i requires 0 <= i < |items| => items[i]);
      weight := new real[|items|](i => 0.0);
      tested := seq(maxAtt + 1, _ => 0);
      allKnown := false;
      s := seq(|items|, i requires 0 <= i < |items| => Item(items[i], 0.0));
      var many := true;
      if !subsetTests {
        var a := 0;
        while many && a <= maxAtt
          invariant 0 <= a <= maxAtt + 1
          invariant many <==> forall b :: 0 <= b < a && !ignored[b] ==> maxAttVal[b] as real >= 0.3 * |items| as real
        {
          if !ignored[a] {
            many := maxAttVal[a] as real >= 0.3 * |items| as real;
          }
          a := a + 1;
        }
      }
      multiVal := many;
      plan := Plan(
        seq(maxAtt + 1, a requires 0 <= a <= maxAtt => if ignored[a] then IGNORED
          else KindFor(maxAttVal[a], subsetTests)),
        maxAttVal, maxClass + 1, meas,
        seq(maxAtt + 1, a requires 0 <= a <= maxAtt => many || (maxAttVal[a] as real) < 0.3 * |items| as real),
        log, set c | c in items);
      new;
      assert item[..] == items;
    }

    ghost predicate Planned() {
      && |plan.kinds| == |plan.few| == maxAtt + 1 && plan.values == maxAttVal && plan.classes == maxClass + 1
        && plan.meas == meas && plan.log == log
      && |maxAttVal| == |ignored| == maxAtt + 1
      && forall a :: 0 <= a <= maxAtt ==>
           && plan.kinds[a] == (if ignored[a] then IGNORED else KindOf(a))
           && (plan.few[a] <==> multiVal || (maxAttVal[a] as real) < 0.3 * item.Length as real)
    }

    /** The cases in the table are the planned ones. */
    ghost predicate SameTable()
      reads item
    {
      plan.table == set c | c in item[..]
    }

    ghost predicate Tied()
      reads item, weight, `s
    {
      item.Length == weight.Length == |s| && forall i :: 0 <= i < |s| ==> s[i] == Item(item[i], weight[i])
    }

    ghost predicate Valid()
      reads this, item, weight
    {
      && Tied() && Planned() && SameTable() && |tested| == maxAtt + 1 == |maxAttVal| == |ignored| && minObjs >= 1
      && NonNegativeLog(log)
    }

    /** The classes and discrete values are in range, and the items from lo up to hi have positive
        weights, all 1 where no test above met an unknown value. */
    ghost predicate Sound(lo: nat, hi: nat)
      reads this, item, weight
    {
      Valid() && SoundItems(s, lo, hi, maxClass, maxAttVal) && (allKnown ==> AllOnes(s, lo, hi))
    }

    /** The search for the class of a block cannot run off its row. */
    ghost predicate NeverOverruns() { !subsetTests || maxClass < 5 }

    /** Every item gets weight 1. */
    method InitialiseWeights()
      requires Valid()
      modifies weight, `s
      ensures Valid() && |s| == |old(s)| && forall i :: 0 <= i < |s| ==> s[i] == Item(old(s)[i].desc, 1.0)
    {
      hide NonNegativeLog, Planned;
      var i := 0;
      while i < weight.Length
        invariant 0 <= i <= weight.Length && s == old(s) && forall j :: 0 <= j < i ==> weight[j] == 1.0
      {
        weight[i] := 1.0;
        i := i + 1;
      }
      assert item.Length == |s|;
      ghost var s0 := s;
      s := seq(|s0|, j requires 0 <= j < |s0| => Item(s0[j].desc, 1.0));
    }

    method Swap(a: nat, b: nat)
      requires Valid() && a < |s| && b < |s|
      modifies item, weight, `s
      ensures Valid() && s == Swapped(old(s), a, b)
    {
      ghost var was := item[..];
      var hold := item[a];
      item[a] := item[b];
      item[b] := hold;
      SwapKeepsCases(was, item[..], a, b);
      var holdW := weight[a];
      weight[a] := weight[b];
      weight[b] := holdW;
      s := Swapped(s, a, b);
    }

    /** Brings the items of group v to the front of the stretch from fp to lp and returns the index
        of the last one. */
    method Group(v: nat, fp: nat, lp: int, t: Tree<real>) returns (ep: int)
      requires Valid() && fp <= lp + 1 <= |s|
      modifies item, weight, `s
      ensures Valid() && fp - 1 <= ep <= lp
      ensures Perm(old(s), s, fp, lp + 1) && Grouped(s, t, v, fp, ep + 1, lp + 1)
    {
      hide Goes, Perm, Swapped, Grouped;
      var m := fp;
      var i := fp;
      GroupedNone(s, fp, t, v);
      PermSelf(s, fp, lp + 1);
      while i <= lp
        invariant Valid() && fp <= m <= i <= lp + 1 <= |s|
        invariant Perm(old(s), s, fp, lp + 1)
        invariant Grouped(s, t, v, fp, m, i)
      {
        GroupedStep(s, fp, m, i, t, v);
        if Goes(t, v, item[i]) {
          ghost var t0 := s;
          SwappedPerm(s, m, i, fp, lp + 1);
          Swap(m, i);
          PermTrans(old(s), t0, s, fp, lp + 1);
          m := m + 1;
        }
        i := i + 1;
      }
      ep := m - 1;
    }

    method CountItems(fp: nat, lp: int) returns (sum: real)
      requires Valid() && fp <= lp + 1 <= |s| && (allKnown ==> AllOnes(s, fp, lp + 1))
      ensures sum == Load(s, fp, lp + 1)
    {
      if allKnown {
        OnesSum(s[fp..lp + 1]);
        return (lp - fp + 1) as real;
      }
      sum := 0.0;
      var i := fp;
      while i <= lp
        invariant fp <= i <= lp + 1 && sum == Sum(s[fp..i], Weigh())
      {
        sum := sum + weight[i];
        assert s[fp..i + 1] == s[fp..i] + [s[i]];
        SumSnoc(s[fp..i], s[i], Weigh());
        i := i + 1;
      }
    }

    /** Multiplies the weights from fp up to kp. */
    method Multiply(fp: nat, kp: nat, k: real)
      requires Valid() && fp <= kp <= |s|
      modifies weight, `s
      ensures Valid() && s == ScaledIn(old(s), fp, kp, k)
    {
      hide NonNegativeLog, Planned;
      var i := fp;
      while i < kp
        invariant fp <= i <= kp && s == old(s)
        invariant forall j :: fp <= j < i ==> weight[j] == old(weight[j]) * k
        invariant forall j :: 0 <= j < fp || i <= j < weight.Length ==> weight[j] == old(weight[j])
      {
        weight[i] := weight[i] * k;
        i := i + 1;
      }
      assert item.Length == |s|;
      s := ScaledIn(s, fp, kp, k);
    }

    method Divide(fp: nat, kp: nat, k: real)
      requires Valid() && fp <= kp <= |s| && k != 0.0
      modifies weight, `s
      ensures Valid() && s == ScaledIn(old(s), fp, kp, Inverse(k))
    {
      hide Inverse, Good;
      var i := fp;
      while i < kp
        invariant fp <= i <= kp && s == old(s)
        invariant forall j :: fp <= j < i ==> weight[j] == old(weight[j]) * Inverse(k)
        invariant forall j :: 0 <= j < fp || i <= j < weight.Length ==> weight[j] == old(weight[j])
      {
        QuotientIsProduct(weight[i], k);
        weight[i] := weight[i] / k;
        i := i + 1;
      }
      s := ScaledIn(s, fp, kp, Inverse(k));
    }

    /** The class distribution and its most frequent class. */
    method CountClasses(fp: nat, lp: int) returns (freq: seq<real>, best: int)
      requires Valid() && fp <= lp + 1 <= |s|
      requires AllGood(s, maxClass, maxAttVal)
      ensures Distribution(freq, s, fp, lp + 1, maxClass + 1) && IsBest(freq, best)
    {
      hide NonNegativeLog, Tied, AllGood, Good, Distribution;
      freq := seq(maxClass + 1, _ => 0.0);
      var i := fp;
      NoDistribution(freq, s, fp, maxClass + 1);
      while i <= lp
        invariant fp <= i <= lp + 1 && |freq| == maxClass + 1 && Distribution(freq, s, fp, i, maxClass + 1)
      {
        GoodClass(s, i, maxClass, maxAttVal);
        TiedAt(i);
        DistributionStep(freq, s, fp, i, maxClass + 1);
        freq := freq[item[i].cls := freq[item[i].cls] + weight[i]];
        i := i + 1;
      }
      best := MostFrequent(freq);
    }

    static method MostFrequent(freq: seq<real>) returns (best: int)
      requires freq != []
      ensures IsBest(freq, best)
    {
      best := 0;
      var c := 0;
      while c < |freq|
        invariant 0 <= c <= |freq| && 0 <= best < |freq|
        invariant forall d :: 0 <= d < c ==> freq[d] <= freq[best]
        invariant forall d :: 0 <= d < best ==> freq[d] < freq[best]
      {
        if freq[c] > freq[best] {
          best := c;
        }
        c := c + 1;
      }
    }

    // ---- Evaluating tests -------------------------------------------------------------------

    /** Counts the classes of the items from fp to lp with each value of attribute a. */
    method CountCells(a: nat, fp: nat, lp: int, tables: Tables)
      requires Valid() && fp <= lp + 1 <= |s| && tables.Valid() && |tables.rows| == tables.n + 1
      requires forall i :: fp <= i <= lp ==> DVal(s[i].desc, a) <= tables.n && s[i].desc.cls < tables.classes
      requires CellsIn(tables.rows, s, fp, fp, a, tables.classes)
      modifies tables`rows, tables.freq
      ensures tables.Valid() && |tables.rows| == tables.n + 1 && CellsIn(tables.rows, s, fp, lp + 1, a, tables.classes)
    {
      hide NonNegativeLog, Tables.Valid, CellsIn, Counted;
      var i := fp;
      while i <= lp
        invariant fp <= i <= lp + 1
        invariant tables.Valid() && |tables.rows| == tables.n + 1 && CellsIn(tables.rows, s, fp, i, a, tables.classes)
      {
        CountCell(tables.rows, s, fp, i, a, tables.classes, DVal(item[i], a), item[i].cls, weight[i]);
        tables.Count(DVal(item[i], a), item[i].cls, weight[i]);
        i := i + 1;
      }
    }

    /** The frequency tables of attribute a over the items from fp to lp. */
    method ComputeFrequencies(a: nat, fp: nat, lp: int) returns (tables: Tables)
      requires fp <= lp + 1 && Sound(fp, lp + 1) && a <= maxAtt && maxAttVal[a] > 0
      ensures fresh(tables) && fresh(tables.freq) && fresh(tables.valFreq) && fresh(tables.slice1)
              && fresh(tables.slice2) && fresh(tables.sets)
      ensures tables.Valid() && tables.n == maxAttVal[a] && tables.classes == maxClass + 1
      ensures FrequenciesIn(tables.rows, s, fp, lp + 1, a, maxClass + 1)
    {
      hide NonNegativeLog, Tables.Valid, CellsIn, FrequenciesIn, WithTotals, Untotalled, NonNegative, AllGood, Good,
        AllPositive, SoundItems, ClassesIn;
      SoundBounds(s, fp, lp + 1, maxClass, maxAttVal);
      SoundPositive(s, fp, lp + 1, maxClass, maxAttVal);
      SoundGood(s, fp, lp + 1, maxClass, maxAttVal);
      GoodStretch(s, fp, lp + 1, maxClass, maxAttVal, a);
      tables := new Tables(maxAttVal[a], maxClass + 1);
      StartCells(tables.rows, s, fp, a, maxClass + 1);
      CountCells(a, fp, lp, tables);
      ghost var rows := tables.rows;
      NoTotals(rows, s, fp, lp + 1, a, maxClass + 1);
      tables.Totals();
      TotalRows(rows, tables.rows, s, fp, lp + 1, a, maxClass + 1);
    }

    method EvalDiscreteAtt(a: nat, fp: nat, lp: int, cases: real, ghost node: Tree<real>)
      returns (gain: real, info: real)
      requires fp <= lp + 1 && Sound(fp, lp + 1) && a <= maxAtt && maxAttVal[a] > 0
               && cases == Load(s, fp, lp + 1) > 0.0
      ensures Usable(s, fp, lp + 1, node, a, maxAttVal[a], DISCR, Candidate(gain, info, 0.0, []), minObjs as real)
      ensures gain == DiscreteGain(s[fp..lp + 1], a, plan, minObjs) && info == DiscreteInfo(s[fp..lp + 1], a, plan)
    {
      hide Frequencies, NonNegative, Ready, GainOf, BaseOf;
      var tables := ComputeFrequencies(a, fp, lp);
      TableIs(tables.rows, s[fp..lp + 1], a, maxAttVal[a], maxClass + 1);
      if cases <= tables.valFreq[0] {
        return 0.0 - EPSILON, 0.0;
      }
      var known := cases - tables.valFreq[0];
      var base := tables.BaseInfo(meas);
      gain := tables.ComputeGain(base, tables.valFreq[0] / cases, maxAttVal[a], known, minObjs as real, meas);
      assert tables.valFreq[..] == TotalsOf(tables.rows, maxClass + 1, maxAttVal[a] + 1);
      info := meas.total(tables.valFreq[..]) / cases;
      ReasonableGain(tables.rows, base, tables.valFreq[0] / cases, maxAttVal[a], known, minObjs as real, meas.total);
      if gain > 0.0 - EPSILON {
        GoodValues(s, fp, lp + 1, maxClass, maxAttVal, a);
        DiscreteGainReady(node, tables.rows, s[fp..lp + 1], a, maxAttVal[a], maxClass + 1, minObjs as real);
      }
    }

    method EvalSubsetAtt(a: nat, fp: nat, lp: int, cases: real, ghost node: Tree<real>) returns (r: Option<Grouping>)
      requires fp <= lp + 1 && Sound(fp, lp + 1) && a <= maxAtt && maxAttVal[a] > 0
               && cases == Load(s, fp, lp + 1) > 0.0
      modifies `minObjs
      ensures minObjs == old(minObjs) || minObjs == 1
      ensures maxClass < 5 ==> r.Some?
      ensures AllOnes(s, fp, lp + 1) ==> r.Some?
      ensures r.None? <==> Lost(s[fp..lp + 1], plan, a)
      ensures r.Some? ==> minObjs == if Blank(s[fp..lp + 1], a) then 1 else old(minObjs)
      ensures r.Some? ==> GroupedGain(Candidate(r.value.gain, r.value.info, 0.0, r.value.sets), s[fp..lp + 1], a, plan,
              old(minObjs))
      ensures r.Some? && Blank(s[fp..lp + 1], a) ==> r.value.gain == 0.0 - EPSILON
      ensures r.Some? ==>
                Usable(s, fp, lp + 1, node, a, maxAttVal[a], GROUPED,
                  Candidate(r.value.gain, r.value.info, 0.0, r.value.sets), minObjs as real)
    {
      hide Frequencies, NonNegative, Ready, HasClass, Groups, TwoGroups, TwoClassless, SearchStays, BlockSums, BaseOf,
        GainOf, AllOnes, Tied, NonNegativeLog, GroupedGain, Column, Lost;
      var tables := ComputeFrequencies(a, fp, lp);
      ghost var rows := tables.rows;
      ClassesFound(rows, s, fp, lp + 1, a, maxClass, maxAttVal, plan);
      var m;
      ghost var owner, blocks;
      r, m, owner, blocks := tables.EvalSubset(cases, tables.valFreq[0] / cases, minObjs, meas);
      if r.None? {
        return None;
      }
      if r.value.gain > 0.0 - EPSILON {
        GoodValues(s, fp, lp + 1, maxClass, maxAttVal, a);
        SubsetReady(node, rows, s[fp..lp + 1], a, maxAttVal[a], maxClass + 1, r.value.sets, owner, minObjs as real);
        ReadyWeaker(SubsetTest(node, a, r.value.sets), s[fp..lp + 1], minObjs as real, m as real);
      }
      GroupedGainIs(Candidate(r.value.gain, r.value.info, 0.0, r.value.sets), s[fp..lp + 1], a, plan, minObjs,
        tables.rows, owner, blocks);
      minObjs := m;
    }

    /** Isolates the items with values at most that of the last item. */
    method SplitLow(fp: nat, lp: nat, a: nat) returns (m: nat)
      requires Valid() && fp < lp < |s|
      modifies item, weight, `s
      ensures Valid() && |s| == |old(s)| && fp <= m <= lp && Perm(old(s), s, fp, lp) && s[lp] == old(s)[lp]
      ensures AtMost(s, a, CVal(s[lp].desc, a), fp, m) && More(s, a, CVal(s[lp].desc, a), m, lp)
    {
      hide Perm, Swapped, AtMost, More;
      var thresh := CVal(item[lp], a);
      m := fp;
      var i := fp;
      PermSelf(s, fp, lp);
      EmptyStretch(s, a, thresh, fp);
      while i < lp
        invariant Valid() && fp <= m <= i <= lp < |s| == |old(s)| && Perm(old(s), s, fp, lp) && s[lp] == old(s)[lp]
        invariant AtMost(s, a, thresh, fp, m) && More(s, a, thresh, m, i)
      {
        ghost var s0 := s;
        if CVal(item[i], a) <= thresh {
          LowStep(s, a, thresh, fp, m, i);
          SwappedPerm(s, m, i, fp, lp);
          SwappedElsewhere(s, m, i, lp);
          if i != m {
            Swap(m, i);
          }
          PermTrans(old(s), s0, s, fp, lp);
          m := m + 1;
        } else {
          MoreStep(s, a, thresh, m, i);
        }
        i := i + 1;
      }
    }

    /** Extracts the items with values equal to that of the last item. */
    method GatherEqual(fp: nat, m: nat, lp: nat, a: nat) returns (l: nat)
      requires Valid() && fp <= m <= lp < |s|
      requires AtMost(s, a, CVal(s[lp].desc, a), fp, m) && More(s, a, CVal(s[lp].desc, a), m, lp)
      modifies item, weight, `s
      ensures Valid() && |s| == |old(s)| && fp <= l <= m && Perm(old(s), s, fp, lp) && s[lp] == old(s)[lp]
      ensures Less(s, a, CVal(s[lp].desc, a), fp, l) && Equal(s, a, CVal(s[lp].desc, a), l, m)
              && More(s, a, CVal(s[lp].desc, a), m, lp)
    {
      hide Perm, Swapped, AtMost, More, Less, Equal;
      var thresh := CVal(item[lp], a);
      var lower: int := m - 1;
      var i: int := lower;
      PermSelf(s, fp, lp);
      EmptyStretch(s, a, thresh, m);
      while i >= fp
        invariant Valid() && fp - 1 <= i <= lower < m && m <= lp < |s| == |old(s)| && Perm(old(s), s, fp, lp)
                  && s[lp] == old(s)[lp]
        invariant AtMost(s, a, thresh, fp, i + 1) && Less(s, a, thresh, i + 1, lower + 1)
        invariant Equal(s, a, thresh, lower + 1, m) && More(s, a, thresh, m, lp)
      {
        ghost var s0 := s;
        if CVal(item[i], a) == thresh {
          EqualStep(s, a, thresh, fp, i, lower + 1, m, lp);
          SwappedPerm(s, lower, i, fp, lp);
          SwappedElsewhere(s, lower, i, lp);
          if i != lower {
            Swap(lower, i);
          }
          PermTrans(old(s), s0, s, fp, lp);
          lower := lower - 1;
        } else {
          LessStep(s, a, thresh, fp, i, lower + 1);
        }
        i := i - 1;
      }
      l := lower + 1;
    }

    method Quicksort(fp: nat, lp: int, a: nat)
      requires Valid() && fp <= lp + 1 <= |s|
      modifies item, weight, `s
      ensures Valid() && Perm(old(s), s, fp, lp + 1) && SortedOn(s, a, fp, lp + 1)
      decreases lp - fp + 1
    {
      hide NonNegativeLog, Perm, SortedOn, Tied, Swapped, Split, Parted;
      if fp >= lp {
        PermSelf(s, fp, lp + 1);
        ShortSorted(s, a, fp, lp + 1);
        return;
      }
      ghost var s0 := s;
      var l, m, t := Part(fp, lp, a);
      ghost var s2 := s;
      PartedBounds(s0, s2, a, t, fp, l, m, lp);
      Quicksort(fp, (l as int) - 1, a);
      LowerSorted(s0, s2, s, a, t, fp, l, m, lp);
      Swap(m, lp);
      ghost var s4 := s;
      Quicksort(m + 1, lp, a);
      HigherSorted(s0, s4, s, a, t, fp, l, m, lp + 1);
    }

    /** Splits the items below the last one around its value. */
    method Part(fp: nat, lp: nat, a: nat) returns (l: nat, m: nat, ghost t: real)
      requires Valid() && fp < lp < |s|
      modifies item, weight, `s
      ensures Valid() && Parted(old(s), s, a, t, fp, l, m, lp)
    {
      hide NonNegativeLog, Perm, AtMost, More, Less, Equal, Tied, Parted;
      m := SplitLow(fp, lp, a);
      ghost var s1 := s;
      l := GatherEqual(fp, m, lp, a);
      t := CVal(s[lp].desc, a);
      PartedIs(old(s), s1, s, a, t, fp, l, m, lp);
    }

    /** The gain of a cut with the weight low on its lower side. */
    method TryCut(tables: Tables, low: real, known: real, items: real, base: real, unknown: real)
      returns (g: real, info: real)
      requires Valid() && tables.Valid() && tables.n == 2 && items > 0.0 && tables.valFreq != weight
      modifies tables`rows, tables.valFreq
      ensures tables.Valid() && tables.rows[0] == old(tables.rows)[0]
      ensures tables.rows[1] == old(tables.rows)[1][tables.classes := low]
              && tables.rows[2] == old(tables.rows)[2][tables.classes := known - low]
      ensures g == GainOf(tables.rows, base, unknown, 2, known, minObjs as real, meas.total)
      ensures g > 0.0 - EPSILON ==> low >= minObjs as real && known - low >= minObjs as real
      ensures info == meas.total([tables.rows[0][tables.classes], low, known - low]) / items
    {
      hide NonNegativeLog, Tied, GainOf;
      tables.SetTotal(1, low);
      tables.SetTotal(2, known - low);
      g := tables.ComputeGain(base, unknown, 2, known, minObjs as real, meas);
      ReasonableGain(tables.rows, base, unknown, 2, known, minObjs as real, meas.total);
      if g > 0.0 - EPSILON {
        BothSides(tables.rows, minObjs as real);
      }
      assert tables.valFreq[..] == [tables.rows[0][tables.classes], low, known - low];
      info := meas.total(tables.valFreq[..]) / items;
    }

    /** The table of a binary split of the items from fp to lp: the unknown values are those before xp,
        the others are all on the higher side. */
    method CountHigh(fp: nat, xp: nat, lp: int, known: real) returns (tables: Tables, base: real)
      requires known > 0.0 && Valid() && fp <= xp <= lp + 1 <= |s| && AllGood(s, maxClass, maxAttVal)
      ensures fresh(tables) && fresh(tables.freq) && fresh(tables.valFreq)
      ensures tables.Valid() && tables.n == 2 && tables.classes == maxClass + 1
      ensures tables.rows[0][maxClass + 1] == Load(s, fp, xp)
      ensures Holds(tables.rows[1], s, xp, xp, maxClass + 1) && Holds(tables.rows[2], s, xp, lp + 1, maxClass + 1)
      ensures base == meas.total(ClassTotals(s[xp..lp + 1], maxClass + 1)) / known
    {
      hide NonNegativeLog, Tied, Good, Tables.Valid, AllGood, Load, Holds;
      tables := CountUnknown(fp, xp);
      var i := xp;
      HoldsNone(tables.rows[1], s, xp, maxClass + 1);
      HoldsNone(tables.rows[2], s, xp, maxClass + 1);
      while i <= lp
        invariant xp <= i <= lp + 1 && tables.Valid() && |tables.rows| == 3 && |tables.rows[0]| == maxClass + 2
        invariant fresh(tables) && fresh(tables.freq) && fresh(tables.valFreq) && tables.n == 2
                  && tables.classes == maxClass + 1
        invariant tables.rows[0][maxClass + 1] == Load(s, fp, xp)
        invariant Holds(tables.rows[1], s, xp, xp, maxClass + 1) && Holds(tables.rows[2], s, xp, i, maxClass + 1)
      {
        GoodClass(s, i, maxClass, maxAttVal);
        TiedAt(i);
        TablesShape(tables);
        HoldsMore(tables.rows[2], s, xp, i, maxClass + 1);
        tables.Count(2, item[i].cls, weight[i]);
        i := i + 1;
      }
      var row := tables.ClassRow(2);
      RowHeld(tables.rows[2], s, xp, lp + 1, maxClass + 1);
      base := meas.total(row) / known;
    }

    /** Counts the items with an unknown value, which are those from fp up to xp. */
    method CountUnknown(fp: nat, xp: nat) returns (tables: Tables)
      requires Valid() && fp <= xp <= |s| && AllGood(s, maxClass, maxAttVal)
      ensures fresh(tables) && fresh(tables.freq) && fresh(tables.valFreq)
      ensures tables.Valid() && tables.n == 2 && tables.classes == maxClass + 1
      ensures |tables.rows| == 3 && |tables.rows[0]| == maxClass + 2 && tables.rows[0][maxClass + 1] == Load(s, fp, xp)
      ensures |tables.rows[1]| == |tables.rows[2]| == maxClass + 2
      ensures forall c :: 0 <= c <= maxClass ==> tables.rows[1][c] == 0.0 == tables.rows[2][c]
    {
      hide NonNegativeLog, Tied, Good, AllGood;
      tables := new Tables(2, maxClass + 1);
      NoClasses(tables.rows[0], s, fp, maxClass + 1);
      var i := fp;
      while i < xp
        invariant fp <= i <= xp && tables.Valid() && tables.n == 2 && tables.classes == maxClass + 1
        invariant fresh(tables) && fresh(tables.freq) && fresh(tables.valFreq)
        invariant ClassCounts(tables.rows[0], s, fp, i, maxClass + 1)
        invariant forall c :: 0 <= c <= maxClass ==> tables.rows[1][c] == 0.0 == tables.rows[2][c]
      {
        GoodClass(s, i, maxClass, maxAttVal);
        TiedAt(i);
        ClassCounted(tables.rows[0], s, fp, i, maxClass + 1);
        tables.Count(0, item[i].cls, weight[i]);
        i := i + 1;
      }
      ClassesCounted(tables.rows[0], s, fp, xp, maxClass, maxAttVal);
      tables.Total(0);
    }

    /** The gains of the possible cuts between neighbours from xp to lp, which are sorted. */
    method FindCuts(a: nat, fp: nat, xp: nat, lp: int, known: real, items: real, unknown: real)
      returns (splitGain: seq<real>, splitInfo: seq<real>, tries: nat)
      requires Valid() && fp <= xp <= lp + 1 <= |s| && known == Load(s, xp, lp + 1) > 0.0
               && items == Load(s, fp, lp + 1) > 0.0 && unknown == 1.0 - known / items
      requires AllGood(s, maxClass, maxAttVal) && forall k :: xp <= k < lp + 1 ==> s[k].weight > 0.0
      ensures CutsMarked(splitGain, s, a, xp, lp + 1, minObjs as real) && |splitInfo| == |s|
      ensures InfosMarked(splitGain, splitInfo, s, fp, xp, lp + 1, items, meas)
      ensures GainsFound(splitGain, tries, s, a, fp, xp, lp + 1, lp + 1, maxClass + 1, meas, minObjs as real)
    {
      hide NonNegativeLog, Tied, Load, Tables.Valid, HoldsCut, CutsMarked, CutAt, MinSplit, CVal, InfosMarked,
        CutInfo, AllGood, Planned, GainsFound, Holds, CutGain, ClassTotals, GainOf;
      TiedLength();
      ghost var hi, n, m := lp + 1, maxClass + 1, minObjs as real;
      var tables, base := CountHigh(fp, xp, lp, known);
      CutHeld(tables, fp, xp, hi);
      var minSplit := MinSplit(known, maxClass + 1, minObjs as real);
      splitGain := seq(item.Length, _ => 0.0 - EPSILON);
      splitInfo := seq(item.Length, _ => 0.0);
      tries := 0;
      var low := 0.0;
      var i := xp;
      EmptyLoad(s, xp);
      NoCuts(splitGain, s, a, xp, hi, m);
      NoInfos(splitGain, splitInfo, s, fp, xp, hi, items, meas);
      NoneFound(splitGain, s, a, fp, xp, hi, n, meas, m);
      while i < lp
        invariant xp <= i <= hi <= |s| && low == Load(s, xp, i) && tables.Valid() && HoldsCut(tables, fp, xp, i, hi)
        invariant CutsMarked(splitGain, s, a, xp, hi, m) && |splitInfo| == |s| == |splitGain|
        invariant InfosMarked(splitGain, splitInfo, s, fp, xp, hi, items, meas)
        invariant GainsFound(splitGain, tries, s, a, fp, xp, i, hi, n, meas, m)
      {
        MoveItem(tables, i, fp, xp, hi);
        TiedAt(i);
        LoadStep(s, xp, i, hi);
        low := low + weight[i];
        if low >= minSplit && low > known - minSplit {
          NoMoreCuts(splitGain, tries, s, a, fp, xp, i, hi, n, meas, m);
          break;
        }
        TiedAt(i + 1);
        if low >= minSplit && CVal(item[i], a) < CVal(item[i + 1], a) - 0.00001 {
          var g, info := CutHere(a, fp, xp, i, lp, tables, low, known, items, base, unknown, splitGain);
          MarkInfo(splitGain, splitInfo, s, fp, xp, i, hi, items, meas, g, info);
          FoundCut(splitGain, tries, s, a, fp, xp, i, hi, n, meas, m);
          splitGain := splitGain[i := g];
          splitInfo := splitInfo[i := info];
          tries := tries + 1;
        } else {
          FoundSkip(splitGain, tries, s, a, fp, xp, i, hi, n, meas, m);
        }
        i := i + 1;
      }
      if i >= lp {
        NoMoreCuts(splitGain, tries, s, a, fp, xp, i, hi, n, meas, m);
      }
    }

    /** The tables hold the cut before item i: the total of row 0 is the weight of the unknown values, and
        rows 1 and 2 hold the class weights on either side. */
    ghost predicate HoldsCut(tables: Tables, fp: nat, xp: nat, i: nat, hi: nat)
      reads tables, `s
    {
      && tables.n == 2 && tables.classes == maxClass + 1 && |tables.rows| == 3 && |tables.rows[0]| == maxClass + 2
      && fp <= xp <= |s| && tables.rows[0][maxClass + 1] == Load(s, fp, xp)
      && Holds(tables.rows[1], s, xp, i, maxClass + 1) && Holds(tables.rows[2], s, i, hi, maxClass + 1)
    }

    /** The gain of a cut after item i. */
    method CutHere(a: nat, fp: nat, xp: nat, i: nat, lp: int, tables: Tables, low: real, known: real, items: real,
                   base: real, unknown: real, ghost splitGain: seq<real>) returns (g: real, info: real)
      requires Valid() && fp <= xp <= i < lp < |s| == |splitGain| && known == Load(s, xp, lp + 1) > 0.0
      requires items == Load(s, fp, lp + 1) > 0.0 && unknown == 1.0 - known / items
      requires base == meas.total(ClassTotals(s[xp..lp + 1], maxClass + 1)) / known
      requires low == Load(s, xp, i + 1) && HoldsCut(tables, fp, xp, i + 1, lp + 1)
      requires tables.Valid() && tables.valFreq != weight && CutsMarked(splitGain, s, a, xp, lp + 1, minObjs as real)
      requires CVal(s[i].desc, a) < CVal(s[i + 1].desc, a) - 0.00001
      modifies tables`rows, tables.valFreq
      ensures tables.Valid() && HoldsCut(tables, fp, xp, i + 1, lp + 1)
              && CutsMarked(splitGain[i := g], s, a, xp, lp + 1, minObjs as real)
      ensures info == CutInfo(s, fp, xp, i, lp + 1, items, meas)
      ensures g == CutGain(s, fp, xp, i, lp + 1, maxClass + 1, meas, minObjs as real)
    {
      hide NonNegativeLog, Tied, Load, CutsMarked, CVal, Holds, ClassTotals, GainOf, CutGain;
      TablesShape(tables);
      LoadStep(s, xp, i, lp + 1);
      HoldsTotal(tables.rows[1], s, xp, i + 1, maxClass + 1, low);
      HoldsTotal(tables.rows[2], s, i + 1, lp + 1, maxClass + 1, known - low);
      g, info := TryCut(tables, low, known, items, base, unknown);
      TablesShape(tables);
      SidesHeld(tables.rows, s, fp, xp, i, lp + 1, maxClass + 1, meas, minObjs as real, base);
      MarkCut(splitGain, s, a, xp, i, lp + 1, minObjs as real, g, low);
    }

    /** Item i moves from the higher side of the split to the lower one. */
    method MoveItem(tables: Tables, i: nat, ghost fp: nat, ghost xp: nat, ghost hi: nat)
      requires Valid() && i < hi <= |s| && AllGood(s, maxClass, maxAttVal)
      requires tables.Valid() && HoldsCut(tables, fp, xp, i, hi)
      modifies tables`rows, tables.freq
      ensures tables.Valid() && HoldsCut(tables, fp, xp, i + 1, hi)
    {
      hide NonNegativeLog, Tied, Good, Tables.Valid, Load, Holds;
      GoodClass(s, i, maxClass, maxAttVal);
      TiedAt(i);
      var c, w := item[i].cls, weight[i];
      TablesShape(tables);
      HoldsMore(tables.rows[1], s, xp, i, maxClass + 1);
      HoldsLess(tables.rows[2], s, i, hi, maxClass + 1);
      tables.Count(1, c, w);
      tables.Count(2, c, 0.0 - w);
    }

    lemma TiedLength()
      requires Tied()
      ensures item.Length == weight.Length == |s|
    {}

    lemma CutHeld(tables: Tables, fp: nat, xp: nat, hi: nat)
      requires tables.Valid() && tables.n == 2 && tables.classes == maxClass + 1 && fp <= xp <= |s|
      requires tables.rows[0][maxClass + 1] == Load(s, fp, xp)
      requires Holds(tables.rows[1], s, xp, xp, maxClass + 1) && Holds(tables.rows[2], s, xp, hi, maxClass + 1)
      ensures HoldsCut(tables, fp, xp, xp, hi)
    {}

    lemma TiedAt(i: nat)
      requires Tied() && i < |s|
      ensures item.Length == weight.Length == |s| && s[i].desc == item[i] && s[i].weight == weight[i]
    {}

    /** Groups the unknown values and, when enough are known, sorts the others. */
    method SortKnown(a: nat, fp: nat, lp: int, items: real) returns (xp: nat, known: real)
      requires fp <= lp + 1 && Sound(fp, lp + 1) && items == Load(s, fp, lp + 1)
      modifies item, weight, `s
      ensures Valid() && |s| == |old(s)| && Perm(old(s), s, fp, lp + 1) && xp <= lp + 1
      ensures fp <= xp && (known >= 2.0 * minObjs as real ==>
                SortedKnown(s, a, fp, xp, lp + 1) && known == Load(s, xp, lp + 1))
      ensures fp <= lp + 1 <= |old(s)|
              && known == Sum(old(s)[fp..lp + 1], Weigh()) - Sum(old(s)[fp..lp + 1], Nowhere(a))
    {
      hide NonNegativeLog, Tied, Load, SoundItems, Perm, SortedOn, SortedKnown, Goes, Grouped, AllOnes;
      SoundBounds(s, fp, lp + 1, maxClass, maxAttVal);
      ghost var s0, hi := s, lp + 1;
      var probe := ContinTest(LeafNode([], 0, 0.0, 0.0), a, 0.0);
      var g := Group(0, fp, lp, probe);
      xp := g + 1;
      ghost var s1 := s;
      PermLength(s0, s1, fp, hi);
      PermKeepsSound(s0, s1, fp, hi, maxClass, maxAttVal);
      SoundStretch(s1, fp, hi, fp, xp, maxClass, maxAttVal);
      var unknown := CountItems(fp, g);
      known := items - unknown;
      KnownIs(s0, s1, probe, a, fp, xp, hi);
      LoadIs(s0, fp, hi);
      if known < 2.0 * minObjs as real {
        return;
      }
      Quicksort(xp, lp, a);
      PermLength(s1, s, xp, hi);
      GroupedAndSorted(s0, s1, s, probe, a, fp, xp, hi);
    }

    /** The index of the best cut, or -1. */
    method BestCut(splitGain: seq<real>, xp: nat, lp: int, threshCost: real) returns (bestI: int)
      requires xp <= lp + 1 <= |splitGain| && threshCost >= 0.0
      ensures bestI == -1 || (xp <= bestI < lp && splitGain[bestI] > threshCost)
      ensures bestI != -1 ==> forall j :: xp <= j < lp ==> splitGain[j] <= splitGain[bestI]
      ensures bestI != -1 ==> forall j :: xp <= j < bestI ==> splitGain[j] < splitGain[bestI]
      ensures bestI == -1 ==> forall j :: xp <= j < lp ==> splitGain[j] <= threshCost
    {
      var bestVal := 0.0;
      bestI := -1;
      var i := xp;
      while i < lp
        invariant xp <= i && bestVal >= 0.0
        invariant bestI == -1 || (xp <= bestI < lp && bestVal == splitGain[bestI] - threshCost && bestVal > 0.0)
        invariant bestI == -1 ==> bestVal == 0.0
        invariant forall j :: xp <= j < i && j < lp ==> splitGain[j] - threshCost <= bestVal
        invariant bestI != -1 ==> forall j :: xp <= j < bestI ==> splitGain[j] < splitGain[bestI]
      {
        if splitGain[i] - threshCost > bestVal {
          bestI := i;
          bestVal := splitGain[i] - threshCost;
        }
        i := i + 1;
      }
    }

    /** The best cut of a continuous attribute. */
    method EvalContinuousAtt(a: nat, fp: nat, lp: int, items: real) returns (gain: real, info: real, bar: real)
      requires fp <= lp + 1 && Sound(fp, lp + 1) && a <= maxAtt && items == Load(s, fp, lp + 1) && items > 0.0
      modifies item, weight, `s
      ensures Valid() && Perm(old(s), s, fp, lp + 1)
      ensures gain > 0.0 - EPSILON ==> SplitsIn(s, fp, lp + 1, a, bar, minObjs as real)
      ensures gain > 0.0 - EPSILON ==> gain > 0.0 && info == meas.total(SplitWeights(s[fp..lp + 1], a, bar)) / items
      ensures ThresholdGain(Candidate(gain, info, bar, []), old(s)[fp..lp + 1], a, maxClass + 1, meas, log, minObjs)
    {
      hide NonNegativeLog, Tied, Load, SoundItems, AllGood, Perm, SortedKnown, SplitsIn, CutAt, ThresholdGain,
        GainsFound, InfosMarked, CutsMarked, CutInfo, SplitWeights, Planned, Cost, SameTable;
      SoundBounds(s, fp, lp + 1, maxClass, maxAttVal);
      ghost var s0, hi := s, lp + 1;
      var xp, known := SortKnown(a, fp, lp, items);
      if known < 2.0 * minObjs as real {
        TooFewKnown(Candidate(0.0 - EPSILON, 0.0, 0.0, []), s0[fp..hi], a, maxClass + 1, meas, log, minObjs);
        return 0.0 - EPSILON, 0.0, 0.0;
      }
      PermKeepsSound(s0, s, fp, hi, maxClass, maxAttVal);
      SoundGood(s, fp, hi, maxClass, maxAttVal);
      SoundPositive(s, fp, hi, maxClass, maxAttVal);
      PermLoad(s0, s, fp, hi);
      StretchPerm(s0, s, fp, hi);
      var splitGain, splitInfo, tries := FindCuts(a, fp, xp, lp, known, items, 1.0 - known / items);
      FoundBounds(splitGain, tries, s, a, fp, xp, hi, hi, maxClass + 1, meas, minObjs as real);
      var threshCost := Cost(log, tries, items);
      CostNonNegative(log, tries, items);
      var bestI := BestCut(splitGain, xp, lp, threshCost);
      ghost var n := maxClass + 1;
      if bestI == -1 {
        ghost var none := Candidate(0.0 - EPSILON, 0.0, 0.0, []);
        NothingFound(splitGain, tries, s, a, fp, xp, hi, n, meas, minObjs, log, none);
        ThresholdGainPerm(none, s[fp..hi], s0[fp..hi], a, n, meas, log, minObjs);
        return 0.0 - EPSILON, 0.0, 0.0;
      }
      TiedAt(bestI);
      TiedAt(bestI + 1);
      bar := (CVal(item[bestI], a) + CVal(item[bestI + 1], a)) / 2.0;
      MarkedCut(splitGain, splitInfo, s, a, fp, xp, bestI, hi, items, meas, minObjs as real);
      CutIsSplit(s, a, fp, xp, bestI, hi, bar, minObjs as real);
      InfoIs(s, a, fp, xp, bestI, hi, items, meas, bar);
      gain, info := splitGain[bestI] - threshCost, splitInfo[bestI];
      CutFound(splitGain, tries, s, a, fp, xp, bestI, hi, n, meas, minObjs, log, Candidate(gain, info, bar, []));
      ThresholdGainPerm(Candidate(gain, info, bar, []), s[fp..hi], s0[fp..hi], a, n, meas, log, minObjs);
    }

    /** The greatest value of attribute a not above t among all items. */
    method GreatestValueBelow(a: nat, t: real) returns (best: real)
      requires Valid() && exists i :: 0 <= i < |s| && CVal(s[i].desc, a) != UNKNOWN && CVal(s[i].desc, a) <= t
      ensures best <= t && forall i :: 0 <= i < |s| && CVal(s[i].desc, a) != UNKNOWN && CVal(s[i].desc, a) <= t ==>
                CVal(s[i].desc, a) <= best
      ensures GreatestBelow(best, t, a, plan.table)
    {
      var notYet := true;
      best := 0.0;
      var i := 0;
      while i < item.Length
        invariant 0 <= i <= item.Length
        invariant notYet ==> forall j :: 0 <= j < i ==> CVal(s[j].desc, a) == UNKNOWN || CVal(s[j].desc, a) > t
        invariant !notYet ==> best <= t && best != UNKNOWN && exists j :: 0 <= j < i && CVal(item[j], a) == best
        invariant !notYet ==> forall j :: 0 <= j < i && CVal(s[j].desc, a) != UNKNOWN && CVal(s[j].desc, a) <= t ==>
                    CVal(s[j].desc, a) <= best
      {
        var v := CVal(item[i], a);
        if v != UNKNOWN && v <= t && (notYet || v > best) {
          best := v;
          notYet := false;
        }
        i := i + 1;
      }
      forall c | c in plan.table && CVal(c, a) != UNKNOWN && CVal(c, a) <= t
        ensures CVal(c, a) <= best
      {
        var j :| 0 <= j < item.Length && item[j] == c;
        assert s[j].desc == c;
      }
    }

    function KindOf(a: nat): int
      requires a < |maxAttVal|
    {
      KindFor(maxAttVal[a], subsetTests)
    }

    ghost function Kinds(): (k: seq<int>)
      ensures |k| == |maxAttVal| && forall a :: 0 <= a < |k| ==> k[a] == KindOf(a)
    {
      seq(|maxAttVal|, a requires 0 <= a < |maxAttVal| => KindOf(a))
    }

    /** Finds the information and gain of a test on one attribute. */
    method EvalAtt(a: nat, fp: nat, lp: int, cases: real, ghost node: Tree<real>) returns (r: Option<Candidate>)
      requires fp <= lp + 1 && Sound(fp, lp + 1) && a <= maxAtt && cases == Load(s, fp, lp + 1) && cases > 0.0
      modifies item, weight, `s, `minObjs
      ensures NeverOverruns() ==> r.Some?
      ensures AllOnes(old(s), fp, lp + 1) ==> r.Some?
      ensures r.None? <==> plan.kinds[a] == GROUPED && Lost(old(s)[fp..lp + 1], plan, a)
      ensures Valid() && Perm(old(s), s, fp, lp + 1) && (minObjs == old(minObjs) || minObjs == 1)
      ensures !subsetTests ==> minObjs == old(minObjs)
      ensures r.Some? ==> minObjs == if plan.kinds[a] == GROUPED && Blank(old(s)[fp..lp + 1], a) then 1
              else old(minObjs)
      ensures r.Some? ==> Evaluated(r.value, old(s)[fp..lp + 1], plan, a, tested[a], old(minObjs))
      ensures r.Some? ==> Usable(s, fp, lp + 1, node, a, maxAttVal[a], KindOf(a), r.value, minObjs as real)
    {
      hide SameTable, NonNegativeLog, Tied, SoundItems, Load, Perm, Usable, AllOnes, Blank, GroupedGain, DiscreteGain,
        DiscreteInfo, Lost, ThresholdGain;
      SoundBounds(s, fp, lp + 1, maxClass, maxAttVal);
      PermSelf(s, fp, lp + 1);
      var none := Candidate(0.0 - EPSILON, 0.0, 0.0, []);
      if ignored[a] || (KindOf(a) == DISCR && tested[a] > 0) {
        NoGain(s, fp, lp + 1, node, a, maxAttVal[a], KindOf(a), none, minObjs as real);
        return Some(none);
      }
      if KindOf(a) == GROUPED {
        var g :- EvalSubsetAtt(a, fp, lp, cases, node);
        return Some(Candidate(g.gain, g.info, 0.0, g.sets));
      } else if KindOf(a) == DISCR {
        var gain, info := EvalDiscreteAtt(a, fp, lp, cases, node);
        return Some(Candidate(gain, info, 0.0, []));
      } else {
        var gain, info, bar := EvalContinuousAtt(a, fp, lp, cases);
        PermLength(old(s), s, fp, lp + 1);
        assert plan.kinds[a] == CONTIN;
        ContinUsable(s, fp, lp + 1, node, a, maxAttVal[a], gain, info, bar, minObjs as real);
        return Some(Candidate(gain, info, bar, []));
      }
    }

    /** Evaluates every attribute and averages the gains of those without very many values. */
    method EvalAll(fp: nat, lp: int, cases: real, ghost node: Tree<real>) returns (r: Option<(seq<Candidate>, real)>)
      requires fp <= lp + 1 && Sound(fp, lp + 1) && cases == Load(s, fp, lp + 1) && cases > 0.0
      modifies item, weight, `s, `minObjs
      ensures NeverOverruns() ==> r.Some?
      ensures AllOnes(old(s), fp, lp + 1) ==> r.Some?
      ensures r.None? <==> LostBelow(old(s)[fp..lp + 1], plan, maxAtt + 1)
      ensures Valid() && Perm(old(s), s, fp, lp + 1) && (minObjs == old(minObjs) || minObjs == 1)
      ensures !subsetTests ==> minObjs == old(minObjs)
      ensures r.Some? ==> minObjs == MinimumAt(old(s)[fp..lp + 1], plan.kinds, maxAtt + 1, old(minObjs))
      ensures r.Some? ==> AllEvaluated(r.value.0, old(s)[fp..lp + 1], plan, tested, old(minObjs))
      ensures r.Some? ==> |r.value.0| == maxAtt + 1 && r.value.1 == AverageGain(r.value.0, plan.few)
      ensures r.Some? ==> AllUsable(s, fp, lp + 1, node, maxAttVal, Kinds(), r.value.0, minObjs as real)
    {
      hide SameTable, NonNegativeLog, Tied, SoundItems, Load, Perm, Usable, AllUsable, AllOnes, AllEvaluated, MinimumAt,
        Evaluated, LostBelow, GainCount, GainSum, Blank;
      SoundBounds(s, fp, lp + 1, maxClass, maxAttVal);
      PermSelf(s, fp, lp + 1);
      ghost var s1 := s[fp..lp + 1];
      NoneUsable(s, fp, lp + 1, node, maxAttVal, Kinds(), minObjs as real);
      NoneEvaluated(s1, plan, tested, minObjs);
      MinimumStart(s1, plan.kinds, minObjs);
      ghost var hi := lp + 1;
      var cands: seq<Candidate> := [];
      var possible, sum := 0, 0.0;
      NotLostYet(s1, plan);
      GainStart(plan.few);
      while |cands| <= maxAtt
        invariant |cands| <= maxAtt + 1 && fp <= hi <= |s| && Sound(fp, hi) && Perm(old(s), s, fp, hi)
                  && cases == Load(s, fp, hi)
        invariant minObjs == old(minObjs) || minObjs == 1
        invariant !subsetTests ==> minObjs == old(minObjs)
        invariant minObjs == MinimumAt(s1, plan.kinds, |cands|, old(minObjs))
                  && AllEvaluated(cands, s1, plan, tested, old(minObjs))
        invariant !LostBelow(s1, plan, |cands|)
        invariant AllOnes(old(s), fp, hi) ==> AllOnes(s, fp, hi)
        invariant possible == GainCount(cands, plan.few, |cands|) && sum == GainSum(cands, plan.few, |cands|)
        invariant AllUsable(s, fp, hi, node, maxAttVal, Kinds(), cands, minObjs as real)
      {
        var a := |cands|;
        ghost var s0 := s;
        var next := EvalNext(a, fp, lp, cases, node, cands, s1, old(minObjs), old(s));
        PermTrans(old(s), s0, s, fp, hi);
        PermLength(s0, s, fp, hi);
        if next.None? {
          LostBefore(s1, plan, a + 1, maxAtt + 1);
          return None;
        }
        var c := next.value;
        GainStep(cands, c, plan.few);
        if c.gain > 0.0 - EPSILON && (multiVal || (maxAttVal[a] as real) < 0.3 * item.Length as real) {
          possible := possible + 1;
          sum := sum + c.gain;
        }
        cands := cands + [c];
      }
      return Some((cands, if possible > 0 then sum / possible as real else 1000000.0));
    }

    /** Evaluates attribute a after those before it. s1 are the items of the stretch and m the minimum
        when the first attribute was evaluated. */
    method EvalNext(a: nat, fp: nat, lp: int, cases: real, ghost node: Tree<real>, ghost cands: seq<Candidate>,
                    ghost s1: seq<Item>, ghost m: nat, ghost first: seq<Item>) returns (r: Option<Candidate>)
      requires fp <= lp + 1 && Sound(fp, lp + 1) && cases == Load(s, fp, lp + 1) && cases > 0.0
               && a == |cands| <= maxAtt
      requires AllUsable(s, fp, lp + 1, node, maxAttVal, Kinds(), cands, minObjs as real)
      requires Perm(first, s, fp, lp + 1) && lp + 1 <= |first| && s1 == first[fp..lp + 1]
      requires minObjs == MinimumAt(s1, plan.kinds, a, m) && AllEvaluated(cands, s1, plan, tested, m)
               && !LostBelow(s1, plan, a)
      modifies item, weight, `s, `minObjs
      ensures NeverOverruns() ==> r.Some?
      ensures AllOnes(old(s), fp, lp + 1) ==> r.Some? && AllOnes(s, fp, lp + 1)
      ensures r.None? <==> LostBelow(s1, plan, a + 1)
      ensures Valid() && Perm(old(s), s, fp, lp + 1) && (minObjs == old(minObjs) || minObjs == 1)
      ensures !subsetTests ==> minObjs == old(minObjs)
      ensures r.Some? ==> Sound(fp, lp + 1) && cases == Load(s, fp, lp + 1)
      ensures r.Some? ==>
                minObjs == MinimumAt(s1, plan.kinds, a + 1, m) && AllEvaluated(cands + [r.value], s1, plan, tested, m)
      ensures r.Some? ==> AllUsable(s, fp, lp + 1, node, maxAttVal, Kinds(), cands + [r.value], minObjs as real)
    {
      ghost var s0, m0, hi := s, minObjs as real, lp + 1;
      StretchPerm(first, s, fp, hi);
      hide NonNegativeLog, Tied, SoundItems, Load, Perm, Usable, AllUsable, AllOnes, AllEvaluated, MinimumAt, Evaluated,
        LostBelow, Lost, Blank;
      BlankPerm(s1, s[fp..hi], a);
      r := EvalAtt(a, fp, lp, cases, node);
      PermKeepsSound(s0, s, fp, hi, maxClass, maxAttVal);
      LostStep(s1, s0[fp..hi], plan, a);
      if r.None? {
        return;
      }
      SameBlank(s1, s0[fp..hi], a);
      MinimumStep(s1, plan.kinds, a, m);
      AllEvaluatedStep(cands, r.value, s1, s0[fp..hi], plan, tested, m);
      AllUsableStep(s0, s, fp, hi, node, maxAttVal, Kinds(), cands, r.value, m0, minObjs as real);
      PermLoad(s0, s, fp, hi);
    }

    /** The first attribute whose test has the greatest worth; None when no test is worth more than
        -EPSILON. */
    method BestAttribute(cands: seq<Candidate>, average: real) returns (best: Option<nat>)
      ensures best.None? <==> forall a :: 0 <= a < |cands| ==> !Pays(cands[a], average, meas.gainRatio)
      ensures best.Some? ==> FirstBest(cands, average, meas.gainRatio, best.value)
    {
      hide Worth;
      best := None;
      var bestVal := 0.0 - EPSILON;
      var a := 0;
      while a < |cands|
        invariant 0 <= a <= |cands|
        invariant best.None? ==> bestVal == 0.0 - EPSILON
        invariant best.Some? ==> best.value < a && Pays(cands[best.value], average, meas.gainRatio)
        invariant best.Some? ==>
                    bestVal == Worth(cands[best.value].info, cands[best.value].gain, average, meas.gainRatio)
        invariant forall b :: 0 <= b < a && Pays(cands[b], average, meas.gainRatio) ==>
                    Worth(cands[b].info, cands[b].gain, average, meas.gainRatio) <= bestVal
        invariant best.Some? ==> forall b :: 0 <= b < best.value && Pays(cands[b], average, meas.gainRatio) ==>
                    Worth(cands[b].info, cands[b].gain, average, meas.gainRatio) < bestVal
      {
        if cands[a].gain > 0.0 - EPSILON {
          var val := Worth(cands[a].info, cands[a].gain, average, meas.gainRatio);
          if val > bestVal {
            best := Some(a);
            bestVal := val;
          }
        }
        a := a + 1;
      }
    }

    /** Builds the test on attribute a. */
    method MakeTest(a: nat, fp: nat, lp: int, node: Tree<real>, c: Candidate) returns (t: Tree<real>)
      requires fp <= lp + 1 && Sound(fp, lp + 1) && a <= maxAtt && c.gain > 0.0 - EPSILON
      requires Usable(s, fp, lp + 1, node, a, maxAttVal[a], KindOf(a), c, minObjs as real)
      ensures ReadyIn(s, fp, lp + 1, t, minObjs as real) && t.tested == a
      ensures !ignored[a] ==> Suits(t, plan, node, c)
    {
      hide NonNegativeLog, SoundItems, Ready, Splits, AllOnes, GreatestBelow;
      if KindOf(a) == GROUPED {
        t := SubsetTest(node, a, c.sets);
      } else if KindOf(a) == DISCR {
        t := DiscreteTest(node, a, maxAttVal[a]);
      } else {
        ghost var i := SomeBelow(s, fp, lp + 1, a, c.bar, minObjs as real);
        var cut := GreatestValueBelow(a, c.bar);
        ContinReady(node, s[fp..lp + 1], a, c.bar, cut, minObjs as real);
        t := ContinTest(node, a, cut);
      }
    }

    /** Evaluates a test on every attribute and picks the best. */
    method ChooseTest(fp: nat, lp: int, cases: real, node: Tree<real>) returns (r: Option<Option<Tree<real>>>)
      requires fp <= lp + 1 && Sound(fp, lp + 1) && cases == Load(s, fp, lp + 1) && cases > 0.0
      modifies item, weight, `s, `minObjs
      ensures NeverOverruns() ==> r.Some?
      ensures AllOnes(old(s), fp, lp + 1) ==> r.Some?
      ensures r.None? <==> LostBelow(old(s)[fp..lp + 1], plan, maxAtt + 1)
      ensures Valid() && Perm(old(s), s, fp, lp + 1) && (minObjs == old(minObjs) || minObjs == 1)
      ensures !subsetTests ==> minObjs == old(minObjs)
      ensures r.Some? ==> minObjs == MinimumAt(old(s)[fp..lp + 1], plan.kinds, maxAtt + 1, old(minObjs))
      ensures r.Some? ==> PicksTest(r.value, old(s)[fp..lp + 1], plan, tested, old(minObjs), node)
      ensures r.Some? && r.value.Some? ==>
                ReadyIn(s, fp, lp + 1, r.value.value, minObjs as real) && 0 <= r.value.value.tested <= maxAtt
    {
      hide NonNegativeLog, Tied, SoundItems, Load, Perm, Usable, AllUsable, AllOnes, ReadyIn, AllEvaluated, MinimumAt,
        AverageGain, Worth, LostBelow, PicksTest;
      SoundBounds(s, fp, lp + 1, maxClass, maxAttVal);
      var e :- EvalAll(fp, lp, cases, node);
      var best := BestAttribute(e.0, e.1);
      if best.None? {
        NonePicked(e.0, old(s)[fp..lp + 1], plan, tested, old(minObjs), node);
        return Some(None);
      }
      PermKeepsSound(old(s), s, fp, lp + 1, maxClass, maxAttVal);
      UsableAt(s, fp, lp + 1, node, maxAttVal, Kinds(), e.0, minObjs as real, best.value);
      var t := MakeTest(best.value, fp, lp, node, e.0[best.value]);
      OnePicked(e.0, old(s)[fp..lp + 1], plan, tested, old(minObjs), node, t);
      return Some(Some(t));
    }

    /** Brings the unknown items back to the front of the stretch and undoes the scaling of their
        weights. s0 are the items before the branch, s1 those before the scaling. */
    method Restore(fp: nat, kp: nat, ep: int, t: Tree<real>, factor: real, ghost s0: seq<Item>, ghost s1: seq<Item>,
                   ghost hi: nat)
      requires Valid() && fp <= kp <= ep + 1 <= hi <= |s0| == |s1| && factor != 0.0
      requires TwoPerms(s0, s1, fp, kp, hi) && Cut(ScaledIn(s1, fp, kp, factor), t, fp, kp, ep + 1)
      requires Perm(ScaledIn(s1, fp, kp, factor), s, fp, ep + 1)
      modifies item, weight, `s
      ensures Valid() && TwoPerms(s0, s, fp, kp, hi)
    {
      hide NonNegativeLog, Tied, Perm, TwoPerms, ScaledIn, Grouped, Inverse, Goes;
      PermBounds(ScaledIn(s1, fp, kp, factor), s, fp, ep + 1);
      ghost var s3 := s;
      var g := Group(0, fp, ep, t);
      ghost var s4 := s;
      PermTrans(ScaledIn(s1, fp, kp, factor), s3, s4, fp, ep + 1);
      BranchRestored(s0, s1, s4, t, fp, kp, g + 1, ep + 1, hi, factor);
      Divide(fp, kp, factor);
    }

    /** Branch v of test t: its items are moved next to the unknown ones, whose weights are scaled
        to the fraction of known items in the branch, a tree is formed from both together, and the
        unknown items are brought back and their weights restored. */
    method GrowBranch(v: nat, fp: nat, kp: nat, lp: int, t: Tree<real>, node: Tree<real>, known: real)
      returns (r: Option<Tree<real>>)
      requires fp <= kp <= lp + 1 && Sound(fp, lp + 1) && 0 < v <= t.forks
      requires Cut(s, t, fp, kp, lp + 1) && (allKnown ==> kp == fp) && SomeElsewhere(s, t, v, kp, lp + 1)
      requires known == Load(s, kp, lp + 1) && NodeBasis(node, maxClass + 1) && OfKind(t, plan)
      modifies item, weight, `s, `allKnown, `tested, `minObjs
      ensures NeverOverruns() ==> r.Some?
      ensures AllOnes(old(s), fp, lp + 1) && Complete(old(s), fp, lp + 1, plan.kinds) ==> r.Some?
      ensures r.Some? && Complete(old(s), fp, lp + 1, OnlyGrouped(plan.kinds)) ==> minObjs == old(minObjs)
      ensures Valid()
      ensures r.Some? ==> allKnown == old(allKnown) && tested == old(tested)
      ensures r.Some? ==> TwoPerms(old(s), s, fp, kp, lp + 1)
      ensures minObjs == old(minObjs) || minObjs == 1
      ensures r.Some? ==>
                minObjs == MinimumAfter(r.value, Share(old(s)[fp..lp + 1], t, v), plan, old(minObjs))
      ensures r.None? ==> CanFail(Share(old(s)[fp..lp + 1], t, v), plan, old(tested), old(minObjs))
      ensures r.Some? ==> Greedy(r.value, Share(old(s)[fp..lp + 1], t, v), plan, old(tested), old(minObjs))
      ensures !subsetTests ==> minObjs == old(minObjs)
      ensures r.Some? ==> Grown(r.value, maxClass + 1, minObjs as real)
      ensures r.Some? ==>
                FairShare(r.value.items, Load(old(s), fp, kp), known, BranchLoad(old(s), kp, lp + 1, t, v))
      ensures r.Some? ==> BranchFormed(r.value, old(s), fp, lp + 1, t, v, maxClass + 1)
      decreases lp - fp + 1, 0
    {
      hide NonNegativeLog, Tied, Perm, TwoPerms, SoundItems, Goes, Grown, ScaledIn, Grouped, SomeElsewhere, Load,
        BranchLoad, NodeBasis, AllOnes, Distribution, FairShare, ScaledTotal, Inverse, Quotient, BranchFormed, FormedIn,
        Complete, OnlyGrouped, OfKind, Greedy, Stops, LostBelow, BlankBelow, MinimumAfter, Share,
        CanFail;
      SoundBounds(s, fp, lp + 1, maxClass, maxAttVal);
      ghost var s0, hi := s, lp + 1;
      var ep := Group(v, kp, lp, t);
      ghost var s1, m := s, ep + 1;
      BranchReady(s0, s1, t, v, fp, kp, m, hi, maxClass, maxAttVal);
      if kp <= ep {
        var count := CountItems(kp, ep);
        FactorPositive(count, known);
        var factor := Quotient(count, known);
        BranchScaled(s1, t, fp, kp, m, hi, factor, maxClass, maxAttVal);
        BranchKnown(s0, s1, t, fp, kp, m, hi, factor, plan);
        Multiply(fp, kp, factor);
        ghost var tested0, m0 := tested, minObjs;
        var next := FormTree(fp, ep);
        if next.None? {
          ChildFails(s0, s1, t, v, fp, kp, m, hi, factor, plan, tested0, m0);
          return None;
        }
        var child := next.value;
        Restore(fp, kp, ep, t, factor, s0, s1, hi);
        ChildItems(child.items, Load(s1, fp, kp), factor, count, known);
        ChildDrops(s0, s1, t, v, fp, kp, m, hi, factor, child, plan, old(minObjs));
        ChildGreedy(s0, s1, t, v, fp, kp, m, hi, factor, child, plan, tested, old(minObjs));
        ChildFormed(s0, s1, t, v, fp, kp, m, hi, factor, child, maxClass + 1);
        r := Some(child);
      } else {
        EmptyLoad(s1, kp);
        NoShare(Load(s0, fp, kp), known);
        EmptyLeaf(node, maxClass + 1, minObjs as real);
        EmptyFormed(s0, t, v, fp, kp, hi, node, maxClass + 1);
        r := Some(LeafNode(node.dist, node.leaf, 0.0, 0.0));
        EmptyDropsNot(s0, t, v, fp, kp, hi, r.value, plan, minObjs);
        EmptyGreedy(s0, t, v, fp, kp, hi, node, plan, tested, minObjs);
      }
    }

    /** Moves the items with an unknown value to the front. */
    method GroupUnknown(fp: nat, lp: int, t: Tree<real>, cases: real) returns (kp: nat, unknown: real, known: real)
      requires fp <= lp + 1 && Sound(fp, lp + 1) && ReadyIn(s, fp, lp + 1, t, minObjs as real)
               && cases == Load(s, fp, lp + 1)
      modifies item, weight, `s, `allKnown
      ensures fp <= kp <= lp + 1 <= |s| && Sound(fp, lp + 1) && allKnown == (old(allKnown) && kp == fp)
      ensures Perm(old(s), s, fp, lp + 1) && TwoPerms(s, s, fp, kp, lp + 1)
      ensures AllOnes(old(s), fp, lp + 1) ==> AllOnes(s, fp, lp + 1)
      ensures Cut(s, t, fp, kp, lp + 1) && DividesIn(s, kp, lp + 1, t, minObjs as real)
      ensures unknown == Load(s, fp, kp) && known == Load(s, kp, lp + 1) == TotalsIn(s, kp, lp + 1, t, t.forks)
      ensures cases == unknown + known && known > 0.0 && unknown >= 0.0
    {
      hide NonNegativeLog, Tied, Perm, TwoPerms, SoundItems, Goes, Grouped, Load, AllOnes, DividesIn, ReadyIn, TotalsIn;
      SoundBounds(s, fp, lp + 1, maxClass, maxAttVal);
      ghost var s0, hi := s, lp + 1;
      var g := Group(0, fp, lp, t);
      kp := g + 1;
      UnknownGrouped(s0, s, t, fp, kp, hi, minObjs as real, maxClass, maxAttVal);
      if kp != fp {
        allKnown := false;
      }
      unknown := CountItems(fp, g);
      known := cases - unknown;
    }

    /** Divide and conquer on test t: the unknown items are grouped and each branch is grown. */
    method GrowBranches(fp: nat, lp: int, t: Tree<real>, node: Tree<real>, cases: real)
      returns (r: Option<(seq<Tree<real>>, real)>)
      requires fp <= lp + 1 && Sound(fp, lp + 1) && ReadyIn(s, fp, lp + 1, t, minObjs as real)
               && 0 <= t.tested <= maxAtt && t.forks >= 0
      requires cases == Load(s, fp, lp + 1) && NodeBasis(node, maxClass + 1) && OfKind(t, plan)
      modifies item, weight, `s, `allKnown, `tested, `minObjs
      ensures NeverOverruns() ==> r.Some?
      ensures AllOnes(old(s), fp, lp + 1) && Complete(old(s), fp, lp + 1, plan.kinds) ==> r.Some?
      ensures r.Some? && Complete(old(s), fp, lp + 1, OnlyGrouped(plan.kinds)) ==> minObjs == old(minObjs)
      ensures Valid()
      ensures r.Some? ==> allKnown == old(allKnown) && tested == old(tested) && Perm(old(s), s, fp, lp + 1)
      ensures r.Some? ==> |r.value.0| == t.forks && Items(r.value.0) == cases && Errors(r.value.0) == r.value.1
      ensures minObjs == old(minObjs) || minObjs == 1
      ensures r.Some? ==> minObjs == MinimumPast(r.value.0, old(s)[fp..lp + 1], t, plan, old(minObjs))
      ensures r.None? ==>
                SomeFails(old(s)[fp..lp + 1], t, plan, Marked(old(tested), t.tested), old(minObjs))
      ensures r.Some? ==>
                AllGreedy(r.value.0, old(s)[fp..lp + 1], t, plan, Marked(old(tested), t.tested), old(minObjs))
      ensures !subsetTests ==> minObjs == old(minObjs)
      ensures r.Some? ==> forall b :: b in r.value.0 ==> Grown(b, maxClass + 1, minObjs as real)
      ensures r.Some? ==> TwoBranches(r.value.0, minObjs as real)
      ensures r.Some? ==> BranchesFormed(r.value.0, old(s), fp, lp + 1, t, maxClass + 1)
      decreases lp - fp + 1, 1
    {
      hide NonNegativeLog, Tied, Perm, TwoPerms, SoundItems, Goes, Grown, Grouped, SomeElsewhere, Load, BranchLoad,
        NodeBasis, FairShare, DividesIn, ReadyIn, TotalsIn, Items, Errors, AllOnes, BranchFormed, BranchesFormed,
        Complete, OnlyGrouped, OfKind, Planned, TwoBranches, MinimumAfter, MinimumPast, Share,
        Greedy, AllGreedy, CanFail, SomeFails;
      SoundBounds(s, fp, lp + 1, maxClass, maxAttVal);
      var prevAllKnown := allKnown;
      ghost var m := minObjs as real;
      ghost var s0, hi := s, lp + 1;
      var kp, unknown, known := GroupUnknown(fp, lp, t, cases);
      ghost var s1 := s;
      tested := tested[t.tested := tested[t.tested] + 1];
      ghost var marked := tested;
      NoBranches(s1, kp, hi, t, unknown, known);
      NoneFormed(s0, fp, hi, t, maxClass + 1);
      NonePast(s0[fp..hi], t, plan, minObjs);
      NoneGreedy(s0[fp..hi], t, plan, marked, minObjs);
      var branch: seq<Tree<real>> := [];
      var errors := 0.0;
      var v := 1;
      while v <= t.forks
        invariant 1 <= v <= t.forks + 1 && |branch| == v - 1
        invariant Valid() && TwoPerms(s1, s, fp, kp, hi)
        invariant allKnown == (prevAllKnown && kp == fp) && tested == marked
        invariant errors == Errors(branch) && FairShare(Items(branch), unknown, known, TotalsIn(s1, kp, hi, t, v - 1))
        invariant minObjs == old(minObjs) || minObjs == 1
        invariant !subsetTests ==> minObjs == old(minObjs)
        invariant forall b :: b in branch ==> Grown(b, maxClass + 1, minObjs as real)
        invariant forall i :: 0 <= i < |branch| ==> branch[i].items >= BranchLoad(s1, kp, hi, t, i + 1)
        invariant minObjs == MinimumPast(branch, s0[fp..hi], t, plan, old(minObjs))
        invariant AllGreedy(branch, s0[fp..hi], t, plan, marked, old(minObjs))
        invariant BranchesFormed(branch, s0, fp, hi, t, maxClass + 1)
        invariant Complete(s0, fp, hi, OnlyGrouped(plan.kinds)) ==> minObjs == old(minObjs)
      {
        ghost var s2 := s;
        StillKnown(s0, s1, s2, fp, kp, hi, plan);
        StillDivided(s1, s2, t, v, fp, kp, hi, m, maxClass, maxAttVal);
        ghost var m1 := minObjs as real;
        ghost var left := minObjs;
        TwoPermsPerm(s0, s1, s2, fp, kp, hi);
        var next := GrowBranch(v, fp, kp, lp, t, node, known);
        if next.None? {
          BranchFails(s0, s2, fp, hi, t, v, plan, marked, old(minObjs), left);
          return None;
        }
        var child := next.value;
        AllWeaker(branch, maxClass + 1, m1, minObjs as real);
        ShareAtLeast(child.items, unknown, known, BranchLoad(s2, kp, hi, t, v));
        TwoPermsTrans(s1, s2, s, fp, kp, hi);
        ShareStep(Items(branch), child.items, unknown, known, TotalsIn(s1, kp, hi, t, v - 1),
          BranchLoad(s2, kp, hi, t, v));
        GrownBranches(branch, child);
        GreedyStep(branch, child, s0, s2, fp, hi, t, plan, marked, old(minObjs));
        PastStep(branch, child, s0, s2, fp, hi, t, plan, old(minObjs));
        BranchesFormedStep(branch, child, s0, s2, fp, hi, t, maxClass + 1);
        branch := branch + [child];
        errors := errors + child.errors;
        v := v + 1;
      }
      tested := tested[t.tested := tested[t.tested] - 1];
      allKnown := prevAllKnown;
      ShareAll(Items(branch), unknown, known);
      TwoBranchesHave(s1, kp, hi, t, branch, m);
      TwoBranchesWeaker(branch, m, minObjs as real);
      TwoPermsPerm(s0, s1, s, fp, kp, hi);
      return Some((branch, errors));
    }

    /** A leaf for the items: their class distribution, the most frequent class and the rest as
        errors. */
    method LeafFor(fp: nat, lp: int) returns (node: Tree<real>)
      requires fp <= lp + 1 && Sound(fp, lp + 1)
      ensures NodeBasis(node, maxClass + 1) && Grown(node, maxClass + 1, minObjs as real)
              && FormedIn(node, s, fp, lp + 1, maxClass + 1)
      ensures Distribution(node.dist, s, fp, lp + 1, maxClass + 1) && node.nodeType == LEAF
      ensures node.items == Load(s, fp, lp + 1) >= 0.0 && (fp <= lp ==> node.items > 0.0)
      ensures 0 <= node.leaf < |node.dist| && node.errors == node.items - node.dist[node.leaf] >= 0.0
              && node.branch == []
      ensures node.dist[node.leaf] == node.items <==> OneClass(s[fp..lp + 1])
    {
      SoundBounds(s, fp, lp + 1, maxClass, maxAttVal);
      SoundGood(s, fp, lp + 1, maxClass, maxAttVal);
      hide NonNegativeLog, Tied, SoundItems, AllGood, Grown, Load, NodeBasis, AllOnes, Distribution, IsBest, FormedIn;
      var cases := CountItems(fp, lp);
      var classFreq, bestClass := CountClasses(fp, lp);
      BestBounds(classFreq, bestClass);
      var noBestClass := classFreq[bestClass];
      node := LeafNode(classFreq, bestClass, cases, cases - noBestClass);
      LeafGrown(s, fp, lp + 1, maxClass, maxAttVal, classFreq, bestClass, cases - noBestClass, minObjs as real);
      LeafFormed(s, fp, lp + 1, classFreq, bestClass, cases - noBestClass, maxClass + 1);
      LeafPure(s, fp, lp + 1, classFreq, bestClass, maxClass, maxAttVal);
    }

    method FormTree(fp: nat, lp: int) returns (r: Option<Tree<real>>)
      requires fp <= lp + 1 && Sound(fp, lp + 1)
      modifies item, weight, `s, `allKnown, `tested, `minObjs
      ensures NeverOverruns() ==> r.Some?
      ensures AllOnes(old(s), fp, lp + 1) && Complete(old(s), fp, lp + 1, plan.kinds) ==> r.Some?
      ensures !Stops(old(s)[fp..lp + 1], old(minObjs)) && LostBelow(old(s)[fp..lp + 1], plan, maxAtt + 1) ==> r.None?
      ensures Valid()
      ensures r.Some? ==> allKnown == old(allKnown) && tested == old(tested)
      ensures r.Some? ==> Perm(old(s), s, fp, lp + 1)
      ensures minObjs == old(minObjs) || minObjs == 1
      ensures r.Some? ==> minObjs == MinimumAfter(r.value, old(s)[fp..lp + 1], plan, old(minObjs))
      ensures !subsetTests ==> minObjs == old(minObjs)
      ensures r.Some? && Complete(old(s), fp, lp + 1, OnlyGrouped(plan.kinds)) ==> minObjs == old(minObjs)
      ensures r.Some? && !Stops(old(s)[fp..lp + 1], old(minObjs))
              && BlankBelow(old(s)[fp..lp + 1], plan.kinds, maxAtt + 1) ==>
                minObjs == 1
      ensures r.Some? ==> Grown(r.value, maxClass + 1, minObjs as real) && r.value.items == Load(old(s), fp, lp + 1)
      ensures r.Some? ==> Distribution(r.value.dist, old(s), fp, lp + 1, maxClass + 1)
      ensures r.Some? ==> FormedIn(r.value, old(s), fp, lp + 1, maxClass + 1)
      ensures r.None? ==> CanFail(old(s)[fp..lp + 1], plan, old(tested), old(minObjs))
      ensures r.Some? ==> Greedy(r.value, old(s)[fp..lp + 1], plan, old(tested), old(minObjs))
      decreases lp - fp + 1, 4
    {
      hide NonNegativeLog, Tied, Perm, SoundItems, Grown, Load, NodeBasis, AllOnes, Distribution, FormedIn, Complete,
        OneClass, WellChosen, LostBelow, BlankBelow, MinimumAfter, MinimumPast, Share,
        Greedy, Headed, CanFail;
      SoundBounds(s, fp, lp + 1, maxClass, maxAttVal);
      var node := LeafFor(fp, lp);
      PermSelf(s, fp, lp + 1);
      LoadIs(s, fp, lp + 1);
      var cases, noBestClass := node.items, node.dist[node.leaf];
      if noBestClass == cases || cases < 2.0 * minObjs as real {
        StopsAfter(node, s[fp..lp + 1], plan, minObjs);
        HeadOf(node, s, fp, lp + 1, maxClass + 1, minObjs as real);
        LeafGreedy(node, s[fp..lp + 1], plan, tested, minObjs);
        return Some(node);
      }
      r := FormBranches(fp, lp, node);
    }

    /** Chooses a test for the items of the leaf node and forms its branches; it stays a leaf when no
        test is worth it. */
    method FormBranches(fp: nat, lp: int, node: Tree<real>) returns (r: Option<Tree<real>>)
      requires fp <= lp + 1 && Sound(fp, lp + 1) && NodeBasis(node, maxClass + 1)
      requires GrownFrom(node, s, fp, lp + 1, maxClass + 1, minObjs as real) && node.items >= 2.0 * minObjs as real
      requires 0 <= node.leaf < |node.dist| && node.dist[node.leaf] < node.items && node.branch == []
      requires !Stops(s[fp..lp + 1], minObjs)
      modifies item, weight, `s, `allKnown, `tested, `minObjs
      ensures NeverOverruns() ==> r.Some?
      ensures AllOnes(old(s), fp, lp + 1) && Complete(old(s), fp, lp + 1, plan.kinds) ==> r.Some?
      ensures LostBelow(old(s)[fp..lp + 1], plan, maxAtt + 1) ==> r.None?
      ensures Valid()
      ensures r.Some? ==> allKnown == old(allKnown) && tested == old(tested)
      ensures r.Some? ==> Perm(old(s), s, fp, lp + 1)
      ensures minObjs == old(minObjs) || minObjs == 1
      ensures r.Some? ==> minObjs == MinimumAfter(r.value, old(s)[fp..lp + 1], plan, old(minObjs))
      ensures !subsetTests ==> minObjs == old(minObjs)
      ensures r.Some? && Complete(old(s), fp, lp + 1, OnlyGrouped(plan.kinds)) ==> minObjs == old(minObjs)
      ensures r.Some? && BlankBelow(old(s)[fp..lp + 1], plan.kinds, maxAtt + 1) ==> minObjs == 1
      ensures r.Some? ==> GrownFrom(r.value, old(s), fp, lp + 1, maxClass + 1, minObjs as real)
      ensures r.None? ==> CanFail(old(s)[fp..lp + 1], plan, old(tested), old(minObjs))
      ensures r.Some? ==> Greedy(r.value, old(s)[fp..lp + 1], plan, old(tested), old(minObjs))
      decreases lp - fp + 1, 3
    {
      hide NonNegativeLog, Tied, Perm, SoundItems, GrownFrom, Load, NodeBasis, AllOnes, ReadyIn, Complete, WellChosen,
        PicksTest, LostBelow, BlankBelow, OfKind, MinimumAt, Stops, MinimumAfter, MinimumPast, TestOf,
        Greedy, AllGreedy, Marked, Headed, CanFail, SomeFails, TestChosen, Carries, TypeOf;
      ghost var s0, m0, tested0, hi := s, minObjs as real, tested, lp + 1;
      GrownFromItems(node, s, fp, lp + 1, maxClass + 1, minObjs as real);
      FormedKnown(s0, fp, hi, plan, minObjs, maxAtt + 1);
      var choice := ChooseFor(fp, lp, node);
      ghost var s1, m1 := s, minObjs;
      if choice.None? {
        FailsHere(s0[fp..hi], plan, tested0, old(minObjs));
        return None;
      }
      StillComplete(s0, s1, fp, hi, plan);
      if choice.value.None? {
        r := Some(node);
        PermBounds(s0, s1, fp, hi);
        NonePast(s1[fp..hi], TestOf(node, plan), plan, minObjs);
        NoneGreedy(s1[fp..hi], TestOf(node, plan), plan, Marked(tested, node.tested), minObjs);
      } else {
        GrownFromItems(node, s, fp, lp + 1, maxClass + 1, minObjs as real);
        PickIsOfKind(choice.value.value, s0[fp..hi], plan, tested0, old(minObjs), node);
        r := FormTest(fp, lp, choice.value.value, node, node.items);
      }
      if r.Some? {
        GrownFromBack(r.value, s0, s1, s, fp, lp + 1, maxClass + 1, minObjs as real);
        HeadOf(r.value, s0, fp, hi, maxClass + 1, minObjs as real);
        ChosenWell(choice.value, r.value, s0[fp..hi], plan, tested0, old(minObjs), node);
        NodeAfter(r.value, s0, s1, fp, hi, plan, old(minObjs));
        NodeGreedy(r.value, s0, s1, fp, hi, plan, tested0, old(minObjs), m1);
      } else {
        FailsThere(s0, s1, fp, hi, choice.value.value, plan, tested0, old(minObjs), m1);
      }
    }

    /** Chooses a test; the items stay the same up to their order. */
    method ChooseFor(fp: nat, lp: int, node: Tree<real>) returns (r: Option<Option<Tree<real>>>)
      requires fp <= lp + 1 && Sound(fp, lp + 1)
      requires GrownFrom(node, s, fp, lp + 1, maxClass + 1, minObjs as real) && node.items > 0.0
      modifies item, weight, `s, `minObjs
      ensures NeverOverruns() ==> r.Some?
      ensures AllOnes(old(s), fp, lp + 1) ==> r.Some? && AllOnes(s, fp, lp + 1)
      ensures r.None? <==> LostBelow(old(s)[fp..lp + 1], plan, maxAtt + 1)
      ensures Valid() && Perm(old(s), s, fp, lp + 1) && (minObjs == old(minObjs) || minObjs == 1)
      ensures !subsetTests ==> minObjs == old(minObjs)
      ensures r.Some? ==> minObjs == MinimumAt(old(s)[fp..lp + 1], plan.kinds, maxAtt + 1, old(minObjs))
      ensures r.Some? ==> PicksTest(r.value, old(s)[fp..lp + 1], plan, tested, old(minObjs), node)
      ensures r.Some? ==> Sound(fp, lp + 1) && GrownFrom(node, s, fp, lp + 1, maxClass + 1, minObjs as real)
      ensures r.Some? && r.value.Some? ==>
                ReadyIn(s, fp, lp + 1, r.value.value, minObjs as real) && 0 <= r.value.value.tested <= maxAtt
    {
      hide NonNegativeLog, Tied, Perm, SoundItems, GrownFrom, Load, AllOnes, ReadyIn, PicksTest, MinimumAt, LostBelow;
      ghost var s0, m0 := s, minObjs as real;
      GrownFromItems(node, s, fp, lp + 1, maxClass + 1, minObjs as real);
      r := ChooseTest(fp, lp, node.items, node);
      GrownFromPerm(node, s0, s, fp, lp + 1, maxClass + 1, m0, minObjs as real);
      PermKeepsSound(s0, s, fp, lp + 1, maxClass, maxAttVal);
    }

    /** Turns the leaf node into test t with its branches, unless that makes as many errors. */
    method FormTest(fp: nat, lp: int, t: Tree<real>, node: Tree<real>, cases: real) returns (r: Option<Tree<real>>)
      requires fp <= lp + 1 && Sound(fp, lp + 1) && ReadyIn(s, fp, lp + 1, t, minObjs as real)
               && 0 <= t.tested <= maxAtt
      requires cases == Load(s, fp, lp + 1) > 0.0 && NodeBasis(node, maxClass + 1) && cases == node.items
               && OfKind(t, plan)
      requires GrownFrom(node, s, fp, lp + 1, maxClass + 1, minObjs as real)
      requires 0 <= node.leaf < |node.dist| && node.dist[node.leaf] < node.items
      modifies item, weight, `s, `allKnown, `tested, `minObjs
      ensures NeverOverruns() ==> r.Some?
      ensures AllOnes(old(s), fp, lp + 1) && Complete(old(s), fp, lp + 1, plan.kinds) ==> r.Some?
      ensures r.Some? && Complete(old(s), fp, lp + 1, OnlyGrouped(plan.kinds)) ==> minObjs == old(minObjs)
      ensures Valid()
      ensures r.Some? ==> allKnown == old(allKnown) && tested == old(tested) && Perm(old(s), s, fp, lp + 1)
      ensures minObjs == old(minObjs) || minObjs == 1
      ensures r.Some? ==>
                minObjs == MinimumPast(r.value.branch, old(s)[fp..lp + 1], TestOf(r.value, plan), plan, old(minObjs))
      ensures r.None? ==>
                SomeFails(old(s)[fp..lp + 1], t, plan, Marked(old(tested), t.tested), old(minObjs))
      ensures r.Some? ==>
                AllGreedy(r.value.branch, old(s)[fp..lp + 1], TestOf(r.value, plan), plan,
                  Marked(old(tested), t.tested), old(minObjs))
      ensures !subsetTests ==> minObjs == old(minObjs)
      ensures r.Some? ==> GrownFrom(r.value, old(s), fp, lp + 1, maxClass + 1, minObjs as real)
      ensures r.Some? ==> KeepsTest(t, r.value)
      decreases lp - fp + 1, 2
    {
      hide NonNegativeLog, Tied, Perm, SoundItems, AllGood, Grown, GrownFrom, Load, NodeBasis, AllOnes, ReadyIn, Items,
        Errors, TwoBranches, BranchesFormed, KnownIn, Complete, OfKind, MinimumPast, AllGreedy, Marked, SomeFails;
      SoundBounds(s, fp, lp + 1, maxClass, maxAttVal);
      ReadyParts(s, fp, lp + 1, t, minObjs as real);
      ReadyKnown(s, fp, lp + 1, t, minObjs as real, maxClass, maxAttVal);
      ghost var m, s0 := minObjs as real, s;
      var grown :- GrowBranches(fp, lp, t, node, cases);
      var branch, errors := grown.0, grown.1;
      assert minObjs as real <= m;
      TestGrown(s0, fp, lp + 1, node, t, branch, errors, maxClass + 1, m, minObjs as real);
      var tree := TestOrLeaf(node, t, branch, errors);
      TestPast(t, tree, s0[fp..lp + 1], plan, old(minObjs));
      TestGreedy(t, tree, s0[fp..lp + 1], plan, Marked(old(tested), t.tested), old(minObjs));
      return Some(tree);
    }
  }

  /** Exchanging two cases keeps the set of cases. */
  lemma SwapKeepsCases(s: seq<Case>, r: seq<Case>, a: nat, b: nat)
    requires a < |s| && b < |s| && r == s[a := s[b]][b := s[a]]
    ensures (set c | c in r) == (set c | c in s)
  {
    assert s == r[a := r[b]][b := r[a]];
    OnlyThose(s, r, a, b);
    OnlyThose(r, s, a, b);
  }

  lemma OnlyThose(s: seq<Case>, r: seq<Case>, a: nat, b: nat)
    requires a < |s| && b < |s| && r == s[a := s[b]][b := s[a]]
    ensures forall c :: c in r ==> c in s
  {}

  lemma CostNonNegative(log: nat -> real, tries: nat, items: real)
    requires NonNegativeLog(log) && items > 0.0
    ensures Cost(log, tries, items) >= 0.0
  {}

  lemma QuotientIsProduct(w: real, k: real)
    requires k != 0.0
    ensures w / k == w * Inverse(k)
  {}
}
