/** Pruning a single rule: conditions are dropped, the one with the lowest error estimate first, until
    every condition left matters. */
module PruneRule {
  import opened Options
  import opened BitSets
  import opened C45Types

  datatype Test = Test(nodeType: int, tested: int, forks: int, cut: real, subset: seq<Bits>)

  datatype Cond = Cond(test: Test, value: int)

  datatype Rule = Rule(lhs: seq<Cond>, rhs: nat, error: real)

  // ---- Conditions -------------------------------------------------------------------------------

  /** A value kept in a char: -128 to 127. */
  function AsChar(i: int): (r: int)
    ensures -128 <= r < 128
  {
    (i + 128) % 256 - 128
  }

  /** The first set that holds the value, counting from 1. */
  function FirstHolding(sets: seq<Bits>, v: nat, s: nat): int
    requires 1 <= s
    decreases |sets| + 1 - s
  {
    if s > |sets| then -1 else if In(v, sets[s - 1]) then s else FirstHolding(sets, v, s + 1)
  }

  /** The outcome of a test on a case; -1 when the value is unknown or in no set. */
  function Outcome(c: Case, t: Test): int {
    if t.nodeType == BR_DISCR then if DVal(c, t.tested) == 0 then -1 else DVal(c, t.tested)
    else if t.nodeType == THRESH_CONTIN then
      if CVal(c, t.tested) == UNKNOWN then -1 else if CVal(c, t.tested) <= t.cut then 1 else 2
    else FirstHolding(t.subset, DVal(c, t.tested), 1)
  }

  /** The outcome is compared after it went through a char. */
  predicate Satisfied(c: Case, d: Cond) { AsChar(Outcome(c, d.test)) == d.value }

  /** A case with a value above 127 is not found to satisfy the condition that requires it, but one that
      requires another value. */
  lemma ManyValuesAreMissed(c: Case, t: Test)
    requires t.nodeType == BR_DISCR && DVal(c, t.tested) > 127
    ensures !Satisfied(c, Cond(t, DVal(c, t.tested)))
    ensures Satisfied(c, Cond(t, AsChar(DVal(c, t.tested)))) && AsChar(DVal(c, t.tested)) != Outcome(c, t)
  {}

  /** The conditions that require one of the outcomes 1 to n of the test are judged as intended, for all
      cases whose value is at most k. */
  ghost predicate JudgedAs(t: Test, n: nat, k: nat) {
    forall c, v :: DVal(c, t.tested) <= k && 1 <= v <= n ==> (Satisfied(c, Cond(t, v)) <==> Outcome(c, t) == v)
  }

  /** A discrete test is judged as intended if and only if it has at most 127 values. */
  lemma DiscreteJudged(t: Test, n: nat)
    requires t.nodeType == BR_DISCR && t.tested >= 0
    ensures JudgedAs(t, n, n) <==> n <= 127
  {
    if n > 127 {
      var c := Case(seq(t.tested + 1, _ => 128), [], 0);
      assert DVal(c, t.tested) == 128 && Outcome(c, t) == 128;
      assert !(Satisfied(c, Cond(t, 128)) <==> Outcome(c, t) == 128);
    }
  }

  /** A test against a threshold always is. */
  lemma ThresholdJudged(t: Test, k: nat)
    requires t.nodeType == THRESH_CONTIN
    ensures JudgedAs(t, 2, k)
  {}

  /** A test on groups of values is judged as intended if and only if no value is found in a group after
      the 127th. */
  lemma SubsetJudged(t: Test, n: nat, k: nat)
    requires t.nodeType == BR_SUBSET && t.tested >= 0 && n == |t.subset|
    ensures JudgedAs(t, n, k) <==> forall v :: 0 <= v <= k ==> FirstHolding(t.subset, v, 1) <= 127
  {
    forall v: nat
      ensures FirstHolding(t.subset, v, 1) == -1 || 1 <= FirstHolding(t.subset, v, 1) <= n
    {
      HoldingBounds(t.subset, v, 1);
    }
    if v: nat :| v <= k && FirstHolding(t.subset, v, 1) > 127 {
      var c := Case(seq(t.tested + 1, _ => v), [], 0);
      assert DVal(c, t.tested) == v && Outcome(c, t) == FirstHolding(t.subset, v, 1);
      assert !(Satisfied(c, Cond(t, Outcome(c, t))) <==> Outcome(c, t) == Outcome(c, t));
    } else {
      forall c, v | DVal(c, t.tested) <= k && 1 <= v <= n
        ensures Satisfied(c, Cond(t, v)) <==> Outcome(c, t) == v
      {
        assert Outcome(c, t) == FirstHolding(t.subset, DVal(c, t.tested), 1);
      }
    }
  }

  ghost predicate GroupsValues(t: Test, n: nat) { t.nodeType == BR_SUBSET && t.tested >= 0 && |t.subset| == n }

  /** The tests with n groups are all judged as intended if and only if n is at most 127. */
  lemma GroupsJudged(n: nat, k: nat)
    requires k >= 1
    ensures (forall t :: GroupsValues(t, n) ==> JudgedAs(t, n, k)) <==> n <= 127
  {
    forall t | GroupsValues(t, n)
      ensures n <= 127 ==> JudgedAs(t, n, k)
    {
      SubsetJudged(t, n, k);
      forall v: nat
        ensures FirstHolding(t.subset, v, 1) <= n
      {
        HoldingBounds(t.subset, v, 1);
      }
    }
    if n > 127 {
      var sets: seq<Bits> := seq(n, i => if i == 127 then WithBit(1, Cleared(1)) else Cleared(1));
      var t := Test(BR_SUBSET, 0, n, 0.0, sets);
      InWithBit(1, Cleared(1), 1);
      InCleared(1, 1);
      FirstHeld(sets, 1, 1, 128);
      SubsetJudged(t, n, k);
      assert GroupsValues(t, n) && FirstHolding(t.subset, 1, 1) > 127;
    }
  }

  lemma {:induction false} HoldingBounds(sets: seq<Bits>, v: nat, s: nat)
    requires 1 <= s
    ensures FirstHolding(sets, v, s) == -1 || s <= FirstHolding(sets, v, s) <= |sets|
    decreases |sets| + 1 - s
  {
    if s <= |sets| && !In(v, sets[s - 1]) {
      HoldingBounds(sets, v, s + 1);
    }
  }

  lemma {:induction false} FirstHeld(sets: seq<Bits>, v: nat, s: nat, k: nat)
    requires 1 <= s <= k <= |sets| && In(v, sets[k - 1]) && forall j :: s - 1 <= j < k - 1 ==> !In(v, sets[j])
    ensures FirstHolding(sets, v, s) == k
    decreases k - s
  {
    if s < k {
      FirstHeld(sets, v, s + 1, k);
    }
  }

  method Satisfies(c: Case, d: Cond) returns (r: bool)
    requires d.test.nodeType in {BR_DISCR, THRESH_CONTIN, BR_SUBSET}
    requires d.test.nodeType == BR_SUBSET ==> |d.test.subset| == d.test.forks
    ensures r == Satisfied(c, d)
  {
    var t, outcome := d.test, 0;
    if t.nodeType == BR_DISCR {
      var v := DVal(c, t.tested);
      outcome := AsChar(if v == 0 then -1 else v);
    } else if t.nodeType == THRESH_CONTIN {
      var cv := CVal(c, t.tested);
      outcome := AsChar(if cv == UNKNOWN then -1 else if cv <= t.cut then 1 else 2);
    } else {
      var v := DVal(c, t.tested);
      outcome := AsChar(-1);
      var s := 1;
      while s <= t.forks
        invariant 1 <= s <= t.forks + 1 && outcome == -1
        invariant FirstHolding(t.subset, v, 1) == FirstHolding(t.subset, v, s)
      {
        if In(v, t.subset[s - 1]) {
          outcome := AsChar(s);
          break;
        }
        s := s + 1;
      }
      assert outcome == AsChar(Outcome(c, t));
    }
    r := outcome == d.value;
  }

  // ---- What the tables should hold --------------------------------------------------------------

  /** The case meets every condition kept. */
  ghost predicate Meets(c: Case, cond: seq<Cond>, kept: set<nat>) {
    forall d :: d in kept && d < |cond| ==> Satisfied(c, cond[d])
  }

  /** The case fails condition d and no other one kept. */
  ghost predicate MissesOnly(c: Case, cond: seq<Cond>, kept: set<nat>, d: nat) {
    d < |cond| && !Satisfied(c, cond[d]) && Meets(c, cond, kept - {d})
  }

  /** The cases, or those not of class target, that meet all conditions kept. */
  ghost function Covered(s: seq<Case>, cond: seq<Cond>, kept: set<nat>): nat {
    if s == [] then 0 else Covered(s[..|s| - 1], cond, kept) + if Meets(s[|s| - 1], cond, kept) then 1 else 0
  }

  ghost function Mistaken(s: seq<Case>, cond: seq<Cond>, kept: set<nat>, target: nat): (n: nat)
    ensures n <= Covered(s, cond, kept)
  {
    if s == [] then 0 else
    Mistaken(s[..|s| - 1], cond, kept, target)
    + if Meets(s[|s| - 1], cond, kept) && s[|s| - 1].cls != target then 1 else 0
  }

  ghost function Missing(s: seq<Case>, cond: seq<Cond>, kept: set<nat>, d: nat): nat {
    if s == [] then 0 else Missing(s[..|s| - 1], cond, kept, d) + if MissesOnly(s[|s| - 1], cond, kept, d) then 1 else 0
  }

  ghost function MissingMistaken(s: seq<Case>, cond: seq<Cond>, kept: set<nat>, d: nat, target: nat): nat {
    if s == [] then 0 else
    MissingMistaken(s[..|s| - 1], cond, kept, d, target)
    + if MissesOnly(s[|s| - 1], cond, kept, d) && s[|s| - 1].cls != target then 1 else 0
  }

  lemma MeetsAllBut(c: Case, cond: seq<Cond>, kept: set<nat>, d: nat)
    requires d in kept && d < |cond|
    ensures Meets(c, cond, kept - {d}) <==> Meets(c, cond, kept) || MissesOnly(c, cond, kept, d)
    ensures !(Meets(c, cond, kept) && MissesOnly(c, cond, kept, d))
  {
    hide Satisfied;
  }

  /** The cases that meet all conditions but d are those that meet all and those that miss only d. */
  lemma {:induction false} CoveredAllBut(s: seq<Case>, cond: seq<Cond>, kept: set<nat>, d: nat, target: nat)
    requires d in kept && d < |cond|
    ensures Covered(s, cond, kept - {d}) == Covered(s, cond, kept) + Missing(s, cond, kept, d)
    ensures Mistaken(s, cond, kept - {d}, target)
            == Mistaken(s, cond, kept, target) + MissingMistaken(s, cond, kept, d, target)
  {
    hide Meets, MissesOnly;
    if s != [] {
      CoveredAllBut(s[..|s| - 1], cond, kept, d, target);
      MeetsAllBut(s[|s| - 1], cond, kept, d);
    }
  }

  /** Keeping fewer conditions covers no fewer cases. */
  lemma {:induction false} FewerCoverMore(s: seq<Case>, cond: seq<Cond>, kept: set<nat>, fewer: set<nat>)
    requires fewer <= kept
    ensures Covered(s, cond, kept) <= Covered(s, cond, fewer)
  {
    hide Satisfied;
    if s != [] {
      FewerCoverMore(s[..|s| - 1], cond, kept, fewer);
    }
  }

  // ---- Which conditions are dropped -------------------------------------------------------------

  /** What the pruning of one rule works from: the items, the conditions from place 1 on, the class,
      and the two estimates it calls for. */
  datatype Setting = Setting(s: seq<Case>, cond: seq<Cond>, target: nat, addErrs: (real, real) -> real,
                             tableProb: (int, int, int, int) -> real, sigTest: bool, sigThresh: real)
  {
    /** The error rate to expect of the class as a default. */
    ghost function DefaultError(): real { 1.0 - (TargetsIn(s, target) as real + 1.0) / (|s| as real + 2.0) }

    ghost function Total(kept: set<nat>): nat { Covered(s, cond, kept) }

    ghost function Errors(kept: set<nat>): nat { Mistaken(s, cond, kept, target) }

    ghost function Actual(kept: set<nat>): real
    {
      if Total(kept) == 0 then 0.0 else Errors(kept) as real / Total(kept) as real
    }

    ghost function Pessimistic(kept: set<nat>): real {
      if Total(kept) == 0 then DefaultError() else
      (Errors(kept) as real + addErrs(Total(kept) as real, Errors(kept) as real)) / Total(kept) as real
    }

    ghost function Significance(kept: set<nat>, d: nat): real {
      tableProb(Errors(kept), Errors(kept - {d}) - Errors(kept), Total(kept) - Errors(kept),
                Total(kept - {d}) - Total(kept) - Errors(kept - {d}) + Errors(kept))
    }

    /** The rule is no worse without condition d. */
    ghost predicate Needless(kept: set<nat>, d: nat) {
      || Pessimistic(kept - {d}) <= Pessimistic(kept)
      || Actual(kept - {d}) <= Actual(kept)
      || (sigTest && Significance(kept, d) > sigThresh)
    }

    /** The condition, the last one of equals, without which the estimated error is lowest. */
    ghost predicate IsDrop(kept: set<nat>, b: nat) {
      && b in kept
      && (forall d :: d in kept ==> Pessimistic(kept - {b}) <= Pessimistic(kept - {d}))
      && (forall d :: d in kept && d > b ==> Pessimistic(kept - {b}) < Pessimistic(kept - {d}))
    }

    lemma DropIsUnique(kept: set<nat>, a: nat, b: nat)
      requires IsDrop(kept, a) && IsDrop(kept, b)
      ensures a == b
    {
      hide Pessimistic;
    }

    /** Conditions are dropped one at a time, while some condition is needless. */
    ghost predicate Prunes(kept: set<nat>, final: set<nat>)
      decreases |kept|
    {
      if exists d :: d in kept && Needless(kept, d) then
        exists b :: IsDrop(kept, b) && Prunes(kept - {b}, final)
      else final == kept
    }

    lemma {:induction false} PruningIsUnique(kept: set<nat>, a: set<nat>, b: set<nat>)
      requires Prunes(kept, a) && Prunes(kept, b)
      ensures a == b
      decreases |kept|
    {
      hide Needless, IsDrop;
      if exists d :: d in kept && Needless(kept, d) {
        var x: nat :| IsDrop(kept, x) && Prunes(kept - {x}, a);
        var y: nat :| IsDrop(kept, y) && Prunes(kept - {y}, b);
        DropIsUnique(kept, x, y);
        assert x in kept by { DropIsKept(kept, x); }
        PruningIsUnique(kept - {x}, a, b);
      }
    }

    lemma DropIsKept(kept: set<nat>, b: nat)
      requires IsDrop(kept, b)
      ensures b in kept
    {}

    /** What is left are some of the conditions, none of them needless: dropping any one raises both
        the estimated and the actual error. */
    lemma {:induction false} NothingNeedless(kept: set<nat>, final: set<nat>)
      requires Prunes(kept, final)
      ensures final <= kept
      ensures forall d :: d in final ==>
                && Pessimistic(final - {d}) > Pessimistic(final) && Actual(final - {d}) > Actual(final)
                && (sigTest ==> Significance(final, d) <= sigThresh)
      decreases |kept|
    {
      if exists d :: d in kept && Needless(kept, d) {
        var b: nat :| IsDrop(kept, b) && Prunes(kept - {b}, final);
        NothingNeedless(kept - {b}, final);
      } else {
        forall d | d in final
          ensures !Needless(final, d)
        {}
      }
    }

    /** The rule for the conditions left is worth keeping. */
    ghost predicate Accurate(final: set<nat>) {
      final != {} && Total(final) > 0 && Pessimistic(final) < DefaultError()
    }
  }

  function TargetsIn(s: seq<Case>, target: nat): nat {
    if s == [] then 0 else TargetsIn(s[..|s| - 1], target) + if s[|s| - 1].cls == target then 1 else 0
  }

  // ---- Tables -----------------------------------------------------------------------------------

  function Kept(deleted: seq<bool>, n: nat): set<nat>
    requires n < |deleted|
  {
    set d: nat | 1 <= d <= n && !deleted[d]
  }

  /** What a place of the table holds after the first cases: for 0 those that meet all conditions, for
      a kept condition those that miss only that one. */
  ghost function Part(g: Setting, kept: set<nat>, d: nat, i: nat): nat
    requires i <= |g.s|
  {
    if d == 0 then Covered(g.s[..i], g.cond, kept) else if d in kept then Missing(g.s[..i], g.cond, kept, d) else 0
  }

  ghost function PartMistaken(g: Setting, kept: set<nat>, d: nat, i: nat): nat
    requires i <= |g.s|
  {
    if d == 0 then Mistaken(g.s[..i], g.cond, kept, g.target)
    else if d in kept then MissingMistaken(g.s[..i], g.cond, kept, d, g.target)
    else 0
  }

  /** The place of the table a case is counted at; -1 for none. */
  ghost predicate CountedAt(g: Setting, c: Case, kept: set<nat>, at: int) {
    && (at == 0 <==> Meets(c, g.cond, kept))
    && (forall d :: d in kept ==> (at == d <==> MissesOnly(c, g.cond, kept, d)))
    && (at > 0 ==> at in kept)
  }

  lemma PartStep(g: Setting, kept: set<nat>, d: nat, i: nat, at: int)
    requires i < |g.s| && CountedAt(g, g.s[i], kept, at) && 0 !in kept
    ensures Part(g, kept, d, i + 1) == Part(g, kept, d, i) + if at == d then 1 else 0
    ensures PartMistaken(g, kept, d, i + 1) == PartMistaken(g, kept, d, i) + if at == d && g.s[i].cls != g.target
            then 1 else 0
  {
    hide Meets, MissesOnly;
    assert g.s[..i + 1][..i] == g.s[..i];
  }

  /** The tables hold the defining counts for what is kept: place 0 for all conditions, place d for all
      but d. */
  ghost predicate TablesHold(g: Setting, kept: set<nat>, n: nat, total: seq<int>, errors: seq<int>) {
    && n < |total| && n < |errors|
    && total[0] == g.Total(kept) && errors[0] == g.Errors(kept)
    && forall d :: 1 <= d <= n ==>
         if d in kept then total[d] == g.Total(kept - {d}) && errors[d] == g.Errors(kept - {d})
         else total[d] == 0 && errors[d] == 0
  }

  // ---- Conditions kept, in any order ------------------------------------------------------------

  function One(c: Cond, deleted: bool): multiset<Cond> { if deleted then multiset{} else multiset{c} }

  /** The conditions from place lo to n that are not deleted. */
  function KeptFrom(cond: seq<Cond>, deleted: seq<bool>, lo: nat, n: nat): multiset<Cond>
    requires n < |cond| && n < |deleted|
    decreases n + 1 - lo
  {
    if lo > n then multiset{} else One(cond[lo], deleted[lo]) + KeptFrom(cond, deleted, lo + 1, n)
  }

  lemma {:induction false} KeptBeyond(cond: seq<Cond>, deleted: seq<bool>, lo: nat, n: nat, e: nat, c: Cond, del: bool)
    requires n < |cond| && n < |deleted| && e < lo && e <= n
    ensures KeptFrom(cond[e := c], deleted[e := del], lo, n) == KeptFrom(cond, deleted, lo, n)
    decreases n + 1 - lo
  {
    hide One;
    if lo <= n {
      KeptBeyond(cond, deleted, lo + 1, n, e, c, del);
    }
  }

  lemma {:induction false} KeptUpdate(cond: seq<Cond>, deleted: seq<bool>, lo: nat, n: nat, e: nat, c: Cond, del: bool)
    requires n < |cond| && n < |deleted| && lo <= e <= n
    ensures KeptFrom(cond[e := c], deleted[e := del], lo, n) + One(cond[e], deleted[e])
         == KeptFrom(cond, deleted, lo, n) + One(c, del)
    decreases n + 1 - lo
  {
    hide One;
    if lo == e {
      KeptBeyond(cond, deleted, lo + 1, n, e, c, del);
    } else {
      KeptUpdate(cond, deleted, lo + 1, n, e, c, del);
      var r', r := KeptFrom(cond[e := c], deleted[e := del], lo + 1, n), KeptFrom(cond, deleted, lo + 1, n);
      Reorder(One(cond[lo], deleted[lo]), r', One(cond[e], deleted[e]), r, One(c, del));
    }
  }

  lemma Reorder(a: multiset<Cond>, r: multiset<Cond>, x: multiset<Cond>, s: multiset<Cond>, y: multiset<Cond>)
    requires r + x == s + y
    ensures (a + r) + x == (a + s) + y
  {
    assert (a + r) + x == a + (r + x) && (a + s) + y == a + (s + y);
  }

  /** Moving a kept condition to place d and what was there to its place. */
  lemma KeptSwap(cond: seq<Cond>, deleted: seq<bool>, d: nat, dd: nat, n: nat, c: seq<Cond>, del: seq<bool>)
    requires n < |cond| && n < |deleted| && d <= dd <= n && !deleted[dd]
    requires c == cond[d := cond[dd]][dd := cond[d]] && del == deleted[dd := deleted[d]][d := true]
    ensures KeptFrom(c, del, d + 1, n) + multiset{cond[dd]} == KeptFrom(cond, deleted, d, n)
  {
    hide KeptFrom;
    KeptFirst(cond, deleted, d, n);
    var c1, del1 := cond[d := cond[dd]], deleted[d := true];
    KeptBeyond(cond, deleted, d + 1, n, d, cond[dd], true);
    if d < dd {
      assert c == c1[dd := cond[d]] && del == del1[dd := deleted[d]] && c1[dd] == cond[dd] && del1[dd] == deleted[dd];
      KeptUpdate(c1, del1, d + 1, n, dd, cond[d], deleted[d]);
    } else {
      assert c == c1 && del == del1;
    }
  }

  lemma KeptFirst(cond: seq<Cond>, deleted: seq<bool>, d: nat, n: nat)
    requires d <= n < |cond| && n < |deleted|
    ensures KeptFrom(cond, deleted, d, n) == One(cond[d], deleted[d]) + KeptFrom(cond, deleted, d + 1, n)
  {}

  lemma {:induction false} SomeKept(cond: seq<Cond>, deleted: seq<bool>, lo: nat, n: nat)
    requires n < |cond| && n < |deleted| && |KeptFrom(cond, deleted, lo, n)| > 0
    ensures exists e :: lo <= e <= n && !deleted[e]
    decreases n + 1 - lo
  {
    if lo <= n && deleted[lo] {
      SomeKept(cond, deleted, lo + 1, n);
    }
  }

  lemma CountOfKept(cond: seq<Cond>, deleted: seq<bool>, n: nat)
    requires n < |cond| && n < |deleted|
    ensures |KeptFrom(cond, deleted, 1, n)| == |Kept(deleted, n)| <= n
  {
    KeptCount(cond, deleted, 1, n);
    assert Kept(deleted, n) <= Places(n);
    SmallerSet(Kept(deleted, n), Places(n));
  }

  lemma {:induction false} SmallerSet(a: set<nat>, b: set<nat>)
    requires a <= b
    ensures |a| <= |b|
  {
    assert b == a + (b - a);
  }

  /** As many conditions are kept as places are. */
  lemma {:induction false} KeptCount(cond: seq<Cond>, deleted: seq<bool>, lo: nat, n: nat)
    requires n < |cond| && n < |deleted| && lo >= 1
    ensures |KeptFrom(cond, deleted, lo, n)| == |set d: nat | lo <= d <= n && !deleted[d]|
    decreases n + 1 - lo
  {
    var here := set d: nat | lo <= d <= n && !deleted[d];
    if lo <= n {
      var rest := set d: nat | lo + 1 <= d <= n && !deleted[d];
      KeptCount(cond, deleted, lo + 1, n);
      if deleted[lo] {
        assert here == rest;
      } else {
        assert here == rest + {lo} && lo !in rest;
      }
    } else {
      assert here == {};
    }
  }

  predicate Before(a: Test, b: Test)
  {
    a.tested < b.tested || a.nodeType < b.nodeType || (a.tested == b.tested && a.cut < b.cut)
  }

  class RulePruner {
    const item: seq<Case>
    const addErrs: (real, real) -> real
    const tableProb: (int, int, int, int) -> real
    const sigTest: bool
    const sigThresh: real
    const satisfied: array2<bool>
    const deleted: array<bool>
    const total: array<int>
    const errors: array<int>
    const pessimistic: array<real>
    const actual: array<real>
    const sigLevel: array<real>

    ghost const tables: set<object>

    /** Room for n conditions. */
    constructor (n: nat, item: seq<Case>, addErrs: (real, real) -> real, tableProb: (int, int, int, int) -> real,
                 sigTest: bool, sigThresh: real)
      ensures Valid() && fresh(tables) && deleted.Length == n + 1 && this.item == item && this.addErrs == addErrs
      ensures this.tableProb == tableProb && this.sigTest == sigTest && this.sigThresh == sigThresh
    {
      this.item, this.addErrs, this.tableProb, this.sigTest, this.sigThresh :=
        item, addErrs, tableProb, sigTest, sigThresh;
      satisfied := new bool[n + 1, |item|];
      deleted := new bool[n + 1];
      total, errors := new int[n + 1], new int[n + 1];
      pessimistic, actual, sigLevel := new real[n + 1], new real[n + 1], new real[n + 1];
      tables := {satisfied, deleted, total, errors, pessimistic, actual, sigLevel};
    }

    ghost predicate Valid() {
      && deleted.Length == satisfied.Length0 == total.Length == errors.Length == pessimistic.Length == actual.Length
        == sigLevel.Length
      && deleted.Length > 0 && satisfied.Length1 == |item|
      && total != errors && pessimistic != actual && pessimistic != sigLevel && actual != sigLevel
      && tables == {satisfied, deleted, total, errors, pessimistic, actual, sigLevel}
    }

    /** The matrix says which items satisfy which conditions, for the setting of the current rule. */
    ghost predicate Evaluated(g: Setting, n: nat)
      reads satisfied
    {
      && Valid() && n < deleted.Length && |g.cond| > n
      && g.s == item && g.addErrs == addErrs && g.tableProb == tableProb && g.sigTest == sigTest
        && g.sigThresh == sigThresh
      && forall d, i :: 1 <= d <= n && 0 <= i < |item| ==> satisfied[d, i] == Satisfied(item[i], g.cond[d])
    }

    /** Looks for conditions the item misses, no further than the second one. */
    method Misses(i: nat, n: nat, ghost g: Setting) returns (at: int)
      requires Evaluated(g, n) && i < |item|
      ensures CountedAt(g, item[i], Kept(deleted[..], n), at)
      ensures -1 <= at <= n
    {
      hide Satisfied;
      var misses, d := 0, 1;
      var missed := new int[2];
      while d <= n && misses <= 1
        invariant 1 <= d <= n + 1 && 0 <= misses <= 2
        invariant misses == 0 ==> forall e :: 1 <= e < d && !deleted[e] ==> satisfied[e, i]
        invariant misses == 1 ==> 1 <= missed[0] < d && !deleted[missed[0]] && !satisfied[missed[0], i]
        invariant misses == 1 ==> forall e :: 1 <= e < d && !deleted[e] && e != missed[0] ==> satisfied[e, i]
        invariant misses == 2 ==> 1 <= missed[0] < missed[1] <= n && !deleted[missed[0]] && !satisfied[missed[0], i]
        invariant misses == 2 ==> !deleted[missed[1]] && !satisfied[missed[1], i]
      {
        if !deleted[d] && !satisfied[d, i] {
          missed[misses] := d;
          misses := misses + 1;
        }
        d := d + 1;
      }
      at := if misses == 0 then 0 else if misses == 1 then missed[0] else -1;
    }

    method UpdateCount(d: nat, ok: bool)
      requires Valid() && d < total.Length
      modifies total, errors
      ensures total[..] == old(total[..])[d := old(total[d]) + 1]
      ensures errors[..] == if ok then old(errors[..]) else old(errors[..])[d := old(errors[d]) + 1]
    {
      total[d] := total[d] + 1;
      if !ok {
        errors[d] := errors[d] + 1;
      }
    }

    /** One pass over the items, looking at those that miss at most one condition. */
    method FindTables(n: nat, target: nat, ghost g: Setting)
      requires Evaluated(g, n) && g.target == target
      modifies total, errors
      ensures TablesHold(g, Kept(deleted[..], n), n, total[..], errors[..])
    {
      hide Satisfied, CountedAt, Part, PartMistaken;
      ghost var kept := Kept(deleted[..], n);
      var d := 0;
      while d <= n
        invariant 0 <= d <= n + 1 && forall e :: 0 <= e < d ==> total[e] == errors[e] == 0
      {
        total[d] := 0;
        errors[d] := 0;
        d := d + 1;
      }
      NoParts(g, kept);
      var i := 0;
      while i < |item|
        invariant 0 <= i <= |item|
        invariant forall e :: 0 <= e <= n ==>
                    total[e] == Part(g, kept, e, i) && errors[e] == PartMistaken(g, kept, e, i)
      {
        var at := Misses(i, n, g);
        forall e | 0 <= e <= n
          ensures Part(g, kept, e, i + 1) == Part(g, kept, e, i) + if at == e then 1 else 0
          ensures PartMistaken(g, kept, e, i + 1) == PartMistaken(g, kept, e, i) + if at == e && item[i].cls != target
                  then 1 else 0
        {
          PartStep(g, kept, e, i, at);
        }
        if at >= 0 {
          UpdateCount(at, item[i].cls == target);
        }
        i := i + 1;
      }
      AddAll(n);
      AllParts(g, kept, n);
    }

    /** Adds the cases that meet all conditions to each condition kept. */
    method AddAll(n: nat)
      requires Valid() && n < deleted.Length
      modifies total, errors
      ensures total[0] == old(total[0]) && errors[0] == old(errors[0])
      ensures forall d :: 1 <= d <= n ==> total[d] == old(total[d]) + if deleted[d] then 0 else total[0]
      ensures forall d :: 1 <= d <= n ==> errors[d] == old(errors[d]) + if deleted[d] then 0 else errors[0]
    {
      var d := 1;
      while d <= n
        invariant 1 <= d <= n + 1 && total[0] == old(total[0]) && errors[0] == old(errors[0])
        invariant forall e :: 1 <= e < d ==> total[e] == old(total[e]) + if deleted[e] then 0 else total[0]
        invariant forall e :: 1 <= e < d ==> errors[e] == old(errors[e]) + if deleted[e] then 0 else errors[0]
        invariant forall e :: d <= e <= n ==> total[e] == old(total[e]) && errors[e] == old(errors[e])
      {
        if !deleted[d] {
          total[d] := total[d] + total[0];
          errors[d] := errors[d] + errors[0];
        }
        d := d + 1;
      }
    }

    /** Estimates the error rates of the rule as it is and without each condition, and picks the
        condition to drop if some condition is needless. */
    method Examine(n: nat, defaultError: real, ghost g: Setting) returns (alter: bool, best: nat)
      requires Evaluated(g, n) && TablesHold(g, Kept(deleted[..], n), n, total[..], errors[..])
      requires !deleted[0] && defaultError == g.DefaultError()
      modifies pessimistic, actual, sigLevel
      ensures pessimistic[0] == g.Pessimistic(Kept(deleted[..], n))
      ensures alter <==> exists d :: d in Kept(deleted[..], n) && g.Needless(Kept(deleted[..], n), d)
      ensures Kept(deleted[..], n) != {} ==> g.IsDrop(Kept(deleted[..], n), best)
    {
      hide Satisfied, Setting.DefaultError, Setting.Needless, Setting.Pessimistic, Setting.Actual, TablesHold,
        Evaluated, Kept, Setting.IsDrop;
      RoomFor(n, g);
      ghost var kept := Kept(deleted[..], n);
      KeptIn(deleted[..], n);
      alter, best := false, 0;
      Rate(0, n, defaultError, g, kept);
      var d := 1;
      while d <= n
        invariant 1 <= d <= n + 1
        invariant pessimistic[0] == g.Pessimistic(kept) && actual[0] == g.Actual(kept)
        invariant forall e :: 1 <= e < d && e in kept ==> pessimistic[e] == g.Pessimistic(kept - {e})
        invariant alter <==> exists e :: e in kept && e < d && g.Needless(kept, e)
        invariant best == 0 ==> forall e :: 1 <= e < d ==> e !in kept
        invariant best > 0 ==> best < d && best in kept
        invariant best > 0 ==> forall e :: 1 <= e < d && e in kept ==> pessimistic[best] <= pessimistic[e]
        invariant best > 0 ==> forall e :: best < e < d && e in kept ==> pessimistic[best] < pessimistic[e]
      {
        if !deleted[d] {
          var needless := Compare(d, n, defaultError, g, kept);
          if best == 0 || pessimistic[d] <= pessimistic[best] {
            best := d;
          }
          alter := alter || needless;
        }
        d := d + 1;
      }
      if kept != {} {
        var e :| e in kept;
        Dropped(g, kept, n, best, pessimistic[..]);
      }
    }

    method Compare(d: nat, n: nat, defaultError: real, ghost g: Setting, ghost kept: set<nat>) returns (needless: bool)
      requires Evaluated(g, n) && TablesHold(g, kept, n, total[..], errors[..]) && kept == Kept(deleted[..], n)
      requires 1 <= d <= n && !deleted[d] && defaultError == g.DefaultError()
      requires pessimistic[0] == g.Pessimistic(kept) && actual[0] == g.Actual(kept)
      modifies pessimistic, actual, sigLevel
      ensures pessimistic[d] == g.Pessimistic(kept - {d})
      ensures forall e :: 0 <= e < pessimistic.Length && e != d ==>
                pessimistic[e] == old(pessimistic[e]) && actual[e] == old(actual[e])
      ensures needless <==> g.Needless(kept, d)
    {
      hide Satisfied, Setting.DefaultError, Setting.Needless, Setting.Pessimistic, Setting.Actual, TablesHold;
      Rate(d, n, defaultError, g, kept);
      if sigTest {
        sigLevel[d] := tableProb(errors[0], errors[d] - errors[0], total[0] - errors[0],
                                 total[d] - total[0] - errors[d] + errors[0]);
      }
      IsNeedless(g, kept, n, d, total[..], errors[..]);
      needless := pessimistic[d] <= pessimistic[0] || actual[d] <= actual[0] || (sigTest && sigLevel[d] > sigThresh);
    }

    lemma RoomFor(n: nat, g: Setting)
      requires Evaluated(g, n)
      ensures n < deleted.Length && n < pessimistic.Length && n < actual.Length
    {}

    method Rate(d: nat, n: nat, defaultError: real, ghost g: Setting, ghost kept: set<nat>)
      requires Evaluated(g, n) && TablesHold(g, kept, n, total[..], errors[..]) && kept == Kept(deleted[..], n)
      requires d <= n && !deleted[d] && defaultError == g.DefaultError()
      modifies pessimistic, actual
      ensures pessimistic[d] == g.Pessimistic(if d == 0 then kept else kept - {d})
      ensures actual[d] == g.Actual(if d == 0 then kept else kept - {d})
      ensures forall e :: 0 <= e < pessimistic.Length && e != d ==>
                pessimistic[e] == old(pessimistic[e]) && actual[e] == old(actual[e])
    {
      hide Satisfied, Setting.DefaultError, Setting.Total, Setting.Errors;
      if total[d] != 0 {
        actual[d] := errors[d] as real / total[d] as real;
        var extra := addErrs(total[d] as real, errors[d] as real);
        pessimistic[d] := (errors[d] as real + extra) / total[d] as real;
      } else {
        actual[d] := 0.0;
        pessimistic[d] := defaultError;
      }
    }

    /** Evaluates every condition on every item and counts the items of the class. */
    method Evaluate(cond: array<Cond>, n: nat, target: nat) returns (defaultError: real)
      requires Valid() && n < deleted.Length && n < cond.Length && forall d :: 1 <= d <= n ==> Proper(cond[d].test)
      modifies satisfied
      ensures Evaluated(SettingOf(cond[..], target), n) && defaultError == SettingOf(cond[..], target).DefaultError()
    {
      hide Satisfied;
      var freq := new int[2](_ => 0);
      assert item[..0] == [];
      var i := 0;
      while i < |item|
        invariant 0 <= i <= |item| && freq[1] == TargetsIn(item[..i], target)
        invariant forall d, j :: 1 <= d <= n && 0 <= j < i ==> satisfied[d, j] == Satisfied(item[j], cond[d])
      {
        var d := 1;
        while d <= n
          invariant 1 <= d <= n + 1 && freq[1] == TargetsIn(item[..i], target)
          invariant forall e, j :: 1 <= e <= n && 0 <= j < i ==> satisfied[e, j] == Satisfied(item[j], cond[e])
          invariant forall e :: 1 <= e < d ==> satisfied[e, i] == Satisfied(item[i], cond[e])
        {
          var s := Satisfies(item[i], cond[d]);
          satisfied[d, i] := s;
          d := d + 1;
        }
        assert item[..i + 1][..i] == item[..i];
        var t := if item[i].cls == target then 1 else 0;
        freq[t] := freq[t] + 1;
        i := i + 1;
      }
      assert item[..i] == item;
      defaultError := 1.0 - (freq[1] as real + 1.0) / (|item| as real + 2.0);
    }

    /** Prunes the rule with the given conditions, n of them from place 1 on, for class target. There
        is a rule when the conditions left are accurate; it has exactly those conditions, in some
        order, and their estimated error. */
    method PruneRule(cond: array<Cond>, n: nat, target: nat) returns (r: Option<Rule>, ghost final: set<nat>)
      requires Valid() && n < deleted.Length && n < cond.Length && forall d :: 1 <= d <= n ==> Proper(cond[d].test)
      modifies tables, cond
      ensures SettingOf(old(cond[..]), target).Prunes(Places(n), final)
      ensures r.Some? <==> SettingOf(old(cond[..]), target).Accurate(final)
      ensures r.Some? ==> r.value.rhs == target && r.value.error == SettingOf(old(cond[..]), target).Pessimistic(final)
      ensures r.Some? ==> multiset(r.value.lhs) == Conditions(old(cond[..]), final, 1, n)
      ensures multiset(cond[..]) == multiset(old(cond[..]))
    {
      hide Setting.DefaultError, Setting.Needless, Setting.Pessimistic, Setting.Actual, Setting.Prunes, Setting.IsDrop,
        Satisfied, TablesHold, Evaluated, Kept;
      ghost var g := SettingOf(cond[..], target);
      var remaining := n;
      ClearDeleted(n);
      var defaultError := Evaluate(cond, n, target);
      final := Places(n);
      AllKept(deleted[..], n);
      var again := true;
      while again
        invariant !deleted[0] && cond[..] == old(cond[..]) && Evaluated(g, n) && defaultError == g.DefaultError()
        invariant final == Kept(deleted[..], n) && remaining == |final|
        invariant forall f: set<nat> :: g.Prunes(final, f) ==> g.Prunes(Places(n), f)
        invariant !again ==> final == {} || (total[0] == g.Total(final) && pessimistic[0] == g.Pessimistic(final))
        invariant !again ==> g.Prunes(final, final)
        decreases remaining, again
      {
        ghost var was := final;
        var alter := Step(n, target, defaultError, g);
        final := Kept(deleted[..], n);
        if alter {
          PruneStep(g, was, final);
          remaining := remaining - 1;
          PrunesNothing(g);
        } else {
          PruneEnd(g, final);
        }
        again := alter && remaining > 0;
      }
      if remaining == 0 || total[0] == 0 {
        return None, final;
      }
      if pessimistic[0] >= defaultError {
        return None, final;
      }
      var error := pessimistic[0];
      KeptIn(deleted[..], n);
      KeptConditions(cond[..], deleted[..], final, 1, n);
      CountOfKept(cond[..], deleted[..], n);
      SortConditions(cond, n, remaining);
      return Some(Rule(cond[1..remaining + 1], target, error)), final;
    }

    method ClearDeleted(n: nat)
      requires Valid() && n < deleted.Length
      modifies deleted
      ensures forall d :: 0 <= d <= n ==> !deleted[d]
    {
      var d := 0;
      while d <= n
        invariant 0 <= d <= n + 1 && forall e :: 0 <= e < d ==> !deleted[e]
      {
        deleted[d] := false;
        d := d + 1;
      }
    }

    /** Finds the tables and deletes a condition if one is needless. */
    method Step(n: nat, target: nat, defaultError: real, ghost g: Setting) returns (alter: bool)
      requires Evaluated(g, n) && g.target == target && !deleted[0] && defaultError == g.DefaultError()
      modifies total, errors, pessimistic, actual, sigLevel, deleted
      ensures !deleted[0]
      ensures alter <==> exists d :: d in Kept(old(deleted[..]), n) && g.Needless(Kept(old(deleted[..]), n), d)
      ensures alter ==> exists b :: g.IsDrop(Kept(old(deleted[..]), n), b) && b in Kept(old(deleted[..]), n)
                                 && Kept(deleted[..], n) == Kept(old(deleted[..]), n) - {b}
      ensures !alter ==> Kept(deleted[..], n) == Kept(old(deleted[..]), n)
      ensures !alter ==>
                total[0] == g.Total(Kept(deleted[..], n)) && pessimistic[0] == g.Pessimistic(Kept(deleted[..], n))
    {
      hide Setting.DefaultError, Setting.Needless, Setting.Pessimistic, Setting.Actual, Setting.IsDrop, Satisfied;
      FindTables(n, target, g);
      var best: nat;
      alter, best := Examine(n, defaultError, g);
      if alter {
        g.DropIsKept(Kept(old(deleted[..]), n), best);
        deleted[best] := true;
        assert Kept(deleted[..], n) == Kept(old(deleted[..]), n) - {best};
      }
    }

    /** Brings the conditions that are left to the front, the earlier ones in the order of their tests
        as far as that is an order. */
    method SortConditions(cond: array<Cond>, n: nat, remaining: nat)
      requires Valid() && n < deleted.Length && n < cond.Length && remaining == |KeptFrom(cond[..], deleted[..], 1, n)|
      requires remaining <= n
      modifies cond, deleted
      ensures multiset(cond[..]) == multiset(old(cond[..]))
      ensures multiset(cond[1..remaining + 1]) == KeptFrom(old(cond[..]), old(deleted[..]), 1, n)
    {
      hide KeptFrom;
      ghost var kept := KeptFrom(cond[..], deleted[..], 1, n);
      var d := 1;
      assert multiset(cond[1..d]) == multiset{};
      while d <= remaining
        invariant 1 <= d <= remaining + 1 <= n + 1
        invariant multiset(cond[..]) == multiset(old(cond[..]))
        invariant multiset(cond[1..d]) + KeptFrom(cond[..], deleted[..], d, n) == kept
      {
        assert |multiset(cond[1..d])| == d - 1;
        PlaceNext(cond, d, n);
        d := d + 1;
      }
      assert |multiset(cond[1..d])| == remaining;
      EmptyRest(multiset(cond[1..d]), KeptFrom(cond[..], deleted[..], d, n), kept);
    }

    /** Moves the first of the conditions left from place d on to place d. */
    method PlaceNext(cond: array<Cond>, d: nat, n: nat)
      requires Valid() && 1 <= d <= n < deleted.Length && n < cond.Length && |KeptFrom(cond[..], deleted[..], d, n)| > 0
      modifies cond, deleted
      ensures multiset(cond[..]) == multiset(old(cond[..]))
      ensures multiset(cond[1..d + 1]) + KeptFrom(cond[..], deleted[..], d + 1, n)
           == multiset(old(cond[1..d])) + KeptFrom(old(cond[..]), old(deleted[..]), d, n)
    {
      hide KeptFrom;
      var dd := FindNext(cond, d, n);
      ghost var c, del := cond[..], deleted[..];
      if dd != d {
        var hold := cond[d];
        cond[d] := cond[dd];
        cond[dd] := hold;
        deleted[dd] := deleted[d];
      }
      deleted[d] := true;
      ghost var c', del' := cond[..], deleted[..];
      assert c' == c[d := c[dd]][dd := c[d]] && del' == del[dd := del[d]][d := true];
      KeptSwap(c, del, d, dd, n, c', del');
      ExchangeMultiset(c, d, dd);
      assert c'[1..d + 1] == c[1..d] + [c[dd]];
      assert cond[1..d + 1] == c'[1..d + 1] && old(cond[1..d]) == c[1..d];
      MoveOne(multiset(c[1..d]), c[dd], KeptFrom(c', del', d + 1, n), KeptFrom(c, del, d, n));
    }

    method FindNext(cond: array<Cond>, d: nat, n: nat) returns (dd: nat)
      requires Valid() && 1 <= d <= n < deleted.Length && n < cond.Length && |KeptFrom(cond[..], deleted[..], d, n)| > 0
      ensures d <= dd <= n && !deleted[dd]
    {
      SomeKept(cond[..], deleted[..], d, n);
      hide KeptFrom;
      dd := 0;
      var i := d;
      while i <= n
        invariant d <= i <= n + 1
        invariant dd == 0 ==> forall e :: d <= e < i ==> deleted[e]
        invariant dd > 0 ==> d <= dd <= n && !deleted[dd]
      {
        if !deleted[i] && (dd == 0 || Before(cond[i].test, cond[dd].test)) {
          dd := i;
        }
        i := i + 1;
      }
    }

    ghost function SettingOf(cond: seq<Cond>, target: nat): Setting {
      Setting(item, cond, target, addErrs, tableProb, sigTest, sigThresh)
    }
  }

  predicate Proper(t: Test) {
    t.nodeType in {BR_DISCR, THRESH_CONTIN, BR_SUBSET} && (t.nodeType == BR_SUBSET ==> |t.subset| == t.forks)
  }

  function Places(n: nat): (r: set<nat>)
    ensures |r| == n && forall d :: d in r <==> 1 <= d <= n
  {
    if n == 0 then {} else Places(n - 1) + {n}
  }

  lemma AllKept(deleted: seq<bool>, n: nat)
    requires n < |deleted| && forall d :: 0 <= d <= n ==> !deleted[d]
    ensures Kept(deleted, n) == Places(n)
  {}

  /** The conditions at the kept places from lo to n. */
  function Conditions(cond: seq<Cond>, kept: set<nat>, lo: nat, n: nat): multiset<Cond>
    requires n < |cond|
    decreases n + 1 - lo
  {
    if lo > n then multiset{} else One(cond[lo], lo !in kept) + Conditions(cond, kept, lo + 1, n)
  }

  lemma {:induction false} KeptConditions(cond: seq<Cond>, deleted: seq<bool>, kept: set<nat>, lo: nat, n: nat)
    requires n < |cond| && n < |deleted| && forall d :: lo <= d <= n ==> (d in kept <==> !deleted[d])
    ensures KeptFrom(cond, deleted, lo, n) == Conditions(cond, kept, lo, n)
    decreases n + 1 - lo
  {
    if lo <= n {
      KeptConditions(cond, deleted, kept, lo + 1, n);
    }
  }

  lemma PruneStep(g: Setting, kept: set<nat>, fewer: set<nat>)
    requires exists d :: d in kept && g.Needless(kept, d)
    requires exists b :: g.IsDrop(kept, b) && b in kept && fewer == kept - {b}
    ensures forall f: set<nat> :: g.Prunes(fewer, f) ==> g.Prunes(kept, f)
    ensures |fewer| == |kept| - 1
  {
    hide Setting.Needless, Setting.IsDrop;
  }

  lemma PruneEnd(g: Setting, kept: set<nat>)
    requires !exists d :: d in kept && g.Needless(kept, d)
    ensures g.Prunes(kept, kept)
  {}

  lemma PrunesNothing(g: Setting)
    ensures g.Prunes({}, {})
  {}

  /** A case that meets all conditions a rule started from meets all it is left with. */
  lemma RuleCoversItsPath(c: Case, cond: seq<Cond>, kept: set<nat>, n: nat, lhs: seq<Cond>)
    requires n < |cond| && multiset(lhs) == Conditions(cond, kept, 1, n)
    requires forall d :: 1 <= d <= n ==> Satisfied(c, cond[d])
    ensures forall x :: x in lhs ==> Satisfied(c, x)
  {
    forall x | x in lhs
      ensures Satisfied(c, x)
    {
      assert x in multiset(lhs);
      ConditionMembers(cond, kept, 1, n, x);
    }
  }

  lemma {:induction false} ConditionMembers(cond: seq<Cond>, kept: set<nat>, lo: nat, n: nat, x: Cond)
    requires n < |cond| && x in Conditions(cond, kept, lo, n)
    ensures exists d :: lo <= d <= n && d in kept && cond[d] == x
    decreases n + 1 - lo
  {
    if !(lo in kept && cond[lo] == x) {
      ConditionMembers(cond, kept, lo + 1, n, x);
    }
  }

  lemma ExchangeMultiset(c: seq<Cond>, a: nat, b: nat)
    requires a < |c| && b < |c|
    ensures multiset(c[a := c[b]][b := c[a]]) == multiset(c)
  {}

  lemma MoveOne(a: multiset<Cond>, x: Cond, r: multiset<Cond>, s: multiset<Cond>)
    requires r + multiset{x} == s
    ensures (a + multiset{x}) + r == a + s
  {
    assert (a + multiset{x}) + r == a + (r + multiset{x});
  }

  lemma EmptyRest(a: multiset<Cond>, r: multiset<Cond>, all: multiset<Cond>)
    requires a + r == all && |a| == |all|
    ensures a == all
  {
    assert |r| == 0;
  }

  lemma KeptIn(deleted: seq<bool>, n: nat)
    requires n < |deleted|
    ensures forall d: nat :: d in Kept(deleted, n) <==> 1 <= d <= n && !deleted[d]
  {}

  lemma Dropped(g: Setting, kept: set<nat>, n: nat, best: nat, p: seq<real>)
    requires n < |p| && best in kept && (forall e :: e in kept ==> 1 <= e <= n && p[e] == g.Pessimistic(kept - {e}))
    requires forall e :: 1 <= e <= n && e in kept ==> p[best] <= p[e]
    requires forall e :: best < e <= n && e in kept ==> p[best] < p[e]
    ensures g.IsDrop(kept, best)
  {
    hide Setting.Pessimistic;
  }

  lemma IsNeedless(g: Setting, kept: set<nat>, n: nat, d: nat, total: seq<int>, errors: seq<int>)
    requires TablesHold(g, kept, n, total, errors) && 1 <= d <= n && d in kept
    ensures g.Needless(kept, d) <==>
            || g.Pessimistic(kept - {d}) <= g.Pessimistic(kept)
            || g.Actual(kept - {d}) <= g.Actual(kept)
            || (g.sigTest && g.tableProb(errors[0], errors[d] - errors[0], total[0] - errors[0],
                                         total[d] - total[0] - errors[d] + errors[0]) > g.sigThresh)
  {}

  lemma NoParts(g: Setting, kept: set<nat>)
    ensures forall d: nat :: Part(g, kept, d, 0) == PartMistaken(g, kept, d, 0) == 0
  {}

  /** After all cases the parts add up to the counts without one condition. */
  lemma AllParts(g: Setting, kept: set<nat>, n: nat)
    requires 0 !in kept && (forall d :: d in kept ==> d <= n) && n < |g.cond|
    ensures Part(g, kept, 0, |g.s|) == g.Total(kept) && PartMistaken(g, kept, 0, |g.s|) == g.Errors(kept)
    ensures forall d :: 1 <= d <= n ==>
              if d in kept then
                && Part(g, kept, d, |g.s|) + g.Total(kept) == g.Total(kept - {d})
                && PartMistaken(g, kept, d, |g.s|) + g.Errors(kept) == g.Errors(kept - {d})
              else Part(g, kept, d, |g.s|) == 0 && PartMistaken(g, kept, d, |g.s|) == 0
  {
    assert g.s[..|g.s|] == g.s;
    forall d | d in kept
      ensures Missing(g.s, g.cond, kept, d) + g.Total(kept) == g.Total(kept - {d})
      ensures MissingMistaken(g.s, g.cond, kept, d, g.target) + g.Errors(kept) == g.Errors(kept - {d})
    {
      CoveredAllBut(g.s, g.cond, kept, d, g.target);
    }
  }
}
