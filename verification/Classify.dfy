/** Classifying a case: a unit of weight is spread over the leaves of the tree. */
module Classify {
  import opened BitSets
  import opened C45Types
  import opened Weighted
  import opened Ranges
  import opened C45Tests
  import opened C45Formed

  // ---- Trees that can classify ----------------------------------------------------------------

  /** The number of the first set that holds v, or 0. */
  function FirstSet(sets: seq<Bits>, v: nat): (b: nat)
    ensures b <= |sets| && (b > 0 ==> In(v, sets[b - 1]))
    ensures forall a :: 0 <= a < |sets| && (b == 0 || a < b - 1) ==> !In(v, sets[a])
  {
    FirstSetFrom(sets, v, 1)
  }

  function FirstSetFrom(sets: seq<Bits>, v: nat, i: nat): (b: nat)
    requires 1 <= i <= |sets| + 1
    ensures b <= |sets| && (b > 0 ==> i <= b && In(v, sets[b - 1]))
    ensures forall a :: i - 1 <= a < |sets| && (b == 0 || a < b - 1) ==> !In(v, sets[a])
    decreases |sets| + 1 - i
  {
    if i > |sets| then 0 else if In(v, sets[i - 1]) then i else FirstSetFrom(sets, v, i + 1)
  }

  /** The branch a case takes; 0 for an unknown value or one the tree has not seen. */
  function Route(t: Tree<real>, c: Case): nat {
    if t.nodeType == THRESH_CONTIN then
      if CVal(c, t.tested) == UNKNOWN then 0 else if CVal(c, t.tested) <= t.cut then 1 else 2
    else if t.nodeType == BR_SUBSET then
      if DVal(c, t.tested) == 0 then 0 else FirstSet(t.subset, DVal(c, t.tested))
    else if DVal(c, t.tested) <= t.forks then DVal(c, t.tested) else 0
  }

  /** Branches are where they should be, and the items of a test are shared out among them. */
  ghost predicate Balanced(t: Tree<real>, n: nat) {
    && |t.dist| == n && 0 <= t.leaf < n && t.items >= 0.0
    && (forall c :: 0 <= c < n ==> t.dist[c] >= 0.0)
    && (t.nodeType == LEAF && t.items > 0.0 ==> SumTo(t.dist, n) == t.items)
    && (t.nodeType != LEAF ==>
          && TestShape(t) && t.items > 0.0 && Items(t.branch) == t.items
          && forall b :: b in t.branch ==> Balanced(b, n))
  }

  lemma {:induction false} GrownIsBalanced(t: Tree<real>, n: nat, m: real)
    requires Grown(t, n, m)
    ensures Balanced(t, n)
  {
    if t.nodeType != LEAF {
      forall b | b in t.branch
        ensures Balanced(b, n)
      {
        GrownIsBalanced(b, n, m);
      }
    }
  }

  // ---- Votes ----------------------------------------------------------------------------------

  function Ratio(a: real, b: real): real { if b == 0.0 then 0.0 else a / b }

  /** The part of w that a is of b. */
  function Portion(w: real, a: real, b: real): real { w * Ratio(a, b) }

  /** What a case of weight w adds to class k. */
  function Vote(t: Tree<real>, c: Case, w: real, k: nat): real
    decreases t, |t.branch| + 1
  {
    if t.nodeType == LEAF then
      if t.items > 0.0 then (if k < |t.dist| then Portion(w, t.dist[k], t.items) else 0.0)
      else if k == t.leaf then w else 0.0
    else if 1 <= Route(t, c) <= |t.branch| then Vote(t.branch[Route(t, c) - 1], c, w, k)
    else VoteAll(t, c, w, k, |t.branch|)
  }

  /** What the first i branches add when each gets its share of the weight. */
  function VoteAll(t: Tree<real>, c: Case, w: real, k: nat, i: nat): real
    requires i <= |t.branch|
    decreases t, i
  {
    if i == 0 then 0.0
    else VoteAll(t, c, w, k, i - 1) + Vote(t.branch[i - 1], c, Portion(w, t.branch[i - 1].items, t.items), k)
  }

  lemma VoteAllStep(t: Tree<real>, c: Case, w: real, k: nat, i: nat)
    requires 0 < i <= |t.branch|
    ensures VoteAll(t, c, w, k, i)
         == VoteAll(t, c, w, k, i - 1) + Vote(t.branch[i - 1], c, Portion(w, t.branch[i - 1].items, t.items), k)
  {}

  /** The votes for the classes below n. */
  function Total(t: Tree<real>, c: Case, w: real, n: nat): real {
    if n == 0 then 0.0 else Total(t, c, w, n - 1) + Vote(t, c, w, n - 1)
  }

  function TotalAll(t: Tree<real>, c: Case, w: real, n: nat, i: nat): real
    requires i <= |t.branch|
  {
    if n == 0 then 0.0 else TotalAll(t, c, w, n - 1, i) + VoteAll(t, c, w, n - 1, i)
  }

  lemma {:induction false} TotalAllStep(t: Tree<real>, c: Case, w: real, n: nat, i: nat)
    requires 0 < i <= |t.branch|
    ensures TotalAll(t, c, w, n, i)
         == TotalAll(t, c, w, n, i - 1) + Total(t.branch[i - 1], c, Portion(w, t.branch[i - 1].items, t.items), n)
  {
    if n > 0 {
      TotalAllStep(t, c, w, n - 1, i);
      VoteAllStep(t, c, w, n - 1, i);
    }
  }

  lemma {:induction false} TotalAllNone(t: Tree<real>, c: Case, w: real, n: nat)
    ensures TotalAll(t, c, w, n, 0) == 0.0
  {
    if n > 0 {
      TotalAllNone(t, c, w, n - 1);
    }
  }

  lemma {:induction false} TotalRouted(t: Tree<real>, c: Case, w: real, n: nat)
    requires t.nodeType != LEAF
    ensures 1 <= Route(t, c) <= |t.branch| ==> Total(t, c, w, n) == Total(t.branch[Route(t, c) - 1], c, w, n)
    ensures !(1 <= Route(t, c) <= |t.branch|) ==> Total(t, c, w, n) == TotalAll(t, c, w, n, |t.branch|)
  {
    hide Route;
    if n > 0 {
      TotalRouted(t, c, w, n - 1);
    }
  }

  lemma {:induction false} LeafTotal(t: Tree<real>, c: Case, w: real, n: nat)
    requires t.nodeType == LEAF && t.items > 0.0 && n <= |t.dist|
    ensures Total(t, c, w, n) == Portion(w, SumTo(t.dist, n), t.items)
  {
    if n > 0 {
      LeafTotal(t, c, w, n - 1);
      RatioAdd(w, SumTo(t.dist, n - 1), t.dist[n - 1], t.items);
    }
  }

  lemma RatioAdd(w: real, a: real, b: real, d: real)
    ensures Portion(w, a + b, d) == Portion(w, a, d) + Portion(w, b, d)
  {
    if d != 0.0 {
      assert (a + b) / d == a / d + b / d;
    }
  }

  lemma RatioSelf(w: real, d: real)
    requires d != 0.0
    ensures Portion(w, d, d) == w
  {}

  lemma {:induction false} EmptyLeafTotal(t: Tree<real>, c: Case, w: real, n: nat)
    requires t.nodeType == LEAF && t.items <= 0.0 && t.leaf >= 0
    ensures Total(t, c, w, n) == if t.leaf < n then w else 0.0
  {
    if n > 0 {
      EmptyLeafTotal(t, c, w, n - 1);
    }
  }

  function ItemsTo(b: seq<Tree<real>>, i: nat): real
    requires i <= |b|
  {
    if i == 0 then 0.0 else ItemsTo(b, i - 1) + b[i - 1].items
  }

  lemma {:induction false} ItemsToAll(b: seq<Tree<real>>, i: nat)
    requires i <= |b|
    ensures ItemsTo(b, i) == Items(b[..i])
  {
    if i > 0 {
      ItemsToAll(b, i - 1);
      assert b[..i][..i - 1] == b[..i - 1];
    }
  }

  /** Whatever the case, with unknown values or values the tree has not seen, exactly its weight is
      added in total. */
  lemma {:induction false} VotesAddUp(t: Tree<real>, c: Case, w: real, n: nat)
    requires Balanced(t, n)
    ensures Total(t, c, w, n) == w
    decreases t, |t.branch| + 1
  {
    hide Route, Portion;
    if t.nodeType == LEAF {
      if t.items > 0.0 {
        LeafTotal(t, c, w, n);
        RatioSelf(w, t.items);
      } else {
        EmptyLeafTotal(t, c, w, n);
      }
    } else {
      TotalRouted(t, c, w, n);
      var r := Route(t, c);
      if 1 <= r <= |t.branch| {
        assert t.branch[r - 1] in t.branch;
        VotesAddUp(t.branch[r - 1], c, w, n);
      } else {
        SharesAddUp(t, c, w, n, |t.branch|);
        ItemsToAll(t.branch, |t.branch|);
        assert t.branch[..|t.branch|] == t.branch;
        RatioSelf(w, t.items);
      }
    }
  }

  lemma {:induction false} SharesAddUp(t: Tree<real>, c: Case, w: real, n: nat, i: nat)
    requires Balanced(t, n) && t.nodeType != LEAF && i <= |t.branch|
    ensures TotalAll(t, c, w, n, i) == Portion(w, ItemsTo(t.branch, i), t.items)
    decreases t, i
  {
    hide Route;
    if i == 0 {
      TotalAllNone(t, c, w, n);
    } else {
      SharesAddUp(t, c, w, n, i - 1);
      TotalAllStep(t, c, w, n, i);
      assert t.branch[i - 1] in t.branch;
      VotesAddUp(t.branch[i - 1], c, Portion(w, t.branch[i - 1].items, t.items), n);
      RatioAdd(w, ItemsTo(t.branch, i - 1), t.branch[i - 1].items, t.items);
    }
  }

  lemma {:induction false} VoteNonNegative(t: Tree<real>, c: Case, w: real, k: nat, n: nat)
    requires Balanced(t, n) && w >= 0.0
    ensures Vote(t, c, w, k) >= 0.0
    decreases t, |t.branch| + 1
  {
    hide Route, Portion;
    if t.nodeType == LEAF {
      if k < n {
        ShareNonNegative(w, t.dist[k], t.items);
      }
    } else if 1 <= Route(t, c) <= |t.branch| {
      assert t.branch[Route(t, c) - 1] in t.branch;
      VoteNonNegative(t.branch[Route(t, c) - 1], c, w, k, n);
    } else {
      VoteAllNonNegative(t, c, w, k, |t.branch|, n);
    }
  }

  lemma {:induction false} VoteAllNonNegative(t: Tree<real>, c: Case, w: real, k: nat, i: nat, n: nat)
    requires Balanced(t, n) && t.nodeType != LEAF && i <= |t.branch| && w >= 0.0
    ensures VoteAll(t, c, w, k, i) >= 0.0
    decreases t, i
  {
    hide Route, Portion;
    if i > 0 {
      VoteAllNonNegative(t, c, w, k, i - 1, n);
      VoteAllStep(t, c, w, k, i);
      assert t.branch[i - 1] in t.branch;
      BalancedItems(t.branch[i - 1], n);
      ShareNonNegative(w, t.branch[i - 1].items, t.items);
      VoteNonNegative(t.branch[i - 1], c, Portion(w, t.branch[i - 1].items, t.items), k, n);
    }
  }

  lemma BalancedItems(t: Tree<real>, n: nat)
    requires Balanced(t, n)
    ensures t.items >= 0.0
  {}

  lemma ShareNonNegative(w: real, a: real, b: real)
    requires w >= 0.0 && a >= 0.0 && b >= 0.0
    ensures Portion(w, a, b) >= 0.0
  {
    if b != 0.0 {
      assert a / b >= 0.0;
    }
  }

  // ---- The classifier -------------------------------------------------------------------------

  /** classSum is votes with the vote of a case added. */
  ghost predicate Added(before: seq<real>, after: seq<real>, t: Tree<real>, c: Case, w: real) {
    |after| == |before| && forall k :: 0 <= k < |before| ==> after[k] == before[k] + Vote(t, c, w, k)
  }

  ghost predicate AddedAll(before: seq<real>, after: seq<real>, t: Tree<real>, c: Case, w: real, i: nat) {
    |after| == |before| && i <= |t.branch| && forall k :: 0 <= k < |before| ==>
        after[k] == before[k] + VoteAll(t, c, w, k, i)
  }

  lemma AddedBranch(a: seq<real>, b: seq<real>, d: seq<real>, t: Tree<real>, c: Case, w: real, i: nat, w': real)
    requires AddedAll(a, b, t, c, w, i) && i < |t.branch| && Added(b, d, t.branch[i], c, w')
    requires t.items != 0.0 && w' == w * t.branch[i].items / t.items
    ensures AddedAll(a, d, t, c, w, i + 1)
  {
    RatioOf(w, t.branch[i].items, t.items);
    assert w' == Portion(w, t.branch[i].items, t.items);
    forall k | 0 <= k < |a|
      ensures d[k] == a[k] + VoteAll(t, c, w, k, i + 1)
    {
      VoteAllStep(t, c, w, k, i + 1);
      assert d[k] == b[k] + Vote(t.branch[i], c, w', k) && b[k] == a[k] + VoteAll(t, c, w, k, i);
    }
  }

  lemma AddedNone(a: seq<real>, t: Tree<real>, c: Case, w: real)
    ensures AddedAll(a, a, t, c, w, 0)
  {}

  lemma AddedRouted(a: seq<real>, b: seq<real>, t: Tree<real>, c: Case, w: real)
    requires t.nodeType != LEAF
    requires 1 <= Route(t, c) <= |t.branch| ==> Added(a, b, t.branch[Route(t, c) - 1], c, w)
    requires !(1 <= Route(t, c) <= |t.branch|) ==> AddedAll(a, b, t, c, w, |t.branch|)
    ensures Added(a, b, t, c, w)
  {
    hide Route;
  }

  method AddVotes(c: Case, t: Tree<real>, w: real, classSum: array<real>)
    requires Balanced(t, classSum.Length)
    modifies classSum
    ensures Added(old(classSum[..]), classSum[..], t, c, w)
    decreases t, 2
  {
    if t.nodeType == LEAF {
      AddLeaf(c, t, w, classSum);
    } else {
      hide Route, Added, AddedAll;
      assert |t.branch| == t.forks && t.items > 0.0 && (t.nodeType == BR_SUBSET ==> |t.subset| == t.forks);
      assert t.nodeType == THRESH_CONTIN ==> t.forks == 2;
      var v := FindBranch(t, c);
      if v > 0 {
        assert t.branch[v - 1] in t.branch;
        AddVotes(c, t.branch[v - 1], w, classSum);
      } else {
        AddToAll(c, t, w, classSum);
      }
      AddedRouted(old(classSum[..]), classSum[..], t, c, w);
    }
  }

  method AddLeaf(c: Case, t: Tree<real>, w: real, classSum: array<real>)
    requires t.nodeType == LEAF && |t.dist| == classSum.Length && 0 <= t.leaf < classSum.Length
    modifies classSum
    ensures Added(old(classSum[..]), classSum[..], t, c, w)
  {
    if t.items > 0.0 {
      var k := 0;
      while k < classSum.Length
        invariant 0 <= k <= classSum.Length
        invariant forall j :: 0 <= j < k ==> classSum[j] == old(classSum[j]) + Vote(t, c, w, j)
        invariant forall j :: k <= j < classSum.Length ==> classSum[j] == old(classSum[j])
      {
        if t.dist[k] != 0.0 {
          RatioOf(w, t.dist[k], t.items);
          classSum[k] := classSum[k] + w * t.dist[k] / t.items;
        }
        k := k + 1;
      }
    } else {
      classSum[t.leaf] := classSum[t.leaf] + w;
    }
  }

  lemma RatioOf(w: real, a: real, b: real)
    requires b != 0.0
    ensures w * a / b == Portion(w, a, b)
  {}

  /** The branch the case takes, or 0 when it goes down all of them. */
  method FindBranch(t: Tree<real>, c: Case) returns (v: nat)
    requires t.nodeType in {BR_DISCR, THRESH_CONTIN, BR_SUBSET} && t.forks == |t.branch|
    requires (t.nodeType == BR_SUBSET ==> |t.subset| == t.forks) && (t.nodeType == THRESH_CONTIN ==> t.forks == 2)
    ensures v == Route(t, c) <= |t.branch|
  {
    if t.nodeType == BR_DISCR {
      var d := DVal(c, t.tested);
      return if d != 0 && d <= t.forks then d else 0;
    } else if t.nodeType == THRESH_CONTIN {
      var cv := CVal(c, t.tested);
      return if cv == UNKNOWN then 0 else if cv <= t.cut then 1 else 2;
    }
    var d := DVal(c, t.tested);
    if d != 0 {
      v := 1;
      while v <= t.forks
        invariant 1 <= v <= t.forks + 1 && forall a :: 0 <= a < v - 1 ==> !In(d, t.subset[a])
      {
        if In(d, t.subset[v - 1]) {
          return;
        }
        v := v + 1;
      }
    }
    return 0;
  }

  method AddToAll(c: Case, t: Tree<real>, w: real, classSum: array<real>)
    requires Balanced(t, classSum.Length) && t.nodeType != LEAF
    modifies classSum
    ensures AddedAll(old(classSum[..]), classSum[..], t, c, w, |t.branch|)
    decreases t, 1
  {
    hide Added, AddedAll;
    AddedNone(classSum[..], t, c, w);
    var v := 0;
    while v < |t.branch|
      invariant 0 <= v <= |t.branch| && AddedAll(old(classSum[..]), classSum[..], t, c, w, v)
    {
      ghost var before := classSum[..];
      assert t.branch[v] in t.branch;
      var share := w * t.branch[v].items / t.items;
      AddVotes(c, t.branch[v], share, classSum);
      AddedBranch(old(classSum[..]), before, classSum[..], t, c, w, v, share);
      v := v + 1;
    }
  }

  /** The class with the greatest vote, the first one of equals; the votes are not negative and add
      up to 1. */
  method Category(c: Case, t: Tree<real>, classes: nat) returns (best: nat)
    requires Balanced(t, classes) && classes > 0
    ensures best < classes
    ensures forall k :: 0 <= k < classes ==> 0.0 <= Vote(t, c, 1.0, k) <= Vote(t, c, 1.0, best)
    ensures forall k :: 0 <= k < best ==> Vote(t, c, 1.0, k) < Vote(t, c, 1.0, best)
    ensures Total(t, c, 1.0, classes) == 1.0
  {
    var classSum := new real[classes](_ => 0.0);
    AddVotes(c, t, 1.0, classSum);
    assert forall k :: 0 <= k < classes ==> classSum[k] == classSum[..][k] == Vote(t, c, 1.0, k);
    best := 0;
    var k := 0;
    while k < classes
      invariant 0 <= k <= classes && best < classes
      invariant forall j :: 0 <= j < k ==> classSum[j] <= classSum[best]
      invariant forall j :: 0 <= j < best ==> classSum[j] < classSum[best]
    {
      if classSum[k] > classSum[best] {
        best := k;
      }
      k := k + 1;
    }
    forall j | 0 <= j < classes
      ensures Vote(t, c, 1.0, j) >= 0.0
    {
      VoteNonNegative(t, c, 1.0, j, classes);
    }
    VotesAddUp(t, c, 1.0, classes);
  }

  // ---- Classifying the items a tree was formed from -------------------------------------------

  /** What classifying all items of s adds to class k. */
  function VoteSum(t: Tree<real>, s: seq<Item>, k: nat): real {
    if s == [] then 0.0 else VoteSum(t, s[..|s| - 1], k) + Vote(t, s[|s| - 1].desc, s[|s| - 1].weight, k)
  }

  lemma VoteSumSnoc(t: Tree<real>, s: seq<Item>, x: Item, k: nat)
    ensures VoteSum(t, s + [x], k) == VoteSum(t, s, k) + Vote(t, x.desc, x.weight, k)
  {
    assert (s + [x])[..|s|] == s;
  }

  /** A case takes the branch it was grouped for, one with an unknown value goes down all of them. */
  lemma RouteIsTaken(t: Tree<real>, c: Case, v: nat)
    requires TestShape(t) && Takes(t, c, v)
    ensures Route(t, c) == v
  {
    assert Goes(t, 0, c) <==> v == 0;
    if v > 0 {
      assert Goes(t, 1, c) <==> v == 1;
      assert Goes(t, v, c);
      if t.nodeType == BR_SUBSET {
        hide In;
        var b := FirstSet(t.subset, DVal(c, t.tested));
        assert In(DVal(c, t.tested), t.subset[v - 1]) && b > 0;
        assert Goes(t, b, c) <==> b == v;
      }
    }
  }

  /** What the parts of the first i branches add to class k, the unknown items being scaled by f. */
  function PartSums(t: Tree<real>, s: seq<Item>, f: seq<real>, k: nat, i: nat): real
    requires i <= |t.branch| == |f|
  {
    if i == 0 then 0.0
    else PartSums(t, s, f, k, i - 1) + VoteSum(t.branch[i - 1], Part(s, t, i, f[i - 1]), k)
  }

  /** What one more item adds to the first i parts. */
  function Gained(t: Tree<real>, x: Item, v: nat, f: seq<real>, k: nat, i: nat): real
    requires i <= |t.branch| == |f|
  {
    if v == 0 then (if i == 0 then 0.0
      else Gained(t, x, v, f, k, i - 1) + Vote(t.branch[i - 1], x.desc, Scale(x, f[i - 1]).weight, k))
    else if v <= i then Vote(t.branch[v - 1], x.desc, x.weight, k) else 0.0
  }

  lemma {:induction false} PartSumsSnoc(t: Tree<real>, s: seq<Item>, x: Item, v: nat, f: seq<real>, k: nat, i: nat)
    requires i <= |t.branch| == |f| && t.forks == |t.branch| && Takes(t, x.desc, v)
    ensures PartSums(t, s + [x], f, k, i) == PartSums(t, s, f, k, i) + Gained(t, x, v, f, k, i)
  {
    hide Goes, Part, Vote, VoteSum;
    if i > 0 {
      PartSumsSnoc(t, s, x, v, f, k, i - 1);
      PartSnoc(s, x, t, i, f[i - 1]);
      var p := Part(s, t, i, f[i - 1]);
      assert p + [] == p;
      VoteSumSnoc(t.branch[i - 1], p, Scale(x, f[i - 1]), k);
      VoteSumSnoc(t.branch[i - 1], p, x, k);
    }
  }

  lemma {:induction false} PartSumsNone(t: Tree<real>, f: seq<real>, k: nat, i: nat)
    requires i <= |t.branch| == |f|
    ensures PartSums(t, [], f, k, i) == 0.0
  {
    if i > 0 {
      PartSumsNone(t, f, k, i - 1);
    }
  }

  /** The fractions are those by which Classify shares out a case with an unknown value. */
  ghost predicate Fair(t: Tree<real>, f: seq<real>) {
    |f| == |t.branch| && forall i :: 0 <= i < |f| ==> f[i] == Ratio(t.branch[i].items, t.items)
  }

  lemma {:induction false} GainedAll(t: Tree<real>, x: Item, f: seq<real>, k: nat, i: nat)
    requires Fair(t, f) && i <= |t.branch|
    ensures Gained(t, x, 0, f, k, i) == VoteAll(t, x.desc, x.weight, k, i)
  {
    if i > 0 {
      GainedAll(t, x, f, k, i - 1);
      VoteAllStep(t, x.desc, x.weight, k, i);
      assert Scale(x, f[i - 1]).weight == Portion(x.weight, t.branch[i - 1].items, t.items);
    }
  }

  /** Classifying the items of a test is classifying each branch's part in the branch. */
  lemma {:induction false} VotesAreParts(t: Tree<real>, s: seq<Item>, f: seq<real>, k: nat)
    requires TestShape(t) && Decides(t, s) && Fair(t, f)
    ensures VoteSum(t, s, k) == PartSums(t, s, f, k, |t.branch|)
  {
    hide Goes, Part, Route;
    if s == [] {
      PartSumsNone(t, f, k, |t.branch|);
    } else {
      var s', x := s[..|s| - 1], s[|s| - 1];
      assert s == s' + [x] && (forall y :: y in s' ==> y in s) && x in s;
      VotesAreParts(t, s', f, k);
      assert Decided(t, x.desc);
      var v :| Takes(t, x.desc, v);
      PartSumsSnoc(t, s', x, v, f, k, |t.branch|);
      RouteIsTaken(t, x.desc, v);
      GainedAll(t, x, f, k, |t.branch|);
    }
  }

  // ---- Class weights of the parts -------------------------------------------------------------

  function ClassSums(t: Tree<real>, s: seq<Item>, f: seq<real>, k: nat, i: nat): real
    requires i <= |f|
  {
    if i == 0 then 0.0 else ClassSums(t, s, f, k, i - 1) + Sum(Part(s, t, i, f[i - 1]), InClass(k))
  }

  function SumOf(f: seq<real>, i: nat): real
    requires i <= |f|
  {
    if i == 0 then 0.0 else SumOf(f, i - 1) + f[i - 1]
  }

  lemma {:induction false} ClassSumsSnoc(t: Tree<real>, s: seq<Item>, x: Item, v: nat, f: seq<real>, k: nat, i: nat)
    requires i <= |f| == t.forks && Takes(t, x.desc, v)
    ensures ClassSums(t, s + [x], f, k, i) == ClassSums(t, s, f, k, i)
            + if v == 0 then InClass(k)(x) * SumOf(f, i) else if v <= i then InClass(k)(x) else 0.0
  {
    hide Goes, Part;
    if i > 0 {
      ClassSumsSnoc(t, s, x, v, f, k, i - 1);
      PartSnoc(s, x, t, i, f[i - 1]);
      var p := Part(s, t, i, f[i - 1]);
      assert p + [] == p;
      SumSnoc(p, Scale(x, f[i - 1]), InClass(k));
      SumSnoc(p, x, InClass(k));
      Distribute(InClass(k)(x), SumOf(f, i - 1), f[i - 1]);
    }
  }

  lemma Distribute(a: real, b: real, c: real)
    ensures a * (b + c) == a * b + a * c
  {}

  lemma {:induction false} ClassSumsNone(t: Tree<real>, f: seq<real>, k: nat, i: nat)
    requires i <= |f|
    ensures ClassSums(t, [], f, k, i) == 0.0
  {
    if i > 0 {
      ClassSumsNone(t, f, k, i - 1);
    }
  }

  /** The parts hold the class weights of all items when the fractions add up to 1. */
  lemma {:induction false} PartsHoldClass(t: Tree<real>, s: seq<Item>, f: seq<real>, k: nat)
    requires Decides(t, s) && |f| == t.forks && SumOf(f, |f|) == 1.0
    ensures ClassSums(t, s, f, k, |f|) == Sum(s, InClass(k))
  {
    hide Goes, Part;
    if s == [] {
      ClassSumsNone(t, f, k, |f|);
    } else {
      var s', x := s[..|s| - 1], s[|s| - 1];
      assert s == s' + [x] && (forall y :: y in s' ==> y in s) && x in s;
      PartsHoldClass(t, s', f, k);
      assert Decided(t, x.desc);
      var v :| Takes(t, x.desc, v);
      ClassSumsSnoc(t, s', x, v, f, k, |f|);
      SumSnoc(s', x, InClass(k));
    }
  }

  // ---- The theorem ----------------------------------------------------------------------------

  ghost predicate AllNonNegative(s: seq<Item>) { forall x :: x in s ==> x.weight >= 0.0 }

  lemma {:induction false} WeighNonNegative(s: seq<Item>)
    requires AllNonNegative(s)
    ensures Sum(s, Weigh()) >= 0.0
    ensures Sum(s, Weigh()) == 0.0 ==> forall x :: x in s ==> x.weight == 0.0
  {
    if s != [] {
      var s', x := s[..|s| - 1], s[|s| - 1];
      assert s == s' + [x] && x in s && forall y :: y in s' ==> y in s;
      WeighNonNegative(s');
    }
  }

  lemma {:induction false} WeightlessVotes(t: Tree<real>, s: seq<Item>, k: nat)
    requires t.nodeType == LEAF && t.items <= 0.0 && forall x :: x in s ==> x.weight == 0.0
    ensures VoteSum(t, s, k) == 0.0 && Sum(s, InClass(k)) == 0.0
  {
    if s != [] {
      var s', x := s[..|s| - 1], s[|s| - 1];
      assert s == s' + [x] && x in s && forall y :: y in s' ==> y in s;
      WeightlessVotes(t, s', k);
    }
  }

  lemma {:induction false} LeafVotes(t: Tree<real>, s: seq<Item>, k: nat)
    requires t.nodeType == LEAF && t.items > 0.0 && k < |t.dist|
    ensures VoteSum(t, s, k) == Portion(Sum(s, Weigh()), t.dist[k], t.items)
  {
    if s != [] {
      LeafVotes(t, s[..|s| - 1], k);
    }
  }

  lemma PortionOfAll(d: real, w: real)
    requires w != 0.0
    ensures Portion(w, d, w) == d
  {}

  lemma {:induction false} PartNonNegative(s: seq<Item>, t: Tree<real>, v: nat, k: real)
    requires AllNonNegative(s) && k >= 0.0
    ensures AllNonNegative(Part(s, t, v, k))
  {
    hide Goes;
    if s != [] {
      var s', x := s[..|s| - 1], s[|s| - 1];
      assert s == s' + [x] && x in s && forall y :: y in s' ==> y in s;
      PartNonNegative(s', t, v, k);
      assert x.weight * k >= 0.0;
    }
  }

  lemma PartStep(s: seq<Item>, t: Tree<real>, v: nat, k: real)
    requires s != []
    ensures Sum(Part(s, t, v, k), Weigh())
         == Sum(Part(s[..|s| - 1], t, v, k), Weigh())
            + if Goes(t, 0, s[|s| - 1].desc) then Times(s[|s| - 1].weight, k)
              else if Goes(t, v, s[|s| - 1].desc) then s[|s| - 1].weight else 0.0
  {
    hide Goes, Times, Scale;
    var x, p := s[|s| - 1], Part(s[..|s| - 1], t, v, k);
    assert p + [] == p;
    SumSnoc(p, Scale(x, k), Weigh());
    SumSnoc(p, x, Weigh());
    ScaledWeight(x, k);
  }

  /** The weight of a part: the known weight of the branch and its fraction of the unknown weight. */
  lemma {:induction false} PartWeight(s: seq<Item>, t: Tree<real>, v: nat, k: real)
    ensures Sum(Part(s, t, v, k), Weigh()) == Sum(s, InBranch(t, v)) + Times(Sum(s, Weigh()) - Sum(s, Known(t)), k)
  {
    hide Goes, Times, Scale, Part;
    if s == [] {
      assert Part(s, t, v, k) == [] by { NoPart(t, v, k); }
      TimesAdd(0.0, 0.0, k);
    } else {
      var s', x := s[..|s| - 1], s[|s| - 1];
      PartWeight(s', t, v, k);
      PartStep(s, t, v, k);
      TimesAdd(Sum(s', Weigh()) - Sum(s', Known(t)), x.weight, k);
    }
  }

  lemma NoPart(t: Tree<real>, v: nat, k: real)
    ensures Part([], t, v, k) == []
  {}

  function Times(a: real, k: real): real { a * k }

  lemma TimesAdd(a: real, b: real, k: real)
    ensures Times(a + b, k) == Times(a, k) + Times(b, k) && Times(0.0, k) == 0.0
  {}

  lemma ScaledWeight(x: Item, k: real)
    ensures Scale(x, k).weight == Times(x.weight, k)
  {}

  /** g of the known weight known, and the same fraction of the unknown weight, is that fraction of
      the whole. */
  lemma FairFraction(known: real, whole: real, g: real, items: real)
    requires known > 0.0 && whole > 0.0 && items == g + Times(whole - known, g / known)
    ensures Ratio(items, whole) == g / known
  {
    var q := g / known;
    assert q * known == g;
    assert (whole - known) * q == whole * q - known * q;
    assert items == whole * q;
  }

  lemma {:induction false} BranchNonNegative(s: seq<Item>, t: Tree<real>, v: nat)
    requires AllNonNegative(s)
    ensures Sum(s, InBranch(t, v)) >= 0.0
  {
    hide Goes;
    if s != [] {
      var s', x := s[..|s| - 1], s[|s| - 1];
      assert s == s' + [x] && x in s && forall y :: y in s' ==> y in s;
      BranchNonNegative(s', t, v);
    }
  }

  ghost function Fractions(s: seq<Item>, t: Tree<real>): (f: seq<real>)
    ensures |f| == |t.branch| && forall i :: 0 <= i < |f| ==> f[i] == Fraction(s, t, i + 1)
  {
    seq(|t.branch|, i requires 0 <= i < |t.branch| => Fraction(s, t, i + 1))
  }

  lemma FractionIsFair(t: Tree<real>, s: seq<Item>, n: nat, v: nat)
    requires FormedFrom(t, s, n) && t.nodeType != LEAF && t.items > 0.0 && AllNonNegative(s) && 1 <= v <= |t.branch|
    ensures Fraction(s, t, v) == Ratio(t.branch[v - 1].items, t.items) && Fraction(s, t, v) >= 0.0
  {
    hide Goes, Part, Times, Ratio;
    var g, known := Sum(s, InBranch(t, v)), Sum(s, Known(t));
    FormedItems(t.branch[v - 1], Part(s, t, v, Fraction(s, t, v)), n);
    PartWeight(s, t, v, g / known);
    FairFraction(known, t.items, g, t.branch[v - 1].items);
    BranchNonNegative(s, t, v);
  }

  lemma FormedItems(t: Tree<real>, s: seq<Item>, n: nat)
    requires FormedFrom(t, s, n)
    ensures t.items == Sum(s, Weigh())
  {}

  /** FormTree's factors are the fractions by which Classify shares out a case. */
  lemma FractionsAreFair(t: Tree<real>, s: seq<Item>, n: nat)
    requires FormedFrom(t, s, n) && t.nodeType != LEAF && t.items > 0.0 && AllNonNegative(s)
    ensures Fair(t, Fractions(s, t)) && forall i :: 0 <= i < |t.branch| ==> Fractions(s, t)[i] >= 0.0
  {
    hide Goes, FormedFrom, Fraction, Ratio;
    forall i | 0 <= i < |t.branch|
      ensures Fractions(s, t)[i] == Ratio(t.branch[i].items, t.items) && Fractions(s, t)[i] >= 0.0
    {
      FractionIsFair(t, s, n, i + 1);
    }
  }

  lemma {:induction false} FractionSum(s: seq<Item>, t: Tree<real>, i: nat)
    requires i <= |t.branch| && Sum(s, Known(t)) > 0.0
    ensures Times(SumOf(Fractions(s, t), i), Sum(s, Known(t))) == BranchTotals(t, s, i)
  {
    hide Goes;
    if i > 0 {
      FractionSum(s, t, i - 1);
      var g, known := Sum(s, InBranch(t, i)), Sum(s, Known(t));
      assert g / known * known == g;
      Distribute(known, SumOf(Fractions(s, t), i - 1), g / known);
    }
  }

  /** The branches share out the known weight. */
  lemma {:induction false} KnownCovered(t: Tree<real>, s: seq<Item>)
    requires Decides(t, s) && t.forks >= 0
    ensures BranchTotals(t, s, t.forks) == Sum(s, Known(t))
  {
    hide Goes;
    if s == [] {
      BranchTotalsEmpty(t, t.forks);
    } else {
      var s', x := s[..|s| - 1], s[|s| - 1];
      assert s == s' + [x] && x in s && forall y :: y in s' ==> y in s;
      KnownCovered(t, s');
      assert Decided(t, x.desc);
      var v :| Takes(t, x.desc, v);
      SumSnoc(s', x, Known(t));
      if v > 0 {
        BranchTotalsSnoc(t, s', x, v, t.forks);
      } else {
        UnknownTotals(t, s', x, t.forks);
      }
    }
  }

  lemma {:induction false} UnknownTotals(t: Tree<real>, s: seq<Item>, x: Item, n: nat)
    requires Goes(t, 0, x.desc)
    ensures BranchTotals(t, s + [x], n) == BranchTotals(t, s, n)
  {
    hide Goes;
    if n > 0 {
      UnknownTotals(t, s, x, n - 1);
      SumSnoc(s, x, InBranch(t, n));
    }
  }

  lemma FractionsAddUp(t: Tree<real>, s: seq<Item>, n: nat)
    requires FormedFrom(t, s, n) && t.nodeType != LEAF
    ensures SumOf(Fractions(s, t), |t.branch|) == 1.0
  {
    hide Goes;
    FractionSum(s, t, |t.branch|);
    KnownCovered(t, s);
    OneTimes(SumOf(Fractions(s, t), |t.branch|), Sum(s, Known(t)));
  }

  lemma OneTimes(a: real, b: real)
    requires Times(a, b) == b && b > 0.0
    ensures a == 1.0
  {
    assert (a - 1.0) * b == 0.0;
  }

  /** Classifying the items a tree was formed from, unknown values and all, gives back exactly their
      class distribution: each class gets the weight its own items have. */
  lemma {:induction false} TrainingVotes(t: Tree<real>, s: seq<Item>, n: nat, k: nat)
    requires FormedFrom(t, s, n) && Balanced(t, n) && AllNonNegative(s) && k < n
    ensures VoteSum(t, s, k) == Sum(s, InClass(k))
    decreases t, |t.branch| + 1
  {
    hide Goes, Vote, VoteSum, Part, Fraction, Portion;
    if t.nodeType == LEAF {
      if t.items > 0.0 {
        LeafVotes(t, s, k);
        PortionOfAll(t.dist[k], t.items);
      } else {
        WeighNonNegative(s);
        WeightlessVotes(t, s, k);
      }
    } else {
      var f := Fractions(s, t);
      FractionsAreFair(t, s, n);
      FractionsAddUp(t, s, n);
      VotesAreParts(t, s, f, k);
      PartsHoldClass(t, s, f, k);
      TrainingParts(t, s, n, k, |t.branch|);
    }
  }

  lemma {:induction false} TrainingParts(t: Tree<real>, s: seq<Item>, n: nat, k: nat, i: nat)
    requires FormedFrom(t, s, n) && Balanced(t, n) && AllNonNegative(s) && k < n
    requires t.nodeType != LEAF && i <= |t.branch|
    ensures PartSums(t, s, Fractions(s, t), k, i) == ClassSums(t, s, Fractions(s, t), k, i)
    decreases t, i
  {
    hide Goes, Vote, VoteSum, Part, Fraction;
    if i > 0 {
      TrainingParts(t, s, n, k, i - 1);
      FractionsAreFair(t, s, n);
      PartNonNegative(s, t, i, Fractions(s, t)[i - 1]);
      assert t.branch[i - 1] in t.branch;
      TrainingVotes(t.branch[i - 1], Part(s, t, i, Fractions(s, t)[i - 1]), n, k);
    }
  }
}
