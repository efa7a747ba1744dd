/** What forming a tree does at every node: where MINOBJS drops to 1, what every node is, and where no
    tree can be formed. */
module C45Minimum {
  import opened Options
  import opened C45Types
  import opened Weighted
  import opened Ranges
  import opened C45Tests
  import opened C45Formed
  import opened C45Cuts
  import opened C45Choice

  /** The node as a test of its attribute's kind, also when it was made a leaf again. */
  function TestOf(t: Tree<real>, p: Plan): (r: Tree<real>)
    ensures r.branch == t.branch
  {
    if 0 <= t.tested < |p.kinds| then
      t.(nodeType := TypeOf(t.tested, p))
    else t
  }

  /** The items branch v of the test is formed from. */
  ghost function Share(s: seq<Item>, t: Tree<real>, v: nat): seq<Item> { Part(s, t, v, Fraction(s, t, v)) }

  /** Some node at or below the root of t, formed from s, has items enough and of several classes, so that
      its attributes are evaluated, and next to nothing is known of a grouped attribute. */
  ghost predicate Drops(t: Tree<real>, s: seq<Item>, p: Plan, m: nat)
    decreases t
  {
    && !Stops(s, m)
    && (BlankBelow(s, p.kinds, |p.kinds|)
        || exists i :: 0 <= i < |t.branch| && Drops(t.branch[i], Share(s, TestOf(t, p), i + 1), p, m))
  }

  /** MINOBJS after t has been formed from s. */
  ghost function MinimumAfter(t: Tree<real>, s: seq<Item>, p: Plan, m: nat): nat { if Drops(t, s, p, m) then 1 else m }

  ghost predicate SomeDrops(branch: seq<Tree<real>>, s: seq<Item>, t: Tree<real>, p: Plan, m: nat) {
    exists i :: 0 <= i < |branch| && Drops(branch[i], Share(s, t, i + 1), p, m)
  }

  /** MINOBJS after the branches of test t have been formed from s. */
  ghost function MinimumPast(branch: seq<Tree<real>>, s: seq<Item>, t: Tree<real>, p: Plan, m: nat): nat {
    if SomeDrops(branch, s, t, p, m) then 1 else m
  }

  // ---- Only which items they are matters ------------------------------------------------------

  lemma StopsPerm(s: seq<Item>, r: seq<Item>, m: nat)
    requires multiset(s) == multiset(r)
    ensures Stops(s, m) <==> Stops(r, m)
  {
    PermMembers(s, r);
    SumPerm(s, r, Weigh());
  }

  lemma SharePerm(s: seq<Item>, r: seq<Item>, t: Tree<real>, v: nat)
    requires multiset(s) == multiset(r)
    ensures multiset(Share(s, t, v)) == multiset(Share(r, t, v))
  {
    hide Part;
    SumPerm(s, r, Known(t));
    SumPerm(s, r, InBranch(t, v));
    PartPerm(s, r, t, v, Fraction(s, t, v));
  }

  lemma {:induction false} DropsOn(t: Tree<real>, s: seq<Item>, r: seq<Item>, p: Plan, m: nat)
    requires multiset(s) == multiset(r) && Drops(t, s, p, m)
    ensures Drops(t, r, p, m)
    decreases t
  {
    hide Stops, BlankBelow, Share, TestOf;
    StopsPerm(s, r, m);
    BlankBelowPerm(s, r, p.kinds, |p.kinds|, m);
    if !BlankBelow(s, p.kinds, |p.kinds|) {
      var i :| 0 <= i < |t.branch| && Drops(t.branch[i], Share(s, TestOf(t, p), i + 1), p, m);
      SharePerm(s, r, TestOf(t, p), i + 1);
      DropsOn(t.branch[i], Share(s, TestOf(t, p), i + 1), Share(r, TestOf(t, p), i + 1), p, m);
    }
  }

  lemma DropsPerm(t: Tree<real>, s: seq<Item>, r: seq<Item>, p: Plan, m: nat)
    requires multiset(s) == multiset(r)
    ensures Drops(t, s, p, m) <==> Drops(t, r, p, m)
  {
    hide Drops;
    if Drops(t, s, p, m) {
      DropsOn(t, s, r, p, m);
    }
    if Drops(t, r, p, m) {
      DropsOn(t, r, s, p, m);
    }
  }

  lemma BranchDropsPerm(b: Tree<real>, s: seq<Item>, r: seq<Item>, t: Tree<real>, v: nat, p: Plan, m: nat)
    requires multiset(s) == multiset(r)
    ensures Drops(b, Share(s, t, v), p, m) <==> Drops(b, Share(r, t, v), p, m)
  {
    hide Drops, Share;
    SharePerm(s, r, t, v);
    DropsPerm(b, Share(s, t, v), Share(r, t, v), p, m);
  }

  lemma SomeDropsPerm(branch: seq<Tree<real>>, s: seq<Item>, r: seq<Item>, t: Tree<real>, p: Plan, m: nat)
    requires multiset(s) == multiset(r)
    ensures SomeDrops(branch, s, t, p, m) <==> SomeDrops(branch, r, t, p, m)
  {
    hide Drops, Share;
    forall i | 0 <= i < |branch|
      ensures Drops(branch[i], Share(s, t, i + 1), p, m) <==> Drops(branch[i], Share(r, t, i + 1), p, m)
    {
      BranchDropsPerm(branch[i], s, r, t, i + 1, p, m);
    }
  }

  // ---- Growing the branches -------------------------------------------------------------------

  lemma NonePast(s: seq<Item>, t: Tree<real>, p: Plan, m: nat)
    ensures MinimumPast([], s, t, p, m) == m
  {}

  /** One more branch. The items have been permuted since the first one was grown. */
  lemma PastStep(branch: seq<Tree<real>>, b: Tree<real>, s: seq<Item>, r: seq<Item>, lo: nat, hi: nat, t: Tree<real>,
                 p: Plan, m: nat)
    requires Perm(s, r, lo, hi)
    ensures lo <= hi <= |s| == |r|
    ensures MinimumPast(branch + [b], s[lo..hi], t, p, m)
         == MinimumAfter(b, Share(r[lo..hi], t, |branch| + 1), p, MinimumPast(branch, s[lo..hi], t, p, m))
  {
    hide Drops, Share;
    BranchDropsPerm(b, s[lo..hi], r[lo..hi], t, |branch| + 1, p, m);
    assert (branch + [b])[|branch|] == b;
    if SomeDrops(branch, s[lo..hi], t, p, m) {
      var i :| 0 <= i < |branch| && Drops(branch[i], Share(s[lo..hi], t, i + 1), p, m);
      assert (branch + [b])[i] == branch[i];
    } else {
      assert forall i :: 0 <= i < |branch| ==> (branch + [b])[i] == branch[i];
    }
  }

  /** The items handed to branch v. */
  lemma ChildDrops(s0: seq<Item>, s1: seq<Item>, t: Tree<real>, v: nat, fp: nat, kp: nat, e: nat, hi: nat, k: real,
                   b: Tree<real>, p: Plan, m: nat)
    requires Cut(s0, t, fp, kp, hi) && Cut(s1, t, fp, kp, hi) && Grouped(s1, t, v, kp, e, hi)
             && TwoPerms(s0, s1, fp, kp, hi)
    requires Load(s0, kp, hi) > 0.0 && k == Quotient(BranchLoad(s0, kp, hi, t, v), Load(s0, kp, hi))
    ensures fp <= e <= hi <= |s0| == |ScaledIn(s1, fp, kp, k)|
    ensures MinimumAfter(b, ScaledIn(s1, fp, kp, k)[fp..e], p, m) == MinimumAfter(b, Share(s0[fp..hi], t, v), p, m)
  {
    hide Goes, ScaledIn, Drops, Part, Quotient;
    KnownLoad(s0, t, fp, kp, hi);
    StretchIsPart(s1, t, v, fp, kp, e, hi, k);
    PermJoin(s0, s1, fp, kp, hi);
    PartPerm(s0[fp..hi], s1[fp..hi], t, v, k);
    DropsPerm(b, Part(s1[fp..hi], t, v, k), Part(s0[fp..hi], t, v, k), p, m);
  }

  /** A branch without items leaves MINOBJS as it is. */
  lemma EmptyDropsNot(s: seq<Item>, t: Tree<real>, v: nat, fp: nat, kp: nat, hi: nat, b: Tree<real>, p: Plan, m: nat)
    requires Cut(s, t, fp, kp, hi) && Load(s, kp, hi) > 0.0 && BranchLoad(s, kp, hi, t, v) == 0.0 && m >= 1
    ensures MinimumAfter(b, Share(s[fp..hi], t, v), p, m) == m
  {
    hide Goes, Part, Quotient, BlankBelow, OneClass;
    KnownLoad(s, t, fp, kp, hi);
    ZeroQuotient(Load(s, kp, hi));
    PartNoWeight(s[fp..hi], t, v);
  }

  // ---- The node -------------------------------------------------------------------------------

  lemma TestOfIs(t: Tree<real>, r: Tree<real>, s: seq<Item>, p: Plan, v: nat)
    requires OfKind(t, p) && SameTest(t, r.(nodeType := t.nodeType))
    ensures Share(s, TestOf(r, p), v) == Share(s, t, v)
  {
    hide Part, Fraction;
    assert SameTest(TestOf(r, p), t);
    SameFraction(s, TestOf(r, p), t, v);
    SamePart(s, TestOf(r, p), t, v, Fraction(s, t, v));
  }

  /** The node that test t becomes, also when it is made a leaf again. */
  lemma TestPast(t: Tree<real>, r: Tree<real>, s: seq<Item>, p: Plan, m: nat)
    requires OfKind(t, p) && SameTest(t, r.(nodeType := t.nodeType))
    ensures MinimumPast(r.branch, s, TestOf(r, p), p, m) == MinimumPast(r.branch, s, t, p, m)
  {
    hide Drops, Share, TestOf;
    forall i | 0 <= i < |r.branch|
      ensures Drops(r.branch[i], Share(s, TestOf(r, p), i + 1), p, m) <==> Drops(r.branch[i], Share(s, t, i + 1), p, m)
    {
      TestOfIs(t, r, s, p, i + 1);
    }
  }

  /** The evaluation at the node and the branches together. */
  lemma NodeAfter(t: Tree<real>, s: seq<Item>, r: seq<Item>, lo: nat, hi: nat, p: Plan, m: nat)
    requires Perm(s, r, lo, hi)
    ensures lo <= hi <= |s| == |r|
    ensures !Stops(s[lo..hi], m) ==>
              MinimumAfter(t, s[lo..hi], p, m)
              == MinimumPast(t.branch, r[lo..hi], TestOf(t, p), p, MinimumAt(s[lo..hi], p.kinds, |p.kinds|, m))
  {
    hide Share, TestOf, Stops, BlankBelow;
    SomeDropsPerm(t.branch, s[lo..hi], r[lo..hi], TestOf(t, p), p, m);
  }

  lemma StopsAfter(t: Tree<real>, s: seq<Item>, p: Plan, m: nat)
    requires Stops(s, m)
    ensures MinimumAfter(t, s, p, m) == m
  {}

  // ---- Every node -----------------------------------------------------------------------------

  /** The attributes tested on the way to the branches of a node. */
  function Marked(tested: seq<nat>, a: int): seq<nat> {
    if 0 <= a < |tested| then tested[a := tested[a] + 1] else tested
  }

  /** The node carries the weight, the class distribution and the errors of the items that reach it, and
      is a leaf again when its branches make as many errors. */
  ghost predicate Headed(t: Tree<real>, s: seq<Item>, n: nat) {
    && t.items == Sum(s, Weigh()) && 0 <= t.leaf < |t.dist|
    && (t.items > 0.0 ==> t.dist == ClassTotals(s, n) && IsBest(t.dist, t.leaf))
    && if t.branch == [] then t.nodeType == LEAF && t.errors == LeafErrors(t)
       else t.errors == Errors(t.branch) && (t.nodeType == LEAF <==> t.errors >= t.items - t.dist[t.leaf] - EPSILON)
  }

  /** Every node of t that is reached by items of one class, or by too few, is a leaf; every other one is
      as the evaluation of its attributes on the items that reach it says, with the MINOBJS left by what
      was formed before it. */
  ghost predicate Greedy(t: Tree<real>, s: seq<Item>, p: Plan, tested: seq<nat>, m: nat)
    decreases t
  {
    && Headed(t, s, p.classes)
    && if Stops(s, m) then t.branch == []
       else
         && !LostBelow(s, p, |p.kinds|) && WellChosen(t, s, p, tested, m)
         && forall i :: 0 <= i < |t.branch| ==>
              Greedy(t.branch[i], Share(s, TestOf(t, p), i + 1), p, Marked(tested, t.tested),
                MinimumPast(t.branch[..i], s, TestOf(t, p), p, MinimumAt(s, p.kinds, |p.kinds|, m)))
  }

  ghost predicate AllGreedy(branch: seq<Tree<real>>, s: seq<Item>, t: Tree<real>, p: Plan, tested: seq<nat>, m: nat) {
    forall i :: 0 <= i < |branch| ==>
      Greedy(branch[i], Share(s, t, i + 1), p, tested, MinimumPast(branch[..i], s, t, p, m))
  }

  lemma HeadedPerm(t: Tree<real>, s: seq<Item>, r: seq<Item>, n: nat)
    requires multiset(s) == multiset(r) && Headed(t, s, n)
    ensures Headed(t, r, n)
  {
    SumPerm(s, r, Weigh());
    ClassesPerm(s, r, n);
  }

  lemma MinimumPastPerm(branch: seq<Tree<real>>, s: seq<Item>, r: seq<Item>, t: Tree<real>, p: Plan, m: nat)
    requires multiset(s) == multiset(r)
    ensures MinimumPast(branch, s, t, p, m) == MinimumPast(branch, r, t, p, m)
  {
    hide SomeDrops;
    SomeDropsPerm(branch, s, r, t, p, m);
  }

  lemma {:induction false} GreedyPerm(t: Tree<real>, s: seq<Item>, r: seq<Item>, p: Plan, tested: seq<nat>, m: nat)
    requires multiset(s) == multiset(r) && Greedy(t, s, p, tested, m)
    ensures Greedy(t, r, p, tested, m)
    decreases t
  {
    hide Stops, Share, TestOf, WellChosen, MinimumPast, MinimumAt, Marked, Headed, LostBelow;
    StopsPerm(s, r, m);
    HeadedPerm(t, s, r, p.classes);
    if !Stops(s, m) {
      LostBelowPerm(s, r, p, |p.kinds|);
      WellChosenPerm(t, s, r, p, tested, m);
      BlankBelowPerm(s, r, p.kinds, |p.kinds|, m);
      var test, m' := TestOf(t, p), MinimumAt(s, p.kinds, |p.kinds|, m);
      forall i | 0 <= i < |t.branch|
        ensures Greedy(t.branch[i], Share(r, test, i + 1), p, Marked(tested, t.tested),
                  MinimumPast(t.branch[..i], r, test, p, m'))
      {
        SharePerm(s, r, test, i + 1);
        MinimumPastPerm(t.branch[..i], s, r, test, p, m');
        GreedyPerm(t.branch[i], Share(s, test, i + 1), Share(r, test, i + 1), p, Marked(tested, t.tested),
          MinimumPast(t.branch[..i], s, test, p, m'));
      }
    }
  }

  lemma NoneGreedy(s: seq<Item>, t: Tree<real>, p: Plan, tested: seq<nat>, m: nat)
    ensures AllGreedy([], s, t, p, tested, m)
  {}

  /** One more branch. The items have been permuted since the first one was grown. */
  lemma GreedyStep(branch: seq<Tree<real>>, b: Tree<real>, s: seq<Item>, r: seq<Item>, lo: nat, hi: nat, t: Tree<real>,
                   p: Plan, tested: seq<nat>, m: nat)
    requires Perm(s, r, lo, hi) && AllGreedy(branch, s[lo..hi], t, p, tested, m)
    requires Greedy(b, Share(r[lo..hi], t, |branch| + 1), p, tested, MinimumPast(branch, s[lo..hi], t, p, m))
    ensures AllGreedy(branch + [b], s[lo..hi], t, p, tested, m)
  {
    hide Greedy, Share, MinimumPast;
    SharePerm(s[lo..hi], r[lo..hi], t, |branch| + 1);
    GreedyPerm(b, Share(r[lo..hi], t, |branch| + 1), Share(s[lo..hi], t, |branch| + 1), p, tested,
      MinimumPast(branch, s[lo..hi], t, p, m));
    assert (branch + [b])[..|branch|] == branch;
    forall i | 0 <= i < |branch|
      ensures (branch + [b])[..i] == branch[..i]
    {}
  }

  lemma ChildGreedy(s0: seq<Item>, s1: seq<Item>, t: Tree<real>, v: nat, fp: nat, kp: nat, e: nat, hi: nat, k: real,
                    b: Tree<real>, p: Plan, tested: seq<nat>, m: nat)
    requires Cut(s0, t, fp, kp, hi) && Cut(s1, t, fp, kp, hi) && Grouped(s1, t, v, kp, e, hi)
             && TwoPerms(s0, s1, fp, kp, hi)
    requires Load(s0, kp, hi) > 0.0 && k == Quotient(BranchLoad(s0, kp, hi, t, v), Load(s0, kp, hi))
    requires fp <= e <= |ScaledIn(s1, fp, kp, k)| && Greedy(b, ScaledIn(s1, fp, kp, k)[fp..e], p, tested, m)
    ensures Greedy(b, Share(s0[fp..hi], t, v), p, tested, m)
  {
    hide Goes, ScaledIn, Greedy, Part, Quotient;
    KnownLoad(s0, t, fp, kp, hi);
    StretchIsPart(s1, t, v, fp, kp, e, hi, k);
    PermJoin(s0, s1, fp, kp, hi);
    PartPerm(s0[fp..hi], s1[fp..hi], t, v, k);
    GreedyPerm(b, Part(s1[fp..hi], t, v, k), Part(s0[fp..hi], t, v, k), p, tested, m);
  }

  lemma LeafGreedy(b: Tree<real>, s: seq<Item>, p: Plan, tested: seq<nat>, m: nat)
    requires Headed(b, s, p.classes) && b.branch == [] && Stops(s, m)
    ensures Greedy(b, s, p, tested, m)
  {}

  lemma EmptyGreedy(s: seq<Item>, t: Tree<real>, v: nat, fp: nat, kp: nat, hi: nat, node: Tree<real>, p: Plan,
                    tested: seq<nat>, m: nat)
    requires Cut(s, t, fp, kp, hi) && Load(s, kp, hi) > 0.0 && BranchLoad(s, kp, hi, t, v) == 0.0 && m >= 1
             && NodeBasis(node, p.classes)
    ensures Greedy(LeafNode(node.dist, node.leaf, 0.0, 0.0), Share(s[fp..hi], t, v), p, tested, m)
  {
    hide Goes, Part, Quotient, WellChosen, OneClass;
    KnownLoad(s, t, fp, kp, hi);
    ZeroQuotient(Load(s, kp, hi));
    PartNoWeight(s[fp..hi], t, v);
    LeafGreedy(LeafNode(node.dist, node.leaf, 0.0, 0.0), Share(s[fp..hi], t, v), p, tested, m);
  }

  /** As TestPast. */
  lemma TestGreedy(t: Tree<real>, r: Tree<real>, s: seq<Item>, p: Plan, tested: seq<nat>, m: nat)
    requires OfKind(t, p) && SameTest(t, r.(nodeType := t.nodeType)) && AllGreedy(r.branch, s, t, p, tested, m)
    ensures AllGreedy(r.branch, s, TestOf(r, p), p, tested, m)
  {
    hide Greedy, Share, TestOf, MinimumPast;
    forall i | 0 <= i < |r.branch|
      ensures Greedy(r.branch[i], Share(s, TestOf(r, p), i + 1), p, tested,
                MinimumPast(r.branch[..i], s, TestOf(r, p), p, m))
    {
      TestOfIs(t, r, s, p, i + 1);
      TestPast(t, r.(branch := r.branch[..i]), s, p, m);
      SameTestOf(r, r.branch[..i], p, s, i, m);
    }
  }

  lemma SameTestOf(r: Tree<real>, branch: seq<Tree<real>>, p: Plan, s: seq<Item>, i: nat, m: nat)
    ensures MinimumPast(branch, s, TestOf(r.(branch := branch), p), p, m) == MinimumPast(branch, s, TestOf(r, p), p, m)
  {
    hide Drops, Part, Fraction, TestOf;
    SameTests(r, branch, p);
    forall v: nat
      ensures Share(s, TestOf(r.(branch := branch), p), v) == Share(s, TestOf(r, p), v)
    {
      SameFraction(s, TestOf(r.(branch := branch), p), TestOf(r, p), v);
      SamePart(s, TestOf(r.(branch := branch), p), TestOf(r, p), v, Fraction(s, TestOf(r, p), v));
    }
  }

  lemma SameTests(r: Tree<real>, branch: seq<Tree<real>>, p: Plan)
    ensures SameTest(TestOf(r.(branch := branch), p), TestOf(r, p))
  {}

  /** The node and its branches together. */
  lemma NodeGreedy(t: Tree<real>, s: seq<Item>, r: seq<Item>, lo: nat, hi: nat, p: Plan, tested: seq<nat>, m: nat,
                   m': nat)
    requires Perm(s, r, lo, hi)
    requires WellChosen(t, s[lo..hi], p, tested, m) && !Stops(s[lo..hi], m)
    requires Headed(t, s[lo..hi], p.classes) && !LostBelow(s[lo..hi], p, |p.kinds|)
    requires m' == MinimumAt(s[lo..hi], p.kinds, |p.kinds|, m)
    requires AllGreedy(t.branch, r[lo..hi], TestOf(t, p), p, Marked(tested, t.tested), m')
    ensures Greedy(t, s[lo..hi], p, tested, m)
  {
    hide Share, TestOf, Stops, WellChosen, MinimumPast, MinimumAt, Marked, Headed, LostBelow;
    var test := TestOf(t, p);
    forall i | 0 <= i < |t.branch|
      ensures Greedy(t.branch[i], Share(s[lo..hi], test, i + 1), p, Marked(tested, t.tested),
                MinimumPast(t.branch[..i], s[lo..hi], test, p, m'))
    {
      SharePerm(s[lo..hi], r[lo..hi], test, i + 1);
      MinimumPastPerm(t.branch[..i], s[lo..hi], r[lo..hi], test, p, m');
      GreedyPerm(t.branch[i], Share(r[lo..hi], test, i + 1), Share(s[lo..hi], test, i + 1), p,
        Marked(tested, t.tested), MinimumPast(t.branch[..i], r[lo..hi], test, p, m'));
    }
  }

  // ---- Where no tree can be formed ------------------------------------------------------------

  /** Along the tests and branches of the path the items reach a node where the search for the classes of
      a grouped attribute leaves its row. */
  ghost predicate Fails(s: seq<Item>, path: seq<(Tree<real>, nat)>, p: Plan, tested: seq<nat>, m: nat)
    decreases |path|, 0
  {
    && !Stops(s, m)
    && if path == [] then LostBelow(s, p, |p.kinds|)
       else
         && 1 <= path[0].1 <= path[0].0.forks && TestChosen(path[0].0, s, p, tested, m)
         && FailsBelow(Share(s, path[0].0, path[0].1), path[1..], p, Marked(tested, path[0].0.tested),
              MinimumAt(s, p.kinds, |p.kinds|, m))
  }

  /** MINOBJS may have dropped while the branches before this one were grown. */
  ghost predicate FailsBelow(s: seq<Item>, path: seq<(Tree<real>, nat)>, p: Plan, tested: seq<nat>, m: nat)
    decreases |path|, 1
  {
    Fails(s, path, p, tested, m) || Fails(s, path, p, tested, 1)
  }

  ghost predicate CanFail(s: seq<Item>, p: Plan, tested: seq<nat>, m: nat) {
    exists path :: Fails(s, path, p, tested, m)
  }

  /** A branch of test t can fail. */
  ghost predicate SomeFails(s: seq<Item>, t: Tree<real>, p: Plan, tested: seq<nat>, m: nat) {
    exists v :: 1 <= v <= t.forks
      && (CanFail(Share(s, t, v), p, tested, m) || CanFail(Share(s, t, v), p, tested, 1))
  }

  lemma {:induction false} FailsPerm(s: seq<Item>, r: seq<Item>, path: seq<(Tree<real>, nat)>, p: Plan,
                                     tested: seq<nat>, m: nat)
    requires multiset(s) == multiset(r) && Fails(s, path, p, tested, m)
    ensures Fails(r, path, p, tested, m)
    decreases |path|
  {
    hide Stops, Share, TestChosen, MinimumAt, Marked, LostBelow;
    StopsPerm(s, r, m);
    if path == [] {
      LostBelowPerm(s, r, p, |p.kinds|);
    } else {
      var t, v := path[0].0, path[0].1;
      TestChosenPerm(t, s, r, p, tested, m);
      SharePerm(s, r, t, v);
      BlankBelowPerm(s, r, p.kinds, |p.kinds|, m);
      var m' := MinimumAt(s, p.kinds, |p.kinds|, m);
      if Fails(Share(s, t, v), path[1..], p, Marked(tested, t.tested), m') {
        FailsPerm(Share(s, t, v), Share(r, t, v), path[1..], p, Marked(tested, t.tested), m');
      } else {
        FailsPerm(Share(s, t, v), Share(r, t, v), path[1..], p, Marked(tested, t.tested), 1);
      }
    }
  }

  lemma CanFailPerm(s: seq<Item>, r: seq<Item>, p: Plan, tested: seq<nat>, m: nat)
    requires multiset(s) == multiset(r) && CanFail(s, p, tested, m)
    ensures CanFail(r, p, tested, m)
  {
    hide Fails;
    var path :| Fails(s, path, p, tested, m);
    FailsPerm(s, r, path, p, tested, m);
  }

  lemma FailsHere(s: seq<Item>, p: Plan, tested: seq<nat>, m: nat)
    requires !Stops(s, m) && LostBelow(s, p, |p.kinds|)
    ensures CanFail(s, p, tested, m)
  {
    hide Stops, LostBelow;
    assert Fails(s, [], p, tested, m);
  }

  /** The failure of a branch is one of the node. */
  lemma FailsThere(s: seq<Item>, r: seq<Item>, lo: nat, hi: nat, t: Tree<real>, p: Plan, tested: seq<nat>, m: nat,
                   m': nat)
    requires Perm(s, r, lo, hi)
    requires !Stops(s[lo..hi], m) && TestChosen(t, s[lo..hi], p, tested, m)
    requires m' == MinimumAt(s[lo..hi], p.kinds, |p.kinds|, m)
    requires SomeFails(r[lo..hi], t, p, Marked(tested, t.tested), m')
    ensures CanFail(s[lo..hi], p, tested, m)
  {
    hide Stops, Share, TestChosen, MinimumAt, Marked, LostBelow;
    var v :| 1 <= v <= t.forks && (CanFail(Share(r[lo..hi], t, v), p, Marked(tested, t.tested), m')
                                   || CanFail(Share(r[lo..hi], t, v), p, Marked(tested, t.tested), 1));
    SharePerm(s[lo..hi], r[lo..hi], t, v);
    var k := if CanFail(Share(r[lo..hi], t, v), p, Marked(tested, t.tested), m') then m' else 1;
    CanFailPerm(Share(r[lo..hi], t, v), Share(s[lo..hi], t, v), p, Marked(tested, t.tested), k);
    var path :| Fails(Share(s[lo..hi], t, v), path, p, Marked(tested, t.tested), k);
    var longer := [(t, v)] + path;
    assert longer[1..] == path;
    assert Fails(s[lo..hi], longer, p, tested, m);
  }

  /** A branch could not be grown. The items have been permuted since the first one was. */
  lemma BranchFails(s: seq<Item>, r: seq<Item>, lo: nat, hi: nat, t: Tree<real>, v: nat, p: Plan, tested: seq<nat>,
                    m: nat, m': nat)
    requires Perm(s, r, lo, hi) && 1 <= v <= t.forks && (m' == m || m' == 1)
    requires CanFail(Share(r[lo..hi], t, v), p, tested, m')
    ensures SomeFails(s[lo..hi], t, p, tested, m)
  {
    hide CanFail, Share;
    SharePerm(s[lo..hi], r[lo..hi], t, v);
    CanFailPerm(Share(r[lo..hi], t, v), Share(s[lo..hi], t, v), p, tested, m');
  }

  lemma ChildFails(s0: seq<Item>, s1: seq<Item>, t: Tree<real>, v: nat, fp: nat, kp: nat, e: nat, hi: nat, k: real,
                   p: Plan, tested: seq<nat>, m: nat)
    requires Cut(s0, t, fp, kp, hi) && Cut(s1, t, fp, kp, hi) && Grouped(s1, t, v, kp, e, hi)
             && TwoPerms(s0, s1, fp, kp, hi)
    requires Load(s0, kp, hi) > 0.0 && k == Quotient(BranchLoad(s0, kp, hi, t, v), Load(s0, kp, hi))
    requires fp <= e <= |ScaledIn(s1, fp, kp, k)| && CanFail(ScaledIn(s1, fp, kp, k)[fp..e], p, tested, m)
    ensures CanFail(Share(s0[fp..hi], t, v), p, tested, m)
  {
    hide Goes, ScaledIn, CanFail, Part, Quotient;
    KnownLoad(s0, t, fp, kp, hi);
    StretchIsPart(s1, t, v, fp, kp, e, hi, k);
    PermJoin(s0, s1, fp, kp, hi);
    PartPerm(s0[fp..hi], s1[fp..hi], t, v, k);
    CanFailPerm(Part(s1[fp..hi], t, v, k), Part(s0[fp..hi], t, v, k), p, tested, m);
  }
}
