/** Growing trees from a window of the items: the target profile of classes, the initial window, and
    the cycle that adds misclassified items to the window. */
module BestTree {
  import opened Options
  import opened C45Types
  import opened Weighted
  import opened Ranges
  import opened C45Tests
  import opened C45Formed
  import opened C45Choice
  import opened C45Minimum
  import opened C45Build
  import opened Classify

  // ---- Cases and how many there are of a class --------------------------------------------------

  function Cases(s: seq<Item>): (r: seq<Case>)
    ensures |r| == |s| && forall i :: 0 <= i < |s| ==> r[i] == s[i].desc
  {
    seq(|s|, i requires 0 <= i < |s| => s[i].desc)
  }

  /** The cases with weight 1 each. */
  function Units(c: seq<Case>): (r: seq<Item>)
    ensures |r| == |c| && forall i :: 0 <= i < |c| ==> r[i] == Item(c[i], 1.0)
  {
    seq(|c|, i requires 0 <= i < |c| => Item(c[i], 1.0))
  }

  function CountOf(c: seq<Case>, k: nat): nat {
    if c == [] then 0 else CountOf(c[..|c| - 1], k) + if c[|c| - 1].cls == k then 1 else 0
  }

  function Counts(c: seq<Case>, classes: nat): (r: seq<int>)
    ensures |r| == classes && forall k :: 0 <= k < classes ==> r[k] == CountOf(c, k)
  {
    seq(classes, k requires 0 <= k < classes => CountOf(c, k))
  }

  lemma CountSnoc(c: seq<Case>, x: Case, k: nat)
    ensures CountOf(c + [x], k) == CountOf(c, k) + if x.cls == k then 1 else 0
  {
    assert (c + [x])[..|c|] == c;
  }

  lemma {:induction false} CountConcat(a: seq<Case>, b: seq<Case>, k: nat)
    ensures CountOf(a + b, k) == CountOf(a, k) + CountOf(b, k)
  {
    if b == [] {
      assert a + b == a;
    } else {
      CountConcat(a, b[..|b| - 1], k);
      assert a + b == (a + b[..|b| - 1]) + [b[|b| - 1]];
      CountSnoc(a + b[..|b| - 1], b[|b| - 1], k);
    }
  }

  lemma {:induction false} CountPerm(a: seq<Case>, b: seq<Case>, k: nat)
    requires multiset(a) == multiset(b)
    ensures CountOf(a, k) == CountOf(b, k)
  {
    if a == [] {
      SameSize(a, b);
    } else {
      MultisetLast(a);
      var x := a[|a| - 1];
      assert x in b;
      var i :| 0 <= i < |b| && b[i] == x;
      MultisetWithout(b, i);
      CountPerm(a[..|a| - 1], b[..i] + b[i + 1..], k);
      assert b == (b[..i] + [x]) + b[i + 1..];
      CountConcat(b[..i] + [x], b[i + 1..], k);
      CountConcat(b[..i], b[i + 1..], k);
      CountSnoc(b[..i], x, k);
    }
  }

  function SumInt(a: seq<int>, n: nat): int
    requires n <= |a|
  {
    if n == 0 then 0 else SumInt(a, n - 1) + a[n - 1]
  }

  lemma {:induction false} SumIntUpdate(a: seq<int>, m: nat, x: int, n: nat)
    requires m < |a| && n <= |a|
    ensures SumInt(a[m := x], n) == SumInt(a, n) + if m < n then x - a[m] else 0
  {
    if n > 0 {
      SumIntUpdate(a, m, x, n - 1);
    }
  }

  lemma {:induction false} SumIntAtMost(a: seq<int>, b: seq<int>, n: nat)
    requires n <= |a| && n <= |b| && forall i :: 0 <= i < n ==> a[i] <= b[i]
    ensures SumInt(a, n) <= SumInt(b, n)
  {
    if n > 0 {
      SumIntAtMost(a, b, n - 1);
    }
  }

  lemma {:induction false} ZerosAddUp(a: seq<int>, n: nat)
    requires n <= |a| && forall i :: 0 <= i < n ==> a[i] == 0
    ensures SumInt(a, n) == 0
  {
    if n > 0 {
      ZerosAddUp(a, n - 1);
    }
  }

  // ---- Sharing a window out among the classes ---------------------------------------------------

  /** How many places hold something. */
  function Held(a: seq<int>, n: nat): nat
    requires n <= |a|
  {
    if n == 0 then 0 else Held(a, n - 1) + if a[n - 1] != 0 then 1 else 0
  }

  lemma {:induction false} HeldUpdate(a: seq<int>, m: nat, n: nat)
    requires m < |a| && n <= |a| && a[m] != 0
    ensures Held(a[m := 0], n) == Held(a, n) - if m < n then 1 else 0
  {
    if n > 0 {
      HeldUpdate(a, m, n - 1);
    }
  }

  lemma {:induction false} HeldNone(a: seq<int>, n: nat)
    requires n <= |a|
    ensures Held(a, n) == 0 <==> forall i :: 0 <= i < n ==> a[i] == 0
  {
    if n > 0 {
      HeldNone(a, n - 1);
    }
  }

  /** The targets are as level as the class frequencies allow: a class short of its frequency is at
      most one below any other. */
  ghost predicate AsLevelAsCanBe(target: seq<int>, freq: seq<int>) {
    && |target| == |freq|
    && forall c, d :: 0 <= c < |freq| && 0 <= d < |freq| && target[c] < freq[c] ==> target[d] <= target[c] + 1
  }

  ghost predicate Targets(target: seq<int>, freq: seq<int>, size: int) {
    && |target| == |freq|
    && (forall c :: 0 <= c < |freq| ==> 0 <= target[c] <= freq[c])
    && SumInt(target, |target|) == (if size < SumInt(freq, |freq|) then size else SumInt(freq, |freq|))
    && AsLevelAsCanBe(target, freq)
  }

  /** A class is either still left or has been given its share. */
  ghost predicate Shared(freq: seq<int>, left: seq<int>, given: seq<int>) {
    && |freq| == |left| == |given|
    && forall c :: 0 <= c < |freq| ==>
         0 <= freq[c] && ((left[c] == freq[c] && given[c] == 0) || (left[c] == 0 && 0 <= given[c] <= freq[c]))
  }

  /** No class was cut short yet, and none got more than those left can get. */
  ghost predicate Uncut(freq: seq<int>, left: seq<int>, given: seq<int>, size: int, k: nat)
    requires Shared(freq, left, given)
  {
    forall c :: 0 <= c < |freq| && left[c] == 0 ==> given[c] == freq[c] && (k > 0 ==> given[c] <= size / k)
  }

  /** Classes are being cut at level q or q + 1. */
  ghost predicate CutAtLevel(freq: seq<int>, left: seq<int>, given: seq<int>, size: int, k: nat, q: nat)
    requires Shared(freq, left, given)
  {
    && Product(q, k) <= size <= Product(q, k) + k
    && forall c :: 0 <= c < |freq| ==>
         (left[c] > 0 ==> left[c] > q) && given[c] <= q + 1 && (left[c] == 0 && given[c] < freq[c] ==> given[c] >= q)
  }

  ghost predicate Sharing(freq: seq<int>, left: seq<int>, given: seq<int>, size: int, k: nat) {
    && Shared(freq, left, given) && size >= 0 && k == Held(left, |left|)
    && (Uncut(freq, left, given, size, k) || exists q: nat :: CutAtLevel(freq, left, given, size, k, q))
  }

  function Product(a: int, b: int): int { a * b }

  lemma QuotientFits(size: int, k: int)
    requires size >= 0 && k > 0
    ensures 0 <= size / k && Product(size / k, k) <= size < Product(size / k, k) + k
  {}

  lemma ProductLess(q: int, k: int)
    ensures Product(q, k) == Product(q, k - 1) + q
  {}

  lemma ProductMonotone(a: int, b: int, k: int)
    requires a <= b && k >= 0
    ensures Product(a, k) <= Product(b, k)
  {}

  lemma ProductNext(q: int, k: int)
    ensures Product(q + 1, k) == Product(q, k) + k
  {}

  lemma QuotientAtLeast(size: int, k: int, q: int)
    requires size >= 0 && k > 0 && Product(q, k) <= size
    ensures q <= size / k
  {
    hide Product;
    QuotientFits(size, k);
    ProductNext(size / k, k);
    if q > size / k {
      ProductMonotone(size / k + 1, q, k);
    }
  }

  lemma QuotientGrows(size: int, k: int, z: int, x: int)
    requires size >= 0 && k > 1 && Product(z, k) <= size && 0 <= x <= z
    ensures size - x >= 0 && z <= (size - x) / (k - 1)
  {
    hide Product;
    ProductLess(z, k);
    ProductMonotone(0, z, k - 1);
    ZeroProduct(k - 1);
    QuotientAtLeast(size - x, k - 1, z);
  }

  lemma UncutStep(freq: seq<int>, left: seq<int>, given: seq<int>, size: int, k: nat, m: nat)
    requires Sharing(freq, left, given, size, k) && Uncut(freq, left, given, size, k)
    requires k > 0 && m < |left| && 0 < left[m] <= size / k
    ensures Sharing(freq, left[m := 0], given[m := left[m]], size - left[m], k - 1)
  {
    hide Product;
    HeldUpdate(left, m, |left|);
    QuotientFits(size, k);
    if k > 1 {
      QuotientGrows(size, k, size / k, left[m]);
    }
    ProductLess(size / k, k);
    ProductMonotone(0, size / k, k - 1);
    assert Product(0, k - 1) == 0 by { ZeroProduct(k - 1); }
    assert Uncut(freq, left[m := 0], given[m := left[m]], size - left[m], k - 1);
  }

  lemma ZeroProduct(k: int)
    ensures Product(0, k) == 0 && Product(k, 0) == 0 && Product(k, 1) == k
  {}

  lemma FirstCut(freq: seq<int>, left: seq<int>, given: seq<int>, size: int, k: nat, m: nat)
    requires Sharing(freq, left, given, size, k) && Uncut(freq, left, given, size, k)
    requires k > 0 && m < |left| && left[m] > size / k
    requires forall c :: 0 <= c < |left| && left[c] > 0 ==> left[c] >= left[m]
    ensures CutAtLevel(freq, left, given, size, k, size / k)
  {
    hide Product;
    QuotientFits(size, k);
  }

  /** z is what each of the classes left gets, if it has that many. */
  lemma CutStep(freq: seq<int>, left: seq<int>, given: seq<int>, size: int, k: nat, q: nat, m: nat, z: int)
    requires Sharing(freq, left, given, size, k) && CutAtLevel(freq, left, given, size, k, q)
    requires m < |left| && left[m] > 0 && k > 0 && Product(z, k) <= size < Product(z, k) + k
    ensures 0 <= z <= left[m]
    ensures Sharing(freq, left[m := 0], given[m := z], size - z, k - 1)
  {
    hide Product;
    HeldUpdate(left, m, |left|);
    ProductNext(q, k);
    ProductNext(q + 1, k);
    ProductNext(z, k);
    ProductLess(q, k);
    if z >= q + 2 {
      ProductMonotone(q + 2, z, k);
    }
    if z < q {
      ProductMonotone(z + 1, q, k);
    }
    ProductMonotone(0, q, k - 1);
    ZeroProduct(k - 1);
    assert CutAtLevel(freq, left[m := 0], given[m := z], size - z, k - 1, q);
  }

  lemma SharingStep(freq: seq<int>, left: seq<int>, given: seq<int>, size: int, k: nat, m: nat, x: int)
    requires Sharing(freq, left, given, size, k) && k > 0 && m < |left| && left[m] > 0
    requires forall c :: 0 <= c < |left| && left[c] > 0 ==> left[c] >= left[m]
    requires x == if left[m] < size / k then left[m] else size / k
    ensures Sharing(freq, left[m := 0], given[m := x], size - x, k - 1)
  {
    hide Product, CutAtLevel;
    QuotientFits(size, k);
    if Uncut(freq, left, given, size, k) {
      if left[m] <= size / k {
        UncutStep(freq, left, given, size, k, m);
      } else {
        FirstCut(freq, left, given, size, k, m);
        CutStep(freq, left, given, size, k, size / k, m, size / k);
      }
    } else {
      var q: nat :| CutAtLevel(freq, left, given, size, k, q);
      CutStep(freq, left, given, size, k, q, m, size / k);
    }
  }

  lemma SharingDone(freq: seq<int>, left: seq<int>, given: seq<int>, rest: int, size: int)
    requires Sharing(freq, left, given, rest, 0) && SumInt(given, |given|) + rest == size
    ensures Targets(given, freq, size)
  {
    HeldNone(left, |left|);
    SumIntAtMost(given, freq, |freq|);
    if Uncut(freq, left, given, rest, 0) {
      assert given == freq;
    } else {
      var q: nat :| CutAtLevel(freq, left, given, rest, 0, q);
      ZeroProduct(q);
    }
  }

  lemma SharingStart(freq: seq<int>, zeros: seq<int>, size: nat)
    requires |zeros| == |freq| && forall c :: 0 <= c < |freq| ==> zeros[c] == 0 && freq[c] >= 0
    ensures Sharing(freq, freq, zeros, size, Held(freq, |freq|)) && SumInt(zeros, |zeros|) == 0
  {
    ZerosAddUp(zeros, |zeros|);
    if Held(freq, |freq|) > 0 {
      QuotientFits(size, Held(freq, |freq|));
    }
    assert Uncut(freq, freq, zeros, size, Held(freq, |freq|));
  }

  // ---- Lemmas on windows ------------------------------------------------------------------------

  /** Class after class, the targeted number of cases of each class in turn. */
  ghost predicate InWindow(cases: seq<Case>, target: seq<int>, c: nat) {
    && c <= |target|
    && forall d, i :: 0 <= d < c && 0 <= i < |cases| && SumInt(target, d) <= i < SumInt(target, d + 1) ==>
        cases[i].cls == d
  }

  lemma {:induction false} SumIntMonotone(a: seq<int>, m: nat, n: nat)
    requires m <= n <= |a| && forall i :: 0 <= i < |a| ==> a[i] >= 0
    ensures 0 <= SumInt(a, m) <= SumInt(a, n)
  {
    if m < n {
      SumIntMonotone(a, m, n - 1);
    } else if n > 0 {
      SumIntMonotone(a, m - 1, n - 1);
    }
  }

  /** The class of each case in a window so laid out lies below the number of classes done. */
  lemma {:induction false} WindowClasses(cases: seq<Case>, target: seq<int>, c: nat, i: nat)
    requires InWindow(cases, target, c) && forall d :: 0 <= d < |target| ==> target[d] >= 0
    requires i < |cases| && i < SumInt(target, c)
    ensures cases[i].cls < c
  {
    if i < SumInt(target, c - 1) {
      WindowClasses(cases, target, c - 1, i);
    }
  }

  lemma {:induction false} CountNone(c: seq<Case>, k: nat)
    requires forall i :: 0 <= i < |c| ==> c[i].cls != k
    ensures CountOf(c, k) == 0
  {
    if c != [] {
      CountNone(c[..|c| - 1], k);
    }
  }

  lemma {:induction false} CountAll(c: seq<Case>, k: nat)
    requires forall i :: 0 <= i < |c| ==> c[i].cls == k
    ensures CountOf(c, k) == |c|
  {
    if c != [] {
      CountAll(c[..|c| - 1], k);
    }
  }

  /** Cases of class c up to a: none; up to start: all; up to i: none. */
  ghost predicate Gathered(cases: seq<Case>, c: nat, a: int, start: int, i: int) {
    && 0 <= a <= start <= i <= |cases|
    && (forall j :: 0 <= j < a ==> cases[j].cls < c)
    && (forall j :: a <= j < start ==> cases[j].cls == c)
    && (forall j :: start <= j < i ==> cases[j].cls != c)
  }

  lemma MoreToFind(cases: seq<Case>, c: nat, a: int, start: int, i: int)
    requires Gathered(cases, c, a, start, i)
    ensures CountOf(cases[i..], c) == CountOf(cases, c) - (start - a)
  {
    CountNone(cases[..a], c);
    CountAll(cases[a..start], c);
    CountNone(cases[start..i], c);
    assert cases == cases[..a] + (cases[a..start] + (cases[start..i] + cases[i..]));
    CountConcat(cases[..a], cases[a..start] + (cases[start..i] + cases[i..]), c);
    CountConcat(cases[a..start], cases[start..i] + cases[i..], c);
    CountConcat(cases[start..i], cases[i..], c);
  }

  lemma MoreToCome(cases: seq<Case>, was: seq<Case>, c: nat, a: int, start: int, i: int, t: int)
    requires Gathered(cases, c, a, start, i) && multiset(cases) == multiset(was)
    requires t <= CountOf(was, c) && start < a + t
    ensures i < |cases|
  {
    MoreToFind(cases, c, a, start, i);
    CountPerm(cases, was, c);
    assert cases[|cases|..] == [];
  }

  lemma CasesSwapped(s: seq<Item>, a: nat, b: nat)
    requires a < |s| && b < |s|
    ensures Cases(Swapped(s, a, b)) == Cases(s)[a := s[b].desc][b := s[a].desc]
    ensures multiset(Cases(Swapped(s, a, b))) == multiset(Cases(s))
  {
    SwapMultiset(Cases(s), a, b);
  }

  lemma GatherStep(cases: seq<Case>, r: seq<Case>, c: nat, a: int, start: int, i: int)
    requires Gathered(cases, c, a, start, i) && i < |cases| && cases[i].cls == c
    requires r == cases[start := cases[i]][i := cases[start]]
    ensures Gathered(r, c, a, start + 1, i + 1)
  {}

  lemma GoodCases(s: seq<Item>, maxClass: nat, maxAttVal: seq<nat>, r: seq<Item>)
    requires AllGood(s, maxClass, maxAttVal) && multiset(Cases(r)) == multiset(Cases(s))
    ensures AllGood(r, maxClass, maxAttVal) && |r| == |s|
  {
    hide Good;
    SameSize(Cases(r), Cases(s));
    forall i | 0 <= i < |r|
      ensures Good(r[i].desc, maxClass, maxAttVal)
    {
      assert Cases(r)[i] in multiset(Cases(r));
      assert r[i].desc in Cases(s);
      var j :| 0 <= j < |s| && Cases(s)[j] == r[i].desc;
    }
  }

  lemma {:induction false} WindowCounts(cases: seq<Case>, target: seq<int>, m: nat, c: nat)
    requires InWindow(cases, target, |target|) && m <= |target| && c < |target|
    requires forall d :: 0 <= d < |target| ==> target[d] >= 0
    requires SumInt(target, |target|) <= |cases|
    ensures 0 <= SumInt(target, m) <= |cases|
    ensures CountOf(cases[..SumInt(target, m)], c) == if c < m then target[c] else 0
  {
    SumIntMonotone(target, m, |target|);
    if m > 0 {
      WindowCounts(cases, target, m - 1, c);
      WindowPart(cases, target, m - 1, c);
    }
  }

  /** The stretch of one class. */
  lemma WindowPart(cases: seq<Case>, target: seq<int>, m: nat, c: nat)
    requires InWindow(cases, target, |target|) && m < |target|
    requires 0 <= SumInt(target, m) <= SumInt(target, m + 1) <= |cases|
    ensures CountOf(cases[..SumInt(target, m + 1)], c)
         == CountOf(cases[..SumInt(target, m)], c) + if c == m then target[m] else 0
  {
    var a, b := SumInt(target, m), SumInt(target, m + 1);
    var part := cases[a..b];
    assert forall i :: 0 <= i < |part| ==> part[i] == cases[a + i] && part[i].cls == m;
    hide InWindow, SumInt;
    assert cases[..b] == cases[..a] + part;
    CountConcat(cases[..a], part, c);
    if c == m {
      CountAll(part, c);
    } else {
      CountNone(part, c);
    }
    assert b - a == target[m] by { SumIntStep(target, m); }
  }

  lemma SumIntStep(a: seq<int>, n: nat)
    requires n < |a|
    ensures SumInt(a, n + 1) == SumInt(a, n) + a[n]
  {}

  /** The initial window holds exactly the targeted number of cases of each class. */
  lemma WindowHoldsTargets(cases: seq<Case>, target: seq<int>, c: nat)
    requires InWindow(cases, target, |target|) && c < |target|
    requires forall d :: 0 <= d < |target| ==> target[d] >= 0
    requires SumInt(target, |target|) <= |cases|
    ensures SumInt(target, |target|) >= 0 && CountOf(cases[..SumInt(target, |target|)], c) == target[c]
  {
    WindowCounts(cases, target, |target|, c);
  }

  // ---- Cycles of window, tree and exceptions ----------------------------------------------------

  /** Class k is the first with the greatest vote: the class the tree assigns to the case. */
  ghost predicate Assigned(t: Tree<real>, c: Case, k: nat, classes: nat) {
    && k < classes
    && (forall j :: 0 <= j < classes ==> Vote(t, c, 1.0, j) <= Vote(t, c, 1.0, k))
    && (forall j :: 0 <= j < k ==> Vote(t, c, 1.0, j) < Vote(t, c, 1.0, k))
  }

  ghost predicate Wrong(t: Tree<real>, c: Case, classes: nat) { !Assigned(t, c, c.cls, classes) }

  ghost function Wrongs(t: Tree<real>, c: seq<Case>, classes: nat): nat {
    if c == [] then 0 else Wrongs(t, c[..|c| - 1], classes) + if Wrong(t, c[|c| - 1], classes) then 1 else 0
  }

  lemma WrongsSnoc(t: Tree<real>, c: seq<Case>, x: Case, classes: nat)
    ensures Wrongs(t, c + [x], classes) == Wrongs(t, c, classes) + if Wrong(t, x, classes) then 1 else 0
  {
    assert (c + [x])[..|c|] == c;
  }

  lemma AssignedOne(t: Tree<real>, c: Case, k: nat, j: nat, classes: nat)
    requires Assigned(t, c, k, classes) && Assigned(t, c, j, classes)
    ensures j == k
  {
    hide Vote;
    var a, b := Vote(t, c, 1.0, j), Vote(t, c, 1.0, k);
    assert a <= b && b <= a;
  }

  /** The conversion of x + 0.5 to a whole number, towards zero. */
  function Rounded(x: real): int { if x + 0.5 >= 0.0 then (x + 0.5).Floor else -(-(x + 0.5)).Floor }

  /** One cycle: the cases in the window and outside it, and the tree formed from the window. */
  datatype Trial = Trial(window: seq<Case>, rest: seq<Case>, tree: Tree<real>)

  ghost function TotalErrors(r: Trial, classes: nat): int { Rounded(r.tree.errors) + Wrongs(r.tree, r.rest, classes) }

  function Growth(exceptions: nat, inc: nat): nat {
    var additions := if exceptions < inc then exceptions else inc;
    if additions > exceptions / 2 then additions else exceptions / 2
  }

  ghost predicate TrialOf(r: Trial, cases: seq<Case>, classes: nat) {
    && multiset(r.window + r.rest) == multiset(cases)
    && FormedFrom(r.tree, Units(r.window), classes) && Balanced(r.tree, classes)
  }

  /** The next window holds the cases of this one, and a number of cases this tree gets wrong. */
  ghost predicate Follows(r: Trial, next: Trial, inc: nat, classes: nat) {
    && Wrongs(r.tree, r.rest, classes) > 0
    && |next.window| == |r.window| + Growth(Wrongs(r.tree, r.rest, classes), inc)
    && multiset(next.window[..|r.window|]) == multiset(r.window)
    && forall x :: x in next.window[|r.window|..] ==> Wrong(r.tree, x, classes)
  }

  /** MINOBJS before trial k. */
  ghost function MinimumBefore(trials: seq<Trial>, k: nat, p: Plan, m: nat): nat
    requires k <= |trials|
  {
    if k == 0 then m
    else MinimumAfter(trials[k - 1].tree, Units(trials[k - 1].window), p, MinimumBefore(trials, k - 1, p, m))
  }

  /** Every node of every tree branches on the first of the best attributes for the items of the window
      that reach it. */
  ghost predicate GreedyTrials(trials: seq<Trial>, p: Plan, tested: seq<nat>, m: nat) {
    forall k :: 0 <= k < |trials| ==>
      Greedy(trials[k].tree, Units(trials[k].window), p, tested, MinimumBefore(trials, k, p, m))
  }

  lemma NoGreedyTrials(p: Plan, tested: seq<nat>, m: nat)
    ensures GreedyTrials([], p, tested, m) && MinimumBefore([], 0, p, m) == m
  {}

  lemma {:induction false} MinimumBeforeSame(trials: seq<Trial>, x: Trial, k: nat, p: Plan, m: nat)
    requires k <= |trials|
    ensures MinimumBefore(trials + [x], k, p, m) == MinimumBefore(trials, k, p, m)
  {
    hide MinimumAfter;
    if k > 0 {
      MinimumBeforeSame(trials, x, k - 1, p, m);
    }
  }

  lemma GreedyTrialsStep(trials: seq<Trial>, x: Trial, p: Plan, tested: seq<nat>, m: nat)
    requires GreedyTrials(trials, p, tested, m)
    requires Greedy(x.tree, Units(x.window), p, tested, MinimumBefore(trials, |trials|, p, m))
    ensures GreedyTrials(trials + [x], p, tested, m)
    ensures MinimumBefore(trials + [x], |trials| + 1, p, m)
         == MinimumAfter(x.tree, Units(x.window), p, MinimumBefore(trials, |trials|, p, m))
  {
    hide Greedy, MinimumAfter;
    forall k | 0 <= k <= |trials|
      ensures MinimumBefore(trials + [x], k, p, m) == MinimumBefore(trials, k, p, m)
    {
      MinimumBeforeSame(trials, x, k, p, m);
    }
  }

  ghost predicate Cycles(r: seq<Trial>, cases: seq<Case>, inc: nat, classes: nat) {
    && (forall i :: 0 <= i < |r| ==> TrialOf(r[i], cases, classes))
    && (forall i, j :: 0 <= i < |r| && j == i + 1 && j < |r| ==> Follows(r[i], r[j], inc, classes))
  }

  /** The first trial with the fewest errors. */
  ghost predicate FewestErrors(r: seq<Trial>, best: nat, classes: nat) {
    && best < |r|
    && (forall i :: 0 <= i < |r| ==> TotalErrors(r[best], classes) <= TotalErrors(r[i], classes))
    && (forall i :: 0 <= i < best ==> TotalErrors(r[best], classes) < TotalErrors(r[i], classes))
  }

  /** The first w cases are as before, then come e cases the tree gets wrong, then, up to i, cases it
      gets right. */
  ghost predicate Sifted(was: seq<Case>, cases: seq<Case>, t: Tree<real>, w: nat, e: nat, i: nat, classes: nat) {
    && |was| == |cases| && w + e <= i <= |cases| && multiset(cases) == multiset(was)
    && cases[..w] == was[..w] && cases[i..] == was[i..]
    && (forall j :: w <= j < w + e ==> Wrong(t, cases[j], classes))
    && (forall j :: w + e <= j < i ==> !Wrong(t, cases[j], classes))
    && Wrongs(t, was[w..i], classes) == e
  }

  lemma SiftNone(cases: seq<Case>, t: Tree<real>, w: nat, classes: nat)
    requires w <= |cases|
    ensures Sifted(cases, cases, t, w, 0, w, classes)
  {}

  lemma SiftWrong(was: seq<Case>, cases: seq<Case>, r: seq<Case>, t: Tree<real>, w: nat, e: nat, i: nat, classes: nat)
    requires Sifted(was, cases, t, w, e, i, classes) && i < |cases| && Wrong(t, cases[i], classes)
    requires r == cases[w + e := cases[i]][i := cases[w + e]]
    ensures Sifted(was, r, t, w, e + 1, i + 1, classes)
  {
    hide Wrong, Wrongs;
    var p := w + e;
    SwapMultiset(cases, p, i);
    SwapTails(cases, r, p, i);
    SameTail(was, cases, i);
    assert was[w..i + 1] == was[w..i] + [was[i]];
    WrongsSnoc(t, was[w..i], was[i], classes);
    assert r[..w] == r[..p][..w] && cases[..w] == cases[..p][..w];
  }

  lemma SwapTails(cases: seq<Case>, r: seq<Case>, p: nat, i: nat)
    requires p <= i < |cases| && r == cases[p := cases[i]][i := cases[p]]
    ensures r[..p] == cases[..p] && r[i + 1..] == cases[i + 1..]
  {}

  lemma SameTail(a: seq<Case>, b: seq<Case>, i: nat)
    requires i < |a| == |b| && a[i..] == b[i..]
    ensures a[i] == b[i] && a[i + 1..] == b[i + 1..]
  {
    assert a[i] == a[i..][0] && b[i] == b[i..][0];
    assert a[i + 1..] == a[i..][1..] && b[i + 1..] == b[i..][1..];
  }

  lemma SiftRight(was: seq<Case>, cases: seq<Case>, t: Tree<real>, w: nat, e: nat, i: nat, classes: nat)
    requires Sifted(was, cases, t, w, e, i, classes) && i < |cases| && !Wrong(t, cases[i], classes)
    ensures Sifted(was, cases, t, w, e, i + 1, classes)
  {
    hide Wrong, Wrongs;
    SameTail(was, cases, i);
    assert was[w..i + 1] == was[w..i] + [was[i]];
    WrongsSnoc(t, was[w..i], was[i], classes);
  }

  class Trials {
    const b: Builder
    const target: array<int>

    constructor (b: Builder)
      requires b.Valid() && AllGood(b.s, b.maxClass, b.maxAttVal)
      ensures this.b == b && fresh(target) && Ready()
    {
      this.b := b;
      target := new int[b.maxClass + 1](_ => 0);
    }

    ghost predicate Ready()
      reads b, b.item, b.weight
    {
      b.Valid() && target.Length == b.maxClass + 1 && AllGood(b.s, b.maxClass, b.maxAttVal)
    }

    /** How many items there are of each class. */
    method ClassFrequencies() returns (freq: array<int>)
      requires Ready()
      ensures fresh(freq) && freq[..] == Counts(Cases(b.s), b.maxClass + 1)
    {
      hide NonNegativeLog;
      freq := new int[b.maxClass + 1](_ => 0);
      ghost var cases := Cases(b.s);
      assert freq[..] == Counts(cases[..0], b.maxClass + 1);
      var i := 0;
      while i < b.item.Length
        invariant 0 <= i <= |cases| && freq[..] == Counts(cases[..i], b.maxClass + 1)
      {
        var c := b.item[i].cls;
        assert b.item[i] == cases[i] && Good(b.s[i].desc, b.maxClass, b.maxAttVal);
        CountsStep(cases, i, b.maxClass + 1);
        freq[c] := freq[c] + 1;
        i := i + 1;
      }
      assert cases[..i] == cases;
    }

    static method Least(left: array<int>) returns (m: int)
      requires forall c :: 0 <= c < left.Length ==> left[c] >= 0
      ensures -1 <= m < left.Length
      ensures m == -1 ==> forall c :: 0 <= c < left.Length ==> left[c] == 0
      ensures m >= 0 ==> left[m] > 0 && forall c :: 0 <= c < left.Length && left[c] > 0 ==> left[c] >= left[m]
    {
      m := -1;
      var c := 0;
      while c < left.Length
        invariant 0 <= c <= left.Length && -1 <= m < c
        invariant m == -1 ==> forall d :: 0 <= d < c ==> left[d] == 0
        invariant m >= 0 ==> left[m] > 0 && forall d :: 0 <= d < c && left[d] > 0 ==> left[d] >= left[m]
      {
        if left[c] != 0 && (m < 0 || left[c] < left[m]) {
          m := c;
        }
        c := c + 1;
      }
    }

    /** The number of classes of which there are items; the others get no target. */
    method CountHeld(left: array<int>) returns (n: nat)
      requires left.Length == target.Length && left != target
      modifies target
      ensures n == Held(left[..], left.Length)
      ensures forall c :: 0 <= c < left.Length && left[c] == 0 ==> target[c] == 0
    {
      n := 0;
      var c := 0;
      while c < left.Length
        invariant 0 <= c <= left.Length && n == Held(left[..], c) && left[..] == old(left[..])
        invariant forall d :: 0 <= d < c && left[d] == 0 ==> target[d] == 0
      {
        if left[c] != 0 {
          n := n + 1;
        } else {
          target[c] := 0;
        }
        c := c + 1;
      }
    }

    /** The targets add up to the window, or to all items when the window is no smaller, never exceed
        a class, and are as level as they can be. */
    method FormTarget(window: nat)
      requires Ready()
      modifies target
      ensures Targets(target[..], Counts(Cases(b.s), b.maxClass + 1), window)
    {
      hide NonNegativeLog, Sharing, Targets, Builder.Tied;
      var left := ClassFrequencies();
      ghost var freq, given := left[..], seq(left.Length, _ => 0);
      SharingStart(freq, given, window);
      var classesLeft := CountHeld(left);
      var size := window;
      SharingFacts(freq, freq, given, size, classesLeft);
      while classesLeft > 0
        invariant classesLeft >= 0 && size >= 0 && |given| == left.Length
        invariant Sharing(freq, left[..], given, size, classesLeft) && SumInt(given, |given|) + size == window
        invariant forall d :: 0 <= d < left.Length && left[d] == 0 ==> target[d] == given[d]
      {
        ghost var m;
        size, m := Allot(left, freq, given, size, classesLeft);
        SumIntUpdate(given, m, target[m], |given|);
        given := given[m := target[m]];
        classesLeft := classesLeft - 1;
      }
      SharingFacts(freq, left[..], given, size, 0);
      assert forall d :: 0 <= d < left.Length ==> left[..][d] == left[d];
      HeldNone(left[..], left.Length);
      assert target[..] == given;
      SharingDone(freq, left[..], given, size, window);
    }

    /** Gives the least common class its share of the rest of the window. */
    method Allot(left: array<int>, ghost freq: seq<int>, ghost given: seq<int>, size: nat, classesLeft: nat)
      returns (rest: int, ghost m: nat)
      requires left.Length == target.Length && left != target && classesLeft > 0
      requires Sharing(freq, left[..], given, size, classesLeft)
      modifies left, target
      ensures m < left.Length && left[..] == old(left[..])[m := 0] && target[..] == old(target[..])[m := target[m]]
      ensures |given| == left.Length && given[m] == 0 && rest == size - target[m] && rest >= 0
      ensures Sharing(freq, left[..], given[m := target[m]], rest, classesLeft - 1)
    {
      hide Sharing;
      SharingFacts(freq, left[..], given, size, classesLeft);
      assert forall d :: 0 <= d < left.Length ==> left[..][d] == left[d];
      var least := Least(left);
      m := least;
      var even := size / classesLeft;
      target[least] := if left[least] < even then left[least] else even;
      SharingStep(freq, left[..], given, size, classesLeft, m, target[m]);
      left[least] := 0;
      rest := size - target[least];
      SharingFacts(freq, left[..], given[m := target[m]], rest, classesLeft - 1);
    }

    /** Exchanges two items, but not their weights. */
    method Exchange(i: nat, j: nat)
      requires b.Valid() && i < |b.s| && j < |b.s|
      modifies b.item, b`s
      ensures b.Valid() && Cases(b.s) == Cases(old(b.s))[i := old(b.s)[j].desc][j := old(b.s)[i].desc]
    {
      hide NonNegativeLog;
      ghost var was := b.item[..];
      var hold := b.item[i];
      b.item[i] := b.item[j];
      b.item[j] := hold;
      SwapKeepsCases(was, b.item[..], i, j);
      b.s := b.s[i := Item(b.item[i], b.s[i].weight)][j := Item(b.item[j], b.s[j].weight)];
    }

    /** Puts the items in any order; their weights stay where they are. */
    method Shuffle()
      requires Ready()
      modifies b.item, b`s
      ensures Ready() && multiset(Cases(b.s)) == multiset(Cases(old(b.s)))
    {
      hide NonNegativeLog, AllGood, Builder.Tied, Builder.Valid;
      Lengths();
      ghost var cases := Cases(b.s);
      var first := 0;
      while first < b.item.Length
        invariant 0 <= first <= b.item.Length == |b.s|
        invariant b.Valid() && multiset(Cases(b.s)) == multiset(cases)
      {
        var alt: nat :| first <= alt < b.item.Length;
        SwapMultiset(Cases(b.s), first, alt);
        Exchange(first, alt);
        first := first + 1;
      }
      GoodCases(old(b.s), b.maxClass, b.maxAttVal, b.s);
    }

    lemma Lengths()
      requires b.Valid()
      ensures b.item.Length == |b.s|
    {}

    /** The targeted number of items of each class come first; what follows is the rest. */
    method FormInitialWindow()
      requires Ready()
      requires forall c :: 0 <= c < target.Length ==> 0 <= target[c] <= CountOf(Cases(b.s), c)
      modifies b.item, b.weight, b`s
      ensures Ready() && multiset(Cases(b.s)) == multiset(Cases(old(b.s)))
      ensures InWindow(Cases(b.s), target[..], target.Length)
      ensures SumInt(target[..], target.Length) <= |b.s|
    {
      hide NonNegativeLog, AllGood, Gathered, InWindow, Builder.Tied;
      ghost var cases := Cases(b.s);
      Shuffle();
      var start, c := 0, 0;
      NoWindow(Cases(b.s), target[..]);
      while c <= b.maxClass
        invariant 0 <= c <= b.maxClass + 1 && 0 <= start == SumInt(target[..], c) <= |b.s|
        invariant Ready() && multiset(Cases(b.s)) == multiset(cases)
        invariant InWindow(Cases(b.s), target[..], c)
      {
        start := PlaceClass(c, start, cases);
        c := c + 1;
      }
    }

    method PlaceClass(c: nat, start0: nat, ghost cases: seq<Case>) returns (start: nat)
      requires Ready() && c < target.Length && multiset(Cases(b.s)) == multiset(cases)
      requires forall c :: 0 <= c < target.Length ==> 0 <= target[c] <= CountOf(cases, c)
      requires start0 == SumInt(target[..], c) <= |b.s| && InWindow(Cases(b.s), target[..], c)
      modifies b.item, b.weight, b`s
      ensures Ready() && multiset(Cases(b.s)) == multiset(cases)
      ensures start == SumInt(target[..], c + 1) <= |b.s| && InWindow(Cases(b.s), target[..], c + 1)
    {
      hide NonNegativeLog, AllGood, Gathered, InWindow, Builder.Tied, Builder.Valid;
      ghost var s0 := b.s;
      assert forall d :: 0 <= d < target.Length ==> target[..][d] == target[d];
      GatherNone(Cases(b.s), target[..], c);
      start := start0;
      var more := target[c];
      var i := start;
      while more > 0
        invariant more >= 0 && 0 <= start0 <= start == start0 + target[c] - more && start <= i <= |b.s| == |s0|
        invariant Ready() && multiset(Cases(b.s)) == multiset(cases)
        invariant Gathered(Cases(b.s), c, start0, start, i) && Cases(b.s)[..start0] == Cases(s0)[..start0]
        decreases |b.s| - i
      {
        MoreToCome(Cases(b.s), cases, c, start0, start, i, target[c]);
        var placed := PlaceItem(c, start0, start, i);
        if placed {
          start := start + 1;
          more := more - 1;
        }
        i := i + 1;
      }
      GatheredBounds(Cases(b.s), c, start0, start, i);
      WindowStep(Cases(s0), Cases(b.s), target[..], c, start0, start, i);
    }

    method PlaceItem(c: nat, ghost start0: nat, start: nat, i: nat) returns (placed: bool)
      requires Ready() && i < |b.s| && start0 <= start <= i && Gathered(Cases(b.s), c, start0, start, i)
      modifies b.item, b.weight, b`s
      ensures Ready() && multiset(Cases(b.s)) == multiset(Cases(old(b.s))) && |b.s| == |old(b.s)|
      ensures Gathered(Cases(b.s), c, start0, if placed then start + 1 else start, i + 1)
      ensures Cases(b.s)[..start0] == Cases(old(b.s))[..start0]
    {
      hide NonNegativeLog, AllGood, Gathered, Builder.Tied, Builder.Valid;
      ghost var was := b.s;
      AtItem(i);
      placed := b.item[i].cls == c;
      if placed {
        CasesSwapped(was, start, i);
        b.Swap(start, i);
        GatherStep(Cases(was), Cases(b.s), c, start0, start, i);
        GoodCases(was, b.maxClass, b.maxAttVal, b.s);
      } else {
        GatherSkip(Cases(was), c, start0, start, i);
      }
    }

    /** A tree from the first w items, all with weight 1. */
    method WindowTree(w: nat) returns (r: Option<Tree<real>>)
      requires Ready() && w <= |b.s|
      modifies b, b.item, b.weight
      ensures b.NeverOverruns() ==> r.Some?
      ensures AllKnown(Cases(old(b.s)), b.plan.kinds) ==> r.Some?
      ensures r.Some? ==> Ready() && |b.s| == |old(b.s)|
      ensures r.Some? ==>
                FormedFrom(r.value, Units(Cases(old(b.s))[..w]), b.maxClass + 1) && Balanced(r.value, b.maxClass + 1)
      ensures r.Some? ==> Greedy(r.value, Units(Cases(old(b.s))[..w]), b.plan, old(b.tested), old(b.minObjs))
      ensures r.Some? ==> b.tested == old(b.tested)
                          && b.minObjs == MinimumAfter(r.value, Units(Cases(old(b.s))[..w]), b.plan, old(b.minObjs))
      ensures r.None? ==> CanFail(Units(Cases(old(b.s))[..w]), b.plan, old(b.tested), old(b.minObjs))
      ensures r.Some? && AllKnown(Cases(old(b.s)), OnlyGrouped(b.plan.kinds)) ==> b.minObjs == old(b.minObjs)
      ensures r.Some? ==> Grown(r.value, b.maxClass + 1, b.minObjs as real)
      ensures r.Some? ==>
                multiset(Cases(b.s)[..w]) == multiset(Cases(old(b.s))[..w]) && Cases(b.s)[w..] == Cases(old(b.s))[w..]
    {
      hide NonNegativeLog, AllGood, SoundItems, AllOnes, FormedFrom, FormedIn, Balanced, Grown, Builder.Tied, Perm,
        Load, Distribution, AllKnown, Complete, Greedy, CanFail, MinimumAfter, Stops, LostBelow, BlankBelow,
        OnlyGrouped, Builder.Planned;
      ghost var s0 := b.s;
      b.InitialiseWeights();
      ghost var s1 := b.s;
      assert s1 == Units(Cases(s0));
      UnitsSound(s0, w, b.maxClass, b.maxAttVal);
      UnitsKnown(s0, w, b.plan.kinds);
      UnitsKnown(s0, w, OnlyGrouped(b.plan.kinds));
      b.allKnown := true;
      UnitsStretch(s0, w);
      r := b.FormTree(0, w - 1);
      if r.Some? {
        GrownIsBalanced(r.value, b.maxClass + 1, b.minObjs as real);
        FormedStretch(r.value, s1, w, b.maxClass + 1);
        PermOfCases(s1, b.s, w);
        GoodCases(s0, b.maxClass, b.maxAttVal, b.s);
      }
    }

    /** Moves the items outside the window that the tree gets wrong to immediately after it, and
        returns how many there are. */
    method MoveExceptions(t: Tree<real>, w: nat) returns (exceptions: nat)
      requires Ready() && w <= |b.s| && Balanced(t, b.maxClass + 1)
      modifies b.item, b.weight, b`s
      ensures Ready() && Sifted(Cases(old(b.s)), Cases(b.s), t, w, exceptions, |b.s|, b.maxClass + 1)
      ensures |b.s| == |old(b.s)|
    {
      hide NonNegativeLog, AllGood, Builder.Tied, Builder.Valid, Sifted, Assigned, Balanced;
      ghost var cases, classes := Cases(b.s), b.maxClass + 1;
      Lengths();
      exceptions := w;
      var i := w;
      SiftNone(cases, t, w, classes);
      while i < b.item.Length
        invariant w <= exceptions <= i <= b.item.Length == |b.s| == |cases| && Ready()
        invariant Sifted(cases, Cases(b.s), t, w, exceptions - w, i, classes)
      {
        var wrong := Sift(t, w, exceptions, i, cases);
        if wrong {
          exceptions := exceptions + 1;
        }
        i := i + 1;
      }
      exceptions := exceptions - w;
    }

    method Sift(t: Tree<real>, ghost w: nat, exceptions: nat, i: nat, ghost cases: seq<Case>) returns (wrong: bool)
      requires Ready() && w <= exceptions <= i < |b.s| && Balanced(t, b.maxClass + 1)
      requires Sifted(cases, Cases(b.s), t, w, exceptions - w, i, b.maxClass + 1)
      modifies b.item, b.weight, b`s
      ensures Ready() && |b.s| == |old(b.s)|
      ensures Sifted(cases, Cases(b.s), t, w, if wrong then exceptions + 1 - w
              else exceptions - w, i + 1, b.maxClass + 1)
    {
      hide NonNegativeLog, AllGood, Builder.Tied, Builder.Valid, Sifted, Balanced, Wrongs;
      ghost var was, classes := b.s, b.maxClass + 1;
      AtItem(i);
      var found := Classify.Category(b.item[i], t, b.maxClass + 1);
      wrong := found != b.item[i].cls;
      AssignedIs(t, was[i].desc, found, classes);
      hide Assigned;
      if wrong {
        CasesSwapped(was, exceptions, i);
        b.Swap(exceptions, i);
        SiftWrong(cases, Cases(was), Cases(b.s), t, w, exceptions - w, i, classes);
        GoodCases(was, b.maxClass, b.maxAttVal, b.s);
      } else {
        SiftRight(cases, Cases(was), t, w, exceptions - w, i, classes);
      }
    }

    /** One cycle: a tree from the window, and the exceptions to it moved next to the window. */
    method Cycle(w: nat, ghost inc: nat, ghost cases: seq<Case>)
      returns (r: Option<Tree<real>>, exceptions: nat, ghost trial: Trial)
      requires Ready() && w <= |b.s| && inc >= 1 && multiset(Cases(b.s)) == multiset(cases)
      modifies b, b.item, b.weight
      ensures b.NeverOverruns() ==> r.Some?
      ensures AllKnown(cases, b.plan.kinds) ==> r.Some?
      ensures r.Some? && AllKnown(cases, OnlyGrouped(b.plan.kinds)) ==> b.minObjs == old(b.minObjs)
      ensures r.Some? ==> Grown(r.value, b.maxClass + 1, b.minObjs as real)
      ensures r.Some? ==> Ready() && |b.s| == |old(b.s)| && multiset(Cases(b.s)) == multiset(cases)
      ensures r.Some? ==> trial == Trial(Cases(old(b.s))[..w], Cases(old(b.s))[w..], r.value)
      ensures r.Some? ==> TrialOf(trial, cases, b.maxClass + 1)
      ensures r.Some? ==> Greedy(r.value, Units(trial.window), b.plan, old(b.tested), old(b.minObjs))
      ensures r.Some? ==> b.tested == old(b.tested)
                          && b.minObjs == MinimumAfter(r.value, Units(trial.window), b.plan, old(b.minObjs))
      ensures r.Some? ==> exceptions == Wrongs(trial.tree, trial.rest, b.maxClass + 1) && w + exceptions <= |b.s|
      ensures r.Some? && exceptions > 0 ==> w < w + Growth(exceptions, inc) <= w + exceptions
      ensures r.Some? && exceptions > 0 ==> Widened(trial, Cases(b.s), w + Growth(exceptions, inc), inc, b.maxClass + 1)
    {
      hide NonNegativeLog, AllGood, Builder.Tied, Builder.Valid, Sifted, TrialOf, Widened, Wrongs, FormedFrom, Balanced,
        AllKnown, Grown, OnlyGrouped, Greedy, CanFail, MinimumAfter;
      ghost var was := Cases(b.s);
      KnownPerm(was, cases, b.plan.kinds);
      KnownPerm(was, cases, OnlyGrouped(b.plan.kinds));
      r := WindowTree(w);
      exceptions, trial := 0, Trial(was[..w], was[w..], Tree(0, 0, 0.0, 0.0, [], 0, 0, 0.0, 0.0, 0.0, [], []));
      if r.Some? {
        trial := Trial(was[..w], was[w..], r.value);
        ghost var formed := Cases(b.s);
        exceptions := MoveExceptions(r.value, w);
        TrialStep(was, formed, Cases(b.s), cases, trial, exceptions, inc, b.maxClass + 1);
      }
    }

    /** Grows trees from ever larger windows until one gets every item outside its window right, and
        returns the first with the fewest errors. There is no tree when forming one runs over, nor when
        the window is larger than the number of items. */
    method Iterate(window0: nat, inc: nat) returns (best: Option<Tree<real>>, ghost trials: seq<Trial>, ghost pick: nat)
      requires Ready() && inc >= 1
      modifies b, b.item, b.weight
      ensures window0 > |old(b.s)| ==> best.None?
      ensures window0 <= |old(b.s)| && (b.NeverOverruns() || AllKnown(Cases(old(b.s)), b.plan.kinds)) ==> best.Some?
      ensures best.Some? && AllKnown(Cases(old(b.s)), OnlyGrouped(b.plan.kinds)) ==>
                b.minObjs == old(b.minObjs) && Grown(best.value, b.maxClass + 1, b.minObjs as real)
      ensures best.Some? ==> Ready() && multiset(Cases(b.s)) == multiset(Cases(old(b.s)))
      ensures best.Some? ==> Cycles(trials, Cases(old(b.s)), inc, b.maxClass + 1)
      ensures best.Some? ==> GreedyTrials(trials, b.plan, old(b.tested), old(b.minObjs))
      ensures best.Some? ==> FewestErrors(trials, pick, b.maxClass + 1) && best.value == trials[pick].tree
      ensures best.Some? ==> |trials[0].window| == window0
      ensures best.Some? ==> Wrongs(trials[|trials| - 1].tree, trials[|trials| - 1].rest, b.maxClass + 1) == 0
    {
      hide NonNegativeLog, AllGood, Builder.Tied, Builder.Valid, Widened, Cycles, TrialOf, FewestErrors, Wrongs,
        AllKnown, Grown, OnlyGrouped, Greedy, MinimumAfter, GreedyTrials, MinimumBefore;
      ghost var cases, classes := Cases(b.s), b.maxClass + 1;
      var window, bestTotal, exceptions := window0, b.item.Length, 1;
      best, trials, pick := None, [], 0;
      Lengths();
      if window > b.item.Length {
        return;
      }
      NoCycles(cases, inc, classes);
      NoGreedyTrials(b.plan, b.tested, b.minObjs);
      while exceptions > 0
        invariant window <= |b.s| == |cases| && Ready() && multiset(Cases(b.s)) == multiset(cases)
        invariant trials == [] <==> best.None?
        invariant AllKnown(cases, OnlyGrouped(b.plan.kinds)) ==> b.minObjs == old(b.minObjs)
        invariant AllKnown(cases, OnlyGrouped(b.plan.kinds)) && trials != [] ==>
                    Grown(best.value, classes, old(b.minObjs) as real)
        invariant trials == [] ==> window == window0 && exceptions > 0
        invariant Cycles(trials, cases, inc, classes)
        invariant GreedyTrials(trials, b.plan, old(b.tested), old(b.minObjs)) && b.tested == old(b.tested)
        invariant b.minObjs == MinimumBefore(trials, |trials|, b.plan, old(b.minObjs))
        invariant trials != [] ==> |trials[0].window| == window0
        invariant trials != [] ==>
                    pick < |trials| && FewestErrors(trials, pick, classes) && best.value == trials[pick].tree
        invariant trials != [] ==> bestTotal == TotalErrors(trials[pick], classes)
        invariant trials != [] ==> exceptions == Wrongs(trials[|trials| - 1].tree, trials[|trials| - 1].rest, classes)
        invariant trials != [] && exceptions > 0 ==> Widened(trials[|trials| - 1], Cases(b.s), window, inc, classes)
        decreases |cases| - window, exceptions
      {
        ghost var was, before := Cases(b.s), trials;
        var r, found, trial := Cycle(window, inc, cases);
        if r.None? {
          return None, trials, pick;
        }
        exceptions := found;
        var errors := Rounded(r.value.errors);
        var totalErrors := errors + exceptions;
        GreedyTrialsStep(trials, trial, b.plan, old(b.tested), old(b.minObjs));
        CyclesStep(trials, trial, was, cases, window, inc, classes);
        FewestStep(trials, pick, trial, classes);
        trials := trials + [trial];
        assert before != [] ==> trials[pick] == before[pick];
        if best.None? || totalErrors < bestTotal {
          best := r;
          bestTotal := totalErrors;
          pick := |trials| - 1;
        }
        var additions := if exceptions < inc then exceptions else inc;
        var larger := window + if additions > exceptions / 2 then additions else exceptions / 2;
        window := if larger < b.item.Length then larger else b.item.Length;
      }
    }

    /** A single tree from all items: over them all, each class gets exactly as many votes as there
        are items of that class. */
    method OneTree() returns (r: Option<Tree<real>>)
      requires Ready()
      modifies b, b.item, b.weight
      ensures b.NeverOverruns() || AllKnown(Cases(old(b.s)), b.plan.kinds) ==> r.Some?
      ensures r.Some? && AllKnown(Cases(old(b.s)), OnlyGrouped(b.plan.kinds)) ==>
                b.minObjs == old(b.minObjs) && Grown(r.value, b.maxClass + 1, b.minObjs as real)
      ensures r.Some? ==> multiset(Cases(b.s)) == multiset(Cases(old(b.s)))
      ensures r.Some? ==> Greedy(r.value, Units(Cases(old(b.s))), b.plan, old(b.tested), old(b.minObjs))
      ensures r.Some? ==> forall k :: 0 <= k < b.maxClass + 1 ==>
                VoteSum(r.value, Units(Cases(old(b.s))), k) == CountOf(Cases(old(b.s)), k) as real
    {
      hide NonNegativeLog, AllGood, Builder.Tied, Builder.Valid, FormedFrom, Balanced, VoteSum, AllKnown, Grown,
        OnlyGrouped, Greedy, CanFail, MinimumAfter;
      ghost var cases := Cases(b.s);
      assert cases[..|cases|] == cases;
      Lengths();
      r := WindowTree(b.item.Length);
      if r.Some? {
        assert Cases(b.s)[..|cases|] == Cases(b.s);
        forall k | 0 <= k < b.maxClass + 1
          ensures VoteSum(r.value, Units(cases), k) == CountOf(cases, k) as real
        {
          WindowVotes(r.value, cases, b.maxClass + 1, k);
        }
      }
    }

    lemma AtItem(i: nat)
      requires b.Valid() && i < |b.s|
      ensures i < b.item.Length && b.item[i] == b.s[i].desc == Cases(b.s)[i]
    {}
  }

  lemma UnitsSound(s: seq<Item>, w: nat, maxClass: nat, maxAttVal: seq<nat>)
    requires AllGood(s, maxClass, maxAttVal) && w <= |s|
    ensures SoundItems(Units(Cases(s)), 0, w, maxClass, maxAttVal) && AllOnes(Units(Cases(s)), 0, w)
  {
    hide Good;
    forall i | 0 <= i < |s|
      ensures Good(Units(Cases(s))[i].desc, maxClass, maxAttVal)
    {
      assert Units(Cases(s))[i].desc == s[i].desc;
    }
  }

  /** The cases have no unknown values of the attributes, ignored ones apart. */
  ghost predicate AllKnown(c: seq<Case>, kinds: seq<int>)
  {
    forall x, a :: x in c && 0 <= a < |kinds| ==> KnownAt(x, a, kinds[a])
  }

  lemma UnitsKnown(s: seq<Item>, w: nat, kinds: seq<int>)
    requires w <= |s|
    ensures AllKnown(Cases(s), kinds) ==> Complete(Units(Cases(s)), 0, w, kinds)
  {
    if AllKnown(Cases(s), kinds) {
      forall i, a | 0 <= i < w && 0 <= a < |kinds|
        ensures KnownAt(Units(Cases(s))[i].desc, a, kinds[a])
      {
        assert Cases(s)[i] in Cases(s);
      }
    }
  }

  lemma KnownPerm(c: seq<Case>, d: seq<Case>, kinds: seq<int>)
    requires multiset(c) == multiset(d)
    ensures AllKnown(c, kinds) <==> AllKnown(d, kinds)
  {
    forall x
      ensures x in c <==> x in d
    {
      assert x in multiset(c) <==> x in multiset(d);
    }
  }

  lemma UnitsStretch(s: seq<Item>, w: nat)
    requires w <= |s|
    ensures Units(Cases(s))[0..w] == Units(Cases(s)[..w]) && Cases(Units(Cases(s))) == Cases(s)
  {}

  lemma FormedStretch(t: Tree<real>, s: seq<Item>, w: nat, n: nat)
    requires FormedIn(t, s, 0, w, n)
    ensures w <= |s| && FormedFrom(t, s[0..w], n)
  {}

  lemma PermOfCases(s: seq<Item>, r: seq<Item>, w: nat)
    requires Perm(s, r, 0, w)
    ensures |r| == |s| && w <= |s|
    ensures multiset(Cases(r)[..w]) == multiset(Cases(s)[..w]) && Cases(r)[w..] == Cases(s)[w..]
    ensures multiset(Cases(r)) == multiset(Cases(s))
  {
    CasesPerm(s[0..w], r[0..w]);
    assert Cases(s)[..w] == Cases(s[0..w]) && Cases(r)[..w] == Cases(r[0..w]);
    forall i | w <= i < |s|
      ensures s[i] == r[i]
    {
      assert s[i] == s[w..][i - w] && r[i] == r[w..][i - w];
    }
    assert Cases(r)[w..] == Cases(s)[w..];
    assert Cases(r) == Cases(r)[..w] + Cases(r)[w..] && Cases(s) == Cases(s)[..w] + Cases(s)[w..];
  }

  lemma CasesCut(b: seq<Item>, i: nat)
    requires i < |b|
    ensures multiset(Cases(b)) == multiset(Cases(b[..i] + b[i + 1..])) + multiset{b[i].desc}
  {
    var m := Cases(b[..i] + b[i + 1..]);
    assert Cases(b) == m[..i] + [b[i].desc] + m[i..];
    assert m == m[..i] + m[i..];
  }

  lemma {:induction false} CasesPerm(a: seq<Item>, b: seq<Item>)
    requires multiset(a) == multiset(b)
    ensures multiset(Cases(a)) == multiset(Cases(b))
    decreases |a|
  {
    SameSize(a, b);
    if a == [] {
      assert Cases(a) == Cases(b);
    } else {
      MultisetLast(a);
      var x := a[|a| - 1];
      assert x in b;
      var i :| 0 <= i < |b| && b[i] == x;
      MultisetWithout(b, i);
      CasesPerm(a[..|a| - 1], b[..i] + b[i + 1..]);
      assert Cases(a) == Cases(a[..|a| - 1]) + [x.desc];
      CasesCut(b, i);
    }
  }

  /** The cases are those of the trial rearranged, ready to start the next trial with window w. */
  ghost predicate Widened(r: Trial, cases: seq<Case>, w: nat, inc: nat, classes: nat) {
    && w <= |cases| && multiset(r.window + r.rest) == multiset(cases)
    && forall t :: Follows(r, Trial(cases[..w], cases[w..], t), inc, classes)
  }

  lemma AssignedIs(t: Tree<real>, c: Case, k: nat, classes: nat)
    requires Assigned(t, c, k, classes)
    ensures Wrong(t, c, classes) <==> k != c.cls
  {
    if Assigned(t, c, c.cls, classes) {
      AssignedOne(t, c, k, c.cls, classes);
    }
  }

  lemma NoCycles(cases: seq<Case>, inc: nat, classes: nat)
    ensures Cycles([], cases, inc, classes)
  {}

  lemma TrialStep(was: seq<Case>, formed: seq<Case>, now: seq<Case>, cases: seq<Case>, r: Trial, e: nat, inc: nat,
                  classes: nat)
    requires |was| == |formed| && r.window + r.rest == was && multiset(was) == multiset(cases)
    requires FormedFrom(r.tree, Units(r.window), classes) && Balanced(r.tree, classes) && inc >= 1
    requires multiset(formed[..|r.window|]) == multiset(r.window) && formed[|r.window|..] == r.rest
    requires Sifted(formed, now, r.tree, |r.window|, e, |now|, classes)
    ensures TrialOf(r, cases, classes) && multiset(now) == multiset(cases) && |now| == |was|
    ensures e == Wrongs(r.tree, r.rest, classes) && |r.window| + e <= |now|
    ensures e > 0 ==> |r.window| < |r.window| + Growth(e, inc) <= |r.window| + e
    ensures e > 0 ==> Widened(r, now, |r.window| + Growth(e, inc), inc, classes)
  {
    hide Wrong, Wrongs, FormedFrom, Balanced, Follows;
    var w := |r.window|;
    assert formed == formed[..w] + formed[w..];
    assert formed[w..|now|] == formed[w..];
    if e > 0 {
      var w' := w + Growth(e, inc);
      forall t | true
        ensures Follows(r, Trial(now[..w'], now[w'..], t), inc, classes)
      {
        NextWindow(now, r, w, e, inc, classes, t);
      }
    }
  }

  lemma NextWindow(now: seq<Case>, r: Trial, w: nat, e: nat, inc: nat, classes: nat, t: Tree<real>)
    requires 0 < e == Wrongs(r.tree, r.rest, classes) && w == |r.window| && w + e <= |now|
    requires multiset(now[..w]) == multiset(r.window) && forall j :: w <= j < w + e ==> Wrong(r.tree, now[j], classes)
    ensures Growth(e, inc) <= e
    ensures Follows(r, Trial(now[..w + Growth(e, inc)], now[w + Growth(e, inc)..], t), inc, classes)
  {
    hide Wrong, Wrongs;
    var w' := w + Growth(e, inc);
    assert now[..w'][..w] == now[..w];
    forall x | x in now[..w'][w..]
      ensures Wrong(r.tree, x, classes)
    {
      var j :| 0 <= j < Growth(e, inc) && now[..w'][w..][j] == x;
      assert x == now[w + j];
    }
  }

  lemma CyclesStep(trials: seq<Trial>, r: Trial, was: seq<Case>, cases: seq<Case>, w: nat, inc: nat, classes: nat)
    requires Cycles(trials, cases, inc, classes) && TrialOf(r, cases, classes) && w <= |was|
    requires r.window == was[..w] && r.rest == was[w..]
    requires trials != [] ==> Widened(trials[|trials| - 1], was, w, inc, classes)
    ensures Cycles(trials + [r], cases, inc, classes)
  {
    hide TrialOf, Follows;
    if trials != [] {
      assert Follows(trials[|trials| - 1], Trial(was[..w], was[w..], r.tree), inc, classes);
      assert r == Trial(was[..w], was[w..], r.tree);
    }
  }

  lemma FewestStep(trials: seq<Trial>, pick: nat, r: Trial, classes: nat)
    requires trials != [] ==> FewestErrors(trials, pick, classes)
    ensures trials == [] || TotalErrors(r, classes) < TotalErrors(trials[pick], classes) ==>
              FewestErrors(trials + [r], |trials|, classes)
    ensures trials != [] && TotalErrors(r, classes) >= TotalErrors(trials[pick], classes) ==>
              FewestErrors(trials + [r], pick, classes)
  {
    hide TotalErrors;
  }

  /** Over the cases it was formed from, a tree gives each class as many votes as it has cases. */
  lemma WindowVotes(t: Tree<real>, c: seq<Case>, classes: nat, k: nat)
    requires FormedFrom(t, Units(c), classes) && Balanced(t, classes) && k < classes
    ensures VoteSum(t, Units(c), k) == CountOf(c, k) as real
  {
    hide FormedFrom, Balanced, VoteSum;
    TrainingVotes(t, Units(c), classes, k);
    UnitsInClass(c, k);
  }

  lemma {:induction false} UnitsInClass(c: seq<Case>, k: nat)
    ensures Sum(Units(c), InClass(k)) == CountOf(c, k) as real
  {
    if c != [] {
      UnitsInClass(c[..|c| - 1], k);
      assert Units(c) == Units(c[..|c| - 1]) + [Item(c[|c| - 1], 1.0)];
      SumSnoc(Units(c[..|c| - 1]), Item(c[|c| - 1], 1.0), InClass(k));
    }
  }

  lemma NoWindow(cases: seq<Case>, target: seq<int>)
    ensures InWindow(cases, target, 0)
  {}

  lemma GatherNone(cases: seq<Case>, target: seq<int>, c: nat)
    requires InWindow(cases, target, c) && c < |target| && forall d :: 0 <= d < |target| ==> target[d] >= 0
    requires SumInt(target, c) <= |cases|
    ensures SumInt(target, c) >= 0 && Gathered(cases, c, SumInt(target, c), SumInt(target, c), SumInt(target, c))
  {
    SumIntMonotone(target, 0, c);
    forall j | 0 <= j < SumInt(target, c)
      ensures cases[j].cls < c
    {
      WindowClasses(cases, target, c, j);
    }
  }

  lemma GatherSkip(cases: seq<Case>, c: nat, a: int, start: int, i: int)
    requires Gathered(cases, c, a, start, i) && i < |cases| && cases[i].cls != c
    ensures Gathered(cases, c, a, start, i + 1)
  {}

  lemma GatheredBounds(cases: seq<Case>, c: nat, a: int, start: int, i: int)
    requires Gathered(cases, c, a, start, i)
    ensures 0 <= a <= start <= |cases|
  {}

  lemma WindowStep(was: seq<Case>, cases: seq<Case>, target: seq<int>, c: nat, a: int, start: int, i: int)
    requires InWindow(was, target, c) && c < |target| && forall d :: 0 <= d < |target| ==> target[d] >= 0
    requires Gathered(cases, c, a, start, i) && |was| == |cases| && a == SumInt(target, c) && start == a + target[c]
    requires cases[..a] == was[..a]
    ensures InWindow(cases, target, c + 1)
  {
    forall d, j | 0 <= d < c + 1 && 0 <= j < |cases| && SumInt(target, d) <= j < SumInt(target, d + 1)
      ensures cases[j].cls == d
    {
      if d < c {
        SumIntMonotone(target, d + 1, c);
        assert cases[j] == cases[..a][j] && was[j] == was[..a][j];
      }
    }
  }

  lemma SharingFacts(freq: seq<int>, left: seq<int>, given: seq<int>, size: int, k: nat)
    requires Sharing(freq, left, given, size, k)
    ensures |freq| == |left| == |given| && size >= 0 && k == Held(left, |left|)
    ensures forall c :: 0 <= c < |freq| ==> left[c] >= 0 && (left[c] > 0 ==> given[c] == 0)
    ensures k > 0 <==> exists c :: 0 <= c < |left| && left[c] > 0
  {
    HeldNone(left, |left|);
  }

  lemma CountsStep(cases: seq<Case>, i: nat, classes: nat)
    requires i < |cases| && cases[i].cls < classes
    ensures Counts(cases[..i + 1], classes)
            == Counts(cases[..i], classes)[cases[i].cls := CountOf(cases[..i], cases[i].cls) + 1]
  {
    assert cases[..i + 1] == cases[..i] + [cases[i]];
    forall k | 0 <= k < classes
      ensures CountOf(cases[..i + 1], k) == CountOf(cases[..i], k) + if cases[i].cls == k then 1 else 0
    {
      CountSnoc(cases[..i], cases[i], k);
    }
  }
}
