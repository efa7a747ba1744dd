/** What items each node of a tree was formed from. */
module C45Formed {
  import opened C45Types
  import opened Weighted
  import opened Ranges
  import opened C45Tests

  function Known(t: Tree<real>): Item -> real { (x: Item) => if Goes(t, 0, x.desc) then 0.0 else x.weight }

  /** The fraction of the known weight that goes to branch v. */
  function Fraction(s: seq<Item>, t: Tree<real>, v: nat): real {
    if Sum(s, Known(t)) == 0.0 then 0.0 else Quotient(Sum(s, InBranch(t, v)), Sum(s, Known(t)))
  }

  /** The items branch v is formed from: the known ones that go to it, and all unknown ones with their
      weights scaled by k. */
  function Part(s: seq<Item>, t: Tree<real>, v: nat, k: real): seq<Item> {
    if s == [] then [] else
    var x := s[|s| - 1];
    Part(s[..|s| - 1], t, v, k)
    + if Goes(t, 0, x.desc) then [Scale(x, k)] else if Goes(t, v, x.desc) then [x] else []
  }

  /** The tree was formed from the items of s. */
  ghost predicate FormedFrom(t: Tree<real>, s: seq<Item>, n: nat) {
    && t.items == Sum(s, Weigh())
    && |t.dist| == n && 0 <= t.leaf < n
    && (t.items > 0.0 ==> t.dist == ClassTotals(s, n))
    && (t.nodeType != LEAF ==>
          && t.forks == |t.branch| && Decides(t, s) && Sum(s, Known(t)) > 0.0
          && forall v :: 1 <= v <= |t.branch| ==> FormedFrom(t.branch[v - 1], Part(s, t, v, Fraction(s, t, v)), n))
  }

  lemma PartSnoc(s: seq<Item>, x: Item, t: Tree<real>, v: nat, k: real)
    ensures Part(s + [x], t, v, k)
         == Part(s, t, v, k) + if Goes(t, 0, x.desc) then [Scale(x, k)] else if Goes(t, v, x.desc) then [x] else []
  {
    assert (s + [x])[..|s|] == s;
  }

  lemma {:induction false} PartConcat(a: seq<Item>, b: seq<Item>, t: Tree<real>, v: nat, k: real)
    ensures Part(a + b, t, v, k) == Part(a, t, v, k) + Part(b, t, v, k)
  {
    hide Goes;
    if b == [] {
      assert a + b == a;
    } else {
      var b', x := b[..|b| - 1], b[|b| - 1];
      PartConcat(a, b', t, v, k);
      assert a + b == (a + b') + [x] && b == b' + [x];
      PartSnoc(a + b', x, t, v, k);
      PartSnoc(b', x, t, v, k);
    }
  }

  lemma PartWithout(b: seq<Item>, i: nat, t: Tree<real>, v: nat, k: real)
    requires i < |b|
    ensures multiset(Part(b, t, v, k)) == multiset(Part(b[..i] + b[i + 1..], t, v, k)) + multiset(Part([b[i]], t, v, k))
  {
    hide Goes, Part;
    var x := b[i];
    assert b == b[..i] + [x] + b[i + 1..];
    PartConcat(b[..i] + [x], b[i + 1..], t, v, k);
    PartConcat(b[..i], [x], t, v, k);
    PartConcat(b[..i], b[i + 1..], t, v, k);
  }

  lemma {:induction false} PartPerm(a: seq<Item>, b: seq<Item>, t: Tree<real>, v: nat, k: real)
    requires multiset(a) == multiset(b)
    ensures multiset(Part(a, t, v, k)) == multiset(Part(b, t, v, k))
  {
    hide Goes, Part;
    if a == [] {
      SameSize(a, b);
      assert a == b;
    } else {
      var j := |a| - 1;
      assert a[j] in multiset(a) && a[j] in b;
      var i :| 0 <= i < |b| && b[i] == a[j];
      MultisetWithout(a, j);
      MultisetWithout(b, i);
      PartPerm(a[..j] + a[j + 1..], b[..i] + b[i + 1..], t, v, k);
      PartWithout(a, j, t, v, k);
      PartWithout(b, i, t, v, k);
    }
  }

  /** Only which items they are matters, not their order. */
  lemma {:induction false} FormedPerm(t: Tree<real>, s: seq<Item>, r: seq<Item>, n: nat)
    requires FormedFrom(t, s, n) && multiset(s) == multiset(r)
    ensures FormedFrom(t, r, n)
  {
    SumPerm(s, r, Weigh());
    ClassesPerm(s, r, n);
    if t.nodeType != LEAF {
      PermMembers(s, r);
      SumPerm(s, r, Known(t));
      forall v | 1 <= v <= |t.branch|
        ensures FormedFrom(t.branch[v - 1], Part(r, t, v, Fraction(r, t, v)), n)
      {
        SumPerm(s, r, InBranch(t, v));
        PartPerm(s, r, t, v, Fraction(s, t, v));
        FormedPerm(t.branch[v - 1], Part(s, t, v, Fraction(s, t, v)), Part(r, t, v, Fraction(r, t, v)), n);
      }
    }
  }

  lemma ClassesPerm(s: seq<Item>, r: seq<Item>, n: nat)
    requires multiset(s) == multiset(r)
    ensures ClassTotals(s, n) == ClassTotals(r, n)
  {
    forall c | 0 <= c < n
      ensures ClassTotals(s, n)[c] == ClassTotals(r, n)[c]
    {
      SumPerm(s, r, InClass(c));
    }
  }

  // ---- The parts met while growing a branch ---------------------------------------------------

  lemma {:induction false} PartUnknown(s: seq<Item>, t: Tree<real>, v: nat, k: real)
    requires forall x :: x in s ==> Goes(t, 0, x.desc)
    ensures Part(s, t, v, k) == Scaled(s, k)
  {
    if s != [] {
      PartUnknown(s[..|s| - 1], t, v, k);
      assert Scaled(s, k) == Scaled(s[..|s| - 1], k) + [Scale(s[|s| - 1], k)];
    }
  }

  lemma {:induction false} PartHere(s: seq<Item>, t: Tree<real>, v: nat, k: real)
    requires forall x :: x in s ==> !Goes(t, 0, x.desc) && Goes(t, v, x.desc)
    ensures Part(s, t, v, k) == s
  {
    if s != [] {
      PartHere(s[..|s| - 1], t, v, k);
      assert s == s[..|s| - 1] + [s[|s| - 1]];
    }
  }

  lemma {:induction false} PartElsewhere(s: seq<Item>, t: Tree<real>, v: nat, k: real)
    requires forall x :: x in s ==> !Goes(t, 0, x.desc) && !Goes(t, v, x.desc)
    ensures Part(s, t, v, k) == []
  {
    if s != [] {
      PartElsewhere(s[..|s| - 1], t, v, k);
    }
  }

  ghost predicate FormedIn(t: Tree<real>, s: seq<Item>, lo: nat, hi: nat, n: nat) {
    lo <= hi <= |s| && FormedFrom(t, s[lo..hi], n)
  }

  /** The branch was formed from its part of the stretch. */
  ghost predicate BranchFormed(b: Tree<real>, s: seq<Item>, lo: nat, hi: nat, t: Tree<real>, v: nat, n: nat) {
    lo <= hi <= |s| && FormedFrom(b, Part(s[lo..hi], t, v, Fraction(s[lo..hi], t, v)), n)
  }

  /** The stretch handed to branch v holds its part. */
  lemma StretchIsPart(s1: seq<Item>, t: Tree<real>, v: nat, fp: nat, kp: nat, m: nat, hi: nat, k: real)
    requires Cut(s1, t, fp, kp, hi) && Grouped(s1, t, v, kp, m, hi)
    ensures ScaledIn(s1, fp, kp, k)[fp..m] == Part(s1[fp..hi], t, v, k)
  {
    hide Goes, ScaledIn;
    SplitSlice(s1, fp, kp, hi);
    SplitSlice(s1, kp, m, hi);
    PartConcat(s1[fp..kp], s1[kp..hi], t, v, k);
    PartConcat(s1[kp..m], s1[m..hi], t, v, k);
    PartUnknown(s1[fp..kp], t, v, k);
    PartHere(s1[kp..m], t, v, k);
    PartElsewhere(s1[m..hi], t, v, k);
    ScaledInParts(s1, fp, kp, k);
    SplitSlice(ScaledIn(s1, fp, kp, k), fp, kp, m);
    SliceOfTail(s1, ScaledIn(s1, fp, kp, k), kp, kp, m);
  }

  lemma KnownLoad(s: seq<Item>, t: Tree<real>, fp: nat, kp: nat, hi: nat)
    requires Cut(s, t, fp, kp, hi)
    ensures Sum(s[fp..hi], Known(t)) == Load(s, kp, hi)
    ensures forall v :: Sum(s[fp..hi], InBranch(t, v)) == BranchLoad(s, kp, hi, t, v)
  {
    hide Goes;
    SplitSlice(s, fp, kp, hi);
    SumConcat(s[fp..kp], s[kp..hi], Known(t));
    SumIsZero(s[fp..kp], Known(t));
    SumSame(s[kp..hi], Known(t), Weigh());
    forall v | true
      ensures Sum(s[fp..hi], InBranch(t, v)) == BranchLoad(s, kp, hi, t, v)
    {
      SumConcat(s[fp..kp], s[kp..hi], InBranch(t, v));
      SumIsZero(s[fp..kp], InBranch(t, v));
    }
  }

  /** The child formed from the scaled stretch is the branch formed from its part. */
  lemma ChildFormed(s0: seq<Item>, s1: seq<Item>, t: Tree<real>, v: nat, fp: nat, kp: nat, m: nat, hi: nat,
                    k: real, b: Tree<real>, n: nat)
    requires Cut(s0, t, fp, kp, hi) && Cut(s1, t, fp, kp, hi) && Grouped(s1, t, v, kp, m, hi)
             && TwoPerms(s0, s1, fp, kp, hi)
    requires Load(s0, kp, hi) > 0.0 && k == Quotient(BranchLoad(s0, kp, hi, t, v), Load(s0, kp, hi))
    requires FormedIn(b, ScaledIn(s1, fp, kp, k), fp, m, n)
    ensures BranchFormed(b, s0, fp, hi, t, v, n)
  {
    hide Goes, ScaledIn, FormedFrom, Part, Quotient;
    KnownLoad(s0, t, fp, kp, hi);
    StretchIsPart(s1, t, v, fp, kp, m, hi, k);
    PermJoin(s0, s1, fp, kp, hi);
    PartPerm(s0[fp..hi], s1[fp..hi], t, v, k);
    FormedPerm(b, Part(s1[fp..hi], t, v, k), Part(s0[fp..hi], t, v, k), n);
  }

  lemma {:induction false} PartNoWeight(s: seq<Item>, t: Tree<real>, v: nat)
    ensures Sum(Part(s, t, v, 0.0), Weigh()) == Sum(s, InBranch(t, v))
  {
    hide Goes;
    if s != [] {
      var s', x := s[..|s| - 1], s[|s| - 1];
      PartNoWeight(s', t, v);
      assert s == s' + [x];
      PartSnoc(s', x, t, v, 0.0);
      SumConcat(Part(s', t, v, 0.0), if Goes(t, 0, x.desc) then [Scale(x, 0.0)] else if Goes(t, v, x.desc) then [x]
        else [], Weigh());
      SumSnoc([], Scale(x, 0.0), Weigh());
      SumSnoc([], x, Weigh());
      assert [] + [x] == [x] && [] + [Scale(x, 0.0)] == [Scale(x, 0.0)];
    }
  }

  lemma ZeroQuotient(b: real)
    requires b != 0.0
    ensures Quotient(0.0, b) == 0.0
  {}

  /** A branch without items is formed from items without weight. */
  lemma EmptyFormed(s0: seq<Item>, t: Tree<real>, v: nat, fp: nat, kp: nat, hi: nat, node: Tree<real>, n: nat)
    requires Cut(s0, t, fp, kp, hi) && Load(s0, kp, hi) > 0.0 && BranchLoad(s0, kp, hi, t, v) == 0.0
             && NodeBasis(node, n)
    ensures BranchFormed(LeafNode(node.dist, node.leaf, 0.0, 0.0), s0, fp, hi, t, v, n)
  {
    hide Goes, Part, Quotient;
    KnownLoad(s0, t, fp, kp, hi);
    ZeroQuotient(Load(s0, kp, hi));
    PartNoWeight(s0[fp..hi], t, v);
  }

  /** The branch stays formed when the items are permuted. */
  lemma BranchFormedPerm(b: Tree<real>, s: seq<Item>, r: seq<Item>, lo: nat, hi: nat, t: Tree<real>, v: nat, n: nat)
    requires BranchFormed(b, s, lo, hi, t, v, n) && Perm(s, r, lo, hi)
    ensures BranchFormed(b, r, lo, hi, t, v, n)
  {
    hide Goes, FormedFrom, Part, Quotient;
    SumPerm(s[lo..hi], r[lo..hi], Known(t));
    SumPerm(s[lo..hi], r[lo..hi], InBranch(t, v));
    PartPerm(s[lo..hi], r[lo..hi], t, v, Fraction(s[lo..hi], t, v));
    FormedPerm(b, Part(s[lo..hi], t, v, Fraction(s[lo..hi], t, v)), Part(r[lo..hi], t, v, Fraction(r[lo..hi], t, v)),
      n);
  }

  ghost predicate BranchesFormed(branch: seq<Tree<real>>, s: seq<Item>, lo: nat, hi: nat, t: Tree<real>, n: nat) {
    forall i :: 0 <= i < |branch| ==> BranchFormed(branch[i], s, lo, hi, t, i + 1, n)
  }

  lemma BranchesFormedStep(branch: seq<Tree<real>>, b: Tree<real>, s0: seq<Item>, s2: seq<Item>, lo: nat, hi: nat,
                           t: Tree<real>, n: nat)
    requires BranchesFormed(branch, s0, lo, hi, t, n) && Perm(s0, s2, lo, hi)
    requires BranchFormed(b, s2, lo, hi, t, |branch| + 1, n)
    ensures BranchesFormed(branch + [b], s0, lo, hi, t, n)
  {
    hide BranchFormed;
    PermBack(s0, s2, lo, hi);
    BranchFormedPerm(b, s2, s0, lo, hi, t, |branch| + 1, n);
  }

  lemma PermBack(s: seq<Item>, r: seq<Item>, lo: nat, hi: nat)
    requires Perm(s, r, lo, hi)
    ensures Perm(r, s, lo, hi)
  {}

  /** The fields the tests look at. */
  predicate SameTest(t: Tree<real>, r: Tree<real>) {
    t.nodeType == r.nodeType && t.tested == r.tested && t.cut == r.cut && t.subset == r.subset && t.forks == r.forks
  }

  lemma SameGoes(t: Tree<real>, r: Tree<real>)
    requires SameTest(t, r)
    ensures forall v, c :: Goes(t, v, c) == Goes(r, v, c)
    ensures forall v, c :: Takes(t, c, v) == Takes(r, c, v)
    ensures forall c :: Decided(t, c) == Decided(r, c)
  {
    hide Goes;
    forall v, c | true
      ensures Goes(t, v, c) == Goes(r, v, c)
    {
      SameGoesAt(t, r, v, c);
    }
    forall v, c | true
      ensures Takes(t, c, v) == Takes(r, c, v)
    {}
  }

  lemma SameGoesAt(t: Tree<real>, r: Tree<real>, v: nat, c: Case)
    requires SameTest(t, r)
    ensures Goes(t, v, c) == Goes(r, v, c)
  {}

  lemma {:induction false} SamePart(s: seq<Item>, t: Tree<real>, r: Tree<real>, v: nat, k: real)
    requires SameTest(t, r)
    ensures Part(s, t, v, k) == Part(s, r, v, k)
  {
    hide Goes;
    SameGoes(t, r);
    if s != [] {
      SamePart(s[..|s| - 1], t, r, v, k);
    }
  }

  lemma SameFraction(s: seq<Item>, t: Tree<real>, r: Tree<real>, v: nat)
    requires SameTest(t, r)
    ensures Fraction(s, t, v) == Fraction(s, r, v) && Sum(s, Known(t)) == Sum(s, Known(r))
  {
    hide Goes;
    SameGoes(t, r);
    SumSame(s, Known(t), Known(r));
    SumSame(s, InBranch(t, v), InBranch(r, v));
  }

  /** A leaf with the class distribution of its items. */
  lemma LeafFormed(s: seq<Item>, lo: nat, hi: nat, dist: seq<real>, leaf: int, errors: real, n: nat)
    requires Distribution(dist, s, lo, hi, n) && 0 <= leaf < n
    ensures FormedIn(LeafNode(dist, leaf, Load(s, lo, hi), errors), s, lo, hi, n)
  {}

  /** The test node with its branches, or the leaf it collapses to. */
  lemma TestFormed(s: seq<Item>, lo: nat, hi: nat, node: Tree<real>, t: Tree<real>, branch: seq<Tree<real>>,
                   errors: real, n: nat)
    requires FormedIn(node, s, lo, hi, n) && BranchesFormed(branch, s, lo, hi, t, n) && |branch| == t.forks
    requires KnownIn(s, lo, hi, t) && t.nodeType != LEAF
    ensures FormedIn(Tested(node, t, branch, errors), s, lo, hi, n)
    ensures FormedIn(Tested(node, t, branch, errors).(nodeType := LEAF), s, lo, hi, n)
  {
    hide Goes, Part, Fraction;
    var r := Tested(node, t, branch, errors);
    assert SameTest(t, r);
    SameGoes(t, r);
    SameFraction(s[lo..hi], t, r, 0);
    forall v | 1 <= v <= |r.branch|
      ensures FormedFrom(r.branch[v - 1], Part(s[lo..hi], r, v, Fraction(s[lo..hi], r, v)), n)
    {
      assert BranchFormed(branch[v - 1], s, lo, hi, t, v, n);
      SameFraction(s[lo..hi], t, r, v);
      SamePart(s[lo..hi], t, r, v, Fraction(s[lo..hi], t, v));
    }
  }

  lemma NoneFormed(s: seq<Item>, lo: nat, hi: nat, t: Tree<real>, n: nat)
    ensures BranchesFormed([], s, lo, hi, t, n)
  {}

  lemma FormedInPerm(t: Tree<real>, s: seq<Item>, r: seq<Item>, lo: nat, hi: nat, n: nat)
    requires FormedIn(t, s, lo, hi, n) && Perm(s, r, lo, hi)
    ensures FormedIn(t, r, lo, hi, n)
  {
    hide FormedFrom;
    FormedPerm(t, s[lo..hi], r[lo..hi], n);
  }

  ghost predicate KnownIn(s: seq<Item>, lo: nat, hi: nat, t: Tree<real>) {
    lo <= hi <= |s| && Decides(t, s[lo..hi]) && Sum(s[lo..hi], Known(t)) > 0.0
  }

  lemma {:induction false} KnownSum(s: seq<Item>, t: Tree<real>, v: nat)
    requires Positive(s)
    ensures Sum(s, Known(t)) >= Sum(s, InBranch(t, v))
  {
    hide Goes;
    if s != [] {
      KnownSum(s[..|s| - 1], t, v);
    }
  }

  lemma ReadyKnown(s: seq<Item>, lo: nat, hi: nat, t: Tree<real>, m: real, maxClass: nat, maxAttVal: seq<nat>)
    requires ReadyIn(s, lo, hi, t, m) && SoundItems(s, lo, hi, maxClass, maxAttVal)
    ensures KnownIn(s, lo, hi, t)
  {
    hide Goes;
    var a, b :| 1 <= a < b <= t.forks && Sum(s[lo..hi], InBranch(t, a)) >= m && Sum(s[lo..hi], InBranch(t, b)) >= m;
    KnownSum(s[lo..hi], t, a);
  }
}
