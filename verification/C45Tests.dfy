/** Tests, the trees FormTree makes, and what growing one branch does to the items. */
module C45Tests {
  import opened Options
  import opened BitSets
  import opened C45Types
  import opened Weighted
  import opened Ranges

  // ---- Tests ------------------------------------------------------------------------------

  /** Whether Group puts case c into group v of the test at node t; group 0 holds the unknown
      values. */
  predicate Goes(t: Tree<real>, v: nat, c: Case) {
    if t.nodeType == THRESH_CONTIN then
      if v == 0 then CVal(c, t.tested) == UNKNOWN else (CVal(c, t.tested) <= t.cut) == (v == 1)
    else if v == 0 then DVal(c, t.tested) == 0
    else if t.nodeType == BR_DISCR then DVal(c, t.tested) == v
    else v <= |t.subset| && In(DVal(c, t.tested), t.subset[v - 1])
  }

  /** The only branch of test t for a case with a known value, 0 for an unknown one. */
  ghost predicate Takes(t: Tree<real>, c: Case, v: nat) {
    && v <= t.forks
    && (Goes(t, 0, c) <==> v == 0)
    && (v > 0 ==> forall u :: 1 <= u <= t.forks ==> (Goes(t, u, c) <==> u == v))
  }

  /** The test sends every case of s to group 0 or to exactly one branch. */
  ghost predicate Decides(t: Tree<real>, s: seq<Item>) { forall x :: x in s ==> Decided(t, x.desc) }

  ghost predicate Decided(t: Tree<real>, c: Case) { exists v :: Takes(t, c, v) }

  function InBranch(t: Tree<real>, v: nat): Item -> real {
    (x: Item) => if !Goes(t, 0, x.desc) && Goes(t, v, x.desc) then x.weight else 0.0
  }

  ghost function Unknown(t: Tree<real>): Item -> bool { (x: Item) => Goes(t, 0, x.desc) }

  /** At least two branches of test t get a weight of m. */
  ghost predicate Divides(t: Tree<real>, s: seq<Item>, m: real) {
    exists a, b :: 1 <= a < b <= t.forks && Sum(s, InBranch(t, a)) >= m && Sum(s, InBranch(t, b)) >= m
  }

  /** The weight in branches 1 to n. */
  ghost function BranchTotals(t: Tree<real>, s: seq<Item>, n: nat): real {
    if n == 0 then 0.0 else BranchTotals(t, s, n - 1) + Sum(s, InBranch(t, n))
  }

  lemma {:induction false} BranchTotalsSnoc(t: Tree<real>, s: seq<Item>, x: Item, v: nat, n: nat)
    requires Takes(t, x.desc, v) && v > 0 && n <= t.forks
    ensures BranchTotals(t, s + [x], n) == BranchTotals(t, s, n) + if v <= n then x.weight else 0.0
  {
    if n > 0 {
      BranchTotalsSnoc(t, s, x, v, n - 1);
      SumSnoc(s, x, InBranch(t, n));
    }
  }

  lemma {:induction false} BranchTotalsEmpty(t: Tree<real>, n: nat)
    ensures BranchTotals(t, [], n) == 0.0
  {
    if n > 0 {
      BranchTotalsEmpty(t, n - 1);
    }
  }

  /** The branches share out the known cases. */
  lemma {:induction false} BranchesCover(t: Tree<real>, s: seq<Item>)
    requires Decides(t, s) && forall x :: x in s ==> !Goes(t, 0, x.desc)
    requires t.forks >= 0
    ensures BranchTotals(t, s, t.forks) == Sum(s, Weigh())
  {
    if s == [] {
      BranchTotalsEmpty(t, t.forks);
    } else {
      var s', x := s[..|s| - 1], s[|s| - 1];
      assert forall y :: y in s' ==> y in s;
      BranchesCover(t, s');
      var v :| Takes(t, x.desc, v);
      BranchTotalsSnoc(t, s', x, v, t.forks);
      assert s == s' + [x];
    }
  }

  // ---- Trees ------------------------------------------------------------------------------

  function Items(b: seq<Tree<real>>): real {
    if b == [] then 0.0 else Items(b[..|b| - 1]) + b[|b| - 1].items
  }

  function Errors(b: seq<Tree<real>>): real {
    if b == [] then 0.0 else Errors(b[..|b| - 1]) + b[|b| - 1].errors
  }

  /** The first of the greatest entries. */
  predicate IsBest(d: seq<real>, k: int) {
    && 0 <= k < |d| && (forall c :: 0 <= c < |d| ==> d[c] <= d[k]) && (forall c :: 0 <= c < k ==> d[c] < d[k])
  }

  /** The shape of a test with n branches. */
  ghost predicate TestShape(t: Tree<real>) {
    && t.nodeType in {BR_DISCR, THRESH_CONTIN, BR_SUBSET}
    && t.forks == |t.branch|
    && (t.nodeType == THRESH_CONTIN ==> t.forks == 2)
    && (t.nodeType == BR_SUBSET ==> |t.subset| == t.forks)
  }

  /** The weight of the items that are not of the class of the leaf; none of an empty one. */
  function LeafErrors(t: Tree<real>): real
    requires 0 <= t.leaf < |t.dist|
  {
    if t.items > 0.0 then t.items - t.dist[t.leaf] else 0.0
  }

  /** What every subtree FormTree makes satisfies: the class weights add up to the weight of the
      node, the branches of a test share it out, and a test is kept only where it makes at least
      EPSILON fewer errors than a leaf would, and where two branches have a weight of m. A leaf errs on
      the items of other classes, one that hides collapsed branches keeps their errors. Only items of
      more than one class are branched on. */
  ghost predicate Grown(t: Tree<real>, n: nat, m: real) {
    && |t.dist| == n && 0 <= t.leaf < n && t.items >= 0.0
    && (forall c :: 0 <= c < n ==> t.dist[c] >= 0.0)
    && (t.items > 0.0 ==> SumTo(t.dist, n) == t.items && IsBest(t.dist, t.leaf))
    && (if t.branch == [] then t.nodeType == LEAF && t.errors == LeafErrors(t)
        else t.items > t.dist[t.leaf] && t.errors == Errors(t.branch)
             && (t.nodeType == LEAF <==> t.errors >= t.items - t.dist[t.leaf] - EPSILON))
    && (t.nodeType != LEAF ==>
          && TestShape(t) && t.items > 0.0
          && Items(t.branch) == t.items
          && TwoBranches(t.branch, m)
          && forall b :: b in t.branch ==> Grown(b, n, m))
  }

  predicate TwoBranches(b: seq<Tree<real>>, m: real) {
    exists i, j :: 0 <= i < j < |b| && b[i].items >= m && b[j].items >= m
  }

  /** The guarantee for a larger minimum is the stronger one. */
  lemma {:induction false} GrownWeaker(t: Tree<real>, n: nat, m: real, m': real)
    requires Grown(t, n, m) && m' <= m
    ensures Grown(t, n, m')
  {
    if t.nodeType != LEAF {
      forall b | b in t.branch
        ensures Grown(b, n, m')
      {
        GrownWeaker(b, n, m, m');
      }
    }
  }

  lemma AllWeaker(b: seq<Tree<real>>, n: nat, m: real, m': real)
    requires m' <= m && forall c :: c in b ==> Grown(c, n, m)
    ensures forall c :: c in b ==> Grown(c, n, m')
  {
    hide Grown;
    forall c | c in b
      ensures Grown(c, n, m')
    {
      GrownWeaker(c, n, m, m');
    }
  }

  function LeafNode(dist: seq<real>, leaf: int, items: real, errors: real): Tree<real> {
    Tree(LEAF, leaf, items, errors, dist, 0, 0, 0.0, 0.0, 0.0, [], [])
  }

  // ---- Weights of stretches ---------------------------------------------------------------

  ghost function Load(s: seq<Item>, lo: nat, hi: nat): real
    requires lo <= hi <= |s|
  {
    Sum(s[lo..hi], Weigh())
  }

  ghost function BranchLoad(s: seq<Item>, lo: nat, hi: nat, t: Tree<real>, v: nat): real
    requires lo <= hi <= |s|
  {
    Sum(s[lo..hi], InBranch(t, v))
  }

  ghost function TotalsIn(s: seq<Item>, lo: nat, hi: nat, t: Tree<real>, n: nat): real
    requires lo <= hi <= |s|
  {
    BranchTotals(t, s[lo..hi], n)
  }

  ghost predicate DividesIn(s: seq<Item>, lo: nat, hi: nat, t: Tree<real>, m: real) {
    lo <= hi <= |s| && Decides(t, s[lo..hi]) && Divides(t, s[lo..hi], m) && m > 0.0
  }

  ghost predicate ReadyIn(s: seq<Item>, lo: nat, hi: nat, t: Tree<real>, m: real) {
    lo <= hi <= |s| && Ready(t, s[lo..hi], m)
  }

  /** d holds the weight of each of n classes. */
  ghost predicate Distribution(d: seq<real>, s: seq<Item>, lo: nat, hi: nat, n: nat) {
    lo <= hi <= |s| && d == ClassTotals(s[lo..hi], n)
  }

  ghost predicate AllPositive(s: seq<Item>, lo: nat, hi: nat) {
    lo <= hi <= |s| && forall i :: lo <= i < hi ==> s[i].weight > 0.0
  }

  /** The cases of group v come first and end before m. */
  ghost predicate Grouped(s: seq<Item>, t: Tree<real>, v: nat, lo: nat, m: nat, hi: nat) {
    && lo <= m <= hi <= |s|
    && (forall i :: lo <= i < m ==> Goes(t, v, s[i].desc))
    && (forall i :: m <= i < hi ==> !Goes(t, v, s[i].desc))
  }

  ghost predicate SomeElsewhere(s: seq<Item>, t: Tree<real>, v: nat, lo: nat, hi: nat) {
    hi <= |s| && exists i :: lo <= i < hi && !Goes(t, v, s[i].desc)
  }

  lemma GroupedStep(s: seq<Item>, fp: nat, m: nat, i: nat, t: Tree<real>, v: nat)
    requires Grouped(s, t, v, fp, m, i) && i < |s|
    ensures if Goes(t, v, s[i].desc) then Grouped(Swapped(s, m, i), t, v, fp, m + 1, i + 1)
            else Grouped(s, t, v, fp, m, i + 1)
  {
    hide Goes;
  }

  lemma GroupedNone(s: seq<Item>, fp: nat, t: Tree<real>, v: nat)
    requires fp <= |s|
    ensures Grouped(s, t, v, fp, fp, fp)
  {}

  // ---- What one branch does to the items --------------------------------------------------

  /** The stretches from fp to kp and from kp to hi are each permuted in itself. */
  ghost predicate TwoPerms(s: seq<Item>, s': seq<Item>, fp: nat, kp: nat, hi: nat) {
    && |s'| == |s| && fp <= kp <= hi <= |s| && s'[..fp] == s[..fp] && s'[hi..] == s[hi..]
    && multiset(s'[fp..kp]) == multiset(s[fp..kp]) && multiset(s'[kp..hi]) == multiset(s[kp..hi])
  }

  lemma TwoPermsTrans(s: seq<Item>, t: seq<Item>, u: seq<Item>, fp: nat, kp: nat, hi: nat)
    requires TwoPerms(s, t, fp, kp, hi) && TwoPerms(t, u, fp, kp, hi)
    ensures TwoPerms(s, u, fp, kp, hi)
  {}

  /** The unknown cases stand first, the known ones after. */
  ghost predicate Cut(s: seq<Item>, t: Tree<real>, fp: nat, kp: nat, hi: nat) { Grouped(s, t, 0, fp, kp, hi) }

  /** Grouping the unknown cases again brings back the cut, whatever happened in between. */
  lemma Regrouped(s: seq<Item>, r: seq<Item>, t: Tree<real>, fp: nat, kp: nat, kp': nat, hi: nat)
    requires Cut(s, t, fp, kp, hi) && Cut(r, t, fp, kp', hi) && Perm(s, r, fp, hi)
    ensures kp' == kp && TwoPerms(s, r, fp, kp, hi)
  {
    hide Goes;
    var p := Unknown(t);
    assert s[fp..hi] == s[fp..kp] + s[kp..hi];
    assert r[fp..hi] == r[fp..kp'] + r[kp'..hi];
    PartsPerm(s[fp..kp], s[kp..hi], r[fp..kp'], r[kp'..hi], p);
  }

  function Quotient(a: real, b: real): real
    requires b != 0.0
  {
    a / b
  }

  function Inverse(k: real): real
    requires k != 0.0
  {
    1.0 / k
  }

  /** The items after scaling the stretch from fp to kp. */
  ghost function ScaledIn(s: seq<Item>, fp: nat, kp: nat, k: real): (r: seq<Item>)
    requires fp <= kp <= |s|
    ensures |r| == |s|
    ensures forall i :: 0 <= i < |s| ==> r[i] == if fp <= i < kp then Scale(s[i], k) else s[i]
  {
    s[..fp] + Scaled(s[fp..kp], k) + s[kp..]
  }

  lemma ScaledInParts(s: seq<Item>, fp: nat, kp: nat, k: real)
    requires fp <= kp <= |s|
    ensures ScaledIn(s, fp, kp, k)[..fp] == s[..fp] && ScaledIn(s, fp, kp, k)[kp..] == s[kp..]
    ensures ScaledIn(s, fp, kp, k)[fp..kp] == Scaled(s[fp..kp], k)
  {}

  lemma SliceOfTail(s: seq<Item>, r: seq<Item>, kp: nat, a: nat, b: nat)
    requires |s| == |r| && kp <= a <= b <= |s| && s[kp..] == r[kp..]
    ensures s[a..b] == r[a..b] && s[b..] == r[b..]
  {
    TailSlice(s, kp, a, b);
    TailSlice(r, kp, a, b);
  }

  lemma TailSlice(s: seq<Item>, kp: nat, a: nat, b: nat)
    requires kp <= a <= b <= |s|
    ensures s[kp..][a - kp..b - kp] == s[a..b] && s[kp..][b - kp..] == s[b..]
  {
    assert forall i :: a - kp <= i < b - kp ==> s[kp..][i] == s[kp + i];
  }

  /** Scaling, permuting and scaling back permutes. */
  lemma ScaledThereAndBack(s: seq<Item>, r: seq<Item>, fp: nat, kp: nat, hi: nat, k: real)
    requires fp <= kp <= hi <= |s| && k != 0.0
    requires TwoPerms(ScaledIn(s, fp, kp, k), r, fp, kp, hi)
    ensures TwoPerms(s, ScaledIn(r, fp, kp, Inverse(k)), fp, kp, hi)
  {
    var m, q := ScaledIn(s, fp, kp, k), ScaledIn(r, fp, kp, Inverse(k));
    ScaledInParts(s, fp, kp, k);
    ScaledInParts(r, fp, kp, Inverse(k));
    SliceOfTail(s, m, kp, kp, hi);
    SliceOfTail(r, q, kp, kp, hi);
    ScaledPerm(r[fp..kp], m[fp..kp], Inverse(k));
    ScaledBack(s[fp..kp], k);
  }

  /** A permutation of the known stretch, up to hi, keeps the cut. */
  lemma PermKeepsCut(s: seq<Item>, r: seq<Item>, t: Tree<real>, fp: nat, kp: nat, hi: nat)
    requires Cut(s, t, fp, kp, hi) && TwoPerms(s, r, fp, kp, hi)
    ensures Cut(r, t, fp, kp, hi)
  {
    hide Goes;
    PermMembers(s[fp..kp], r[fp..kp]);
    PermMembers(s[kp..hi], r[kp..hi]);
    forall i | fp <= i < kp
      ensures Goes(t, 0, r[i].desc)
    {
      assert r[i] in r[fp..kp];
    }
    forall i | kp <= i < hi
      ensures !Goes(t, 0, r[i].desc)
    {
      assert r[i] in r[kp..hi];
    }
  }

  /** The weight grouped for branch v is the weight that goes to it. */
  lemma GroupWeight(s: seq<Item>, t: Tree<real>, v: nat, fp: nat, kp: nat, m: nat, hi: nat)
    requires v > 0 && Cut(s, t, fp, kp, hi) && Grouped(s, t, v, kp, m, hi)
    ensures Load(s, kp, m) == BranchLoad(s, kp, hi, t, v)
  {
    hide Goes;
    assert s[kp..hi] == s[kp..m] + s[m..hi];
    SumConcat(s[kp..m], s[m..hi], InBranch(t, v));
    SumSame(s[kp..m], Weigh(), InBranch(t, v));
    SumIsZero(s[m..hi], InBranch(t, v));
  }

  lemma TwoPermsPerm(q: seq<Item>, s: seq<Item>, r: seq<Item>, fp: nat, kp: nat, hi: nat)
    requires Perm(q, s, fp, hi) && TwoPerms(s, r, fp, kp, hi)
    ensures Perm(q, r, fp, hi)
  {
    PermJoin(s, r, fp, kp, hi);
    PermTrans(q, s, r, fp, hi);
  }

  lemma TwoPermsWider(s: seq<Item>, r: seq<Item>, fp: nat, kp: nat, hi: nat, hi': nat)
    requires TwoPerms(s, r, fp, kp, hi) && hi <= hi' <= |s|
    ensures TwoPerms(s, r, fp, kp, hi')
  {
    SliceOfTail(s, r, hi, hi, hi');
    assert s[kp..hi'] == s[kp..hi] + s[hi..hi'];
    assert r[kp..hi'] == r[kp..hi] + r[hi..hi'];
  }

  lemma TwoPermsLoads(s: seq<Item>, r: seq<Item>, fp: nat, kp: nat, hi: nat)
    requires TwoPerms(s, r, fp, kp, hi)
    ensures Load(s, fp, kp) == Load(r, fp, kp) && Load(s, kp, hi) == Load(r, kp, hi)
    ensures forall t, v :: BranchLoad(s, kp, hi, t, v) == BranchLoad(r, kp, hi, t, v)
  {
    SumPerm(s[fp..kp], r[fp..kp], Weigh());
    SumPerm(s[kp..hi], r[kp..hi], Weigh());
    forall t, v | true
      ensures BranchLoad(s, kp, hi, t, v) == BranchLoad(r, kp, hi, t, v)
    {
      SumPerm(s[kp..hi], r[kp..hi], InBranch(t, v));
    }
  }

  ghost predicate Good(c: Case, maxClass: nat, maxAttVal: seq<nat>) {
    c.cls <= maxClass && forall a :: 0 <= a < |maxAttVal| && maxAttVal[a] > 0 ==> DVal(c, a) <= maxAttVal[a]
  }

  ghost predicate AllGood(s: seq<Item>, maxClass: nat, maxAttVal: seq<nat>) {
    forall i :: 0 <= i < |s| ==> Good(s[i].desc, maxClass, maxAttVal)
  }

  ghost predicate AllOnes(s: seq<Item>, lo: nat, hi: nat) {
    lo <= hi <= |s| && forall i :: lo <= i < hi ==> s[i].weight == 1.0
  }

  /** The cases are in range; those from lo up to hi have positive weights. */
  ghost predicate SoundItems(s: seq<Item>, lo: nat, hi: nat, maxClass: nat, maxAttVal: seq<nat>) {
    AllGood(s, maxClass, maxAttVal) && AllPositive(s, lo, hi)
  }

  lemma PermKeepsSound(s: seq<Item>, r: seq<Item>, lo: nat, hi: nat, maxClass: nat, maxAttVal: seq<nat>)
    requires SoundItems(s, lo, hi, maxClass, maxAttVal) && Perm(s, r, lo, hi)
    ensures SoundItems(r, lo, hi, maxClass, maxAttVal)
    ensures AllOnes(s, lo, hi) ==> AllOnes(r, lo, hi)
  {
    hide Good;
    PermParts(s, r, lo, hi);
    forall i | 0 <= i < |r|
      ensures Good(r[i].desc, maxClass, maxAttVal)
      ensures lo <= i < hi ==> r[i].weight > 0.0 && (AllOnes(s, lo, hi) ==> r[i].weight == 1.0)
    {
      if lo <= i < hi {
        assert r[i] in r[lo..hi];
        var j :| lo <= j < hi && s[j] == r[i];
      }
    }
  }

  lemma SoundStretch(s: seq<Item>, lo: nat, hi: nat, lo': nat, hi': nat, maxClass: nat, maxAttVal: seq<nat>)
    requires SoundItems(s, lo, hi, maxClass, maxAttVal) && lo <= lo' <= hi' <= hi
    ensures SoundItems(s, lo', hi', maxClass, maxAttVal) && (AllOnes(s, lo, hi) ==> AllOnes(s, lo', hi'))
    ensures lo' < hi' ==> Load(s, lo', hi') > 0.0
  {
    if lo' < hi' {
      LoadPositive(s, lo', hi');
    }
  }

  lemma SoundBounds(s: seq<Item>, lo: nat, hi: nat, maxClass: nat, maxAttVal: seq<nat>)
    requires SoundItems(s, lo, hi, maxClass, maxAttVal)
    ensures lo <= hi <= |s|
  {}

  lemma PermKeepsElsewhere(s: seq<Item>, r: seq<Item>, t: Tree<real>, v: nat, lo: nat, hi: nat)
    requires Perm(s, r, lo, hi) && SomeElsewhere(s, t, v, lo, hi)
    ensures SomeElsewhere(r, t, v, lo, hi)
  {
    hide Goes;
    PermMembers(s[lo..hi], r[lo..hi]);
    var i :| lo <= i < hi && !Goes(t, v, s[i].desc);
    assert s[i] in s[lo..hi];
    var j :| lo <= j < hi && r[j] == s[i];
  }

  lemma PermIsTwoPerms(s: seq<Item>, r: seq<Item>, fp: nat, kp: nat, hi: nat)
    requires Perm(s, r, kp, hi) && fp <= kp
    ensures TwoPerms(s, r, fp, kp, hi)
  {
    assert s[fp..kp] == s[..kp][fp..] && r[fp..kp] == r[..kp][fp..];
    assert s[..fp] == s[..kp][..fp] && r[..fp] == r[..kp][..fp];
  }

  /** What grouping branch v behind the unknown items leaves. */
  lemma BranchGrouped(s0: seq<Item>, s1: seq<Item>, t: Tree<real>, v: nat, fp: nat, kp: nat, m: nat, hi: nat)
    requires Cut(s0, t, fp, kp, hi) && Perm(s0, s1, kp, hi) && Grouped(s1, t, v, kp, m, hi) && v > 0
    requires SomeElsewhere(s0, t, v, kp, hi)
    ensures TwoPerms(s0, s1, fp, kp, hi) && Cut(s1, t, fp, kp, hi) && m < hi
    ensures Load(s1, kp, m) == BranchLoad(s0, kp, hi, t, v)
  {
    hide Goes;
    PermIsTwoPerms(s0, s1, fp, kp, hi);
    PermKeepsCut(s0, s1, t, fp, kp, hi);
    GroupWeight(s1, t, v, fp, kp, m, hi);
    TwoPermsLoads(s0, s1, fp, kp, hi);
    PermKeepsElsewhere(s0, s1, t, v, kp, hi);
  }

  lemma LoadPositive(s: seq<Item>, lo: nat, hi: nat)
    requires AllPositive(s, lo, hi) && lo < hi
    ensures Load(s, lo, hi) > 0.0
  {
    PositiveSum(s[lo..hi]);
  }

  lemma ProductPositive(a: real, b: real)
    requires a > 0.0 && b > 0.0
    ensures a * b > 0.0
  {}

  /** The stretch handed to a branch, its unknown items scaled. */
  lemma BranchScaled(s: seq<Item>, t: Tree<real>, fp: nat, kp: nat, m: nat, hi: nat, k: real,
                     maxClass: nat, maxAttVal: seq<nat>)
    requires Cut(s, t, fp, kp, hi) && kp <= m <= hi && k > 0.0
    requires SoundItems(s, fp, hi, maxClass, maxAttVal)
    ensures SoundItems(ScaledIn(s, fp, kp, k), fp, m, maxClass, maxAttVal)
    ensures kp == fp && AllOnes(s, fp, hi) ==> AllOnes(ScaledIn(s, fp, kp, k), fp, m)
    ensures Cut(ScaledIn(s, fp, kp, k), t, fp, kp, m)
    ensures ScaledTotal(Load(ScaledIn(s, fp, kp, k), fp, m), Load(s, fp, kp), k, Load(s, kp, m))
  {
    hide Goes, Good, ScaledIn, Load;
    forall i | fp <= i < m
      ensures ScaledIn(s, fp, kp, k)[i].weight > 0.0
    {
      ProductPositive(s[i].weight, k);
    }
    ScaledLoad(s, fp, kp, m, k);
  }

  /** What holds between grouping branch v and scaling the unknown items. */
  lemma BranchReady(s0: seq<Item>, s1: seq<Item>, t: Tree<real>, v: nat, fp: nat, kp: nat, m: nat, hi: nat,
                    maxClass: nat, maxAttVal: seq<nat>)
    requires Cut(s0, t, fp, kp, hi) && Perm(s0, s1, kp, hi) && Grouped(s1, t, v, kp, m, hi) && v > 0
    requires SomeElsewhere(s0, t, v, kp, hi) && SoundItems(s0, fp, hi, maxClass, maxAttVal)
    ensures |s1| == |s0| && fp <= kp <= m < hi <= |s0|
    ensures TwoPerms(s0, s1, fp, kp, hi) && Cut(s1, t, fp, kp, hi) && SoundItems(s1, fp, hi, maxClass, maxAttVal)
    ensures Load(s1, kp, m) == BranchLoad(s0, kp, hi, t, v) && Load(s1, fp, kp) == Load(s0, fp, kp)
    ensures Load(s0, kp, hi) > 0.0 && (kp < m ==> Load(s1, kp, m) > 0.0)
    ensures AllOnes(s0, fp, hi) ==> AllOnes(s1, fp, hi) && AllOnes(s1, kp, m)
  {
    hide Goes, Good;
    BranchGrouped(s0, s1, t, v, fp, kp, m, hi);
    PermWider(s0, s1, kp, hi, fp, hi);
    PermKeepsSound(s0, s1, fp, hi, maxClass, maxAttVal);
    TwoPermsLoads(s0, s1, fp, kp, hi);
    SoundStretch(s1, fp, hi, kp, m, maxClass, maxAttVal);
    SoundStretch(s0, fp, hi, kp, hi, maxClass, maxAttVal);
  }

  lemma ScaledLoad(s: seq<Item>, fp: nat, kp: nat, m: nat, k: real)
    requires fp <= kp <= m <= |s|
    ensures Load(ScaledIn(s, fp, kp, k), fp, m) == Load(s, fp, kp) * k + Load(s, kp, m)
  {
    hide ScaledIn, Sum, Scaled;
    var r := ScaledIn(s, fp, kp, k);
    ScaledInParts(s, fp, kp, k);
    WeightScaled(s[fp..kp], k);
    SplitSlice(r, fp, kp, m);
    SumConcat(r[fp..kp], r[kp..m], Weigh());
    SliceOfTail(s, r, kp, kp, m);
  }

  lemma SplitSlice(s: seq<Item>, lo: nat, mid: nat, hi: nat)
    requires lo <= mid <= hi <= |s|
    ensures s[lo..hi] == s[lo..mid] + s[mid..hi]
  {}

  ghost predicate ScaledTotal(total: real, u: real, k: real, g: real) { total == u * k + g }

  /** The items of a branch: its known weight g and a share of the unknown weight u that is as large
      as its share of the known weight. */
  ghost predicate FairShare(items: real, u: real, known: real, g: real) { items * known == (u + known) * g }

  lemma ChildItems(items: real, u: real, factor: real, count: real, known: real)
    requires known > 0.0 && factor == Quotient(count, known) && ScaledTotal(items, u, factor, count)
    ensures FairShare(items, u, known, count)
  {
    assert factor * known == count;
    assert u * factor * known == u * (factor * known);
  }

  lemma FactorPositive(count: real, known: real)
    requires known > 0.0 && count > 0.0
    ensures Quotient(count, known) > 0.0
  {}

  lemma NoShare(u: real, known: real)
    ensures FairShare(0.0, u, known, 0.0)
  {}

  /** Scaled, permuted as a whole, regrouped and scaled back: the items of the branch and the
      unknown ones are permuted each among themselves. */
  lemma BranchRestored(s0: seq<Item>, s1: seq<Item>, s4: seq<Item>, t: Tree<real>, fp: nat, kp: nat, kp': nat, m: nat,
                       hi: nat, k: real)
    requires TwoPerms(s0, s1, fp, kp, hi) && fp <= kp <= m <= hi <= |s0| == |s1| && k != 0.0
    requires Cut(ScaledIn(s1, fp, kp, k), t, fp, kp, m)
    requires Perm(ScaledIn(s1, fp, kp, k), s4, fp, m) && Cut(s4, t, fp, kp', m)
    ensures TwoPerms(s0, ScaledIn(s4, fp, kp, Inverse(k)), fp, kp, hi)
  {
    hide TwoPerms, Cut, Perm, ScaledIn;
    PermBounds(ScaledIn(s1, fp, kp, k), s4, fp, m);
    Regrouped(ScaledIn(s1, fp, kp, k), s4, t, fp, kp, kp', m);
    ScaledThereAndBack(s1, s4, fp, kp, m, k);
    TwoPermsWider(s1, ScaledIn(s4, fp, kp, Inverse(k)), fp, kp, m, hi);
    TwoPermsTrans(s0, s1, ScaledIn(s4, fp, kp, Inverse(k)), fp, kp, hi);
  }

  lemma PermBounds(s: seq<Item>, r: seq<Item>, lo: nat, hi: nat)
    requires Perm(s, r, lo, hi)
    ensures |r| == |s| && lo <= hi <= |s|
  {}

  /** The class distribution and class a branch without items takes over. */
  ghost predicate NodeBasis(t: Tree<real>, n: nat) {
    |t.dist| == n && 0 <= t.leaf < n && forall c :: 0 <= c < n ==> t.dist[c] >= 0.0
  }

  lemma EmptyLeaf(node: Tree<real>, n: nat, m: real)
    requires NodeBasis(node, n)
    ensures Grown(LeafNode(node.dist, node.leaf, 0.0, 0.0), n, m)
  {}

  lemma EmptyLoad(s: seq<Item>, lo: nat)
    requires lo <= |s|
    ensures Load(s, lo, lo) == 0.0
  {}

  /** A test that may be tried on the cases of s: it decides all of them, and at least two of its
      branches get a weight of m. */
  ghost predicate Ready(t: Tree<real>, s: seq<Item>, m: real) {
    && t.nodeType in {BR_DISCR, THRESH_CONTIN, BR_SUBSET} && t.forks >= 0
    && (t.nodeType == THRESH_CONTIN ==> t.forks == 2)
    && (t.nodeType == BR_SUBSET ==> |t.subset| == t.forks)
    && Decides(t, s) && Divides(t, s, m) && m > 0.0
  }

  lemma ShareStep(items: real, child: real, u: real, known: real, g: real, g': real)
    requires FairShare(items, u, known, g) && FairShare(child, u, known, g')
    ensures FairShare(items + child, u, known, g + g')
  {
    assert (items + child) * known == items * known + child * known;
    assert (u + known) * (g + g') == (u + known) * g + (u + known) * g';
  }

  lemma ShareAll(items: real, u: real, known: real)
    requires FairShare(items, u, known, known) && known > 0.0
    ensures items == u + known
  {
    assert (items - (u + known)) * known == 0.0;
  }

  /** Before any branch: the unknown items have been grouped, two branches will get known ones. */
  lemma Divided(s: seq<Item>, r: seq<Item>, t: Tree<real>, fp: nat, kp: nat, hi: nat, m: real)
    requires Perm(s, r, fp, hi) && Cut(r, t, fp, kp, hi) && ReadyIn(s, fp, hi, t, m)
    ensures DividesIn(r, kp, hi, t, m) && kp < hi
    ensures Load(s, fp, hi) == Load(r, fp, kp) + Load(r, kp, hi)
    ensures TotalsIn(r, kp, hi, t, t.forks) == Load(r, kp, hi)
  {
    hide Goes;
    PermMembers(s[fp..hi], r[fp..hi]);
    SumPerm(s[fp..hi], r[fp..hi], Weigh());
    SplitSlice(r, fp, kp, hi);
    SumConcat(r[fp..kp], r[kp..hi], Weigh());
    forall x | x in r[kp..hi]
      ensures x in s[fp..hi] && !Goes(t, 0, x.desc)
    {
      assert x in r[fp..hi];
    }
    DividesKnown(s[fp..hi], r, t, fp, kp, hi, m);
    BranchesCover(t, r[kp..hi]);
  }

  lemma DividesKnown(s: seq<Item>, r: seq<Item>, t: Tree<real>, fp: nat, kp: nat, hi: nat, m: real)
    requires Cut(r, t, fp, kp, hi) && Divides(t, s, m) && m > 0.0 && multiset(s) == multiset(r[fp..hi])
    ensures Divides(t, r[kp..hi], m) && kp < hi
  {
    hide Goes;
    var a, b :| 1 <= a < b <= t.forks && Sum(s, InBranch(t, a)) >= m && Sum(s, InBranch(t, b)) >= m;
    KnownPart(s, r, t, fp, kp, hi, a);
    KnownPart(s, r, t, fp, kp, hi, b);
    var i := SomeMember(r[kp..hi], InBranch(t, a));
  }

  lemma KnownPart(s: seq<Item>, r: seq<Item>, t: Tree<real>, fp: nat, kp: nat, hi: nat, v: nat)
    requires Cut(r, t, fp, kp, hi) && multiset(s) == multiset(r[fp..hi])
    ensures Sum(s, InBranch(t, v)) == Sum(r[kp..hi], InBranch(t, v))
  {
    hide Goes;
    SumPerm(s, r[fp..hi], InBranch(t, v));
    SplitSlice(r, fp, kp, hi);
    SumConcat(r[fp..kp], r[kp..hi], InBranch(t, v));
    SumIsZero(r[fp..kp], InBranch(t, v));
  }

  lemma UnknownGrouped(s0: seq<Item>, s1: seq<Item>, t: Tree<real>, fp: nat, kp: nat, hi: nat, m: real,
                       maxClass: nat, maxAttVal: seq<nat>)
    requires Perm(s0, s1, fp, hi) && Cut(s1, t, fp, kp, hi) && ReadyIn(s0, fp, hi, t, m)
    requires SoundItems(s0, fp, hi, maxClass, maxAttVal)
    ensures fp <= kp < hi <= |s1| == |s0| && DividesIn(s1, kp, hi, t, m) && TwoPerms(s1, s1, fp, kp, hi)
    ensures SoundItems(s1, fp, hi, maxClass, maxAttVal)
    ensures AllOnes(s0, fp, hi) ==> AllOnes(s1, fp, hi) && AllOnes(s1, fp, kp)
    ensures Load(s0, fp, hi) == Load(s1, fp, kp) + Load(s1, kp, hi) && Load(s1, kp, hi) > 0.0 && Load(s1, fp, kp) >= 0.0
    ensures TotalsIn(s1, kp, hi, t, t.forks) == Load(s1, kp, hi)
  {
    hide Goes, Decides, DividesIn, Load, TotalsIn, Good;
    Divided(s0, s1, t, fp, kp, hi, m);
    PermKeepsSound(s0, s1, fp, hi, maxClass, maxAttVal);
    SoundStretch(s1, fp, hi, kp, hi, maxClass, maxAttVal);
    SoundStretch(s1, fp, hi, fp, kp, maxClass, maxAttVal);
    EmptyLoad(s1, fp);
  }

  lemma NoBranches(s: seq<Item>, kp: nat, hi: nat, t: Tree<real>, u: real, known: real)
    requires kp <= hi <= |s|
    ensures FairShare(Items([]), u, known, TotalsIn(s, kp, hi, t, 0)) && Errors([]) == 0.0
  {}

  lemma {:induction false} SomeMember(s: seq<Item>, f: Item -> real) returns (i: nat)
    requires Sum(s, f) > 0.0
    ensures i < |s| && f(s[i]) > 0.0
  {
    if f(s[|s| - 1]) > 0.0 {
      i := |s| - 1;
    } else {
      i := SomeMember(s[..|s| - 1], f);
    }
  }

  /** No branch gets all the known items. */
  lemma Elsewhere(s: seq<Item>, t: Tree<real>, v: nat, kp: nat, hi: nat, m: real)
    requires DividesIn(s, kp, hi, t, m) && 1 <= v <= t.forks
    ensures SomeElsewhere(s, t, v, kp, hi)
  {
    hide Goes;
    var a, b :| 1 <= a < b <= t.forks && Sum(s[kp..hi], InBranch(t, a)) >= m && Sum(s[kp..hi], InBranch(t, b)) >= m;
    var w := if a == v then b else a;
    var i := SomeMember(s[kp..hi], InBranch(t, w));
    assert s[kp..hi][i] == s[kp + i] && Decided(t, s[kp + i].desc);
    assert !Goes(t, v, s[kp + i].desc);
  }

  lemma PermDivides(t: Tree<real>, a: seq<Item>, b: seq<Item>, m: real)
    requires multiset(a) == multiset(b) && Divides(t, a, m) && Decides(t, a)
    ensures Divides(t, b, m) && Decides(t, b)
  {
    hide Decided;
    PermMembers(a, b);
    var i, j :| 1 <= i < j <= t.forks && Sum(a, InBranch(t, i)) >= m && Sum(a, InBranch(t, j)) >= m;
    SumPerm(a, b, InBranch(t, i));
    SumPerm(a, b, InBranch(t, j));
  }

  /** What each branch may rely on, whatever the earlier ones did. */
  lemma StillDivided(s: seq<Item>, r: seq<Item>, t: Tree<real>, v: nat, fp: nat, kp: nat, hi: nat, m: real,
                     maxClass: nat, maxAttVal: seq<nat>)
    requires TwoPerms(s, r, fp, kp, hi) && Cut(s, t, fp, kp, hi) && DividesIn(s, kp, hi, t, m) && 1 <= v <= t.forks
    requires SoundItems(s, fp, hi, maxClass, maxAttVal)
    ensures Cut(r, t, fp, kp, hi) && SomeElsewhere(r, t, v, kp, hi) && SoundItems(r, fp, hi, maxClass, maxAttVal)
    ensures AllOnes(s, fp, hi) ==> AllOnes(r, fp, hi)
    ensures kp <= hi <= |r| == |s|
    ensures Load(r, kp, hi) == Load(s, kp, hi) && Load(r, fp, kp) == Load(s, fp, kp)
    ensures TotalsIn(s, kp, hi, t, v) == TotalsIn(s, kp, hi, t, v - 1) + BranchLoad(r, kp, hi, t, v)
    ensures BranchLoad(r, kp, hi, t, v) == BranchLoad(s, kp, hi, t, v) >= 0.0
  {
    hide Goes, SoundItems;
    PermKeepsCut(s, r, t, fp, kp, hi);
    PermDivides(t, s[kp..hi], r[kp..hi], m);
    Elsewhere(r, t, v, kp, hi, m);
    PermJoin(s, r, fp, kp, hi);
    PermKeepsSound(s, r, fp, hi, maxClass, maxAttVal);
    TwoPermsLoads(s, r, fp, kp, hi);
    SoundStretch(s, fp, hi, kp, hi, maxClass, maxAttVal);
    SoundPositive(s, kp, hi, maxClass, maxAttVal);
    BranchLoadPositive(s, kp, hi, t, v);
  }

  lemma SoundPositive(s: seq<Item>, lo: nat, hi: nat, maxClass: nat, maxAttVal: seq<nat>)
    requires SoundItems(s, lo, hi, maxClass, maxAttVal)
    ensures AllPositive(s, lo, hi)
  {}

  lemma TwoBranchesWeaker(b: seq<Tree<real>>, m: real, m': real)
    requires TwoBranches(b, m) && m' <= m
    ensures TwoBranches(b, m')
  {}

  /** The errors and items of the branches grown so far. */
  lemma GrownBranches(b: seq<Tree<real>>, c: Tree<real>)
    ensures Items(b + [c]) == Items(b) + c.items && Errors(b + [c]) == Errors(b) + c.errors
  {
    assert (b + [c])[..|b|] == b;
  }

  /** A leaf with the right distribution, and a test with grown branches that beats it. */
  lemma LeafGrown(s: seq<Item>, lo: nat, hi: nat, maxClass: nat, maxAttVal: seq<nat>, dist: seq<real>, best: int,
                  errors: real, m: real)
    requires SoundItems(s, lo, hi, maxClass, maxAttVal)
    requires Distribution(dist, s, lo, hi, maxClass + 1) && IsBest(dist, best)
    requires errors == Load(s, lo, hi) - dist[best]
    ensures NodeBasis(LeafNode(dist, best, Load(s, lo, hi), errors), maxClass + 1)
    ensures Grown(LeafNode(dist, best, Load(s, lo, hi), errors), maxClass + 1, m)
    ensures Load(s, lo, hi) >= 0.0 && (lo < hi ==> Load(s, lo, hi) > 0.0)
  {
    PositiveSum(s[lo..hi]);
    assert forall i :: 0 <= i < hi - lo ==> Good(s[lo..hi][i].desc, maxClass, maxAttVal);
    ClassTotalsSum(s[lo..hi], maxClass + 1);
    forall c: nat | c <= maxClass
      ensures Sum(s[lo..hi], InClass(c)) >= 0.0
    {
      ClassWeight(s[lo..hi], c);
    }
  }

  lemma {:induction false} ClassWeight(s: seq<Item>, c: nat)
    requires Positive(s)
    ensures Sum(s, InClass(c)) >= 0.0
  {
    if s != [] {
      ClassWeight(s[..|s| - 1], c);
    }
  }

  lemma SoundGood(s: seq<Item>, lo: nat, hi: nat, maxClass: nat, maxAttVal: seq<nat>)
    requires SoundItems(s, lo, hi, maxClass, maxAttVal)
    ensures AllGood(s, maxClass, maxAttVal)
  {}

  lemma BestBounds(d: seq<real>, k: int)
    requires IsBest(d, k)
    ensures 0 <= k < |d|
  {}

  lemma PermLoad(s: seq<Item>, r: seq<Item>, lo: nat, hi: nat)
    requires Perm(s, r, lo, hi)
    ensures Load(r, lo, hi) == Load(s, lo, hi)
  {
    SumPerm(s[lo..hi], r[lo..hi], Weigh());
  }

  lemma ReadyParts(s: seq<Item>, lo: nat, hi: nat, t: Tree<real>, m: real)
    requires ReadyIn(s, lo, hi, t, m)
    ensures lo < hi && t.forks >= 2 && t.nodeType in {BR_DISCR, THRESH_CONTIN, BR_SUBSET}
    ensures (t.nodeType == THRESH_CONTIN ==> t.forks == 2) && (t.nodeType == BR_SUBSET ==> |t.subset| == t.forks)
  {
    hide Goes;
    var a, b :| 1 <= a < b <= t.forks && Sum(s[lo..hi], InBranch(t, a)) >= m && Sum(s[lo..hi], InBranch(t, b)) >= m;
    var i := SomeMember(s[lo..hi], InBranch(t, a));
  }

  /** A leaf node turned into the test t. */
  function Tested(node: Tree<real>, t: Tree<real>, branch: seq<Tree<real>>, errors: real): Tree<real> {
    t.(leaf := node.leaf, items := node.items, dist := node.dist, branch := branch, errors := errors)
  }

  /** A test node with grown branches is grown, or collapses to a leaf. */
  lemma GrownNode(node: Tree<real>, t: Tree<real>, branch: seq<Tree<real>>, errors: real, n: nat, m: real)
    requires Grown(node, n, m) && node.items > 0.0 && |branch| == t.forks
    requires Items(branch) == node.items && Errors(branch) == errors && forall b :: b in branch ==> Grown(b, n, m)
    requires TwoBranches(branch, m) && node.dist[node.leaf] < node.items
    requires t.nodeType in {BR_DISCR, THRESH_CONTIN, BR_SUBSET}
    requires (t.nodeType == THRESH_CONTIN ==> t.forks == 2) && (t.nodeType == BR_SUBSET ==> |t.subset| == t.forks)
    ensures var r := Tested(node, t, branch, errors);
            if errors >= node.items - node.dist[node.leaf] - EPSILON then Grown(r.(nodeType := LEAF), n, m)
              else Grown(r, n, m)
  {
    hide Items, Errors;
  }

  /** A branch has at least the known weight that goes to it. */
  lemma ShareAtLeast(items: real, u: real, known: real, g: real)
    requires FairShare(items, u, known, g) && u >= 0.0 && known > 0.0 && g >= 0.0
    ensures items >= g
  {
    assert u * g >= 0.0;
    assert (u + known) * g == u * g + known * g;
    assert (items - g) * known >= 0.0;
    if items < g {
      NegativeProduct(items - g, known);
    }
  }

  lemma NegativeProduct(a: real, b: real)
    requires a < 0.0 && b > 0.0
    ensures a * b < 0.0
  {}

  /** Two branches have the weight the test promised. */
  lemma TwoBranchesHave(s: seq<Item>, kp: nat, hi: nat, t: Tree<real>, branch: seq<Tree<real>>, m: real)
    requires DividesIn(s, kp, hi, t, m) && |branch| == t.forks
    requires forall i :: 0 <= i < |branch| ==> branch[i].items >= BranchLoad(s, kp, hi, t, i + 1)
    ensures TwoBranches(branch, m)
  {
    hide Decides;
    var a, b :| 1 <= a < b <= t.forks && Sum(s[kp..hi], InBranch(t, a)) >= m && Sum(s[kp..hi], InBranch(t, b)) >= m;
    assert branch[a - 1].items >= BranchLoad(s, kp, hi, t, a);
    assert branch[b - 1].items >= BranchLoad(s, kp, hi, t, b);
  }

  lemma BranchLoadPositive(s: seq<Item>, lo: nat, hi: nat, t: Tree<real>, v: nat)
    requires AllPositive(s, lo, hi)
    ensures BranchLoad(s, lo, hi, t, v) >= 0.0
  {
    hide Goes;
    BranchSumPositive(s[lo..hi], t, v);
  }

  lemma {:induction false} BranchSumPositive(s: seq<Item>, t: Tree<real>, v: nat)
    requires Positive(s)
    ensures Sum(s, InBranch(t, v)) >= 0.0
  {
    if s != [] {
      BranchSumPositive(s[..|s| - 1], t, v);
    }
  }
}
