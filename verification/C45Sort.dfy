/** Quicksort's stretches of items below, at and above a threshold. */
module C45Sort {
  import opened C45Types
  import opened Weighted
  import opened Ranges
  import opened C45Cuts

  ghost predicate AtMost(s: seq<Item>, a: nat, t: real, lo: nat, hi: nat) {
    hi <= |s| && forall i :: lo <= i < hi ==> CVal(s[i].desc, a) <= t
  }

  ghost predicate Less(s: seq<Item>, a: nat, t: real, lo: nat, hi: nat) {
    hi <= |s| && forall i :: lo <= i < hi ==> CVal(s[i].desc, a) < t
  }

  ghost predicate Equal(s: seq<Item>, a: nat, t: real, lo: nat, hi: nat) {
    hi <= |s| && forall i :: lo <= i < hi ==> CVal(s[i].desc, a) == t
  }

  ghost predicate More(s: seq<Item>, a: nat, t: real, lo: nat, hi: nat) {
    hi <= |s| && forall i :: lo <= i < hi ==> CVal(s[i].desc, a) > t
  }

  lemma LowStep(s: seq<Item>, a: nat, t: real, fp: nat, m: nat, i: nat)
    requires fp <= m <= i < |s| && AtMost(s, a, t, fp, m) && More(s, a, t, m, i) && CVal(s[i].desc, a) <= t
    ensures AtMost(Swapped(s, m, i), a, t, fp, m + 1) && More(Swapped(s, m, i), a, t, m + 1, i + 1)
    ensures i == m ==> Swapped(s, m, i) == s
  {}

  lemma EqualStep(s: seq<Item>, a: nat, t: real, fp: nat, i: nat, l: nat, m: nat, lp: nat)
    requires fp <= i < l <= m <= lp < |s| && AtMost(s, a, t, fp, i + 1) && Less(s, a, t, i + 1, l)
    requires Equal(s, a, t, l, m) && More(s, a, t, m, lp) && CVal(s[i].desc, a) == t
    ensures AtMost(Swapped(s, l - 1, i), a, t, fp, i) && Less(Swapped(s, l - 1, i), a, t, i, l - 1)
    ensures Equal(Swapped(s, l - 1, i), a, t, l - 1, m) && More(Swapped(s, l - 1, i), a, t, m, lp)
    ensures i == l - 1 ==> Swapped(s, l - 1, i) == s
  {}

  lemma PermKeepsLess(s: seq<Item>, r: seq<Item>, a: nat, t: real, lo: nat, hi: nat)
    requires Perm(s, r, lo, hi) && Less(s, a, t, lo, hi)
    ensures Less(r, a, t, lo, hi)
  {
    PermMembers(s[lo..hi], r[lo..hi]);
    forall i | lo <= i < hi
      ensures CVal(r[i].desc, a) < t
    {
      assert r[i] in r[lo..hi];
    }
  }

  lemma PermKeepsMore(s: seq<Item>, r: seq<Item>, a: nat, t: real, lo: nat, hi: nat)
    requires Perm(s, r, lo, hi) && More(s, a, t, lo, hi)
    ensures More(r, a, t, lo, hi)
  {
    PermMembers(s[lo..hi], r[lo..hi]);
    forall i | lo <= i < hi
      ensures CVal(r[i].desc, a) > t
    {
      assert r[i] in r[lo..hi];
    }
  }

  /** The lower part has been sorted: the middle element is put in place. */
  lemma MiddlePlaced(s: seq<Item>, r: seq<Item>, a: nat, t: real, fp: nat, l: nat, m: nat, lp: nat)
    requires fp <= l <= m <= lp < |s| && Perm(s, r, fp, l) && SortedOn(r, a, fp, l)
    requires Less(s, a, t, fp, l) && Equal(s, a, t, l, m) && More(s, a, t, m, lp) && CVal(s[lp].desc, a) == t
    ensures Less(Swapped(r, m, lp), a, t, fp, l) && Equal(Swapped(r, m, lp), a, t, l, m + 1)
    ensures More(Swapped(r, m, lp), a, t, m + 1, lp + 1) && SortedOn(Swapped(r, m, lp), a, fp, l)
  {
    PermKeepsLess(s, r, a, t, fp, l);
    PermParts(s, r, fp, l);
  }

  /** The items below the last one are split around its value t: less up to l, equal up to m, more
      from there. */
  ghost predicate Parted(s0: seq<Item>, s: seq<Item>, a: nat, t: real, fp: nat, l: nat, m: nat, lp: nat) {
    && fp <= l <= m <= lp < |s| == |s0| && Perm(s0, s, fp, lp + 1) && t == CVal(s[lp].desc, a)
    && Less(s, a, t, fp, l) && Equal(s, a, t, l, m) && More(s, a, t, m, lp)
  }

  lemma PartedIs(s0: seq<Item>, s1: seq<Item>, s2: seq<Item>, a: nat, t: real, fp: nat, l: nat, m: nat, lp: nat)
    requires fp <= l <= m <= lp < |s0| && Perm(s0, s1, fp, lp) && Perm(s1, s2, fp, lp) && |s2| == |s0|
    requires t == CVal(s2[lp].desc, a) && Less(s2, a, t, fp, l) && Equal(s2, a, t, l, m) && More(s2, a, t, m, lp)
    ensures Parted(s0, s2, a, t, fp, l, m, lp)
  {
    hide Less, Equal, More;
    PermTrans(s0, s1, s2, fp, lp);
    PermWider(s0, s2, fp, lp, fp, lp + 1);
  }

  lemma PartedBounds(s0: seq<Item>, s: seq<Item>, a: nat, t: real, fp: nat, l: nat, m: nat, lp: nat)
    requires Parted(s0, s, a, t, fp, l, m, lp)
    ensures fp <= l <= m <= lp < |s|
  {}

  lemma LowerSorted(s0: seq<Item>, s2: seq<Item>, s3: seq<Item>, a: nat, t: real, fp: nat, l: nat, m: nat, lp: nat)
    requires Parted(s0, s2, a, t, fp, l, m, lp) && Perm(s2, s3, fp, l) && SortedOn(s3, a, fp, l)
    ensures |s3| == |s0| == |Swapped(s3, m, lp)| && Split(s0, Swapped(s3, m, lp), a, t, fp, l, m, lp + 1)
  {
    hide AtMost, Less, Equal, More, SortedOn;
    PermLength(s2, s3, fp, l);
    PermWider(s2, s3, fp, l, fp, lp + 1);
    PermTrans(s0, s2, s3, fp, lp + 1);
    SwappedPerm(s3, m, lp, fp, lp + 1);
    PermTrans(s0, s3, Swapped(s3, m, lp), fp, lp + 1);
    MiddlePlaced(s2, s3, a, t, fp, l, m, lp);
  }

  /** s is a permutation of s0 whose items from fp to hi fall into lower ones, already sorted, those
      with value t, up to and including m, and higher ones. */
  ghost predicate Split(s0: seq<Item>, s: seq<Item>, a: nat, t: real, fp: nat, l: nat, m: nat, hi: nat) {
    && Perm(s0, s, fp, hi) && Less(s, a, t, fp, l) && Equal(s, a, t, l, m + 1) && More(s, a, t, m + 1, hi)
      && SortedOn(s, a, fp, l)
  }

  /** Sorting the higher part completes the sort. */
  lemma HigherSorted(s0: seq<Item>, s: seq<Item>, r: seq<Item>, a: nat, t: real, fp: nat, l: nat, m: nat, hi: nat)
    requires fp <= l <= m < hi <= |s| && Perm(s, r, m + 1, hi) && SortedOn(r, a, m + 1, hi)
    requires Split(s0, s, a, t, fp, l, m, hi)
    ensures Perm(s0, r, fp, hi) && SortedOn(r, a, fp, hi)
  {
    PermWider(s, r, m + 1, hi, fp, hi);
    PermTrans(s0, s, r, fp, hi);
    PermKeepsMore(s, r, a, t, m + 1, hi);
    PermParts(s, r, m + 1, hi);
    HigherJoined(s, r, a, t, fp, l, m, hi);
  }

  lemma HigherJoined(s: seq<Item>, r: seq<Item>, a: nat, t: real, fp: nat, l: nat, m: nat, hi: nat)
    requires fp <= l <= m < hi <= |s| == |r| && SortedOn(r, a, m + 1, hi) && More(r, a, t, m + 1, hi)
    requires Less(s, a, t, fp, l) && Equal(s, a, t, l, m + 1) && SortedOn(s, a, fp, l)
    requires forall i :: fp <= i <= m ==> r[i] == s[i]
    ensures SortedOn(r, a, fp, hi)
  {}

  lemma EmptyStretch(s: seq<Item>, a: nat, t: real, i: nat)
    requires i <= |s|
    ensures AtMost(s, a, t, i, i) && More(s, a, t, i, i) && Less(s, a, t, i, i) && Equal(s, a, t, i, i)
  {}

  lemma MoreStep(s: seq<Item>, a: nat, t: real, m: nat, i: nat)
    requires More(s, a, t, m, i) && i < |s| && CVal(s[i].desc, a) > t
    ensures More(s, a, t, m, i + 1)
  {}

  lemma LessStep(s: seq<Item>, a: nat, t: real, fp: nat, i: nat, l: nat)
    requires AtMost(s, a, t, fp, i + 1) && Less(s, a, t, i + 1, l) && fp <= i < l && CVal(s[i].desc, a) != t
    ensures AtMost(s, a, t, fp, i) && Less(s, a, t, i, l)
  {}

  lemma SwappedElsewhere(s: seq<Item>, i: nat, j: nat, k: nat)
    requires i < |s| && j < |s| && k < |s| && k != i && k != j
    ensures Swapped(s, i, j)[k] == s[k] && |Swapped(s, i, j)| == |s|
  {}

  lemma ShortSorted(s: seq<Item>, a: nat, lo: nat, hi: nat)
    requires lo <= hi <= |s|
    ensures hi <= lo + 1 ==> SortedOn(s, a, lo, hi)
  {}

  lemma PermLength(s: seq<Item>, r: seq<Item>, lo: nat, hi: nat)
    requires Perm(s, r, lo, hi)
    ensures |r| == |s| && lo <= hi <= |s|
  {}
}
