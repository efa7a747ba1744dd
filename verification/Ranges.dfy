/** Permutations that stay inside one stretch of a sequence of weighted cases. */
module Ranges {
  import opened C45Types
  import opened Weighted

  /** s' is s with the stretch from lo up to hi permuted. */
  ghost predicate Perm(s: seq<Item>, s': seq<Item>, lo: nat, hi: nat) {
    && |s'| == |s| && lo <= hi <= |s|
    && s'[..lo] == s[..lo] && s'[hi..] == s[hi..]
    && multiset(s'[lo..hi]) == multiset(s[lo..hi])
  }

  function Swapped(s: seq<Item>, a: nat, b: nat): seq<Item>
    requires a < |s| && b < |s|
  {
    s[a := s[b]][b := s[a]]
  }

  lemma SwappedPerm(s: seq<Item>, a: nat, b: nat, lo: nat, hi: nat)
    requires lo <= a < hi <= |s| && lo <= b < hi
    ensures Perm(s, Swapped(s, a, b), lo, hi)
  {
    var s', t := Swapped(s, a, b), s[lo..hi];
    assert t[a - lo] == s[a] && t[b - lo] == s[b];
    assert s'[lo..hi] == t[a - lo := t[b - lo]][b - lo := t[a - lo]];
    SwapMultiset(t, a - lo, b - lo);
  }

  lemma SwapMultiset<T>(s: seq<T>, a: nat, b: nat)
    requires a < |s| && b < |s|
    ensures multiset(s[a := s[b]][b := s[a]]) == multiset(s)
  {}

  lemma PermSelf(s: seq<Item>, lo: nat, hi: nat)
    requires lo <= hi <= |s|
    ensures Perm(s, s, lo, hi)
  {}

  lemma PermTrans(s: seq<Item>, t: seq<Item>, u: seq<Item>, lo: nat, hi: nat)
    requires Perm(s, t, lo, hi) && Perm(t, u, lo, hi)
    ensures Perm(s, u, lo, hi)
  {}

  lemma PermWider(s: seq<Item>, t: seq<Item>, lo: nat, hi: nat, lo': nat, hi': nat)
    requires Perm(s, t, lo, hi) && lo' <= lo && hi <= hi' <= |s|
    ensures Perm(s, t, lo', hi')
  {
    assert s[lo'..hi'] == s[lo'..lo] + s[lo..hi] + s[hi..hi'];
    assert t[lo'..hi'] == t[lo'..lo] + t[lo..hi] + t[hi..hi'];
    assert t[lo'..lo] == t[..lo][lo'..] == s[lo'..lo];
    assert t[hi..hi'] == t[hi..][..hi' - hi] == s[hi..hi'];
    assert t[..lo'] == t[..lo][..lo'] && s[..lo'] == s[..lo][..lo'];
    assert t[hi'..] == t[hi..][hi' - hi..] && s[hi'..] == s[hi..][hi' - hi..];
  }

  /** What a permuted stretch shares with the original. */
  lemma PermParts(s: seq<Item>, t: seq<Item>, lo: nat, hi: nat)
    requires Perm(s, t, lo, hi)
    ensures forall x :: x in t[lo..hi] <==> x in s[lo..hi]
    ensures forall i :: 0 <= i < lo || hi <= i < |s| ==> t[i] == s[i]
  {
    PermMembers(s[lo..hi], t[lo..hi]);
    forall i | 0 <= i < lo
      ensures t[i] == s[i]
    {
      assert t[i] == t[..lo][i] && s[i] == s[..lo][i];
    }
    forall i | hi <= i < |s|
      ensures t[i] == s[i]
    {
      assert t[i] == t[hi..][i - hi] && s[i] == s[hi..][i - hi];
    }
  }

  /** Two adjacent stretches permuted each in itself. */
  lemma PermJoin(s: seq<Item>, t: seq<Item>, lo: nat, mid: nat, hi: nat)
    requires |s| == |t| && lo <= mid <= hi <= |s| && s[..lo] == t[..lo] && s[hi..] == t[hi..]
    requires multiset(s[lo..mid]) == multiset(t[lo..mid]) && multiset(s[mid..hi]) == multiset(t[mid..hi])
    ensures Perm(s, t, lo, hi)
  {
    assert s[lo..hi] == s[lo..mid] + s[mid..hi];
    assert t[lo..hi] == t[lo..mid] + t[mid..hi];
  }
}
