/** Finding the code vectors nearest to a sample: a search that stops adding up a distance as soon as it
    is too great, and what it has to agree with. */
module Knn {

  /** A winning entry: its place in the codebook, -1 for none, and its squared distance. */
  datatype Winner = Winner(index: int, diff: real)

  type Vector = seq<real>

  predicate Masked(mask: seq<bool>, i: nat) { i < |mask| && mask[i] }

  /** The mask, if there is one, has a place for every component; so do code vectors and sample. */
  ghost predicate Fits(codes: seq<Vector>, sample: Vector, mask: seq<bool>) {
    (mask == [] || |mask| == |sample|) && forall e :: 0 <= e < |codes| ==> |codes[e]| == |sample|
  }

  predicate AllMasked(sample: Vector, mask: seq<bool>) { forall i :: 0 <= i < |sample| ==> Masked(mask, i) }

  function Square(x: real): (y: real)
    ensures y >= 0.0
  {
    x * x
  }

  /** The squared distance over the first n components, those masked off left out. */
  function PartTo(code: Vector, sample: Vector, mask: seq<bool>, n: nat): (r: real)
    requires n <= |code| == |sample|
    ensures r >= 0.0
  {
    if n == 0 then 0.0 else
    PartTo(code, sample, mask, n - 1) + if Masked(mask, n - 1) then 0.0 else Square(code[n - 1] - sample[n - 1])
  }

  lemma {:induction false} PartsGrow(code: Vector, sample: Vector, mask: seq<bool>, m: nat, n: nat)
    requires m <= n <= |code| == |sample|
    ensures PartTo(code, sample, mask, m) <= PartTo(code, sample, mask, n)
  {
    hide Square;
    if m < n {
      PartsGrow(code, sample, mask, m, n - 1);
    }
  }

  function Distance(code: Vector, sample: Vector, mask: seq<bool>): (r: real)
    requires |code| == |sample|
  {
    PartTo(code, sample, mask, |code|)
  }

  /** The distances of all code vectors. */
  function Distances(codes: seq<Vector>, sample: Vector, mask: seq<bool>): (d: seq<real>)
    requires Fits(codes, sample, mask)
    ensures |d| == |codes| && forall e :: 0 <= e < |d| ==> d[e] == Distance(codes[e], sample, mask) >= 0.0
  {
    seq(|codes|, e requires 0 <= e < |codes| => Distance(codes[e], sample, mask))
  }

  // ---- Ranks ------------------------------------------------------------------------------------

  /** The nearer entry comes first, of equals the later one. */
  predicate Before(d: seq<real>, f: nat, e: nat)
    requires f < |d| && e < |d|
  {
    d[f] < d[e] || (d[f] == d[e] && f > e)
  }

  /** How many of the first n entries come before e, among those no farther than most. */
  function Rank(d: seq<real>, most: real, e: nat, n: nat): nat
    requires n <= |d| && e < |d|
  {
    if n == 0 then 0 else Rank(d, most, e, n - 1) + if d[n - 1] <= most && Before(d, n - 1, e) then 1 else 0
  }

  function Eligible(d: seq<real>, most: real, n: nat): nat
    requires n <= |d|
  {
    if n == 0 then 0 else Eligible(d, most, n - 1) + if d[n - 1] <= most then 1 else 0
  }

  /** Slot i holds the entry of rank i, or nothing when there are no more than i entries. */
  ghost predicate SlotHolds(d: seq<real>, most: real, n: nat, w: Winner, i: nat)
    requires n <= |d|
  {
    if i < Eligible(d, most, n) then
      0 <= w.index < n && d[w.index] <= most && Rank(d, most, w.index, n) == i && w.diff == d[w.index]
    else w == Winner(-1, most)
  }

  /** The slots hold the first entries of the codebook sorted by distance, later ones first among
      equals. */
  ghost predicate FirstOnes(d: seq<real>, most: real, n: nat, win: seq<Winner>)
    requires n <= |d|
  {
    forall i :: 0 <= i < |win| ==> SlotHolds(d, most, n, win[i], i)
  }

  lemma {:induction false} RankLess(d: seq<real>, most: real, f: nat, e: nat, n: nat)
    requires n <= |d| && e < |d| && f < |d| && Before(d, f, e) && d[f] <= most
    ensures Rank(d, most, f, n) + (if f < n then 1 else 0) <= Rank(d, most, e, n)
  {
    if n > 0 {
      RankLess(d, most, f, e, n - 1);
    }
  }

  /** Entries of the same rank are the same. */
  lemma RanksDiffer(d: seq<real>, most: real, f: nat, e: nat, n: nat)
    requires n <= |d| && e < n && f < n && d[f] <= most && d[e] <= most && Rank(d, most, f, n) == Rank(d, most, e, n)
    ensures f == e
  {
    if Before(d, f, e) {
      RankLess(d, most, f, e, n);
    } else if Before(d, e, f) {
      RankLess(d, most, e, f, n);
    }
  }

  /** There is only one way to fill the slots. */
  lemma OnlyOneWay(d: seq<real>, most: real, n: nat, a: seq<Winner>, b: seq<Winner>)
    requires n <= |d| && |a| == |b| && FirstOnes(d, most, n, a) && FirstOnes(d, most, n, b)
    ensures a == b
  {
    forall i | 0 <= i < |a|
      ensures a[i] == b[i]
    {
      assert SlotHolds(d, most, n, a[i], i) && SlotHolds(d, most, n, b[i], i);
      if i < Eligible(d, most, n) {
        RanksDiffer(d, most, a[i].index, b[i].index, n);
      }
    }
  }

  /** An entry with no other before it is the nearest, the last one of equals. */
  lemma {:induction false} FirstIsNearest(d: seq<real>, most: real, e: nat, n: nat)
    requires n <= |d| && e < |d| && Rank(d, most, e, n) == 0 && d[e] <= most
    ensures forall f :: 0 <= f < n ==> d[e] <= d[f] && (f > e ==> d[e] < d[f])
  {
    if n > 0 {
      FirstIsNearest(d, most, e, n - 1);
    }
  }

  /** How many of the first n entries are nearer than x. */
  function Nearer(d: seq<real>, most: real, x: real, n: nat): nat
    requires n <= |d|
  {
    if n == 0 then 0 else Nearer(d, most, x, n - 1) + if d[n - 1] <= most && d[n - 1] < x then 1 else 0
  }

  lemma {:induction false} NearerBounds(d: seq<real>, most: real, x: real, e: nat, n: nat)
    requires n <= |d| && e < |d| && d[e] <= most
    ensures d[e] >= x ==> Nearer(d, most, x, n) <= Rank(d, most, e, n)
    ensures d[e] < x ==> Rank(d, most, e, n) + (if e < n then 1 else 0) <= Nearer(d, most, x, n)
  {
    if n > 0 {
      NearerBounds(d, most, x, e, n - 1);
    }
  }

  lemma {:induction false} NearerAll(d: seq<real>, most: real, x: real, n: nat)
    requires n <= |d|
    ensures Nearer(d, most, x, n) <= Eligible(d, most, n)
  {
    if n > 0 {
      NearerAll(d, most, x, n - 1);
    }
  }

  /** The rank of an entry later than all those counted. */
  lemma {:induction false} RankOfNew(d: seq<real>, most: real, e: nat, n: nat)
    requires n <= e < |d|
    ensures Rank(d, most, e, n) == Nearer(d, most, d[e], n)
  {
    if n > 0 {
      RankOfNew(d, most, e, n - 1);
    }
  }

  // ---- One more entry ---------------------------------------------------------------------------

  /** The slots after an entry with distance x was put in at place i. */
  function Inserted(win: seq<Winner>, i: nat, w: Winner): (r: seq<Winner>)
    requires i < |win|
    ensures |r| == |win|
  {
    win[..i] + [w] + win[i..|win| - 1]
  }

  /** Place i is the first one not nearer than x. */
  ghost predicate PlaceOf(win: seq<Winner>, x: real, i: nat) {
    && i <= |win| && (forall j :: 0 <= j < i ==> x > win[j].diff)
    && (i < |win| ==> x <= win[i].diff)
  }

  lemma SlotRankBounds(d: seq<real>, most: real, n: nat, w: Winner, i: nat, x: real)
    requires n <= |d| && SlotHolds(d, most, n, w, i) && x <= most
    ensures x <= w.diff ==> Nearer(d, most, x, n) <= i
    ensures x > w.diff ==> i + 1 <= Nearer(d, most, x, n) && i < Eligible(d, most, n)
  {
    if i < Eligible(d, most, n) {
      NearerBounds(d, most, x, w.index, n);
    } else {
      NearerAll(d, most, x, n);
    }
  }

  /** As many entries are nearer than x as slots come before its place. */
  lemma PlaceIsRank(d: seq<real>, most: real, n: nat, win: seq<Winner>, x: real, i: nat)
    requires n <= |d| && FirstOnes(d, most, n, win) && PlaceOf(win, x, i) && x <= most
    ensures i < |win| ==> Nearer(d, most, x, n) == i
    ensures i == |win| ==> Nearer(d, most, x, n) >= i
  {
    hide SlotHolds;
    if i < |win| {
      SlotRankBounds(d, most, n, win[i], i, x);
    }
    if i > 0 {
      SlotRankBounds(d, most, n, win[i - 1], i - 1, x);
    }
  }

  /** A new entry that is not nearer than the entry of a slot leaves it where it is. */
  lemma SlotStays(d: seq<real>, most: real, n: nat, w: Winner, i: nat)
    requires n < |d| && SlotHolds(d, most, n, w, i) && (d[n] > most || d[n] > w.diff)
    ensures SlotHolds(d, most, n + 1, w, i)
  {}

  lemma SlotMoves(d: seq<real>, most: real, n: nat, w: Winner, i: nat)
    requires n < |d| && SlotHolds(d, most, n, w, i) && d[n] <= most && d[n] <= w.diff
    ensures SlotHolds(d, most, n + 1, w, i + 1)
  {}

  /** The slot before does not hold a farther entry. */
  lemma SlotsSorted(d: seq<real>, most: real, n: nat, v: Winner, i: nat, w: Winner, j: nat)
    requires n <= |d| && i <= j && SlotHolds(d, most, n, v, i) && SlotHolds(d, most, n, w, j)
    ensures v.diff <= w.diff
  {
    if j < Eligible(d, most, n) && v.diff > w.diff {
      RankLess(d, most, w.index, v.index, n);
    }
  }

  /** Putting in the next entry at its place, if it has one, keeps the slots right. */
  lemma EntryPutIn(d: seq<real>, most: real, n: nat, win: seq<Winner>, i: nat)
    requires n < |d| && FirstOnes(d, most, n, win) && d[n] <= most && PlaceOf(win, d[n], i) && i < |win|
    ensures FirstOnes(d, most, n + 1, Inserted(win, i, Winner(n, d[n])))
  {
    hide SlotHolds;
    var r, w := Inserted(win, i, Winner(n, d[n])), Winner(n, d[n]);
    forall j | 0 <= j < |r|
      ensures SlotHolds(d, most, n + 1, r[j], j)
    {
      if j < i {
        SlotStays(d, most, n, win[j], j);
      } else if j == i {
        PlaceIsRank(d, most, n, win, d[n], i);
        NewSlot(d, most, n, i);
      } else {
        SlotsSorted(d, most, n, win[i], i, win[j - 1], j - 1);
        SlotMoves(d, most, n, win[j - 1], j - 1);
      }
    }
  }

  lemma NewSlot(d: seq<real>, most: real, n: nat, i: nat)
    requires n < |d| && d[n] <= most && Nearer(d, most, d[n], n) == i
    ensures SlotHolds(d, most, n + 1, Winner(n, d[n]), i)
  {
    RankOfNew(d, most, n, n);
    NearerAll(d, most, d[n], n);
  }

  /** An entry farther than the last slot, or than any can be, changes nothing. */
  lemma EntryLeftOut(d: seq<real>, most: real, n: nat, win: seq<Winner>)
    requires n < |d| && FirstOnes(d, most, n, win)
    requires forall i :: 0 <= i < |win| ==> d[n] > win[i].diff
    ensures FirstOnes(d, most, n + 1, win)
  {
    hide SlotHolds;
    forall i | 0 <= i < |win|
      ensures SlotHolds(d, most, n + 1, win[i], i)
    {
      SlotStays(d, most, n, win[i], i);
    }
  }

  /** No slot is farther than the last one, and none farther than most. */
  lemma LastSlotIsFarthest(d: seq<real>, most: real, n: nat, win: seq<Winner>)
    requires n <= |d| && FirstOnes(d, most, n, win) && win != []
    ensures forall i :: 0 <= i < |win| ==> win[i].diff <= win[|win| - 1].diff <= most
  {
    forall i | 0 <= i < |win|
      ensures win[i].diff <= win[|win| - 1].diff <= most
    {
      SlotsSorted(d, most, n, win[i], i, win[|win| - 1], |win| - 1);
      assert SlotHolds(d, most, n, win[|win| - 1], |win| - 1);
    }
  }

  // ---- The program ------------------------------------------------------------------------------

  /** Adds up the distance until it is greater than limit; masked counts the components passed over. */
  method PartialDistance(code: Vector, sample: Vector, mask: seq<bool>, limit: real)
    returns (difference: real, masked: nat)
    requires |code| == |sample| && (mask == [] || |mask| == |sample|) && limit >= 0.0
    ensures difference <= limit ==> difference == Distance(code, sample, mask)
    ensures difference > limit ==> Distance(code, sample, mask) > limit
    ensures masked == |sample| <==> AllMasked(sample, mask)
  {
    hide Square;
    difference, masked := 0.0, 0;
    var i := 0;
    while i < |sample|
      invariant 0 <= i <= |sample| && difference == PartTo(code, sample, mask, i) <= limit
      invariant masked <= i && (masked == i <==> forall j :: 0 <= j < i ==> Masked(mask, j))
    {
      if mask != [] && mask[i] {
        masked := masked + 1;
      } else {
        var diff := code[i] - sample[i];
        difference := difference + Square(diff);
        if difference > limit {
          PartsGrow(code, sample, mask, i + 1, |sample|);
          assert !Masked(mask, i);
          return;
        }
      }
      i := i + 1;
    }
  }

  /** The nearest entry nearer than most, the first one of equals. No answer for a sample that is
      masked off altogether. */
  method FindWinnerEuc(codes: seq<Vector>, sample: Vector, mask: seq<bool>, most: real, win: array<Winner>)
    returns (n: nat)
    requires Fits(codes, sample, mask) && most >= 0.0 && win.Length >= 1
    modifies win
    ensures win[1..] == old(win[1..])
    ensures codes != [] && AllMasked(sample, mask) ==> n == 0 && win[0] == Winner(-1, -1.0)
    ensures !(codes != [] && AllMasked(sample, mask)) ==>
              n == 1 && NearestOf(Distances(codes, sample, mask), most, |codes|, win[0])
  {
    hide Distance;
    ghost var d := Distances(codes, sample, mask);
    win[0] := Winner(-1, -1.0);
    var diffsf := most;
    var e := 0;
    while e < |codes|
      invariant 0 <= e <= |codes| && win[1..] == old(win[1..])
      invariant NearestOf(d, most, e, win[0]) && diffsf == (if win[0].index < 0 then most else win[0].diff) >= 0.0
      invariant e > 0 ==> !AllMasked(sample, mask)
    {
      var difference, masked := PartialDistance(codes[e], sample, mask, diffsf);
      if masked == |sample| {
        assert e == 0;
        return 0;
      }
      if difference < diffsf {
        win[0] := Winner(e, difference);
        diffsf := difference;
      }
      e := e + 1;
    }
    return 1;
  }

  /** The first of the nearest among the first n entries, or none if none is nearer than most. */
  ghost predicate NearestOf(d: seq<real>, most: real, n: nat, w: Winner)
    requires n <= |d|
  {
    if w.index < 0 then w == Winner(-1, -1.0) && forall e :: 0 <= e < n ==> d[e] >= most
    else
      && w.index < n && w.diff == d[w.index] < most
      && (forall e :: 0 <= e < n ==> d[w.index] <= d[e])
      && (forall e :: 0 <= e < w.index ==> d[w.index] < d[e])
  }

  /** The k nearest entries. For k of at least 2 they are the first k of the codebook sorted by
      distance, later entries first among equals; a single nearest entry is the first of equals. */
  method FindWinnerKnn(codes: seq<Vector>, sample: Vector, mask: seq<bool>, most: real, win: array<Winner>, knn: nat)
    returns (n: nat)
    requires Fits(codes, sample, mask) && most >= 0.0 && 1 <= knn <= win.Length
    modifies win
    ensures win[knn..] == old(win[knn..])
    ensures codes != [] && AllMasked(sample, mask) ==> n == 0
    ensures !(codes != [] && AllMasked(sample, mask)) ==> n == knn
    ensures n == 1 ==> NearestOf(Distances(codes, sample, mask), most, |codes|, win[0])
    ensures n >= 2 ==> FirstOnes(Distances(codes, sample, mask), most, |codes|, win[..knn])
  {
    hide Distance, FirstOnes, NearestOf;
    if knn == 1 {
      n := FindWinnerEuc(codes, sample, mask, most, win);
      return;
    }
    ghost var d := Distances(codes, sample, mask);
    var i := 0;
    while i < knn
      invariant 0 <= i <= knn && win[knn..] == old(win[knn..]) && forall j :: 0 <= j < i ==> win[j] == Winner(-1, most)
    {
      win[i] := Winner(-1, most);
      i := i + 1;
    }
    NoneYet(d, most, win[..knn]);
    var e := 0;
    while e < |codes|
      invariant 0 <= e <= |codes| && win[knn..] == old(win[knn..]) && FirstOnes(d, most, e, win[..knn])
      invariant e > 0 ==> !AllMasked(sample, mask)
    {
      LastSlotIsFarthest(d, most, e, win[..knn]);
      LastNotNegative(d, most, e, win[..knn]);
      assert win[..knn][knn - 1] == win[knn - 1];
      var difference, masked := PartialDistance(codes[e], sample, mask, win[knn - 1].diff);
      if masked == |sample| {
        return 0;
      }
      Place(win, knn, e, difference, d, most);
      e := e + 1;
    }
    return knn;
  }

  lemma NoneYet(d: seq<real>, most: real, win: seq<Winner>)
    requires forall j :: 0 <= j < |win| ==> win[j] == Winner(-1, most)
    ensures FirstOnes(d, most, 0, win)
  {}

  lemma LastNotNegative(d: seq<real>, most: real, n: nat, win: seq<Winner>)
    requires n <= |d| && FirstOnes(d, most, n, win) && win != [] && most >= 0.0
    requires forall e :: 0 <= e < |d| ==> d[e] >= 0.0
    ensures win[|win| - 1].diff >= 0.0
  {
    assert SlotHolds(d, most, n, win[|win| - 1], |win| - 1);
  }

  /** Puts entry e in at the first slot that is not nearer, moving the others back. */
  method Place(win: array<Winner>, knn: nat, e: nat, difference: real, ghost d: seq<real>, ghost most: real)
    requires 1 <= knn <= win.Length && e < |d| && FirstOnes(d, most, e, win[..knn])
    requires win[knn - 1].diff <= most && forall i :: 0 <= i < knn ==> win[i].diff <= win[knn - 1].diff
    requires difference <= win[knn - 1].diff ==> difference == d[e]
    requires difference > win[knn - 1].diff ==> d[e] > win[knn - 1].diff
    modifies win
    ensures win[knn..] == old(win[knn..]) && FirstOnes(d, most, e + 1, win[..knn])
  {
    hide FirstOnes;
    ghost var w0 := win[..knn];
    assert forall i :: 0 <= i < knn ==> w0[i] == win[i];
    var i := 0;
    while i < knn && difference > win[i].diff
      invariant 0 <= i <= knn && forall j :: 0 <= j < i ==> difference > win[j].diff
    {
      i := i + 1;
    }
    if i < knn {
      assert difference == d[e];
      MoveBack(win, knn, i);
      win[i] := Winner(e, difference);
      assert win[..knn] == Inserted(w0, i, Winner(e, d[e]));
      EntryPutIn(d, most, e, w0, i);
    } else {
      EntryLeftOut(d, most, e, w0);
      assert win[..knn] == w0;
    }
  }

  method MoveBack(win: array<Winner>, knn: nat, i: nat)
    requires i < knn <= win.Length
    modifies win
    ensures win[knn..] == old(win[knn..]) && forall j :: 0 <= j <= i ==> win[j] == old(win[j])
    ensures forall j :: i < j < knn ==> win[j] == old(win[..])[j - 1]
  {
    ghost var w0 := win[..];
    var j := knn - 1;
    while j > i
      invariant i <= j < knn && win[knn..] == old(win[knn..])
      invariant forall l :: 0 <= l <= j ==> win[l] == w0[l]
      invariant forall l :: j < l < knn ==> win[l] == w0[l - 1]
    {
      win[j] := win[j - 1];
      j := j - 1;
    }
  }
}
