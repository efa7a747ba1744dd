/** What a selection of rules for a class costs to encode, and what changes when one rule is added to
    it or dropped from it. */
module SiftCosts {

  /** What sifting works from. Rules are numbered from 1; match[r][i] says whether rule r fires on
      item i. The encoding of exceptions is any function of firings, false positives and false
      negatives. */
  datatype Base = Base(cls: seq<nat>, match_: seq<seq<bool>>, rhs: seq<nat>, bits: seq<real>, codeWeight: real,
                       exceptionBits: (int, int, int) -> real, logItemNo: seq<real>, logFact: seq<real>)

  /** The number of rules. */
  function Rules(t: Base): int { |t.rhs| - 1 }

  ghost predicate Sound(t: Base) {
    && |t.rhs| > 0 && |t.match_| == |t.bits| == |t.rhs|
    && (forall r :: 0 <= r < |t.match_| ==> |t.match_[r]| == |t.cls|)
    && Logs(t.logItemNo, t.logFact) && |t.logFact| > |t.rhs|
  }

  /** The second table adds up the first. */
  ghost predicate Logs(logItemNo: seq<real>, logFact: seq<real>) {
    && |logItemNo| == |logFact|
    && forall n, m :: 1 <= n < |logFact| && m == n - 1 ==> logFact[n] == logFact[m] + logItemNo[n]
  }

  /** Tables of the logarithms of numbers and of their factorials. */
  method GenerateLogs(log: nat -> real, size: nat) returns (logItemNo: seq<real>, logFact: seq<real>)
    requires size >= 2
    ensures |logItemNo| == size && Logs(logItemNo, logFact)
    ensures logItemNo[1] == 0.0 && forall i :: 2 <= i < size ==> logItemNo[i] == log(i)
    ensures logFact[0] == 0.0
  {
    logItemNo, logFact := [-100000000000000000000000000000000000000.0, 0.0], [0.0, 0.0];
    while |logFact| < size
      invariant 2 <= |logFact| <= size && Logs(logItemNo, logFact)
      invariant logItemNo[1] == 0.0 && forall i :: 2 <= i < |logFact| ==> logItemNo[i] == log(i)
      invariant logFact[0] == 0.0
    {
      var i := |logFact|;
      logItemNo := logItemNo + [log(i)];
      logFact := logFact + [logFact[i - 1] + logItemNo[i]];
    }
  }

  // ---- Selections -------------------------------------------------------------------------------

  type Selection = seq<bool>

  ghost predicate Fits(t: Base, s: Selection) { Sound(t) && |s| == |t.rhs| }

  ghost predicate OfClass(t: Base, c: nat, r: int) { 1 <= r < |t.rhs| && t.rhs[r] == c }

  function Flipped(s: Selection, r: nat): Selection
    requires r < |s|
  {
    s[r := !s[r]]
  }

  /** How many of the first rules are included, of class c, and fire on item i. */
  ghost function CoverTo(t: Base, c: nat, s: Selection, i: nat, n: nat): nat
    requires Fits(t, s) && i < |t.cls| && n < |t.rhs|
  {
    if n == 0 then 0 else CoverTo(t, c, s, i, n - 1) + if t.rhs[n] == c && s[n] && t.match_[n][i] then 1 else 0
  }

  /** How many included rules of class c cover each item. */
  ghost function Cover(t: Base, c: nat, s: Selection): (v: seq<int>)
    requires Fits(t, s)
    ensures |v| == |t.cls| && forall i :: 0 <= i < |v| ==> v[i] == CoverTo(t, c, s, i, Rules(t)) >= 0
  {
    seq(|t.cls|, i requires 0 <= i < |t.cls| => CoverTo(t, c, s, i, Rules(t)))
  }

  ghost function Selected(t: Base, c: nat, s: Selection, n: nat): nat
    requires Fits(t, s) && n < |t.rhs|
    ensures Selected(t, c, s, n) <= n
  {
    if n == 0 then 0 else Selected(t, c, s, n - 1) + if t.rhs[n] == c && s[n] then 1 else 0
  }

  ghost function SelectedBits(t: Base, c: nat, s: Selection, n: nat): real
    requires Fits(t, s) && n < |t.rhs|
  {
    if n == 0 then 0.0 else SelectedBits(t, c, s, n - 1) + if t.rhs[n] == c && s[n] then t.bits[n] else 0.0
  }

  /** Items covered, items covered that are of another class, and items of class c not covered, among
      the first k. */
  function Fires(v: seq<int>, k: nat): nat
    requires k <= |v|
  {
    if k == 0 then 0 else Fires(v, k - 1) + if v[k - 1] > 0 then 1 else 0
  }

  function FalsePos(cls: seq<nat>, c: nat, v: seq<int>, k: nat): nat
    requires k <= |v| == |cls|
  {
    if k == 0 then 0 else FalsePos(cls, c, v, k - 1) + if v[k - 1] > 0 && cls[k - 1] != c then 1 else 0
  }

  function FalseNeg(cls: seq<nat>, c: nat, v: seq<int>, k: nat): nat
    requires k <= |v| == |cls|
  {
    if k == 0 then 0 else FalseNeg(cls, c, v, k - 1) + if v[k - 1] <= 0 && cls[k - 1] == c then 1 else 0
  }

  function Times(a: real, b: real): real { a * b }

  /** The bits to encode the selection's rules for class c, in any order, and its exceptions. */
  ghost function Cost(t: Base, c: nat, s: Selection): real
    requires Fits(t, s)
  {
    Times(t.codeWeight, SelectedBits(t, c, s, Rules(t)) - t.logFact[Selected(t, c, s, Rules(t))])
    + t.exceptionBits(Fires(Cover(t, c, s), |t.cls|), FalsePos(t.cls, c, Cover(t, c, s), |t.cls|),
      FalseNeg(t.cls, c, Cover(t, c, s), |t.cls|))
  }

  // ---- One rule more or less --------------------------------------------------------------------

  /** Items for which rule r makes the difference: it fires, and no other included rule does. */
  predicate Decides(m: seq<bool>, v: seq<int>, included: bool, i: nat)
    requires i < |m| == |v|
  {
    m[i] && (v[i] == 0 || (v[i] == 1 && included))
  }

  function Right(cls: seq<nat>, c: nat, m: seq<bool>, v: seq<int>, included: bool, k: nat): nat
    requires k <= |v| == |cls| == |m|
  {
    if k == 0 then 0 else
    Right(cls, c, m, v, included, k - 1) + if Decides(m, v, included, k - 1) && cls[k - 1] == c then 1 else 0
  }

  function Wrong(cls: seq<nat>, c: nat, m: seq<bool>, v: seq<int>, included: bool, k: nat): nat
    requires k <= |v| == |cls| == |m|
  {
    if k == 0 then 0 else
    Wrong(cls, c, m, v, included, k - 1) + if Decides(m, v, included, k - 1) && cls[k - 1] != c then 1 else 0
  }

  /** The cover of the selection with rule r added, or dropped. */
  ghost predicate Covers(w: seq<int>, v: seq<int>, m: seq<bool>, d: int) {
    && |w| == |v| == |m|
    && forall i :: 0 <= i < |v| ==> v[i] >= 0 && w[i] >= 0 && w[i] == v[i] + if m[i] then d else 0
  }

  lemma {:induction false} FlipCover(t: Base, c: nat, s: Selection, r: nat, i: nat, n: nat)
    requires Fits(t, s) && i < |t.cls| && n < |t.rhs| && OfClass(t, c, r)
    ensures CoverTo(t, c, Flipped(s, r), i, n)
         == CoverTo(t, c, s, i, n) + if r <= n && t.match_[r][i] then (if s[r] then -1 else 1) else 0
  {
    if n > 0 {
      FlipCover(t, c, s, r, i, n - 1);
    }
  }

  lemma FlipCovers(t: Base, c: nat, s: Selection, r: nat)
    requires Fits(t, s) && OfClass(t, c, r)
    ensures Covers(Cover(t, c, Flipped(s, r)), Cover(t, c, s), t.match_[r], if s[r] then -1 else 1)
  {
    forall i | 0 <= i < |t.cls|
      ensures Cover(t, c, Flipped(s, r))[i] == Cover(t, c, s)[i] + if t.match_[r][i] then (if s[r] then -1 else 1)
              else 0
    {
      FlipCover(t, c, s, r, i, Rules(t));
    }
  }

  lemma {:induction false} FlipSelected(t: Base, c: nat, s: Selection, r: nat, n: nat)
    requires Fits(t, s) && n < |t.rhs| && OfClass(t, c, r)
    ensures Selected(t, c, Flipped(s, r), n) == Selected(t, c, s, n) + if r <= n then (if s[r] then -1 else 1) else 0
    ensures SelectedBits(t, c, Flipped(s, r), n)
         == SelectedBits(t, c, s, n) + if r <= n then (if s[r] then -t.bits[r] else t.bits[r]) else 0.0
  {
    if n > 0 {
      FlipSelected(t, c, s, r, n - 1);
    }
  }

  lemma {:induction false} FlipCounts(cls: seq<nat>, c: nat, m: seq<bool>, v: seq<int>, w: seq<int>, k: nat)
    requires k <= |v| == |cls| && Covers(w, v, m, 1)
    ensures Fires(w, k) == Fires(v, k) + Right(cls, c, m, v, false, k) + Wrong(cls, c, m, v, false, k)
    ensures FalsePos(cls, c, w, k) == FalsePos(cls, c, v, k) + Wrong(cls, c, m, v, false, k)
    ensures FalseNeg(cls, c, w, k) == FalseNeg(cls, c, v, k) - Right(cls, c, m, v, false, k)
  {
    if k > 0 {
      FlipCounts(cls, c, m, v, w, k - 1);
    }
  }

  lemma {:induction false} FlopCounts(cls: seq<nat>, c: nat, m: seq<bool>, v: seq<int>, w: seq<int>, k: nat)
    requires k <= |v| == |cls| && Covers(w, v, m, -1)
    ensures Fires(w, k) == Fires(v, k) - Right(cls, c, m, v, true, k) - Wrong(cls, c, m, v, true, k)
    ensures FalsePos(cls, c, w, k) == FalsePos(cls, c, v, k) - Wrong(cls, c, m, v, true, k)
    ensures FalseNeg(cls, c, w, k) == FalseNeg(cls, c, v, k) + Right(cls, c, m, v, true, k)
  {
    if k > 0 {
      FlopCounts(cls, c, m, v, w, k - 1);
    }
  }

  /** The cost with rule r flipped, from the counts of the selection as it is. */
  function NewBits(t: Base, included: bool, bits: real, ruleBits: real, selected: nat, fires: int, fp: int, fn: int,
                   right: int, wrong: int): real
    requires selected + 1 < |t.logItemNo|
  {
    if included then
      t.exceptionBits(fires - right - wrong, fp - wrong, fn + right)
        + Times(t.codeWeight, ruleBits - bits + t.logItemNo[selected])
    else
      t.exceptionBits(fires + right + wrong, fp + wrong, fn - right)
        + Times(t.codeWeight, ruleBits + bits - t.logItemNo[selected + 1])
  }

  /** What those counts predict is the cost of the flipped selection from scratch. */
  lemma FlippedCost(t: Base, c: nat, s: Selection, r: nat)
    requires Fits(t, s) && OfClass(t, c, r)
    ensures Cost(t, c, Flipped(s, r))
         == NewBits(t, s[r], t.bits[r], SelectedBits(t, c, s, Rules(t)) - t.logFact[Selected(t, c, s, Rules(t))],
           Selected(t, c, s, Rules(t)),
                    Fires(Cover(t, c, s), |t.cls|), FalsePos(t.cls, c, Cover(t, c, s), |t.cls|),
                      FalseNeg(t.cls, c, Cover(t, c, s), |t.cls|),
                    Right(t.cls, c, t.match_[r], Cover(t, c, s), s[r], |t.cls|),
                      Wrong(t.cls, c, t.match_[r], Cover(t, c, s), s[r], |t.cls|))
  {
    hide Times, CoverTo, Fires, FalsePos, FalseNeg, Right, Wrong, Selected, SelectedBits, Covers;
    var f, n := Flipped(s, r), Rules(t);
    FlipCovers(t, c, s, r);
    FlipSelected(t, c, s, r, n);
    if s[r] {
      FlopCounts(t.cls, c, t.match_[r], Cover(t, c, s), Cover(t, c, f), |t.cls|);
    } else {
      FlipCounts(t.cls, c, t.match_[r], Cover(t, c, s), Cover(t, c, f), |t.cls|);
    }
  }
}
