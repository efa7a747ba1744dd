/** Sifting rules: finding, class by class, a selection of its rules that is cheap to encode. */
module SiftRules {
  import opened SiftCosts

  /** Selections that differ from s only in the first n of the listed rules. */
  ghost predicate Variant(w: Selection, s: Selection, rules: seq<int>, n: nat) {
    && |w| == |s| && n <= |rules|
    && forall r :: 0 <= r < |s| && w[r] != s[r] ==> r in rules[..n]
  }

  /** The rules of class c, each once. */
  ghost predicate Lists(t: Base, c: nat, rules: seq<int>) {
    && (forall r :: r in rules <==> OfClass(t, c, r))
    && (forall i, j :: 0 <= i < j < |rules| ==> rules[i] != rules[j])
  }

  /** What flipping rule r gains. */
  ghost function Gain(t: Base, c: nat, s: Selection, r: int): real
    requires Fits(t, s) && 0 <= r < |s|
  {
    Cost(t, c, s) - Cost(t, c, Flipped(s, r))
  }

  /** No single rule added or dropped makes the selection cheaper. */
  ghost predicate LocallyBest(t: Base, c: nat, s: Selection)
    requires Fits(t, s)
  {
    forall r :: OfClass(t, c, r) ==> Gain(t, c, s, r) <= 0.0
  }

  class Sifter {
    const t: Base
    var focus: nat
    const covered: array<int>
    const ruleIn: array<bool>
    const right: array<int>
    const wrong: array<int>
    const value: array<real>
    const subset: array<bool>
    const classRules: array<int>
    var subsetValue: real

    constructor (t: Base)
      requires Sound(t)
      ensures Valid() && this.t == t && fresh(covered) && fresh(ruleIn) && fresh(right) && fresh(wrong) && fresh(value)
      ensures fresh(subset) && fresh(classRules)
    {
      this.t := t;
      focus, subsetValue := 0, 0.0;
      covered := new int[|t.cls|];
      ruleIn, subset := new bool[|t.rhs|], new bool[|t.rhs|];
      right, wrong, classRules := new int[|t.rhs|], new int[|t.rhs|], new int[|t.rhs|];
      value := new real[|t.rhs|];
    }

    ghost predicate Valid() {
      && Sound(t) && covered.Length == |t.cls|
      && ruleIn.Length == right.Length == wrong.Length == value.Length == subset.Length == classRules.Length == |t.rhs|
      && covered != right && covered != wrong && right != wrong && ruleIn != subset
      && classRules != covered && classRules != right && classRules != wrong
    }

    /** Covered holds how many included rules of the class in focus cover each item. */
    ghost predicate Covering()
      reads this, covered, ruleIn
    {
      Valid() && covered[..] == Cover(t, focus, ruleIn[..])
    }

    // ---- The value of each rule -----------------------------------------------------------------

    method CountExceptions() returns (sumCover: int, fPos: int, fNeg: int)
      requires Covering()
      ensures sumCover == Fires(Cover(t, focus, ruleIn[..]), |t.cls|)
      ensures fPos == FalsePos(t.cls, focus, Cover(t, focus, ruleIn[..]), |t.cls|)
      ensures fNeg == FalseNeg(t.cls, focus, Cover(t, focus, ruleIn[..]), |t.cls|)
    {
      hide CoverTo;
      ghost var v := Cover(t, focus, ruleIn[..]);
      assert forall i :: 0 <= i < |v| ==> v[i] == covered[..][i] == covered[i];
      sumCover, fPos, fNeg := 0, 0, 0;
      var i := 0;
      while i < |t.cls|
        invariant 0 <= i <= |t.cls|
        invariant sumCover == Fires(v, i) && fPos == FalsePos(t.cls, focus, v, i)
                  && fNeg == FalseNeg(t.cls, focus, v, i)
      {
        var c := t.cls[i];
        if covered[i] != 0 {
          sumCover := sumCover + 1;
          if c != focus {
            fPos := fPos + 1;
          }
        } else if c == focus {
          fNeg := fNeg + 1;
        }
        i := i + 1;
      }
    }

    method CountFirings(r: nat)
      requires Covering() && OfClass(t, focus, r)
      modifies right, wrong
      ensures right[..] == old(right[..])[r :=
              Right(t.cls, focus, t.match_[r], Cover(t, focus, ruleIn[..]), ruleIn[r], |t.cls|)]
      ensures wrong[..] == old(wrong[..])[r :=
              Wrong(t.cls, focus, t.match_[r], Cover(t, focus, ruleIn[..]), ruleIn[r], |t.cls|)]
    {
      hide CoverTo;
      ghost var v := Cover(t, focus, ruleIn[..]);
      assert forall i :: 0 <= i < |v| ==> v[i] == covered[..][i] == covered[i];
      right[r], wrong[r] := 0, 0;
      var ruleMatch := t.match_[r];
      var i := 0;
      while i < |t.cls|
        invariant 0 <= i <= |t.cls|
        invariant right[..] == old(right[..])[r := Right(t.cls, focus, ruleMatch, v, ruleIn[r], i)]
        invariant wrong[..] == old(wrong[..])[r := Wrong(t.cls, focus, ruleMatch, v, ruleIn[r], i)]
      {
        if ruleMatch[i] {
          var times := covered[i];
          if times == 0 || (times == 1 && ruleIn[r]) {
            if t.cls[i] == focus {
              right[r] := right[r] + 1;
            } else {
              wrong[r] := wrong[r] + 1;
            }
          }
        }
        i := i + 1;
      }
    }

    /** For every rule of the class, right and wrong firings. */
    ghost predicate Counted(s: Selection, right: seq<int>, wrong: seq<int>, n: nat)
      requires Fits(t, s)
      reads this
    {
      && n <= |s| == |right| == |wrong|
      && forall r :: OfClass(t, focus, r) && r < n ==>
           && right[r] == Right(t.cls, focus, t.match_[r], Cover(t, focus, s), s[r], |t.cls|)
           && wrong[r] == Wrong(t.cls, focus, t.match_[r], Cover(t, focus, s), s[r], |t.cls|)
    }

    method CountAll() returns (ruleBits: real, selected: nat)
      requires Covering()
      modifies right, wrong
      ensures ruleBits == SelectedBits(t, focus, ruleIn[..], Rules(t))
              && selected == Selected(t, focus, ruleIn[..], Rules(t))
      ensures Counted(ruleIn[..], right[..], wrong[..], |t.rhs|)
    {
      hide CoverTo, Right, Wrong;
      ghost var s := ruleIn[..];
      ruleBits, selected := 0.0, 0;
      var r := 1;
      while r < |t.rhs|
        invariant 1 <= r <= |t.rhs| && ruleIn[..] == s && Covering()
        invariant ruleBits == SelectedBits(t, focus, s, r - 1) && selected == Selected(t, focus, s, r - 1)
        invariant Counted(s, right[..], wrong[..], r)
      {
        if t.rhs[r] == focus {
          if ruleIn[r] {
            ruleBits := ruleBits + t.bits[r];
            selected := selected + 1;
          }
          CountFirings(r);
        }
        r := r + 1;
      }
    }

    /** Each value is the difference that flipping its rule makes to the cost recomputed from scratch;
        a selection cheaper than any before is remembered. */
    method CalculateValue()
      requires Covering()
      modifies right, wrong, value, subset, `subsetValue
      ensures Covering()
      ensures forall r :: OfClass(t, focus, r) ==>
                value[r] == if ruleIn[r] then -Gain(t, focus, ruleIn[..], r) else Gain(t, focus, ruleIn[..], r)
      ensures Remembered(t, focus, ruleIn[..], old(subsetValue), old(subset[..]), subsetValue, subset[..])
    {
      hide CoverTo, Right, Wrong, Fires, FalsePos, FalseNeg, Cover, Cost, NewBits, Selected, SelectedBits, Times;
      ghost var s := ruleIn[..];
      var sumCover, fPos, fNeg := CountExceptions();
      var ruleBits, selected := CountAll();
      assert selected < |t.logFact| && selected + 1 < |t.logItemNo| by { SelectedBound(t, focus, s); }
      ruleBits := ruleBits - t.logFact[selected];
      var baseBits := Times(t.codeWeight, ruleBits) + t.exceptionBits(sumCover, fPos, fNeg);
      CostIs(t, focus, s);
      var r := 1;
      while r < |t.rhs|
        invariant 1 <= r <= |t.rhs| && ruleIn[..] == s
        invariant Counted(s, right[..], wrong[..], |t.rhs|)
        invariant subset[..] == old(subset[..]) && subsetValue == old(subsetValue)
        invariant forall q :: OfClass(t, focus, q) && q < r ==>
                    value[q] == if s[q] then -Gain(t, focus, s, q) else Gain(t, focus, s, q)
      {
        if t.rhs[r] == focus {
          var newBits := NewBits(t, ruleIn[r], t.bits[r], ruleBits, selected, sumCover, fPos, fNeg, right[r], wrong[r]);
          FlippedCost(t, focus, s, r);
          value[r] := if ruleIn[r] then newBits - baseBits else baseBits - newBits;
        }
        r := r + 1;
      }
      if baseBits < subsetValue {
        subsetValue := baseBits;
        Copy(ruleIn, subset);
      }
    }

    static method Copy(from: array<bool>, to: array<bool>)
      requires from.Length == to.Length && from != to
      modifies to
      ensures to[..] == from[..]
    {
      var i := 0;
      while i < from.Length
        invariant 0 <= i <= from.Length && to[..i] == from[..i]
      {
        to[i] := from[i];
        i := i + 1;
      }
    }

    // ---- Adding and deleting rules --------------------------------------------------------------

    method AddRule(r: nat)
      requires Covering() && OfClass(t, focus, r) && !ruleIn[r]
      modifies ruleIn, covered
      ensures Covering() && ruleIn[..] == Flipped(old(ruleIn[..]), r)
    {
      hide CoverTo;
      ghost var s := ruleIn[..];
      FlipCovers(t, focus, s, r);
      ruleIn[r] := true;
      var i := 0;
      while i < |t.cls|
        invariant 0 <= i <= |t.cls| && ruleIn[..] == Flipped(s, r)
        invariant forall j :: 0 <= j < i ==> covered[j] == Cover(t, focus, Flipped(s, r))[j]
        invariant forall j :: i <= j < |t.cls| ==> covered[j] == Cover(t, focus, s)[j]
      {
        if t.match_[r][i] {
          covered[i] := covered[i] + 1;
        }
        i := i + 1;
      }
    }

    method DeleteRule(r: nat)
      requires Covering() && OfClass(t, focus, r) && ruleIn[r]
      modifies ruleIn, covered
      ensures Covering() && ruleIn[..] == Flipped(old(ruleIn[..]), r)
    {
      hide CoverTo;
      ghost var s := ruleIn[..];
      FlipCovers(t, focus, s, r);
      ruleIn[r] := false;
      var i := 0;
      while i < |t.cls|
        invariant 0 <= i <= |t.cls| && ruleIn[..] == Flipped(s, r)
        invariant forall j :: 0 <= j < i ==> covered[j] == Cover(t, focus, Flipped(s, r))[j]
        invariant forall j :: i <= j < |t.cls| ==> covered[j] == Cover(t, focus, s)[j]
      {
        if t.match_[r][i] {
          covered[i] := covered[i] - 1;
        }
        i := i + 1;
      }
    }

    // ---- Trying all combinations ----------------------------------------------------------------

    /** The first n listed rules are different rules of the class in focus, none of them included. */
    ghost predicate Free(n: nat)
      reads this, classRules, ruleIn
    {
      && Valid() && n < classRules.Length
      && (forall j :: 1 <= j <= n ==> OfClass(t, focus, classRules[j]) && !ruleIn[classRules[j]])
      && (forall i, j :: 1 <= i < j <= n ==> classRules[i] != classRules[j])
    }

    /** Every selection that adds some of the first n listed rules is evaluated; the cheapest is
        remembered if it beats what was best before, and everything is put back. */
    method AllCombinations(n: nat)
      requires Covering() && Free(n)
      modifies ruleIn, covered, right, wrong, value, subset, `subsetValue
      ensures Covering() && Free(n) && ruleIn[..] == old(ruleIn[..]) && covered[..] == old(covered[..])
      ensures Searched(t, focus, ruleIn[..], classRules[1..], n, old(subsetValue), old(subset[..]), subsetValue,
              subset[..])
      decreases n
    {
      hide Cover, CoverTo, Cost, Searched;
      ghost var s, v0, b0 := ruleIn[..], subsetValue, subset[..];
      if n == 0 {
        CalculateValue();
        SearchedOne(t, focus, s, classRules[1..], v0, b0, subsetValue, subset[..]);
      } else {
        var r := classRules[n];
        AllCombinations(n - 1);
        ghost var v1, b1 := subsetValue, subset[..];
        AddRule(r);
        AllCombinations(n - 1);
        DeleteRule(r);
        assert Flipped(Flipped(s, r), r) == s;
        SearchedBoth(t, focus, s, classRules[1..], n, v0, b0, v1, b1, subsetValue, subset[..]);
      }
    }

    // ---- Climbing -------------------------------------------------------------------------------

    /** Counts again how many included rules of the class cover each item. */
    method FindCovered(count: nat)
      requires Valid() && count < classRules.Length && Lists(t, focus, classRules[1..count + 1])
      modifies covered
      ensures Covering()
    {
      hide CoverTo;
      var i := 0;
      while i < covered.Length
        invariant 0 <= i <= covered.Length && forall j :: 0 <= j < i ==> covered[j] == 0
      {
        covered[i] := 0;
        i := i + 1;
      }
      var ri := 1;
      ghost var s := ruleIn[..];
      while ri <= count
        invariant 1 <= ri <= count + 1
        invariant forall j :: 0 <= j < |t.cls| ==> covered[j] == ListedCover(t, s, classRules[1..count + 1], ri - 1, j)
      {
        var r := classRules[ri];
        assert r == classRules[1..count + 1][ri - 1] && r in classRules[1..count + 1];
        if ruleIn[r] {
          ghost var was := covered[..];
          i := 0;
          while i < |t.cls|
            invariant 0 <= i <= |t.cls|
            invariant forall j :: 0 <= j < i ==> covered[j] == was[j] + if t.match_[r][j] then 1 else 0
            invariant forall j :: i <= j < |t.cls| ==> covered[j] == was[j]
          {
            if t.match_[r][i] {
              covered[i] := covered[i] + 1;
            }
            i := i + 1;
          }
        }
        ri := ri + 1;
      }
      forall j | 0 <= j < |t.cls|
        ensures covered[j] == Cover(t, focus, s)[j]
      {
        ListedCovers(t, focus, s, classRules[1..count + 1], j);
      }
      assert covered[..] == Cover(t, focus, s);
    }

    /** The rule whose flipping gains most, 0 when none gains. */
    method BestFlip(count: nat) returns (best: int)
      requires Covering() && count < classRules.Length && Lists(t, focus, classRules[1..count + 1])
      requires forall r :: OfClass(t, focus, r) ==>
                 value[r] == if ruleIn[r] then -Gain(t, focus, ruleIn[..], r) else Gain(t, focus, ruleIn[..], r)
      ensures best == 0 ==> LocallyBest(t, focus, ruleIn[..])
      ensures best != 0 ==> BestGain(t, focus, ruleIn[..], best)
    {
      hide Cover, CoverTo, Cost, Gain;
      ghost var s, listed := ruleIn[..], classRules[1..count + 1];
      best := 0;
      var bestDelta := 0.0;
      var ri := 1;
      while ri <= count
        invariant 1 <= ri <= count + 1 && bestDelta >= 0.0
        invariant best == 0 ==> bestDelta == 0.0
        invariant best != 0 ==> OfClass(t, focus, best) && bestDelta == Gain(t, focus, s, best) > 0.0
        invariant forall j :: 0 <= j < ri - 1 ==> listed[j] in listed && Gain(t, focus, s, listed[j]) <= bestDelta
      {
        var r := classRules[ri];
        assert r == listed[ri - 1] && r in listed;
        var delta := if ruleIn[r] then -value[r] else value[r];
        if delta > bestDelta {
          best := r;
          bestDelta := delta;
        }
        ri := ri + 1;
      }
      forall r | OfClass(t, focus, r)
        ensures Gain(t, focus, s, r) <= bestDelta
      {
        assert r in listed;
        var j :| 0 <= j < |listed| && listed[j] == r;
      }
    }

    /** From the rules included, flips the rule that gains most while one gains: every step makes the
        selection cheaper, and it ends where no single step would. */
    method HillClimb(count: nat) returns (ghost trail: seq<Selection>)
      requires Valid() && count < classRules.Length && Lists(t, focus, classRules[1..count + 1])
      modifies ruleIn, covered, right, wrong, value, subset, `subsetValue
      ensures Covering() && LocallyBest(t, focus, ruleIn[..])
      ensures trail != [] && trail[0] == old(ruleIn[..]) && trail[|trail| - 1] == ruleIn[..]
              && Descends(t, focus, trail)
      ensures SameOutside(t, focus, ruleIn[..], old(ruleIn[..]))
      ensures ruleIn[..] == old(ruleIn[..]) || Cost(t, focus, ruleIn[..]) < Cost(t, focus, old(ruleIn[..]))
      ensures subsetValue <= Cost(t, focus, ruleIn[..])
      ensures (subsetValue == old(subsetValue) && subset[..] == old(subset[..]))
           || (subsetValue == Cost(t, focus, ruleIn[..]) < old(subsetValue) && subset[..] == ruleIn[..])
    {
      hide Cover, CoverTo, Cost, Gain, LocallyBest, BestGain, Descends, Lists, Selections;
      ghost var v0, b0, s0 := subsetValue, subset[..], ruleIn[..];
      FindCovered(count);
      trail := [s0];
      DescendsNone(t, focus, s0);
      while true
        invariant Covering() && SameOutside(t, focus, ruleIn[..], s0)
        invariant ruleIn[..] == s0 || Cost(t, focus, ruleIn[..]) < Cost(t, focus, s0)
        invariant trail != [] && trail[0] == s0 && trail[|trail| - 1] == ruleIn[..] && Descends(t, focus, trail)
        invariant subsetValue <= v0
        invariant (subsetValue == v0 && subset[..] == b0) || subsetValue > Cost(t, focus, ruleIn[..])
        decreases |Cheaper(t, focus, Cost(t, focus, ruleIn[..]))|
      {
        ghost var s := ruleIn[..];
        CalculateValue();
        var best := BestFlip(count);
        if best == 0 {
          break;
        }
        BestGains(t, focus, s, best);
        if ruleIn[best] {
          DeleteRule(best);
        } else {
          AddRule(best);
        }
        DescendsStep(t, focus, trail, best);
        trail := trail + [Flipped(s, best)];
        FewerCheaper(t, focus, Flipped(s, best), Cost(t, focus, s));
      }
    }

    // ---- Covering a class -----------------------------------------------------------------------

    /** Nothing was remembered yet, or a selection that differs from s in the class in focus only,
        and that no single step would improve. */
    ghost predicate Found(s: Selection, v0: real, b0: Selection)
      requires Fits(t, s)
      reads this, subset
    {
      || (subsetValue == v0 && subset[..] == b0)
      || (SameOutside(t, focus, subset[..], s) && LocallyBest(t, focus, subset[..])
        && subsetValue == Cost(t, focus, subset[..]) < v0)
    }

    /** Climbs from eleven starting points: no rule of the class, random ones more and more likely,
        and all of them. */
    method SpotSearch(count: nat)
      requires Valid() && count < classRules.Length && Lists(t, focus, classRules[1..count + 1])
      requires forall r :: OfClass(t, focus, r) ==> !ruleIn[r]
      modifies ruleIn, covered, right, wrong, value, subset, `subsetValue
      ensures Found(old(ruleIn[..]), old(subsetValue), old(subset[..]))
      ensures subsetValue <= Cost(t, focus, old(ruleIn[..]))
    {
      hide Cover, CoverTo, Cost, LocallyBest, Descends, Lists;
      ghost var s0, v0, b0 := ruleIn[..], subsetValue, subset[..];
      var trial := 0;
      while trial <= 10
        invariant 0 <= trial <= 11 && SameOutside(t, focus, ruleIn[..], s0)
        invariant trial == 0 ==> ruleIn[..] == s0
        invariant Found(s0, v0, b0)
        invariant trial > 0 ==> subsetValue <= Cost(t, focus, s0)
      {
        StartTrial(count, trial, s0);
        ghost var start := ruleIn[..];
        var trail := HillClimb(count);
        trial := trial + 1;
      }
    }

    method StartTrial(count: nat, trial: nat, ghost s: Selection)
      requires Valid() && count < classRules.Length && Lists(t, focus, classRules[1..count + 1])
      requires SameOutside(t, focus, ruleIn[..], s) && (trial == 0 ==> ruleIn[..] == s)
      requires forall r :: OfClass(t, focus, r) ==> !s[r]
      modifies ruleIn
      ensures SameOutside(t, focus, ruleIn[..], s) && (trial == 0 ==> ruleIn[..] == s)
    {
      var ri := 1;
      while ri <= count
        invariant 1 <= ri <= count + 1
        invariant SameOutside(t, focus, ruleIn[..], s) && (trial == 0 ==> ruleIn[..] == s)
      {
        var r := classRules[ri];
        assert r == classRules[1..count + 1][ri - 1] && r in classRules[1..count + 1];
        var random: bool := *;
        ruleIn[r] := if trial == 0 then false else if trial == 10 then true else random;
        ri := ri + 1;
      }
    }

    /** Adds and deletes rules at random, ever more reluctantly when that costs more, and then climbs
        from the cheapest selection met. */
    method SimAnneal(count: nat)
      requires Covering() && 1 <= count < classRules.Length && Lists(t, focus, classRules[1..count + 1])
      modifies ruleIn, covered, right, wrong, value, subset, `subsetValue
      ensures subsetValue <= Cost(t, focus, old(ruleIn[..]))
      ensures Cost(t, focus, old(ruleIn[..])) < old(subsetValue) ==>
                Found(old(ruleIn[..]), old(subsetValue), old(subset[..]))
    {
      hide Cover, CoverTo, Cost, LocallyBest, Descends, Lists;
      ghost var s0, v0, b0 := ruleIn[..], subsetValue, subset[..];
      var temp := 1000.0;
      while temp > 0.001
        invariant Covering() && SameOutside(t, focus, ruleIn[..], s0)
        invariant temp == 1000.0 ==> ruleIn[..] == s0
        invariant temp != 1000.0 ==> subsetValue <= Cost(t, focus, s0)
        invariant (subsetValue == v0 && subset[..] == b0)
               || (SameOutside(t, focus, subset[..], s0) && subsetValue == Cost(t, focus, subset[..]) < v0)
        invariant temp <= 1000.0
        decreases (temp * 20000.0).Floor
      {
        CalculateValue();
        var changed := Wander(count);
        ghost var hotter := temp;
        temp := temp * 0.95;
        assert (temp * 20000.0).Floor < (hotter * 20000.0).Floor;
        if !changed {
          break;
        }
      }
      Copy(subset, ruleIn);
      var trail := HillClimb(count);
    }

    /** Up to a hundred times, picks a rule and flips it if that gains, or by chance if it does not. */
    method Wander(count: nat) returns (changed: bool)
      requires Covering() && 1 <= count < classRules.Length && Lists(t, focus, classRules[1..count + 1])
      modifies ruleIn, covered
      ensures Covering() && SameOutside(t, focus, ruleIn[..], old(ruleIn[..]))
    {
      hide Cover, CoverTo;
      changed := false;
      var tries := 100;
      while !changed && tries > 0
        invariant tries >= 0 && Covering() && SameOutside(t, focus, ruleIn[..], old(ruleIn[..]))
        decreases tries
      {
        var ri :| 1 <= ri <= count;
        var r := classRules[ri];
        assert r == classRules[1..count + 1][ri - 1] && r in classRules[1..count + 1];
        var delta := if ruleIn[r] then -value[r] else value[r];
        var random: bool := *;
        if delta > 0.0 || random {
          if ruleIn[r] {
            DeleteRule(r);
          } else {
            AddRule(r);
          }
          changed := true;
        }
        tries := tries - 1;
      }
    }

    /** Lists the rules of the class in focus. */
    method ListRules() returns (count: nat)
      requires Valid()
      modifies classRules
      ensures count < classRules.Length && Lists(t, focus, classRules[1..count + 1])
              && count == ClassSize(t, focus, |t.rhs|)
    {
      hide ListsBelow;
      count := 0;
      var r := 1;
      ghost var listed: seq<int> := [];
      ListNone(t, focus);
      while r < |t.rhs|
        invariant 1 <= r <= |t.rhs| && count < r && count == ClassSize(t, focus, r)
                  && listed == classRules[1..count + 1]
        invariant ListsBelow(t, focus, listed, r)
      {
        if t.rhs[r] == focus {
          count := count + 1;
          classRules[count] := r;
          ListOne(t, focus, listed, r);
          listed := listed + [r];
        } else {
          ListSkip(t, focus, listed, r);
        }
        r := r + 1;
      }
      ListAll(t, focus, listed);
    }

    /** Selects rules for the class in focus: the cheapest selection of all when there are at most ten
        rules, and always one that no single step would improve, provided having no rule costs less
        than the start value of the search. */
    method CoverClass(simAnneal: bool)
      requires Valid() && forall r :: OfClass(t, focus, r) ==> !ruleIn[r]
      modifies this`subsetValue, ruleIn, covered, right, wrong, value, subset, classRules
      ensures Cost(t, focus, old(ruleIn[..])) < START ==>
                && SameOutside(t, focus, ruleIn[..], old(ruleIn[..])) && LocallyBest(t, focus, ruleIn[..])
                && Cost(t, focus, ruleIn[..]) <= Cost(t, focus, old(ruleIn[..]))
      ensures ClassSize(t, focus, |t.rhs|) <= 10
              && (exists w :: SameOutside(t, focus, w, old(ruleIn[..])) && Cost(t, focus, w) < START) ==>
                SameOutside(t, focus, ruleIn[..], old(ruleIn[..])) && Cheapest(t, focus, ruleIn[..])
      ensures ClassSize(t, focus, |t.rhs|) == 0 ==>
                SameOutside(t, focus, ruleIn[..], old(ruleIn[..])) && Cheapest(t, focus, ruleIn[..])
    {
      hide CoverTo, Cost, LocallyBest, Lists, Searched, Cheapest, ClassSize;
      ghost var s0, b0 := ruleIn[..], subset[..];
      NothingCovered(t, focus, s0);
      var i := 0;
      while i < covered.Length
        invariant 0 <= i <= covered.Length && forall j :: 0 <= j < i ==> covered[j] == 0
        invariant ruleIn[..] == s0 && subset[..] == b0
      {
        covered[i] := 0;
        i := i + 1;
      }
      hide Cover;
      var count := ListRules();
      if count == 0 {
        NoRules(t, focus, s0, classRules[1..count + 1]);
        return;
      }
      subsetValue := START;
      if count <= 10 {
        FreeRules(count);
        AllCombinations(count);
        SearchedAll(t, focus, s0, classRules[1..count + 1], classRules[1..], count, START, b0, subsetValue, subset[..]);
      } else if simAnneal {
        SimAnneal(count);
      } else {
        SpotSearch(count);
      }
      Copy(subset, ruleIn);
    }

    /** Covers the classes one after the other. The class selections do not disturb each other: in the
        end each is the cheapest for its class when that has at most ten rules, and always one that no
        single step would improve. Some selection the search is sure to meet must cost less than the
        start value: any at all for at most ten rules, the empty one for more. */
    method ConstructRuleset(maxClass: nat, simAnneal: bool)
      requires Valid() && forall c :: 0 <= c <= maxClass ==> Coverable(t, c)
      modifies this, ruleIn, covered, right, wrong, value, subset, classRules
      ensures forall c :: 0 <= c <= maxClass ==> WellCovered(t, c, ruleIn[..])
    {
      hide Cost, LocallyBest, Cheapest, ClassSize, WellCovered;
      var r := 0;
      while r < ruleIn.Length
        invariant 0 <= r <= ruleIn.Length && forall q :: 0 <= q < r ==> !ruleIn[q]
      {
        ruleIn[r] := false;
        r := r + 1;
      }
      ghost var none := NoneIn(|t.rhs|);
      assert ruleIn[..] == none;
      var c := 0;
      while c <= maxClass
        invariant 0 <= c <= maxClass + 1
        invariant forall d :: c <= d ==> SameClass(t, d, ruleIn[..], none)
        invariant forall d :: 0 <= d < c ==> WellCovered(t, d, ruleIn[..])
      {
        focus := c;
        ghost var s := ruleIn[..];
        CoverableHere(t, c, s, none);
        CoverClass(simAnneal);
        CoveredNow(t, c, s, none, ruleIn[..]);
        Reached(t, c, s, none, ruleIn[..]);
        NextClass(t, c, s, ruleIn[..]);
        c := c + 1;
      }
    }

    lemma FreeRules(count: nat)
      requires Valid() && count < classRules.Length && Lists(t, focus, classRules[1..count + 1])
      requires forall r :: OfClass(t, focus, r) ==> !ruleIn[r]
      ensures Free(count)
    {
      ghost var listed := classRules[1..count + 1];
      forall j | 1 <= j <= count
        ensures classRules[j] == listed[j - 1] && classRules[j] in listed
      {}
    }
  }

  /** The rules of class c below r, in order. */
  ghost predicate ListsBelow(t: Base, c: nat, listed: seq<int>, r: nat) {
    && (forall q :: q in listed <==> OfClass(t, c, q) && q < r)
    && (forall i, j :: 0 <= i < j < |listed| ==> listed[i] < listed[j])
  }

  lemma ListNone(t: Base, c: nat)
    ensures ListsBelow(t, c, [], 1)
  {}

  lemma ListOne(t: Base, c: nat, listed: seq<int>, r: nat)
    requires ListsBelow(t, c, listed, r) && OfClass(t, c, r)
    ensures ListsBelow(t, c, listed + [r], r + 1)
  {
    assert forall i :: 0 <= i < |listed| ==> listed[i] in listed;
  }

  lemma ListSkip(t: Base, c: nat, listed: seq<int>, r: nat)
    requires ListsBelow(t, c, listed, r) && !OfClass(t, c, r)
    ensures ListsBelow(t, c, listed, r + 1)
  {}

  lemma ListAll(t: Base, c: nat, listed: seq<int>)
    requires ListsBelow(t, c, listed, |t.rhs|)
    ensures Lists(t, c, listed)
  {}

  /** The cost the search starts from. */
  const START := 10000000000.0

  /** The number of rules of class c below n. */
  ghost function ClassSize(t: Base, c: nat, n: nat): nat
    requires 1 <= n <= |t.rhs|
  {
    if n == 1 then 0 else ClassSize(t, c, n - 1) + if t.rhs[n - 1] == c then 1 else 0
  }

  /** No selection is cheaper for the class. */
  ghost predicate Cheapest(t: Base, c: nat, s: Selection)
    requires Fits(t, s)
  {
    forall w :: Fits(t, w) ==> Cost(t, c, s) <= Cost(t, c, w)
  }

  function NoneIn(n: nat): Selection { seq(n, _ => false) }

  ghost predicate WellCovered(t: Base, c: nat, s: Selection)
    requires Fits(t, s)
  {
    && LocallyBest(t, c, s) && Cost(t, c, s) <= Cost(t, c, NoneIn(|s|))
    && (ClassSize(t, c, |s|) <= 10 ==> Cheapest(t, c, s))
  }

  /** The search for the rules of class c is sure to meet a selection below its start value. */
  ghost predicate Coverable(t: Base, c: nat)
    requires Sound(t)
  {
    || ClassSize(t, c, |t.rhs|) == 0
    || Cost(t, c, NoneIn(|t.rhs|)) < START
    || (ClassSize(t, c, |t.rhs|) <= 10 && exists w :: Fits(t, w) && Cost(t, c, w) < START)
  }

  lemma CoverableHere(t: Base, c: nat, s: Selection, none: Selection)
    requires Fits(t, s) && none == NoneIn(|t.rhs|) && SameClass(t, c, s, none) && Coverable(t, c)
    ensures Cost(t, c, s) == Cost(t, c, none)
    ensures ClassSize(t, c, |t.rhs|) == 0 || Cost(t, c, s) < START
         || (ClassSize(t, c, |t.rhs|) <= 10 && exists w :: SameOutside(t, c, w, s) && Cost(t, c, w) < START)
  {
    hide Cost, ClassSize;
    SameCost(t, c, s, none);
    if w :| Fits(t, w) && Cost(t, c, w) < START {
      var m := Merged(t, c, w, s);
      SameCost(t, c, m, w);
      assert SameOutside(t, c, m, s) && Cost(t, c, m) < START;
    }
  }

  /** Either way the class is well covered. */
  lemma CoveredNow(t: Base, c: nat, s: Selection, none: Selection, w: Selection)
    requires Fits(t, s) && none == NoneIn(|t.rhs|) && SameClass(t, c, s, none) && |w| == |s|
    requires Cheapest(t, c, w) || (LocallyBest(t, c, w) && Cost(t, c, w) <= Cost(t, c, s))
    ensures LocallyBest(t, c, w) && Cost(t, c, w) <= Cost(t, c, s)
  {
    hide Cost, LocallyBest;
    if Cheapest(t, c, w) {
      CheapestIsLocallyBest(t, c, w);
    }
  }

  lemma CheapestIsLocallyBest(t: Base, c: nat, s: Selection)
    requires Fits(t, s) && Cheapest(t, c, s)
    ensures LocallyBest(t, c, s)
  {
    hide Cost;
  }

  lemma NothingCovered(t: Base, c: nat, s: Selection)
    requires Fits(t, s) && forall r :: OfClass(t, c, r) ==> !s[r]
    ensures forall i :: 0 <= i < |t.cls| ==> Cover(t, c, s)[i] == 0
  {
    forall i | 0 <= i < |t.cls|
      ensures CoverTo(t, c, s, i, Rules(t)) == 0
    {
      NotCovered(t, c, s, i, Rules(t));
    }
  }

  lemma {:induction false} NotCovered(t: Base, c: nat, s: Selection, i: nat, n: nat)
    requires Fits(t, s) && i < |t.cls| && n < |t.rhs| && forall r :: OfClass(t, c, r) ==> !s[r]
    ensures CoverTo(t, c, s, i, n) == 0
  {
    if n > 0 {
      NotCovered(t, c, s, i, n - 1);
      assert OfClass(t, c, n) <==> t.rhs[n] == c;
    }
  }

  // ---- Costs of a class depend on its own rules only ----------------------------------------------

  ghost predicate SameClass(t: Base, c: nat, s: Selection, w: Selection) {
    |s| == |w| == |t.rhs| && forall r :: OfClass(t, c, r) ==> s[r] == w[r]
  }

  lemma {:induction false} SameCover(t: Base, c: nat, s: Selection, w: Selection, i: nat, n: nat)
    requires Fits(t, s) && SameClass(t, c, s, w) && i < |t.cls| && n < |t.rhs|
    ensures CoverTo(t, c, s, i, n) == CoverTo(t, c, w, i, n)
  {
    if n > 0 {
      SameCover(t, c, s, w, i, n - 1);
      assert OfClass(t, c, n) <==> t.rhs[n] == c;
    }
  }

  lemma {:induction false} SameSelected(t: Base, c: nat, s: Selection, w: Selection, n: nat)
    requires Fits(t, s) && SameClass(t, c, s, w) && n < |t.rhs|
    ensures Selected(t, c, s, n) == Selected(t, c, w, n) && SelectedBits(t, c, s, n) == SelectedBits(t, c, w, n)
  {
    if n > 0 {
      SameSelected(t, c, s, w, n - 1);
      assert OfClass(t, c, n) <==> t.rhs[n] == c;
    }
  }

  lemma SameCost(t: Base, c: nat, s: Selection, w: Selection)
    requires Fits(t, s) && SameClass(t, c, s, w)
    ensures Cost(t, c, s) == Cost(t, c, w)
  {
    forall i | 0 <= i < |t.cls|
      ensures Cover(t, c, s)[i] == Cover(t, c, w)[i]
    {
      SameCover(t, c, s, w, i, Rules(t));
    }
    assert Cover(t, c, s) == Cover(t, c, w);
    SameSelected(t, c, s, w, Rules(t));
  }

  /** The class part of w, and s for the rest. */
  ghost function Merged(t: Base, c: nat, w: Selection, s: Selection): (m: Selection)
    requires |w| == |s| == |t.rhs|
    ensures SameClass(t, c, m, w) && SameOutside(t, c, m, s)
  {
    seq(|s|, r requires 0 <= r < |s| => if OfClass(t, c, r) then w[r] else s[r])
  }

  lemma NoRules(t: Base, c: nat, s: Selection, rules: seq<int>)
    requires Fits(t, s) && rules == [] && Lists(t, c, rules)
    ensures LocallyBest(t, c, s) && Cheapest(t, c, s) && SameOutside(t, c, s, s)
  {
    hide Cost;
    forall w | Fits(t, w)
      ensures Cost(t, c, s) <= Cost(t, c, w)
    {
      assert forall r :: OfClass(t, c, r) ==> r in rules;
      SameCost(t, c, s, w);
    }
  }

  /** A search over all rules of the class that found something found the cheapest selection of all. */
  lemma SearchedAll(t: Base, c: nat, s: Selection, listed: seq<int>, rules: seq<int>, n: nat, v0: real, b0: Selection,
                    v: real, b: Selection)
    requires Fits(t, s) && n <= |rules| && listed == rules[..n] && Lists(t, c, listed)
    requires Searched(t, c, s, rules, n, v0, b0, v, b)
    ensures (exists w :: SameOutside(t, c, w, s) && Cost(t, c, w) < v0) ==>
              && SameOutside(t, c, b, s) && Cheapest(t, c, b) && LocallyBest(t, c, b) && v == Cost(t, c, b) < v0
              && Cost(t, c, b) <= Cost(t, c, s)
  {
    hide Cost, LocallyBest;
    forall w | SameOutside(t, c, w, s)
      ensures Variant(w, s, rules, n)
    {
      forall r | 0 <= r < |s| && w[r] != s[r]
        ensures r in rules[..n]
      {
        assert OfClass(t, c, r);
      }
    }
    if exists w :: SameOutside(t, c, w, s) && Cost(t, c, w) < v0 {
      assert Variant(b, s, rules, n);
      assert SameOutside(t, c, b, s);
      forall w | Fits(t, w)
        ensures Cost(t, c, b) <= Cost(t, c, w)
      {
        SameCost(t, c, Merged(t, c, w, s), w);
      }
      CheapestIsLocallyBest(t, c, b);
    }
  }

  // ---- All combinations ---------------------------------------------------------------------------

  /** The search over the variants of s in the first n rules came out with the cheapest, if it is
      cheaper than the best before. */
  ghost predicate Searched(t: Base, c: nat, s: Selection, rules: seq<int>, n: nat, value: real, best: Selection,
                           value': real, best': Selection)
    requires Fits(t, s)
  {
    && (forall w :: Variant(w, s, rules, n) ==> value' <= Cost(t, c, w))
    && value' <= value
    && ((value' == value && best' == best) || (Variant(best', s, rules, n) && value' == Cost(t, c, best') < value))
  }

  lemma SearchedOne(t: Base, c: nat, s: Selection, rules: seq<int>, value: real, best: Selection, value': real,
                    best': Selection)
    requires Fits(t, s) && Remembered(t, c, s, value, best, value', best')
    ensures Searched(t, c, s, rules, 0, value, best, value', best')
  {
    hide Cost;
    forall w | Variant(w, s, rules, 0)
      ensures w == s
    {
      assert rules[..0] == [];
    }
  }

  lemma SearchedBoth(t: Base, c: nat, s: Selection, rules: seq<int>, n: nat, v0: real, b0: Selection, v1: real,
                     b1: Selection, v2: real, b2: Selection)
    requires Fits(t, s) && 1 <= n <= |rules| && 0 <= rules[n - 1] < |s|
    requires Searched(t, c, s, rules, n - 1, v0, b0, v1, b1)
    requires Searched(t, c, Flipped(s, rules[n - 1]), rules, n - 1, v1, b1, v2, b2)
    ensures Searched(t, c, s, rules, n, v0, b0, v2, b2)
  {
    hide Cost, Variant;
    var r := rules[n - 1];
    forall w | Variant(w, s, rules, n)
      ensures Variant(w, s, rules, n - 1) || Variant(w, Flipped(s, r), rules, n - 1)
    {
      VariantSplits(w, s, rules, n);
    }
    forall w | Variant(w, s, rules, n - 1) || Variant(w, Flipped(s, r), rules, n - 1)
      ensures Variant(w, s, rules, n)
    {
      VariantsJoin(w, s, rules, n);
    }
  }

  lemma VariantSplits(w: Selection, s: Selection, rules: seq<int>, n: nat)
    requires Variant(w, s, rules, n) && 1 <= n && 0 <= rules[n - 1] < |s|
    ensures Variant(w, s, rules, n - 1) || Variant(w, Flipped(s, rules[n - 1]), rules, n - 1)
  {
    var r := rules[n - 1];
    assert rules[..n] == rules[..n - 1] + [r];
    if w[r] == s[r] {
      assert Variant(w, s, rules, n - 1);
    } else {
      assert Variant(w, Flipped(s, r), rules, n - 1);
    }
  }

  lemma VariantsJoin(w: Selection, s: Selection, rules: seq<int>, n: nat)
    requires 1 <= n <= |rules| && 0 <= rules[n - 1] < |s|
    requires Variant(w, s, rules, n - 1) || Variant(w, Flipped(s, rules[n - 1]), rules, n - 1)
    ensures Variant(w, s, rules, n)
  {
    assert rules[..n] == rules[..n - 1] + [rules[n - 1]];
  }

  // ---- Climbing -----------------------------------------------------------------------------------

  /** How many of the first n listed rules are included and fire on item i. */
  ghost function ListedCover(t: Base, s: Selection, rules: seq<int>, n: nat, i: nat): nat
    requires Fits(t, s) && n <= |rules| && (forall r :: r in rules ==> 0 <= r < |s|) && i < |t.cls|
  {
    if n == 0 then 0 else
    assert rules[n - 1] in rules;
    ListedCover(t, s, rules, n - 1, i) + if s[rules[n - 1]] && t.match_[rules[n - 1]][i] then 1 else 0
  }

  /** Those of the rules up to m that are in the list of the first n. */
  ghost function Both(t: Base, s: Selection, rules: seq<int>, n: nat, m: nat, i: nat): nat
    requires Fits(t, s) && n <= |rules| && m < |s| && i < |t.cls|
  {
    if m == 0 then 0 else Both(t, s, rules, n, m - 1, i) + if m in rules[..n] && s[m] && t.match_[m][i] then 1 else 0
  }

  lemma {:induction false} BothStep(t: Base, s: Selection, rules: seq<int>, n: nat, m: nat, i: nat)
    requires Fits(t, s) && 1 <= n <= |rules| && m < |s| && i < |t.cls|
    requires 1 <= rules[n - 1] < |s| && rules[n - 1] !in rules[..n - 1]
    ensures Both(t, s, rules, n, m, i)
         == Both(t, s, rules, n - 1, m, i) + if rules[n - 1] <= m && s[rules[n - 1]] && t.match_[rules[n - 1]][i]
           then 1 else 0
  {
    if m > 0 {
      BothStep(t, s, rules, n, m - 1, i);
      assert rules[..n] == rules[..n - 1] + [rules[n - 1]];
    }
  }

  lemma {:induction false} BothListed(t: Base, c: nat, s: Selection, rules: seq<int>, n: nat, i: nat)
    requires Fits(t, s) && Lists(t, c, rules) && n <= |rules| && i < |t.cls|
    ensures Both(t, s, rules, n, Rules(t), i) == ListedCover(t, s, rules, n, i)
  {
    if n > 0 {
      assert rules[n - 1] in rules;
      BothListed(t, c, s, rules, n - 1, i);
      BothStep(t, s, rules, n, Rules(t), i);
    } else {
      BothNone(t, s, rules, Rules(t), i);
    }
  }

  lemma {:induction false} BothNone(t: Base, s: Selection, rules: seq<int>, m: nat, i: nat)
    requires Fits(t, s) && m < |s| && i < |t.cls|
    ensures Both(t, s, rules, 0, m, i) == 0
  {
    if m > 0 {
      BothNone(t, s, rules, m - 1, i);
    }
  }

  lemma {:induction false} BothCovers(t: Base, c: nat, s: Selection, rules: seq<int>, m: nat, i: nat)
    requires Fits(t, s) && Lists(t, c, rules) && m < |s| && i < |t.cls|
    ensures Both(t, s, rules, |rules|, m, i) == CoverTo(t, c, s, i, m)
  {
    if m > 0 {
      BothCovers(t, c, s, rules, m - 1, i);
      assert rules[..|rules|] == rules;
      assert m in rules <==> OfClass(t, c, m);
    }
  }

  lemma ListedCovers(t: Base, c: nat, s: Selection, rules: seq<int>, i: nat)
    requires Fits(t, s) && Lists(t, c, rules) && i < |t.cls|
    ensures ListedCover(t, s, rules, |rules|, i) == Cover(t, c, s)[i]
  {
    BothListed(t, c, s, rules, |rules|, i);
    BothCovers(t, c, s, rules, Rules(t), i);
  }

  ghost predicate BestGain(t: Base, c: nat, s: Selection, best: int)
    requires Fits(t, s)
  {
    && OfClass(t, c, best) && Gain(t, c, s, best) > 0.0
    && forall r :: OfClass(t, c, r) ==> Gain(t, c, s, r) <= Gain(t, c, s, best)
  }

  lemma BestGains(t: Base, c: nat, s: Selection, best: int)
    requires Fits(t, s) && BestGain(t, c, s, best)
    ensures OfClass(t, c, best) && Cost(t, c, Flipped(s, best)) < Cost(t, c, s)
    ensures forall w :: SameOutside(t, c, s, w) ==> SameOutside(t, c, Flipped(s, best), w)
  {
    hide Cost;
  }

  /** The selections agree on the rules of other classes. */
  ghost predicate SameOutside(t: Base, c: nat, s: Selection, w: Selection) {
    |s| == |w| == |t.rhs| && forall r :: 0 <= r < |s| && !OfClass(t, c, r) ==> s[r] == w[r]
  }

  /** Each selection is the one before with the rule flipped that gains most. */
  ghost predicate Descends(t: Base, c: nat, trail: seq<Selection>) {
    && (forall i :: 0 <= i < |trail| ==> Fits(t, trail[i]))
    && forall i, j :: 0 <= i < |trail| && j == i + 1 && j < |trail| ==>
         BestStep(t, c, trail[i], trail[j])
  }

  ghost predicate BestStep(t: Base, c: nat, s: Selection, next: Selection)
    requires Fits(t, s)
  {
    exists r :: BestGain(t, c, s, r) && next == Flipped(s, r)
  }

  lemma DescendsNone(t: Base, c: nat, s: Selection)
    requires Fits(t, s)
    ensures Descends(t, c, [s])
  {}

  lemma DescendsStep(t: Base, c: nat, trail: seq<Selection>, best: int)
    requires trail != [] && Descends(t, c, trail) && BestGain(t, c, trail[|trail| - 1], best)
    ensures Descends(t, c, trail + [Flipped(trail[|trail| - 1], best)])
  {
    var longer := trail + [Flipped(trail[|trail| - 1], best)];
    assert BestStep(t, c, trail[|trail| - 1], Flipped(trail[|trail| - 1], best));
    hide BestGain, BestStep;
    forall i, j | 0 <= i < |longer| && j == i + 1 && j < |longer|
      ensures BestStep(t, c, longer[i], longer[j])
    {
      if j < |trail| {
        assert BestStep(t, c, trail[i], trail[j]);
      }
    }
  }

  /** Every selection of n places. */
  ghost function Selections(n: nat): set<Selection> {
    if n == 0 then {[]} else
    (set w | w in Selections(n - 1) :: w + [false]) + (set w | w in Selections(n - 1) :: w + [true])
  }

  lemma {:induction false} AllSelections(w: Selection)
    ensures w in Selections(|w|)
  {
    if w != [] {
      var w' := w[..|w| - 1];
      AllSelections(w');
      if w[|w| - 1] {
        assert w == w' + [true];
      } else {
        assert w == w' + [false];
      }
    }
  }

  ghost function Cheaper(t: Base, c: nat, x: real): set<Selection>
    requires Sound(t)
  {
    set w | w in Selections(|t.rhs|) && Fits(t, w) && Cost(t, c, w) < x
  }

  lemma FewerCheaper(t: Base, c: nat, s: Selection, x: real)
    requires Fits(t, s) && Cost(t, c, s) < x
    ensures |Cheaper(t, c, Cost(t, c, s))| < |Cheaper(t, c, x)|
  {
    hide Cost, Selections;
    AllSelections(s);
    assert s in Cheaper(t, c, x) && s !in Cheaper(t, c, Cost(t, c, s));
    assert Cheaper(t, c, Cost(t, c, s)) <= Cheaper(t, c, x) - {s};
    SmallerSet(Cheaper(t, c, Cost(t, c, s)), Cheaper(t, c, x) - {s});
  }

  lemma SmallerSet<T>(a: set<T>, b: set<T>)
    requires a <= b
    ensures |a| <= |b|
  {
    assert b == a + (b - a);
  }

  lemma {:induction false} SelectedBound(t: Base, c: nat, s: Selection)
    requires Fits(t, s)
    ensures Selected(t, c, s, Rules(t)) + 1 < |t.logItemNo| && |t.logFact| == |t.logItemNo|
  {}

  lemma CostIs(t: Base, c: nat, s: Selection)
    requires Fits(t, s)
    ensures Selected(t, c, s, Rules(t)) < |t.logFact|
    ensures Cost(t, c, s)
         == Times(t.codeWeight, SelectedBits(t, c, s, Rules(t)) - t.logFact[Selected(t, c, s, Rules(t))])
            + t.exceptionBits(Fires(Cover(t, c, s), |t.cls|), FalsePos(t.cls, c, Cover(t, c, s), |t.cls|),
              FalseNeg(t.cls, c, Cover(t, c, s), |t.cls|))
  {}

  /** The selection is remembered just when it is cheaper than what was best before. */
  ghost predicate Remembered(t: Base, c: nat, s: Selection, value: real, best: Selection, value': real,
                             best': Selection)
    requires Fits(t, s)
  {
    if Cost(t, c, s) < value then value' == Cost(t, c, s) && best' == s else value' == value && best' == best
  }

  /** What was reached for a class stays reached as long as its own rules stay as they are. */
  lemma StaysCovered(t: Base, c: nat, s: Selection, w: Selection)
    requires Fits(t, s) && SameClass(t, c, s, w) && WellCovered(t, c, s)
    ensures WellCovered(t, c, w)
  {
    hide Cost;
    SameCost(t, c, s, w);
    forall r | OfClass(t, c, r)
      ensures Gain(t, c, w, r) <= 0.0
    {
      SameCost(t, c, Flipped(s, r), Flipped(w, r));
      assert Gain(t, c, s, r) <= 0.0;
    }
  }

  lemma Reached(t: Base, c: nat, s: Selection, none: Selection, w: Selection)
    requires Fits(t, s) && none == NoneIn(|t.rhs|) && SameClass(t, c, s, none) && |w| == |s|
    requires LocallyBest(t, c, w) && Cost(t, c, w) <= Cost(t, c, s)
    requires ClassSize(t, c, |t.rhs|) <= 10 ==> Cheapest(t, c, w)
    ensures WellCovered(t, c, w)
  {
    hide Cost, LocallyBest, Cheapest;
    SameCost(t, c, s, none);
  }

  lemma NextClass(t: Base, c: nat, s: Selection, w: Selection)
    requires Fits(t, s) && SameOutside(t, c, w, s) && WellCovered(t, c, w)
    requires forall d :: 0 <= d < c ==> WellCovered(t, d, s)
    requires forall d :: c <= d ==> SameClass(t, d, s, NoneIn(|t.rhs|))
    ensures forall d :: 0 <= d <= c ==> WellCovered(t, d, w)
    ensures forall d :: c < d ==> SameClass(t, d, w, NoneIn(|t.rhs|))
  {
    hide WellCovered;
    forall d | 0 <= d < c
      ensures WellCovered(t, d, w)
    {
      StaysCovered(t, d, s, w);
    }
    forall d | c < d
      ensures SameClass(t, d, w, NoneIn(|t.rhs|))
    {
      assert SameClass(t, d, s, NoneIn(|t.rhs|));
    }
  }
}
