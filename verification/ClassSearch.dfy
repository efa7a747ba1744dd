/** The search for the class of every block when single-class blocks are merged, told by the labels of
    the blocks alone. The search has no bound of its own, so that it leaves the row of a block without
    a class; the last block is never looked at. */
module ClassSearch {
  import opened Options

  /** The first class with at least 0.1, and the classes that have the whole weight up to 0.1. */
  datatype Label = Label(first: Option<nat>, sole: set<nat>)

  /** No class has 0.1, and none the whole weight. */
  predicate Loose(l: Label) { l.first.None? && l.sole == {} }

  /** The block is of one class alone. */
  predicate Alone(l: Label) { l.first.Some? && l.first.value in l.sole }

  /** The blocks from place i on of class c alone are taken out, the last block filling each gap. */
  function Absorb(k: seq<Label>, i: nat, c: nat): (r: seq<Label>)
    requires i <= |k|
    ensures i <= |r| <= |k|
    decreases |k| - i
  {
    if i == |k| then k
    else if c in k[i].sole then Absorb(k[i := k[|k| - 1]][..|k| - 1], i, c)
    else Absorb(k, i + 1, c)
  }

  /** The blocks after the first one has been looked at. */
  function Rest(k: seq<Label>): (r: seq<Label>)
    requires k != []
    ensures |r| < |k|
  {
    if Alone(k[0]) then Absorb(k[1..], 0, k[0].first.value) else k[1..]
  }

  /** Every block looked at has a class. */
  predicate Stays(k: seq<Label>)
    decreases |k|
  {
    |k| <= 1 || (k[0].first.Some? && Stays(Rest(k)))
  }

  /** The number of blocks that are left when all have been looked at. */
  function Left(k: seq<Label>): (n: nat)
    ensures n <= |k| && (k != [] ==> n > 0)
    decreases |k|
  {
    if k == [] then 0 else 1 + Left(Rest(k))
  }

  /** The blocks that are left, by the labels they were looked at with. */
  function Final(k: seq<Label>): (r: seq<Label>)
    ensures |r| == Left(k)
    decreases |k|
  {
    if k == [] then [] else [k[0]] + Final(Rest(k))
  }

  predicate AllButLastHave(k: seq<Label>) { forall i :: 0 <= i < |k| - 1 ==> k[i].first.Some? }

  lemma OneMoreHas(l: Label, k: seq<Label>)
    ensures AllButLastHave([l] + k) <==> AllButLastHave(k) && (k != [] ==> l.first.Some?)
  {
    assert forall i :: 0 <= i < |k| ==> ([l] + k)[i + 1] == k[i];
    if AllButLastHave([l] + k) {
      forall i | 0 <= i < |k| - 1
        ensures k[i].first.Some?
      {
        assert ([l] + k)[i + 1].first.Some?;
      }
      assert k != [] ==> ([l] + k)[0].first.Some?;
    }
  }

  /** The search stays in the rows if and only if every block that is left but the last has a class. */
  lemma {:induction false} StaysFinally(k: seq<Label>)
    ensures Stays(k) <==> AllButLastHave(Final(k))
    decreases |k|
  {
    hide AllButLastHave;
    if k != [] {
      StaysFinally(Rest(k));
      OneMoreHas(k[0], Final(Rest(k)));
      if |k| > 1 && k[0].first.None? {
        assert Rest(k) != [];
      }
    } else {
      assert AllButLastHave([]) by { NoneHave(); }
    }
  }

  lemma NoneHave()
    ensures AllButLastHave([])
  {}

  lemma {:induction false} AbsorbMembers(k: seq<Label>, i: nat, c: nat)
    requires i <= |k|
    ensures forall x :: x in Absorb(k, i, c) ==> x in k
    ensures forall x :: x in k && c !in x.sole ==> x in Absorb(k, i, c)
    decreases |k| - i
  {
    if i < |k| {
      if c in k[i].sole {
        var k' := k[i := k[|k| - 1]][..|k| - 1];
        AbsorbMembers(k', i, c);
        assert forall x :: x in k' ==> x in k;
        forall x | x in k && c !in x.sole
          ensures x in k'
        {
          var j :| 0 <= j < |k| && k[j] == x;
          assert j < |k| - 1 ==> k'[j] == x;
          assert j == |k| - 1 ==> k'[i] == x;
        }
      } else {
        AbsorbMembers(k, i + 1, c);
      }
    }
  }

  /** Where every block has a class the search stays in the rows. */
  lemma {:induction false} AllStay(k: seq<Label>)
    requires forall x :: x in k ==> x.first.Some?
    ensures Stays(k)
    decreases |k|
  {
    if |k| > 1 {
      if Alone(k[0]) {
        AbsorbMembers(k[1..], 0, k[0].first.value);
      }
      assert forall x :: x in k[1..] ==> x in k;
      AllStay(Rest(k));
    }
  }

  // ---- Blocks without a class -----------------------------------------------------------------

  ghost predicate TwoLoose(k: seq<Label>) { exists i, j :: 0 <= i < j < |k| && Loose(k[i]) && Loose(k[j]) }

  lemma {:induction false} AbsorbTwo(k: seq<Label>, i: nat, c: nat)
    requires i <= |k| && TwoLoose(k)
    ensures TwoLoose(Absorb(k, i, c))
    decreases |k| - i
  {
    if i < |k| {
      if c in k[i].sole {
        var k' := k[i := k[|k| - 1]][..|k| - 1];
        var a, b :| 0 <= a < b < |k| && Loose(k[a]) && Loose(k[b]);
        assert a != i && b != i && Loose(k'[a]);
        assert Loose(k'[if b == |k| - 1 then i else b]);
        AbsorbTwo(k', i, c);
      } else {
        AbsorbTwo(k, i + 1, c);
      }
    }
  }

  /** Two blocks without a class always make the search leave a row: one of them is not the last. */
  lemma {:induction false} TwoRunOff(k: seq<Label>)
    requires TwoLoose(k)
    ensures !Stays(k)
    decreases |k|
  {
    var a, b :| 0 <= a < b < |k| && Loose(k[a]) && Loose(k[b]);
    if k[0].first.Some? {
      assert Loose(k[1..][a - 1]) && Loose(k[1..][b - 1]);
      if Alone(k[0]) {
        AbsorbTwo(k[1..], 0, k[0].first.value);
      }
      TwoRunOff(Rest(k));
    }
  }

  /** No block is of the class of an earlier one alone. */
  ghost predicate Quiet(k: seq<Label>) {
    forall i, j :: 0 <= i < j < |k| && Alone(k[i]) ==> k[i].first.value !in k[j].sole
  }

  lemma {:induction false} NothingAbsorbed(k: seq<Label>, i: nat, c: nat)
    requires i <= |k| && forall j :: i <= j < |k| ==> c !in k[j].sole
    ensures Absorb(k, i, c) == k
    decreases |k| - i
  {
    if i < |k| {
      NothingAbsorbed(k, i + 1, c);
    }
  }

  /** Where no two blocks are merged the search stays in the rows if and only if every block but the
      last has a class. */
  lemma {:induction false} QuietStays(k: seq<Label>)
    requires Quiet(k)
    ensures Stays(k) <==> forall i :: 0 <= i < |k| - 1 ==> k[i].first.Some?
    decreases |k|
  {
    if |k| > 1 {
      if Alone(k[0]) {
        NothingAbsorbed(k[1..], 0, k[0].first.value);
      }
      assert Rest(k) == k[1..];
      QuietStays(k[1..]);
      assert forall i :: 1 <= i < |k| ==> k[i] == k[1..][i - 1];
      if Stays(k) {
        forall i | 0 <= i < |k| - 1
          ensures k[i].first.Some?
        {
          assert i > 0 ==> k[1..][i - 1].first.Some?;
        }
      }
    }
  }

  /** Block p is the only one without a class. */
  ghost predicate OneLoose(k: seq<Label>, p: nat) {
    p < |k| && Loose(k[p]) && forall i :: 0 <= i < |k| && i != p ==> k[i].first.Some?
  }

  lemma {:induction false} AbsorbOne(k: seq<Label>, i: nat, c: nat, p: nat)
    requires i <= |k| && OneLoose(k, p) && p < |Absorb(k, i, c)|
    ensures OneLoose(Absorb(k, i, c), p)
    decreases |k| - i
  {
    if i < |k| {
      if c in k[i].sole {
        var k' := k[i := k[|k| - 1]][..|k| - 1];
        assert p < |k'| && p != i;
        AbsorbOne(k', i, c, p);
      } else {
        AbsorbOne(k, i + 1, c, p);
      }
    }
  }

  /** With one block without a class, that is among as many blocks as are left in the end, the search
      stays in the rows if and only if it is the last of these. */
  lemma {:induction false} OneStays(k: seq<Label>, p: nat)
    requires OneLoose(k, p) && p < Left(k)
    ensures Stays(k) <==> p == Left(k) - 1
    decreases |k|
  {
    if |k| > 1 && p > 0 {
      assert OneLoose(k[1..], p - 1);
      if Alone(k[0]) {
        AbsorbOne(k[1..], 0, k[0].first.value, p - 1);
      }
      OneStays(Rest(k), p - 1);
    }
  }
}
