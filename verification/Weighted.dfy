/** Sequences of weighted cases: sums that do not depend on the order, and splitting by a property. */
module Weighted {
  import opened C45Types

  datatype Item = Item(desc: Case, weight: real)

  function Sum(s: seq<Item>, f: Item -> real): real {
    if s == [] then 0.0 else Sum(s[..|s| - 1], f) + f(s[|s| - 1])
  }

  function Weigh(): Item -> real { (x: Item) => x.weight }

  function InClass(c: nat): Item -> real { (x: Item) => if x.desc.cls == c then x.weight else 0.0 }

  /** The items of s with their weights multiplied. */
  function Scaled(s: seq<Item>, k: real): (r: seq<Item>)
    ensures |r| == |s| && forall i :: 0 <= i < |s| ==> r[i] == Scale(s[i], k)
  {
    seq(|s|, i requires 0 <= i < |s| => Scale(s[i], k))
  }

  function Scale(x: Item, k: real): Item { Item(x.desc, x.weight * k) }

  predicate Positive(s: seq<Item>) { forall i :: 0 <= i < |s| ==> s[i].weight > 0.0 }

  lemma SumSnoc(s: seq<Item>, x: Item, f: Item -> real)
    ensures Sum(s + [x], f) == Sum(s, f) + f(x)
  {
    assert (s + [x])[..|s|] == s;
  }

  lemma {:induction false} SumConcat(a: seq<Item>, b: seq<Item>, f: Item -> real)
    ensures Sum(a + b, f) == Sum(a, f) + Sum(b, f)
  {
    if b == [] {
      assert a + b == a;
    } else {
      var b' := b[..|b| - 1];
      SumConcat(a, b', f);
      assert a + b == (a + b') + [b[|b| - 1]];
      SumSnoc(a + b', b[|b| - 1], f);
    }
  }

  lemma MultisetWithout<T>(b: seq<T>, i: nat)
    requires i < |b|
    ensures multiset(b[..i] + b[i + 1..]) == multiset(b) - multiset{b[i]}
  {
    assert b == b[..i] + [b[i]] + b[i + 1..];
  }

  lemma MultisetLast<T>(a: seq<T>)
    requires a != []
    ensures multiset(a[..|a| - 1]) == multiset(a) - multiset{a[|a| - 1]} && a[|a| - 1] in multiset(a)
  {
    assert a == a[..|a| - 1] + [a[|a| - 1]];
  }

  /** Sums do not depend on the order. */
  lemma {:induction false} SumPerm(a: seq<Item>, b: seq<Item>, f: Item -> real)
    requires multiset(a) == multiset(b)
    ensures Sum(a, f) == Sum(b, f)
  {
    if a == [] {
      SameSize(a, b);
    } else {
      MultisetLast(a);
      var x := a[|a| - 1];
      assert x in b;
      var i :| 0 <= i < |b| && b[i] == x;
      var b' := b[..i] + b[i + 1..];
      MultisetWithout(b, i);
      SumPerm(a[..|a| - 1], b', f);
      assert b == b[..i] + [x] + b[i + 1..];
      SumConcat(b[..i] + [x], b[i + 1..], f);
      SumConcat(b[..i], b[i + 1..], f);
      SumSnoc(b[..i], x, f);
    }
  }

  lemma SameSize<T>(a: seq<T>, b: seq<T>)
    requires multiset(a) == multiset(b)
    ensures |a| == |b|
  {
    assert |multiset(a)| == |a| && |multiset(b)| == |b|;
  }

  lemma DistributeSum(a: real, b: real, k: real)
    ensures (a + b) * k == a * k + b * k
  {}

  lemma ScaledSnoc(s: seq<Item>, k: real)
    requires s != []
    ensures Scaled(s, k) == Scaled(s[..|s| - 1], k) + [Scale(s[|s| - 1], k)]
  {
    hide Scale;
  }

  lemma {:induction false} WeightScaled(s: seq<Item>, k: real)
    ensures Sum(Scaled(s, k), Weigh()) == Sum(s, Weigh()) * k
  {
    hide Scaled;
    if s == [] {
      assert Scaled(s, k) == [];
    } else {
      var s', x := s[..|s| - 1], s[|s| - 1];
      WeightScaled(s', k);
      ScaledSnoc(s, k);
      SumSnoc(Scaled(s', k), Scale(x, k), Weigh());
      DistributeSum(Sum(s', Weigh()), x.weight, k);
    }
  }

  lemma ScaledPerm(a: seq<Item>, b: seq<Item>, k: real)
    requires multiset(a) == multiset(b)
    ensures multiset(Scaled(a, k)) == multiset(Scaled(b, k))
    decreases |a|
  {
    SameSize(a, b);
    if a == [] {
      assert Scaled(a, k) == Scaled(b, k);
    } else {
      MultisetLast(a);
      var x := a[|a| - 1];
      assert x in b;
      var i :| 0 <= i < |b| && b[i] == x;
      MultisetWithout(b, i);
      ScaledPerm(a[..|a| - 1], b[..i] + b[i + 1..], k);
      assert Scaled(a, k) == Scaled(a[..|a| - 1], k) + [Scale(x, k)];
      ScaledCut(b, i, k);
    }
  }

  lemma ScaledCut(b: seq<Item>, i: nat, k: real)
    requires i < |b|
    ensures multiset(Scaled(b, k)) == multiset(Scaled(b[..i] + b[i + 1..], k)) + multiset{Scale(b[i], k)}
  {
    var r, m := Scaled(b, k), Scaled(b[..i] + b[i + 1..], k);
    assert r == m[..i] + [Scale(b[i], k)] + m[i..];
    assert m == m[..i] + m[i..];
  }

  lemma MultiplyBack(w: real, k: real, q: real)
    requires k * q == 1.0
    ensures w * k * q == w
  {
    assert w * (k * q) == w;
  }

  lemma ScaleBack(x: Item, k: real)
    requires k != 0.0
    ensures Scale(Scale(x, k), 1.0 / k) == x
  {
    var q := 1.0 / k;
    assert k * q == 1.0;
    MultiplyBack(x.weight, k, q);
  }

  lemma ScaledBack(s: seq<Item>, k: real)
    requires k != 0.0
    ensures Scaled(Scaled(s, k), 1.0 / k) == s
  {
    forall i | 0 <= i < |s|
      ensures Scaled(Scaled(s, k), 1.0 / k)[i] == s[i]
    {
      ScaleBack(s[i], k);
    }
  }

  /** Two sequences each cut into a part with a property and one without: when they are
      permutations of each other, so are their parts. */
  lemma PartsPerm(a: seq<Item>, b: seq<Item>, c: seq<Item>, d: seq<Item>, p: Item -> bool)
    requires multiset(a + b) == multiset(c + d)
    requires forall x :: x in a || x in c ==> p(x)
    requires forall x :: x in b || x in d ==> !p(x)
    ensures multiset(a) == multiset(c) && multiset(b) == multiset(d) && |a| == |c|
  {
    forall x | true
      ensures multiset(a)[x] == multiset(c)[x] && multiset(b)[x] == multiset(d)[x]
    {
      assert multiset(a + b)[x] == multiset(a)[x] + multiset(b)[x];
      assert multiset(c + d)[x] == multiset(c)[x] + multiset(d)[x];
      assert x in a <==> x in multiset(a);
      assert x in b <==> x in multiset(b);
      assert x in c <==> x in multiset(c);
      assert x in d <==> x in multiset(d);
    }
    SameSize(a, c);
  }

  lemma {:induction false} PositiveSum(s: seq<Item>)
    requires Positive(s)
    ensures Sum(s, Weigh()) >= 0.0
    ensures s != [] ==> Sum(s, Weigh()) > 0.0
  {
    if s != [] {
      PositiveSum(s[..|s| - 1]);
    }
  }

  lemma {:induction false} OnesSum(s: seq<Item>)
    requires forall i :: 0 <= i < |s| ==> s[i].weight == 1.0
    ensures Sum(s, Weigh()) == |s| as real
  {
    if s != [] {
      OnesSum(s[..|s| - 1]);
    }
  }

  lemma {:induction false} SumIsZero(s: seq<Item>, f: Item -> real)
    requires forall i :: 0 <= i < |s| ==> f(s[i]) == 0.0
    ensures Sum(s, f) == 0.0
  {
    if s != [] {
      SumIsZero(s[..|s| - 1], f);
    }
  }

  lemma {:induction false} SumSame(s: seq<Item>, f: Item -> real, g: Item -> real)
    requires forall i :: 0 <= i < |s| ==> f(s[i]) == g(s[i])
    ensures Sum(s, f) == Sum(s, g)
  {
    if s != [] {
      SumSame(s[..|s| - 1], f, g);
    }
  }

  /** Members of permutations have the same properties. */
  lemma PermMembers(a: seq<Item>, b: seq<Item>)
    requires multiset(a) == multiset(b)
    ensures forall x :: x in a <==> x in b
  {
    forall x | true
      ensures x in a <==> x in b
    {
      assert x in a <==> x in multiset(a);
      assert x in b <==> x in multiset(b);
    }
  }

  // ---- Class distributions ----------------------------------------------------------------

  function SumTo(d: seq<real>, n: nat): real
    requires n <= |d|
  {
    if n == 0 then 0.0 else SumTo(d, n - 1) + d[n - 1]
  }

  /** The weights of the classes below n. */
  function ClassTotals(s: seq<Item>, n: nat): seq<real> { seq(n, c requires 0 <= c => Sum(s, InClass(c))) }

  lemma {:induction false} ClassTotalsSum(s: seq<Item>, n: nat)
    requires forall i :: 0 <= i < |s| ==> s[i].desc.cls < n
    ensures SumTo(ClassTotals(s, n), n) == Sum(s, Weigh())
  {
    if s == [] {
      ZeroTotals(s, n);
    } else {
      var s' := s[..|s| - 1];
      ClassTotalsSum(s', n);
      ClassTotalsSnoc(s, n, n);
    }
  }

  lemma {:induction false} ZeroTotals(s: seq<Item>, n: nat)
    requires s == []
    ensures SumTo(ClassTotals(s, n), n) == 0.0
  {
    if n > 0 {
      ZeroTotals(s, n - 1);
      SumToPrefix(ClassTotals(s, n - 1), ClassTotals(s, n), n - 1);
    }
  }

  lemma {:induction false} SumToPrefix(d: seq<real>, e: seq<real>, n: nat)
    requires n <= |d| && n <= |e| && forall i :: 0 <= i < n ==> d[i] == e[i]
    ensures SumTo(d, n) == SumTo(e, n)
  {
    if n > 0 {
      SumToPrefix(d, e, n - 1);
    }
  }

  lemma {:induction false} ClassTotalsSnoc(s: seq<Item>, m: nat, n: nat)
    requires s != [] && m <= n
    ensures SumTo(ClassTotals(s, n), m)
         == SumTo(ClassTotals(s[..|s| - 1], n), m) + (if s[|s| - 1].desc.cls < m then s[|s| - 1].weight else 0.0)
  {
    if m > 0 {
      ClassTotalsSnoc(s, m - 1, n);
    }
  }
}
