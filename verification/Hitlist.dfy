/** Labels and how often each was hit, in a doubly linked list kept in order of frequency. */
module Hitlist {

  class HitEntry {
    var next: HitEntry?
    var prev: HitEntry?
    var label_: int
    var freq: int

    constructor (label_: int, prev: HitEntry?)
      ensures next == null && this.prev == prev && this.label_ == label_ && freq == 1
    {
      next, this.prev, this.label_, freq := null, prev, label_, 1;
    }
  }

  /** A list entry as a value. */
  datatype Hit = Hit(lab: int, freq: int)

  // ---- What the list should say -----------------------------------------------------------------

  /** How often a label was hit. */
  function Count(hits: seq<int>, l: int): nat {
    if hits == [] then 0 else Count(hits[..|hits| - 1], l) + if hits[|hits| - 1] == l then 1 else 0
  }

  /** When a label was last hit, counting from 1; 0 for never. */
  function Last(hits: seq<int>, l: int): nat
    ensures Last(hits, l) <= |hits|
  {
    if hits == [] then 0 else if hits[|hits| - 1] == l then |hits| else Last(hits[..|hits| - 1], l)
  }

  /** The label was hit more often, or as often but not as lately. */
  predicate Ahead(hits: seq<int>, l: int, m: int) {
    Count(hits, l) > Count(hits, m) || (Count(hits, l) == Count(hits, m) && Last(hits, l) < Last(hits, m))
  }

  /** The list for a sequence of hits: each label hit, once, with its count, in order. */
  ghost predicate Tally(hits: seq<int>, s: seq<Hit>) {
    && (forall i :: 0 <= i < |s| ==> s[i].lab in hits && s[i].freq == Count(hits, s[i].lab))
    && (forall l :: l in hits ==> exists i :: 0 <= i < |s| && s[i].lab == l)
    && (forall i, j :: 0 <= i < j < |s| ==> s[i].lab != s[j].lab && Ahead(hits, s[i].lab, s[j].lab))
  }

  lemma CountSnoc(hits: seq<int>, x: int, l: int)
    ensures Count(hits + [x], l) == Count(hits, l) + if x == l then 1 else 0
    ensures Last(hits + [x], l) == if x == l then |hits| + 1 else Last(hits, l)
  {
    assert (hits + [x])[..|hits|] == hits;
  }

  lemma {:induction false} CountPositive(hits: seq<int>, l: int)
    ensures l in hits <==> Count(hits, l) > 0
    ensures l in hits <==> Last(hits, l) > 0
  {
    if hits != [] {
      CountPositive(hits[..|hits| - 1], l);
      assert hits == hits[..|hits| - 1] + [hits[|hits| - 1]];
    }
  }

  /** Only one list tallies a sequence of hits. */
  lemma OnlyOneTally(hits: seq<int>, s: seq<Hit>, r: seq<Hit>)
    requires Tally(hits, s) && Tally(hits, r)
    ensures s == r
  {
    TallyPrefix(hits, s, r, |s|);
    TallyPrefix(hits, r, s, |r|);
  }

  lemma {:induction false} TallyPrefix(hits: seq<int>, s: seq<Hit>, r: seq<Hit>, n: nat)
    requires Tally(hits, s) && Tally(hits, r) && n <= |s|
    ensures n <= |r| && s[..n] == r[..n]
  {
    hide Tally;
    if n > 0 {
      TallyPrefix(hits, s, r, n - 1);
      NextIsSame(hits, s, r, n - 1);
      assert s[..n] == s[..n - 1] + [s[n - 1]] && r[..n] == r[..n - 1] + [r[n - 1]];
    }
  }

  /** Where an entry past a common start is in the other list. */
  lemma FoundPast(hits: seq<int>, s: seq<Hit>, r: seq<Hit>, n: nat) returns (i: nat)
    requires Tally(hits, s) && Tally(hits, r) && n < |s| && n <= |r| && s[..n] == r[..n]
    ensures n <= i < |r| && r[i] == s[n]
  {
    hide Ahead;
    assert s[n].lab in hits;
    i :| 0 <= i < |r| && r[i].lab == s[n].lab;
    assert forall m :: 0 <= m < n ==> r[m] == r[..n][m] == s[..n][m] == s[m];
  }

  lemma NextIsSame(hits: seq<int>, s: seq<Hit>, r: seq<Hit>, n: nat)
    requires Tally(hits, s) && Tally(hits, r) && n < |s| && n <= |r| && s[..n] == r[..n]
    ensures n < |r| && s[n] == r[n]
  {
    hide Ahead;
    var i := FoundPast(hits, s, r, n);
    var j := FoundPast(hits, r, s, n);
    if i != n {
      assert Ahead(hits, r[n].lab, r[i].lab);
      if j != n {
        assert Ahead(hits, s[n].lab, s[j].lab);
        AheadOnce(hits, r[n].lab, s[n].lab);
      }
    }
  }

  lemma AheadOnce(hits: seq<int>, l: int, m: int)
    ensures !(Ahead(hits, l, m) && Ahead(hits, m, l))
  {}

  /** The list has as many entries as different labels were hit. */
  lemma TallySize(hits: seq<int>, s: seq<Hit>)
    requires Tally(hits, s)
    ensures |s| == |set l | l in hits|
  {
    hide Ahead;
    LabelCount(s);
    assert (set l | l in hits) == LabelsOf(s);
  }

  ghost function LabelsOf(s: seq<Hit>): (r: set<int>)
    ensures forall l :: l in r <==> exists i :: 0 <= i < |s| && s[i].lab == l
  {
    if s == [] then {} else LabelsOf(s[..|s| - 1]) + {s[|s| - 1].lab}
  }

  lemma {:induction false} LabelCount(s: seq<Hit>)
    requires forall i, j :: 0 <= i < j < |s| ==> s[i].lab != s[j].lab
    ensures |LabelsOf(s)| == |s|
  {
    if s != [] {
      LabelCount(s[..|s| - 1]);
    }
  }

  // ---- One more hit -----------------------------------------------------------------------------

  /** The list with entry i counted up and moved to place j. */
  ghost predicate Bubbled(s: seq<Hit>, r: seq<Hit>, i: nat, j: nat) {
    && j <= i < |s| == |r|
    && r[j] == Hit(s[i].lab, s[i].freq + 1)
    && (forall m :: 0 <= m < j || i < m < |s| ==> r[m] == s[m])
    && (forall m :: j < m <= i ==> r[m] == s[m - 1])
  }

  /** Adding a label that was not hit yet at the end. */
  lemma TallyNew(hits: seq<int>, s: seq<Hit>, l: int)
    requires Tally(hits, s) && forall i :: 0 <= i < |s| ==> s[i].lab != l
    ensures Tally(hits + [l], s + [Hit(l, 1)])
  {
    hide Ahead;
    var h, r := hits + [l], s + [Hit(l, 1)];
    assert l !in hits;
    CountPositive(hits, l);
    CountSnoc(hits, l, l);
    forall i | 0 <= i < |s|
      ensures r[i].lab in h && r[i].freq == Count(h, r[i].lab) && Ahead(h, r[i].lab, l)
    {
      CountSnoc(hits, l, s[i].lab);
      CountPositive(hits, s[i].lab);
      IsAhead(h, s[i].lab, l);
    }
    forall i, j | 0 <= i < j < |r|
      ensures r[i].lab != r[j].lab && Ahead(h, r[i].lab, r[j].lab)
    {
      if j < |s| {
        StillAhead(hits, l, s[i].lab, s[j].lab);
      }
    }
    forall m | m in h
      ensures exists i :: 0 <= i < |r| && r[i].lab == m
    {
      if m in hits {
        var i :| 0 <= i < |s| && s[i].lab == m;
        assert r[i].lab == m;
      } else {
        assert r[|s|].lab == m;
      }
    }
  }

  lemma IsAhead(hits: seq<int>, l: int, m: int)
    requires Count(hits, l) > Count(hits, m) || (Count(hits, l) == Count(hits, m) && Last(hits, l) < Last(hits, m))
    ensures Ahead(hits, l, m)
  {}

  lemma StillAhead(hits: seq<int>, x: int, l: int, m: int)
    requires Ahead(hits, l, m) && x != l && x != m
    ensures Ahead(hits + [x], l, m)
  {
    CountSnoc(hits, x, l);
    CountSnoc(hits, x, m);
  }

  /** Counting up an entry and moving it before all entries with a lower frequency. */
  lemma TallyHit(hits: seq<int>, s: seq<Hit>, r: seq<Hit>, i: nat, j: nat)
    requires Tally(hits, s) && Bubbled(s, r, i, j)
    requires j > 0 ==> s[j - 1].freq >= s[i].freq + 1
    requires forall m :: j <= m < i ==> s[m].freq < s[i].freq + 1
    ensures Tally(hits + [s[i].lab], r)
  {
    hide Ahead;
    var l, h := s[i].lab, hits + [s[i].lab];
    CountSnoc(hits, l, l);
    forall m | 0 <= m < |r|
      ensures r[m].lab in h && r[m].freq == Count(h, r[m].lab)
    {
      CountSnoc(hits, l, r[m].lab);
    }
    forall x | x in h
      ensures exists m :: 0 <= m < |r| && r[m].lab == x
    {
      if x == l {
        assert r[j].lab == x;
      } else {
        var m :| 0 <= m < |s| && s[m].lab == x;
        assert r[if j <= m < i then m + 1 else m].lab == x;
      }
    }
    forall a, b | 0 <= a < b < |r|
      ensures r[a].lab != r[b].lab && Ahead(h, r[a].lab, r[b].lab)
    {
      HitOrder(hits, s, r, i, j, a, b);
    }
  }

  lemma HitOrder(hits: seq<int>, s: seq<Hit>, r: seq<Hit>, i: nat, j: nat, a: nat, b: nat)
    requires Tally(hits, s) && Bubbled(s, r, i, j) && a < b < |s|
    requires j > 0 ==> s[j - 1].freq >= s[i].freq + 1
    requires forall m :: j <= m < i ==> s[m].freq < s[i].freq + 1
    ensures r[a].lab != r[b].lab && Ahead(hits + [s[i].lab], r[a].lab, r[b].lab)
  {
    hide Ahead;
    var l, h := s[i].lab, hits + [s[i].lab];
    CountSnoc(hits, l, l);
    if b == j {
      CountSnoc(hits, l, s[a].lab);
      FrequenciesFall(hits, s, a, j - 1);
      IsAhead(h, s[a].lab, l);
    } else if a == j {
      var m := if b <= i then b - 1 else b;
      CountSnoc(hits, l, s[m].lab);
      if m > i {
        FrequenciesFall(hits, s, i, m);
      }
      IsAhead(h, l, s[m].lab);
    } else {
      var m, n := if j < a <= i then a - 1 else a, if j < b <= i then b - 1 else b;
      assert r[a] == s[m] && r[b] == s[n] && m < n;
      StillAhead(hits, l, s[m].lab, s[n].lab);
    }
  }

  lemma FrequenciesFall(hits: seq<int>, s: seq<Hit>, a: nat, b: nat)
    requires Tally(hits, s) && a <= b < |s|
    ensures s[a].freq >= s[b].freq
  {
    if a < b {
      assert Ahead(hits, s[a].lab, s[b].lab);
    }
  }

  // ---- The list ---------------------------------------------------------------------------------

  /** The node at place i, null before the first and after the last. */
  ghost function At(nodes: seq<HitEntry>, i: int): HitEntry? { if 0 <= i < |nodes| then nodes[i] else null }

  ghost predicate Within(nodes: seq<HitEntry>, repr: set<HitEntry>)
  {
    forall i :: 0 <= i < |nodes| ==> nodes[i] in repr
  }

  ghost predicate Distinct(nodes: seq<HitEntry>) { forall i, j :: 0 <= i < j < |nodes| ==> nodes[i] != nodes[j] }

  /** The node at place i points to its two neighbours. */
  ghost predicate Beside(nodes: seq<HitEntry>, i: nat)
    requires i < |nodes|
    reads nodes
  {
    nodes[i].next == At(nodes, i + 1) && nodes[i].prev == At(nodes, i - 1)
  }

  ghost predicate Mirrored(nodes: seq<HitEntry>)
    reads nodes
  {
    forall i :: 0 <= i < |nodes| ==> Beside(nodes, i)
  }

  ghost function HitsOf(nodes: seq<HitEntry>): (s: seq<Hit>)
    reads nodes
    ensures |s| == |nodes| && forall i :: 0 <= i < |s| ==> s[i] == Hit(nodes[i].label_, nodes[i].freq)
  {
    seq(|nodes|, i requires 0 <= i < |nodes| reads nodes => Hit(nodes[i].label_, nodes[i].freq))
  }

  class HitList {
    var head: HitEntry?
    var tail: HitEntry?
    var entries: int
    // the nodes in order, the labels hit since the list was last empty, and the entries counted
    // before that
    ghost var nodes: seq<HitEntry>
    ghost var repr: set<HitEntry>
    ghost var hits: seq<int>
    ghost var stale: int

    ghost predicate Linked()
      reads this, nodes
    {
      && Distinct(nodes) && Mirrored(nodes) && head == At(nodes, 0) && tail == At(nodes, |nodes| - 1)
      && Within(nodes, repr)
    }

    ghost predicate Valid()
      reads this, nodes
    {
      Linked() && Tally(hits, HitsOf(nodes)) && entries == |nodes| + stale
    }

    constructor ()
      ensures Valid() && hits == [] && nodes == [] && stale == 0
    {
      head, tail, entries := null, null, 0;
      nodes, repr, hits, stale := [], {}, [], 0;
    }

    /** Empties the list. The count of entries stays. */
    method Clear()
      requires Valid()
      modifies this
      ensures Valid() && nodes == [] && hits == [] && entries == old(entries) && stale == entries
    {
      head, tail := null, null;
      nodes, repr, hits, stale := [], {}, [], entries;
    }

    /** The entry for a label, null if it has none. */
    method FindHit(lab: int) returns (he: HitEntry?, ghost i: nat)
      requires Linked()
      ensures i <= |nodes| && he == At(nodes, i)
      ensures he != null ==> he.label_ == lab
      ensures he == null ==> forall j :: 0 <= j < |nodes| ==> nodes[j].label_ != lab
    {
      he, i := head, 0;
      while he != null
        invariant i <= |nodes| && he == At(nodes, i)
        invariant forall j :: 0 <= j < i ==> nodes[j].label_ != lab
        decreases |nodes| - i
      {
        if he.label_ == lab {
          return;
        }
        assert Beside(nodes, i);
        he, i := he.next, i + 1;
      }
    }

    /** Exchanges an entry with the one before it. */
    method HitSwapWithPrev(he: HitEntry, ghost i: nat)
      requires Linked() && i < |nodes| && he == nodes[i]
      modifies this, repr
      ensures Linked() && repr == old(repr)
      ensures nodes == if i == 0 then old(nodes) else Exchanged(old(nodes), i)
      ensures HitsOf(nodes) == if i == 0 then old(HitsOf(nodes)) else Exchanged(old(HitsOf(nodes)), i)
      ensures he.freq == old(he.freq)
      ensures entries == old(entries) && hits == old(hits) && stale == old(stale)
    {
      Neighbours(nodes, i);
      if he.prev != null {
        Relink(he, he.prev, i);
      }
    }

    method Relink(he: HitEntry, prev: HitEntry, ghost i: nat)
      requires Linked() && 0 < i < |nodes| && he == nodes[i] && prev == nodes[i - 1] == he.prev
      modifies this, repr
      ensures Linked() && nodes == Exchanged(old(nodes), i) && HitsOf(nodes) == Exchanged(old(HitsOf(nodes)), i)
      ensures repr == old(repr) && he.freq == old(he.freq)
      ensures entries == old(entries) && hits == old(hits) && stale == old(stale)
    {
      hide Distinct, Mirrored, Relinked, Within;
      ghost var was := nodes;
      Rewire(he, prev, i);
      nodes := Exchanged(was, i);
      SwappedNodes(was, nodes, i);
      SwapMirrored(was, nodes, i);
    }

    /** Sets the links around two entries that change places. */
    method Rewire(he: HitEntry, prev: HitEntry, ghost i: nat)
      requires Linked() && 0 < i < |nodes| && he == nodes[i] && prev == nodes[i - 1] == he.prev
      modifies `head, `tail, repr
      ensures Relinked(nodes, i) && HitsOf(nodes) == old(HitsOf(nodes)) && he.freq == old(he.freq)
      ensures head == (if i == 1 then he else old(head)) && tail == if i == |nodes| - 1 then prev else old(tail)
    {
      Neighbours(nodes, i);
      Window(nodes, i);
      hide Distinct;
      prev.next := he.next;
      he.prev := prev.prev;
      he.next := prev;
      prev.prev := he;
      var after, before := prev.next, he.prev;
      if after == null {
        tail := prev;
      } else {
        after.prev := prev;
      }
      if before == null {
        head := he;
      } else {
        before.next := he;
      }
      assert i >= 2 ==> old(Beside(nodes, i - 2));
      assert i + 1 < |nodes| ==> old(Beside(nodes, i + 1));
      forall m | 0 <= m < |nodes| && !(i - 2 <= m <= i + 1)
        ensures Beside(nodes, m)
      {
        assert old(Beside(nodes, m));
        FarApart(nodes, i, m);
      }
    }

    /** Counts a hit. */
    method AddHit(lab: int) returns (freq: int)
      requires Valid()
      modifies this, repr
      ensures Valid() && hits == old(hits) + [lab] && stale == old(stale)
      ensures freq == Count(hits, lab)
      ensures fresh(repr - old(repr))
    {
      hide Tally, Linked;
      var he, i := FindHit(lab);
      if he != null {
        freq := HitAgain(he, i);
      } else {
        freq := AddNew(lab);
      }
      Record(lab);
    }

    ghost method Record(lab: int)
      requires Linked() && Tally(hits + [lab], HitsOf(nodes)) && entries == |nodes| + stale
      modifies `hits
      ensures Valid() && hits == old(hits) + [lab]
    {
      hide Tally, Distinct, Mirrored, Within;
      hits := hits + [lab];
    }

    method AddNew(lab: int) returns (freq: int)
      requires Valid() && forall i :: 0 <= i < |nodes| ==> nodes[i].label_ != lab
      modifies this, repr
      ensures Linked() && Tally(hits + [lab], HitsOf(nodes)) && freq == Count(hits + [lab], lab)
      ensures entries == |nodes| + stale && fresh(repr - old(repr)) && hits == old(hits) && stale == old(stale)
    {
      hide Tally, Ahead, Distinct, Mirrored;
      ghost var s := HitsOf(nodes);
      TallyNew(hits, s, lab);
      TallyHas(hits + [lab], s + [Hit(lab, 1)], |s|);
      var he := new HitEntry(lab, tail);
      Append(he);
      freq := he.freq;
    }

    method HitAgain(he: HitEntry, ghost i: nat) returns (freq: int)
      requires Valid() && i < |nodes| && he == nodes[i]
      modifies this, repr
      ensures Linked() && Tally(hits + [old(he.label_)], HitsOf(nodes))
              && freq == Count(hits + [old(he.label_)], old(he.label_))
      ensures entries == |nodes| + stale && repr == old(repr) && hits == old(hits) && stale == old(stale)
    {
      hide Tally, Ahead, Distinct, Mirrored;
      ghost var s, lab := HitsOf(nodes), he.label_;
      ghost var j := CountUp(he, i);
      TallyHit(hits, s, HitsOf(nodes), i, j);
      TallyHas(hits + [lab], HitsOf(nodes), j);
      freq := he.freq;
    }

    method CountUp(he: HitEntry, ghost i: nat) returns (ghost j: nat)
      requires Linked() && i < |nodes| && he == nodes[i]
      modifies this, repr
      ensures Linked() && Bubbled(old(HitsOf(nodes)), HitsOf(nodes), i, j) && he == nodes[j]
      ensures j > 0 ==> old(HitsOf(nodes))[j - 1].freq >= old(he.freq) + 1
      ensures forall m :: j <= m < i ==> old(HitsOf(nodes))[m].freq < old(he.freq) + 1
      ensures entries == old(entries) && hits == old(hits) && stale == old(stale) && |nodes| == |old(nodes)|
      ensures repr == old(repr)
    {
      ghost var s := HitsOf(nodes);
      Bump(he, i);
      BubbleNone(s, HitsOf(nodes), i);
      hide Distinct, Within, Bubbled, Mirrored, Beside;
      j := MoveUp(he, i, s);
    }

    /** Adds one to a frequency. */
    method Bump(he: HitEntry, ghost i: nat)
      requires Linked() && i < |nodes| && he == nodes[i]
      modifies repr
      ensures Linked() && he.freq == old(he.freq) + 1
      ensures HitsOf(nodes) == old(HitsOf(nodes))[i := Hit(old(he.label_), old(he.freq) + 1)]
    {
      he.freq := he.freq + 1;
      forall m | 0 <= m < |nodes|
        ensures Beside(nodes, m)
      {
        assert old(Beside(nodes, m));
      }
    }

    /** Puts a new entry at the end. */
    method Append(he: HitEntry)
      requires Linked() && he !in nodes && he.next == null && he.prev == tail
      modifies this, repr
      ensures Linked() && nodes == old(nodes) + [he] && repr == old(repr) + {he}
      ensures HitsOf(nodes) == old(HitsOf(nodes)) + [Hit(old(he.label_), old(he.freq))]
      ensures entries == old(entries) + 1 && hits == old(hits) && stale == old(stale)
    {
      hide Distinct, Within, Mirrored, LastLinked;
      ghost var was := nodes;
      AppendApart(was, he, repr);
      LinkLast(he);
      nodes := was + [he];
      repr := repr + {he};
      LastMirrored(was, he);
    }

    method LinkLast(he: HitEntry)
      requires Linked() && he !in nodes && he.next == null && he.prev == tail
      modifies `head, `tail, `entries, repr
      ensures LastLinked(nodes, he) && HitsOf(nodes) == old(HitsOf(nodes)) && entries == old(entries) + 1
      ensures head == (if nodes == [] then he else old(head)) && tail == he
      ensures he.label_ == old(he.label_) && he.freq == old(he.freq)
    {
      AppendApart(nodes, he, repr);
      hide Distinct, Within;
      tail := he;
      if he.prev != null {
        he.prev.next := he;
      } else {
        head := he;
      }
      entries := entries + 1;
      forall m | 0 <= m < |nodes| - 1
        ensures Beside(nodes, m)
      {
        assert old(Beside(nodes, m));
        LastApart(nodes, m);
      }
      assert |nodes| > 0 ==> old(Beside(nodes, |nodes| - 1));
    }

    /** Entry i of list s was counted up and is on its way to the front, now at place j: those it has
        passed have lower frequencies. */
    ghost predicate Rising(he: HitEntry, s: seq<Hit>, i: nat, j: nat)
      reads this, nodes
    {
      && Linked() && j <= i < |s| == |nodes| && nodes[j] == he && he.freq == s[i].freq + 1
      && Bubbled(s, HitsOf(nodes), i, j) && forall m :: j <= m < i ==> s[m].freq < s[i].freq + 1
    }

    /** Moves an entry that was just counted up before all entries with a lower frequency. */
    method MoveUp(he: HitEntry, ghost i: nat, ghost s: seq<Hit>) returns (ghost j: nat)
      requires Rising(he, s, i, i)
      modifies this, repr
      ensures Rising(he, s, i, j) && (j > 0 ==> s[j - 1].freq >= s[i].freq + 1)
      ensures entries == old(entries) && hits == old(hits) && stale == old(stale) && repr == old(repr)
    {
      hide Rising;
      j := i;
      Previous(he, s, i, j);
      while he.prev != null && he.prev.freq < he.freq
        invariant Rising(he, s, i, j) && repr == old(repr)
        invariant entries == old(entries) && hits == old(hits) && stale == old(stale)
        invariant he.prev != null <==> j > 0
        invariant j > 0 ==> he.prev.freq == s[j - 1].freq && he.freq == s[i].freq + 1
        decreases j
      {
        StepUp(he, i, j, s);
        j := j - 1;
        Previous(he, s, i, j);
      }
    }

    lemma Previous(he: HitEntry, s: seq<Hit>, i: nat, j: nat)
      requires Rising(he, s, i, j)
      ensures j <= i < |s|
      ensures he.prev != null <==> j > 0
      ensures j > 0 ==> he.prev.freq == s[j - 1].freq && he.freq == s[i].freq + 1
    {
      Neighbours(nodes, j);
      BubbleBefore(s, HitsOf(nodes), i, j);
    }

    method StepUp(he: HitEntry, ghost i: nat, ghost j: nat, ghost s: seq<Hit>)
      requires 0 < j && Rising(he, s, i, j) && s[j - 1].freq < s[i].freq + 1
      modifies this, repr
      ensures Rising(he, s, i, j - 1) && repr == old(repr)
      ensures entries == old(entries) && hits == old(hits) && stale == old(stale)
    {
      hide Distinct, Mirrored, Bubbled, Within, Linked, HitsOf, Exchanged;
      RisingParts(he, s, i, j);
      BubbleStep(s, HitsOf(nodes), i, j);
      HitSwapWithPrev(he, j);
      ExchangedAt(old(nodes), nodes, j);
    }

    lemma RisingParts(he: HitEntry, s: seq<Hit>, i: nat, j: nat)
      requires Rising(he, s, i, j)
      ensures Linked() && j <= i < |s| == |nodes| && nodes[j] == he && he.freq == s[i].freq + 1
      ensures Bubbled(s, HitsOf(nodes), i, j)
    {
      hide Distinct, Mirrored, Bubbled, Within, Linked, HitsOf;
    }

    /** How often a label was hit. */
    method LabelFreq(lab: int) returns (freq: int)
      requires Valid()
      ensures freq == Count(hits, lab)
    {
      var he, i := FindHit(lab);
      CountPositive(hits, lab);
      if he != null {
        assert HitsOf(nodes)[i].lab == lab;
        return he.freq;
      }
      return 0;
    }
  }

  lemma Neighbours(n: seq<HitEntry>, i: nat)
    requires Distinct(n) && Mirrored(n) && i < |n|
    ensures n[i].prev == null <==> i == 0
    ensures n[i].prev == At(n, i - 1) && n[i].next == At(n, i + 1)
    ensures i > 0 ==> n[i - 1].prev == At(n, i - 2)
  {
    assert Beside(n, i);
    if i > 0 {
      assert Beside(n, i - 1);
    }
  }

  lemma Window(n: seq<HitEntry>, i: nat)
    requires Distinct(n) && 0 < i < |n|
    ensures n[i] != n[i - 1] && At(n, i + 1) != n[i] && At(n, i + 1) != n[i - 1]
    ensures At(n, i - 2) != n[i] && At(n, i - 2) != n[i - 1] && (i + 1 < |n| ==> At(n, i + 1) != At(n, i - 2))
  {}

  lemma FarApart(n: seq<HitEntry>, i: nat, m: nat)
    requires Distinct(n) && 0 < i < |n| && m < |n| && !(i - 2 <= m <= i + 1)
    ensures n[m] != n[i] && n[m] != n[i - 1] && n[m] != At(n, i - 2) && n[m] != At(n, i + 1)
  {}

  /** What has become of the links of places i - 1 and i, and of those next to them. */
  ghost predicate Relinked(n: seq<HitEntry>, i: nat)
    requires 0 < i < |n|
    reads n
  {
    && n[i].next == n[i - 1] && n[i].prev == At(n, i - 2) && n[i - 1].next == At(n, i + 1) && n[i - 1].prev == n[i]
    && (i >= 2 ==> n[i - 2].next == n[i] && n[i - 2].prev == At(n, i - 3))
    && (i + 1 < |n| ==> n[i + 1].prev == n[i - 1] && n[i + 1].next == At(n, i + 2))
    && forall m :: 0 <= m < |n| && !(i - 2 <= m <= i + 1) ==> Beside(n, m)
  }

  lemma SwapMirrored(n: seq<HitEntry>, r: seq<HitEntry>, i: nat)
    requires 0 < i < |n| && r == n[i - 1 := n[i]][i := n[i - 1]] && Relinked(n, i)
    ensures Mirrored(r)
  {
    forall m | 0 <= m < |r|
      ensures Beside(r, m)
    {
      if !(i - 2 <= m <= i + 1) {
        assert Beside(n, m);
      }
    }
  }

  lemma SwappedNodes(n: seq<HitEntry>, r: seq<HitEntry>, i: nat)
    requires Distinct(n) && 0 < i < |n| && r == n[i - 1 := n[i]][i := n[i - 1]]
    ensures Distinct(r) && forall repr :: Within(n, repr) ==> Within(r, repr)
  {}

  lemma AppendApart(n: seq<HitEntry>, he: HitEntry, repr: set<HitEntry>)
    requires Distinct(n) && he !in n && Within(n, repr)
    ensures Distinct(n + [he]) && Within(n + [he], repr + {he}) && (n != [] ==> n[|n| - 1] != he && n[|n| - 1] in repr)
  {}

  /** What has become of the links at the end. */
  ghost predicate LastLinked(n: seq<HitEntry>, he: HitEntry)
    reads n, he
  {
    && (forall m :: 0 <= m < |n| - 1 ==> Beside(n, m)) && he.next == null && he.prev == At(n, |n| - 1)
    && (n != [] ==> n[|n| - 1].next == he && n[|n| - 1].prev == At(n, |n| - 2))
  }

  lemma LastMirrored(n: seq<HitEntry>, he: HitEntry)
    requires LastLinked(n, he)
    ensures Mirrored(n + [he])
  {
    forall m | 0 <= m < |n| + 1
      ensures Beside(n + [he], m)
    {
      if m < |n| - 1 {
        assert Beside(n, m);
      }
    }
  }

  lemma LastApart(n: seq<HitEntry>, m: nat)
    requires Distinct(n) && m < |n| - 1
    ensures n[m] != n[|n| - 1]
  {}

  lemma TallyHas(hits: seq<int>, s: seq<Hit>, i: nat)
    requires Tally(hits, s) && i < |s|
    ensures s[i].freq == Count(hits, s[i].lab)
  {}

  function Exchanged<T>(s: seq<T>, i: nat): seq<T>
    requires 0 < i < |s|
  {
    s[i - 1 := s[i]][i := s[i - 1]]
  }

  lemma ExchangedAt<T>(s: seq<T>, r: seq<T>, i: nat)
    requires 0 < i < |s| && r == Exchanged(s, i)
    ensures |r| == |s| && r[i - 1] == s[i]
  {}

  lemma BubbleNone(s: seq<Hit>, r: seq<Hit>, i: nat)
    requires i < |s| == |r| && r[i] == Hit(s[i].lab, s[i].freq + 1) && forall m :: 0 <= m < |s| && m != i ==>
               s[m] == r[m]
    ensures Bubbled(s, r, i, i)
  {}

  lemma BubbleStep(s: seq<Hit>, r: seq<Hit>, i: nat, j: nat)
    requires 0 < j && Bubbled(s, r, i, j)
    ensures Bubbled(s, Exchanged(r, j), i, j - 1) && r[j - 1] == s[j - 1]
  {}

  lemma BubbleBefore(s: seq<Hit>, r: seq<Hit>, i: nat, j: nat)
    requires Bubbled(s, r, i, j)
    ensures j > 0 ==> r[j - 1] == s[j - 1]
  {}
}
