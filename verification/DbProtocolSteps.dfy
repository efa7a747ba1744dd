/** The steps that write the files or complete an operation. */
module DbProtocolSteps {
  import opened Options
  import opened AsciiFields
  import opened DbRecords
  import opened DbMap
  import opened DbProtocol
  import opened DbProtocolInvariant
  import opened DbProtocolFrame
  import opened DbProtocolLocal

  /** The record a step may change stands for no key but that of the process. */
  ghost predicate NotShared(s: State, r: Proc, o: nat) {
    forall key :: key in s.k.at && key != r.op.key ==> s.k.at[key] != o
  }

  ghost predicate OneEntry(m: map<string, string>, m': map<string, string>, key: string) {
    forall x :: x != key ==> SameEntry(m, m', x)
  }

  /** The appended data of the other processes stays theirs. */
  ghost predicate OtherExtents(s: State, s': State, p: nat)
    requires |s.procs| == |s'.procs|
  {
    forall q :: 0 <= q < |s.procs| && q != p && Appending(s.procs[q].pc) ==> Extent(s'.k, s'.dat, s.procs[q])
  }

  lemma OthersKnow(s: State, s': State, p: nat, a: nat, o: nat)
    requires Inv(s) && p < |s.procs| && Writes(s.procs[p]) && |s'.procs| == |s.procs|
    requires Mine(s, p, a) && Mine(s, p, o) && Effect(s.k, s.dat, s'.k, s'.dat, s.procs[p], a, o)
    requires OneEntry(s.view, s'.view, s.procs[p].op.key) && FREE_OFF in s'.k.ptr
    requires (s'.idxEnd == s.idxEnd || HoldsIdx(s.procs[p])) && (|s'.dat| == |s.dat| || HoldsDat(s.procs[p]))
    requires OtherExtents(s, s', p)
    ensures forall q :: 0 <= q < |s.procs| && q != p ==> Knows(s'.k, s'.dat, s'.idxEnd, s'.view, s.procs[q])
  {
    hide Inv, Effect, Mine, Knows, Extent, Hash, Unmoved, SameEntry;
    forall q | 0 <= q < |s.procs| && q != p
      ensures Knows(s'.k, s'.dat, s'.idxEnd, s'.view, s.procs[q])
    {
      KnowsOf(s, q);
      InvExclusion(s);
      ExcludedPair(s.procs, p, q);
      if HoldsChain(s.procs[q]) {
        EffectUnmoved(s, p, s'.k, s'.dat, a, o, q);
        assert SameEntry(s.view, s'.view, s.procs[q].op.key);
        KnowsFrame(s.k, s.dat, s.idxEnd, s.view, s'.k, s'.dat, s'.idxEnd, s'.view, s.procs[q]);
      } else {
        UnlockedKnows(s.k, s.dat, s.idxEnd, s.view, s'.k, s'.dat, s'.idxEnd, s'.view, s.procs[q]);
      }
    }
  }

  lemma InvParts(s: State)
    requires Inv(s)
    ensures Pointers(s) && Exclusion(s.procs) && Ownership(s) && ExtentsApart(s.procs)
    ensures s.idxEnd >= FIRST_RECORD && forall o :: o in s.k.body ==> o < s.idxEnd
  {}

  lemma InvExclusion(s: State)
    requires Inv(s)
    ensures Exclusion(s.procs)
  {}

  /** A process without the chain lock knows nothing of the files. */
  lemma UnlockedKnows(k: Links, dat: string, e: nat, view: map<string, string>,
                      k': Links, dat': string, e': nat, view': map<string, string>, q: Proc)
    requires Knows(k, dat, e, view, q) && !HoldsChain(q)
    ensures Knows(k', dat', e', view', q)
  {}

  lemma MapShownAfter(s: State, s': State, p: nat, a: nat, o: nat)
    requires MapShown(s) && Consistent(s.k, s.dat) && p < |s.procs| && |s'.procs| == |s.procs|
    requires s'.procs == s.procs[p := s'.procs[p]]
    requires s'.procs[p].op == s.procs[p].op
    requires Effect(s.k, s.dat, s'.k, s'.dat, s.procs[p], a, o) && NotShared(s, s.procs[p], o)
    requires OneEntry(s.view, s'.view, s.procs[p].op.key)
    requires Dirty(s'.procs[p], s.procs[p].op.key) || SameAt(s'.k, s'.dat, s'.view, s.procs[p].op.key)
    ensures MapShown(s')
  {
    hide Hash, Shape, Extents, Value;
    var r := s.procs[p];
    forall key | forall q :: 0 <= q < |s'.procs| ==> !Dirty(s'.procs[q], key)
      ensures SameAt(s'.k, s'.dat, s'.view, key)
    {
      assert !Dirty(s'.procs[p], key);
      if key != r.op.key {
        forall q | 0 <= q < |s.procs|
          ensures !Dirty(s.procs[q], key)
        {
          if q != p {
            assert !Dirty(s'.procs[q], key);
          }
        }
        assert SameAt(s.k, s.dat, s.view, key) && SameEntry(s.view, s'.view, key);
        if key in s.k.at {
          assert Live(s.k.home, s.k.at[key]);
          assert SameBody(s.k, s.dat, s'.k, s'.dat, s.k.at[key]);
        }
      }
    }
  }

  /** The step of a writing process touches at most the pointer at a and the record at o, which
      are its own, and the files stay in order. */
  ghost predicate Parts(s: State, s': State, p: nat, a: nat, o: nat)
    requires p < |s.procs|
  {
    && |s'.procs| == |s.procs| && s'.procs == s.procs[p := s'.procs[p]] && s'.procs[p].op == s.procs[p].op
    && Mine(s, p, a) && Mine(s, p, o) && NotShared(s, s.procs[p], o)
    && Effect(s.k, s.dat, s'.k, s'.dat, s.procs[p], a, o)
    && (s'.idxEnd == s.idxEnd || HoldsIdx(s.procs[p])) && (|s'.dat| == |s.dat| || HoldsDat(s.procs[p]))
    && OtherExtents(s, s', p)
    && Consistent(s'.k, s'.dat) && s'.idxEnd >= FIRST_RECORD && (forall x :: x in s'.k.body ==> x < s'.idxEnd)
    && Pointers(s') && Ownership(s') && ExtentsApart(s'.procs)
  }

  /** Such a step keeps the invariant if its process keeps its own part. */
  lemma EffectKeeps(s: State, s': State, p: nat, a: nat, o: nat)
    requires p < |s.procs| && Parts(s, s', p, a, o) && Writes(s.procs[p])
    requires SameLocks(s.procs[p], s'.procs[p])
    requires OneEntry(s.view, s'.view, s.procs[p].op.key)
    requires Knows(s'.k, s'.dat, s'.idxEnd, s'.view, s'.procs[p])
    requires Dirty(s'.procs[p], s.procs[p].op.key) || SameAt(s'.k, s'.dat, s'.view, s.procs[p].op.key)
    requires Inv(s)
    ensures Inv(s')
  {
    hide Effect, Mine, Knows, Hash, Consistent, Pointers, Ownership, ExtentsApart, MapShown, Exclusion, Dirty, SameAt,
      OneEntry, OtherExtents, NotShared, SameLocks;
    ListFacts(s'.k, s'.dat, 0);
    OthersKnow(s, s', p, a, o);
    MapShownAfter(s, s', p, a, o);
    ExclusionKept(s.procs, p, s'.procs[p]);
    forall q | 0 <= q < |s'.procs|
      ensures Knows(s'.k, s'.dat, s'.idxEnd, s'.view, s'.procs[q])
    {
      if q != p {
        assert s'.procs[q] == s.procs[q];
      }
    }
  }

  // ---- Parts of the invariant after a step ----------------------------------------------------

  function OwnSet(r: Proc): set<nat> { if r.own.Some? then {r.own.value} else {} }

  /** The records on no list. */
  ghost function Loose(k: Links): set<nat> { k.body.Keys - k.home.Keys }

  lemma OwnershipAfter(s: State, s': State, p: nat)
    requires Ownership(s) && p < |s.procs| && |s'.procs| == |s.procs| && s'.procs == s.procs[p := s'.procs[p]]
    requires OwnSet(s.procs[p]) <= Loose(s.k)
    requires Loose(s'.k) == Loose(s.k) - OwnSet(s.procs[p]) + OwnSet(s'.procs[p])
    requires OwnSet(s'.procs[p]) * Loose(s.k) <= OwnSet(s.procs[p])
    requires forall o :: o in OwnSet(s'.procs[p]) ==> o >= FIRST_RECORD
    ensures Ownership(s')
  {
    forall q | 0 <= q < |s'.procs| && s'.procs[q].own.Some?
      ensures s'.procs[q].own.value in Loose(s'.k) && s'.procs[q].own.value >= FIRST_RECORD
    {
      if q != p {
        DifferentOwners(s, p, q);
        assert s'.procs[q].own.value in Loose(s.k);
      }
    }
    forall q | 0 <= q < |s'.procs| && q != p && s'.procs[q].own.Some? && s'.procs[p].own.Some?
      ensures s'.procs[q].own.value != s'.procs[p].own.value
    {
      DifferentOwners(s, p, q);
      assert s'.procs[q].own.value in Loose(s.k);
    }
    forall o | o in s'.k.body && o !in s'.k.home
      ensures exists q :: 0 <= q < |s'.procs| && s'.procs[q].own == Some(o)
    {
      assert o in Loose(s'.k);
      if o in OwnSet(s'.procs[p]) {
        assert s'.procs[p].own == Some(o);
      } else {
        assert o in Loose(s.k);
        var q :| 0 <= q < |s.procs| && s.procs[q].own == Some(o);
        assert s'.procs[q].own == Some(o);
      }
    }
  }

  lemma PointersAfter(s: State, s': State, p: nat, a: nat)
    requires Pointers(s) && p < |s.procs| && |s'.procs| == |s.procs| && s'.procs == s.procs[p := s'.procs[p]]
    requires s'.ptr.Keys == s'.k.ptr.Keys && s'.ptr.Keys == s.ptr.Keys + {a}
    requires forall x :: x in s.ptr && x != a ==> s'.ptr[x] == s.ptr[x] && s'.k.ptr[x] == s.k.ptr[x]
    requires s'.ptr[a] == s'.k.ptr[a] || Pends(s'.procs[p], a)
    requires Owing(s.procs[p].pc) && s.procs[p].from != a ==> Pends(s'.procs[p], s.procs[p].from)
    ensures Pointers(s')
  {
    forall x | x in s'.ptr && forall q :: 0 <= q < |s'.procs| ==> !Pends(s'.procs[q], x)
      ensures s'.ptr[x] == s'.k.ptr[x]
    {
      if x != a {
        forall q | 0 <= q < |s.procs|
          ensures !Pends(s.procs[q], x)
        {
          assert !Pends(s'.procs[q], x);
        }
      }
    }
  }

  lemma ExtentsAfter(procs: seq<Proc>, p: nat, r': Proc)
    requires ExtentsApart(procs) && p < |procs|
    requires Appending(r'.pc) ==>
               || (Appending(procs[p].pc) && r'.b == procs[p].b)
               || forall q :: 0 <= q < |procs| && q != p && Appending(procs[q].pc) ==> Apart(r'.b, procs[q].b)
    ensures ExtentsApart(procs[p := r'])
  {}

  /** Other processes' appended data when one record changes its text but not its extent. */
  lemma OtherExtentsKept(s: State, s': State, p: nat, o: nat)
    requires Inv(s) && p < |s.procs| && |s'.procs| == |s.procs|
    requires s'.dat == s.dat && s'.k.body.Keys == s.k.body.Keys
    requires forall x :: x in s.k.body && x != o ==> s'.k.body[x] == s.k.body[x]
    requires o in s.k.body ==> s'.k.body[o].datoff == s.k.body[o].datoff && s'.k.body[o].datlen == s.k.body[o].datlen
    ensures OtherExtents(s, s', p)
  {
    hide Hash, Consistent, Pointers, Exclusion, Ownership, MapShown, ExtentOk, Value;
    forall q | 0 <= q < |s.procs| && q != p && Appending(s.procs[q].pc)
      ensures Extent(s'.k, s'.dat, s.procs[q])
    {
      assert Knows(s.k, s.dat, s.idxEnd, s.view, s.procs[q]);
    }
  }

  /** Other processes' appended data when the data of one record is overwritten. */
  lemma OtherExtentsData(s: State, s': State, p: nat, o: nat, data: string)
    requires Inv(s) && p < |s.procs| && |s'.procs| == |s.procs| && o in s.k.body
    requires |data| + 1 == s.k.body[o].datlen && s'.dat == WithData(s.dat, s.k.body[o], data) && s'.k.body == s.k.body
    ensures OtherExtents(s, s', p)
  {
    hide Hash, Pointers, Exclusion, Ownership, MapShown, ExtentOk, Value, Shape, Keyed, WithData;
    forall q | 0 <= q < |s.procs| && q != p && Appending(s.procs[q].pc)
      ensures Extent(s'.k, s'.dat, s.procs[q])
    {
      assert Knows(s.k, s.dat, s.idxEnd, s.view, s.procs[q]);
      ApartKept(s.k.body[o], s.procs[q].b, s.dat, data);
    }
  }

  lemma ApartKept(b: Body, c: Body, dat: string, data: string)
    requires ExtentOk(b, dat) && ExtentOk(c, dat) && Apart(c, b) && |data| + 1 == b.datlen
    ensures ExtentOk(c, WithData(dat, b, data)) && Value(c, WithData(dat, b, data)) == Value(c, dat)
  {
    var dat' := WithData(dat, b, data);
    assert forall j :: c.datoff <= j < c.datoff + c.datlen ==> dat'[j] == dat[j];
  }
}
