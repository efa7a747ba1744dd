/** The steps that change only the process taking them: taking and giving back locks, reading. */
module DbProtocolLocal {
  import opened Options
  import opened AsciiFields
  import opened DbRecords
  import opened DbMap
  import opened DbProtocol
  import opened DbProtocolInvariant
  import opened DbProtocolFrame

  /** What a process reads in its own chain, or in the free list under its lock, is what k says:
      no other process owes a pointer there. */
  lemma ReadsTrue(s: State, p: nat, x: nat)
    requires Inv(s) && p < |s.procs| && HoldsChain(s.procs[p]) && !Owing(s.procs[p].pc)
    requires |s.k.lists| == NHASH + 1 && Relied(s.k, s.procs[p], x) && x in s.k.ptr
    ensures x in s.ptr && At(s.ptr, x) == s.k.ptr[x]
  {
    hide Hash, Consistent, Exclusion, Ownership, ExtentsApart, MapShown;
    forall q | 0 <= q < |s.procs|
      ensures !Pends(s.procs[q], x)
    {
      if q != p && Pends(s.procs[q], x) {
        assert Knows(s.k, s.dat, s.idxEnd, s.view, s.procs[q]);
        NotRelied(s, q, p, x);
      }
    }
  }

  predicate SameLocks(r: Proc, r': Proc) {
    && r'.op == r.op
    && (HoldsChain(r') ==> HoldsChain(r)) && (HoldsFree(r') ==> HoldsFree(r))
    && (HoldsDat(r') ==> HoldsDat(r)) && (HoldsIdx(r') ==> HoldsIdx(r))
  }

  lemma ExclusionKept(procs: seq<Proc>, p: nat, r': Proc)
    requires Exclusion(procs) && p < |procs|
    requires SameLocks(procs[p], r') || forall q :: 0 <= q < |procs| && q != p ==> Compatible(r', procs[q])
    ensures Exclusion(procs[p := r'])
  {
    forall q | 0 <= q < |procs| && q != p
      ensures Compatible(r', procs[q]) && Compatible(procs[q], r')
    {
      ExcludedPair(procs, p, q);
    }
  }

  /** The bookkeeping of a process is unchanged, except that it may have become dirty. */
  predicate Continues(r: Proc, r': Proc) {
    && r'.op == r.op && r'.own == r.own
    && (Owing(r'.pc) <==> Owing(r.pc)) && (Owing(r.pc) ==> r'.from == r.from)
    && (Appending(r'.pc) ==> Appending(r.pc) && r'.b == r.b)
    && ((GonePhase(r.pc) || r.pc.Finish?) && Writes(r) ==> (GonePhase(r'.pc) || r'.pc.Finish?) && Writes(r'))
  }

  lemma OwnershipKept(s: State, p: nat, r': Proc)
    requires Ownership(s) && p < |s.procs| && r'.own == s.procs[p].own
    ensures Ownership(s.(procs := s.procs[p := r']))
  {
    var s' := s.(procs := s.procs[p := r']);
    assert forall q :: 0 <= q < |s.procs| ==> s'.procs[q].own == s.procs[q].own;
    forall o | o in s.k.body && o !in s.k.home
      ensures exists q :: 0 <= q < |s'.procs| && s'.procs[q].own == Some(o)
    {
      var q :| 0 <= q < |s.procs| && s.procs[q].own == Some(o);
      assert s'.procs[q].own == Some(o);
    }
  }

  lemma PointersKept(s: State, p: nat, r': Proc)
    requires Pointers(s) && p < |s.procs|
    requires (Owing(r'.pc) <==> Owing(s.procs[p].pc)) && (Owing(r'.pc) ==> r'.from == s.procs[p].from)
    ensures Pointers(s.(procs := s.procs[p := r']))
  {
    var s' := s.(procs := s.procs[p := r']);
    forall a | a in s'.ptr && forall q :: 0 <= q < |s'.procs| ==> !Pends(s'.procs[q], a)
      ensures s'.ptr[a] == s'.k.ptr[a]
    {
      forall q | 0 <= q < |s.procs|
        ensures !Pends(s.procs[q], a)
      {
        assert !Pends(s'.procs[q], a);
      }
    }
  }

  lemma MapShownKept(s: State, p: nat, r': Proc)
    requires MapShown(s) && p < |s.procs| && r'.op == s.procs[p].op
    requires (GonePhase(s.procs[p].pc) || s.procs[p].pc.Finish?) && Writes(s.procs[p]) ==>
               (GonePhase(r'.pc) || r'.pc.Finish?) && Writes(r')
    ensures MapShown(s.(procs := s.procs[p := r']))
  {
    var s' := s.(procs := s.procs[p := r']);
    forall key | forall q :: 0 <= q < |s'.procs| ==> !Dirty(s'.procs[q], key)
      ensures SameAt(s'.k, s'.dat, s'.view, key)
    {
      forall q | 0 <= q < |s.procs|
        ensures !Dirty(s.procs[q], key)
      {
        assert !Dirty(s'.procs[q], key);
      }
    }
  }

  /** A step that changes only its own process keeps the invariant if it keeps its own part. */
  lemma LocalKeeps(s: State, p: nat, r': Proc)
    requires Inv(s) && p < |s.procs| && Continues(s.procs[p], r')
    requires SameLocks(s.procs[p], r') || forall q :: 0 <= q < |s.procs| && q != p ==> Compatible(r', s.procs[q])
    requires Knows(s.k, s.dat, s.idxEnd, s.view, r')
    ensures Inv(s.(procs := s.procs[p := r']))
  {
    hide Consistent, Pointers, Exclusion, Ownership, MapShown, Knows, Compatible, SameLocks;
    ExclusionKept(s.procs, p, r');
    OwnershipKept(s, p, r');
    PointersKept(s, p, r');
    MapShownKept(s, p, r');
    assert forall q :: 0 <= q < |s.procs| ==> Knows(s.k, s.dat, s.idxEnd, s.view, s.procs[q]);
  }

  /** What a process knows depends on few of its variables. */
  lemma Transfer(k: Links, dat: string, view: map<string, string>, r: Proc, r': Proc)
    requires r'.op == r.op
    ensures Gone(k, view, r') <==> Gone(k, view, r)
    ensures r'.head == r.head ==> (HeadRead(k, r') <==> HeadRead(k, r))
    ensures r'.off == r.off && r'.from == r.from && r'.i == r.i ==>
              (InChain(k, r') <==> InChain(k, r)) && (InFree(k, r') <==> InFree(k, r))
    ensures r'.off == r.off && r'.from == r.from && r'.i == r.i && r'.link == r.link && r'.b == r.b ==>
              (Hit(k, r') <==> Hit(k, r))
    ensures r'.from == r.from && r'.i == r.i && r'.link == r.link ==> (Owes(k, r') <==> Owes(k, r))
    ensures r'.off == r.off && r'.own == r.own ==> (Owns(k, r') <==> Owns(k, r))
    ensures r'.b == r.b ==> (Extent(k, dat, r') <==> Extent(k, dat, r))
    ensures r'.off == r.off && r'.own == r.own && r'.head == r.head ==> (Filled(k, dat, r') <==> Filled(k, dat, r))
  {
    hide Hash, Proper, Placed, Apart, Value, ExtentOk;
  }

  // ---- Walking the chain --------------------------------------------------------------------

  /** Until it changes something itself, a process that holds its chain sees the map there. */
  lemma ViewTrue(s: State, p: nat)
    requires Inv(s) && p < |s.procs| && HoldsChain(s.procs[p]) && !GonePhase(s.procs[p].pc) && !s.procs[p].pc.Finish?
    ensures SameAt(s.k, s.dat, s.view, s.procs[p].op.key)
  {
    hide Hash, Consistent, Ownership, ExtentsApart, AllKnow, Pointers, SameAt;
    forall q | 0 <= q < |s.procs|
      ensures !Dirty(s.procs[q], s.procs[p].op.key)
    {
      if q != p {
        ExcludedPair(s.procs, p, q);
      }
    }
  }

  lemma MissedKnows(s: State, p: nat, r: Proc)
    requires Inv(s) && p < |s.procs| && HoldsChain(s.procs[p]) && !GonePhase(s.procs[p].pc) && !s.procs[p].pc.Finish?
    requires r.op == s.procs[p].op && r.own.None? && Proper(r.op) && r.op.key !in s.k.at
    ensures Knows(s.k, s.dat, s.idxEnd, s.view, Missed(r))
  {
    hide Inv;
    ViewTrue(s, p);
  }

  lemma WalkToKnows(s: State, p: nat, r: Proc, o: nat, from: nat, i: nat)
    requires Inv(s) && p < |s.procs| && HoldsChain(s.procs[p]) && !GonePhase(s.procs[p].pc) && !s.procs[p].pc.Finish?
    requires r.op == s.procs[p].op && r.own.None? && Proper(r.op)
    requires |s.k.lists| == NHASH + 1 && i <= |s.k.lists[Chain(r)]|
    requires o == Next(s.k.lists[Chain(r)], i) && from == Cell(Slot(Chain(r)), s.k.lists[Chain(r)], i)
    requires forall a :: 0 <= a < i ==>
               s.k.lists[Chain(r)][a] in s.k.body && s.k.body[s.k.lists[Chain(r)][a]].key != r.op.key
    ensures Knows(s.k, s.dat, s.idxEnd, s.view, WalkTo(r, o, from, i))
  {
    hide Inv, Hash, Gone, Consistent, Missed;
    InvConsistent(s);
    ListFacts(s.k, s.dat, Chain(r));
    if o == 0 {
      if r.op.key in s.k.at {
        LiveOnChain(s.k, s.dat, r.op.key);
      }
      MissedKnows(s, p, r);
    } else {
      FoundOnChain(s.k, s.dat, Chain(r), i);
    }
  }

  lemma FoundKnows(s: State, p: nat, r: Proc)
    requires Inv(s) && p < |s.procs| && HoldsChain(s.procs[p]) && !GonePhase(s.procs[p].pc) && !s.procs[p].pc.Finish?
    requires r.op == s.procs[p].op && r.own.None? && Proper(r.op) && Hit(s.k, r)
    ensures Knows(s.k, s.dat, s.idxEnd, s.view, Found(r))
  {
    hide Inv, Hash, Consistent, Placed;
    InvConsistent(s);
    ViewTrue(s, p);
    HitIsStored(s, r);
  }

  lemma HitIsStored(s: State, r: Proc)
    requires Consistent(s.k, s.dat) && Hit(s.k, r)
    ensures r.op.key in s.k.at && s.k.at[r.op.key] == r.off && ExtentOk(r.b, s.dat)
    ensures Lookup(s.k.body, s.k.at, s.dat, r.op.key) == Value(r.b, s.dat)
  {
    hide Hash, Consistent;
    FoundOnChain(s.k, s.dat, Chain(r), r.i);
    ConsistentParts(s.k, s.dat, r.off);
  }

  lemma KnowsOf(s: State, p: nat)
    requires Inv(s) && p < |s.procs|
    ensures Knows(s.k, s.dat, s.idxEnd, s.view, s.procs[p])
  {}

  lemma KnowsBasics(s: State, r: Proc)
    requires Knows(s.k, s.dat, s.idxEnd, s.view, r) && HoldsChain(r)
    ensures Proper(r.op) && (r.own.Some? <==> Owner(r.pc))
  {}

  lemma ReadHeadKeeps(s: State, p: nat)
    requires Inv(s) && p < |s.procs| && s.procs[p].pc.ReadHead?
    ensures Inv(Advance(s, p))
  {
    hide Inv, Hash, Consistent, Knows;
    var r := s.procs[p];
    InvConsistent(s);
    KnowsOf(s, p);
    assert r.own.None? && Proper(r.op) by { KnowsBasics(s, r); }
    ListFacts(s.k, s.dat, Chain(r));
    assert Cell(Slot(Chain(r)), s.k.lists[Chain(r)], 0) == Slot(Chain(r));
    ReadsTrue(s, p, Slot(Chain(r)));
    WalkToKnows(s, p, r, At(s.ptr, Slot(Chain(r))), Slot(Chain(r)), 0);
    LocalKeeps(s, p, Local(s, r));
  }

  /** Once the pointer of the record it stands at is read, a walk knows it. */
  lemma LinkReadKnows(k: Links, dat: string, e: nat, view: map<string, string>, r: Proc, r': Proc)
    requires (r.pc.ReadLink? && r'.pc.ReadText?) || (r.pc.FreeLink? && r'.pc.FreeText?)
    requires Knows(k, dat, e, view, r) && r.off in k.ptr && r' == r.(pc := r'.pc, link := k.ptr[r.off])
    ensures Knows(k, dat, e, view, r') && Continues(r, r') && SameLocks(r, r')
  {
    hide Hash, Gone, HeadRead, InChain, InFree, Hit, Owes, Owns, Extent, Filled, SameAt, Proper;
    Transfer(k, dat, view, r, r');
  }

  lemma WalkingIs(k: Links, dat: string, e: nat, view: map<string, string>, r: Proc)
    requires Knows(k, dat, e, view, r)
    ensures Walking(r.pc) ==> InChain(k, r)
    ensures FreeWalking(r.pc) ==> InFree(k, r)
    ensures !r.pc.Idle? && !r.pc.Crashed? ==> Proper(r.op)
  {}

  lemma ReadLinkKeeps(s: State, p: nat)
    requires Inv(s) && p < |s.procs| && s.procs[p].pc.ReadLink?
    ensures Inv(Advance(s, p))
  {
    hide Inv, Hash, Consistent, Knows, Continues, SameLocks, InChain;
    var r := s.procs[p];
    InvConsistent(s);
    KnowsOf(s, p);
    WalkingIs(s.k, s.dat, s.idxEnd, s.view, r);
    InChainCell(s.k, s.dat, r);
    ReadsTrue(s, p, r.off);
    LinkReadKnows(s.k, s.dat, s.idxEnd, s.view, r, Local(s, r));
    LocalKeeps(s, p, Local(s, r));
  }

  /** The record a process stands at, and its pointer. */
  lemma InChainCell(k: Links, dat: string, r: Proc)
    requires Consistent(k, dat) && InChain(k, r)
    ensures |k.lists| == NHASH + 1 && Relied(k, r, r.off) && r.off in k.ptr && r.off in k.body
    ensures k.ptr[r.off] == Next(k.lists[Chain(r)], r.i + 1)
            && Cell(Slot(Chain(r)), k.lists[Chain(r)], r.i + 1) == r.off
    ensures r.off >= FIRST_RECORD
  {
    hide Hash, Keyed, Extents;
    ListFacts(k, dat, Chain(r));
    assert Cell(Slot(Chain(r)), k.lists[Chain(r)], r.i + 1) == r.off;
  }

  lemma TextIs(k: Links, dat: string, e: nat, view: map<string, string>, r: Proc)
    requires Knows(k, dat, e, view, r) && r.pc.ReadText?
    ensures r.own.None? && Proper(r.op) && InChain(k, r) && r.off in k.ptr && r.link == k.ptr[r.off]
  {
    hide Hash, Proper, InChain;
  }

  lemma ReadTextKeeps(s: State, p: nat)
    requires Inv(s) && p < |s.procs| && s.procs[p].pc.ReadText?
    ensures Inv(Advance(s, p))
  {
    hide Inv, Hash, Consistent, Knows, Continues, SameLocks, WalkTo, Found, Missed;
    var r := s.procs[p];
    InvConsistent(s);
    KnowsOf(s, p);
    TextIs(s.k, s.dat, s.idxEnd, s.view, r);
    InChainCell(s.k, s.dat, r);
    var r' := r.(b := BodyAt(s.k, r.off));
    if r'.b.key == r.op.key {
      FoundKnows(s, p, r');
      FoundContinues(r');
    } else {
      WalkToKnows(s, p, r', r.link, r.off, r.i + 1);
      WalkToContinues(r', r.link, r.off, r.i + 1);
    }
    SameBookkeeping(r, r', Local(s, r));
    LocalKeeps(s, p, Local(s, r));
  }

  lemma FoundContinues(r: Proc)
    requires r.pc.ReadText?
    ensures Continues(r, Found(r)) && SameLocks(r, Found(r))
  {}

  lemma WalkToContinues(r: Proc, o: nat, from: nat, i: nat)
    requires r.pc.ReadText? || r.pc.ReadHead?
    ensures Continues(r, WalkTo(r, o, from, i)) && SameLocks(r, WalkTo(r, o, from, i))
  {}

  lemma ReadDataKeeps(s: State, p: nat)
    requires Inv(s) && p < |s.procs| && s.procs[p].pc.ReadData?
    ensures Inv(Advance(s, p))
  {
    hide Inv, Hash, Consistent, InChain;
    var r := s.procs[p];
    InvConsistent(s);
    KnowsOf(s, p);
    ViewTrue(s, p);
    HitIsStored(s, r);
    LocalKeeps(s, p, Local(s, r));
  }

  // ---- Walking the free list ------------------------------------------------------------------

  lemma FreeWalkToKnows(s: State, p: nat, r: Proc, o: nat, from: nat, i: nat)
    requires Inv(s) && p < |s.procs| && (r.pc.ReadFreeHead? || r.pc.FreeText?) && r.own.None? && Proper(r.op)
    requires Gone(s.k, s.view, r) && r.op.StoreOp? && HeadRead(s.k, r)
    requires |s.k.lists| == NHASH + 1 && i <= |s.k.lists[0]|
    requires o == Next(s.k.lists[0], i) && from == Cell(Slot(0), s.k.lists[0], i)
    ensures Knows(s.k, s.dat, s.idxEnd, s.view, FreeWalkTo(r, o, from, i))
    ensures Continues(r, FreeWalkTo(r, o, from, i)) && SameLocks(r, FreeWalkTo(r, o, from, i))
  {
    hide Inv, Hash, Consistent;
    InvConsistent(s);
    ListFacts(s.k, s.dat, 0);
    if i < |s.k.lists[0]| {
      PlacedInFree(s.k, s.dat, i);
    }
  }

  lemma PlacedInFree(k: Links, dat: string, i: nat)
    requires Consistent(k, dat) && |k.lists| > 0 && i < |k.lists[0]|
    ensures Placed(k, 0, i) && k.ptr[k.lists[0][i]] == Next(k.lists[0], i + 1)
    ensures Cell(Slot(0), k.lists[0], i + 1) == k.lists[0][i] && k.lists[0][i] >= FIRST_RECORD
  {
    hide Keyed, Extents;
    ListFacts(k, dat, 0);
    assert Cell(Slot(0), k.lists[0], i + 1) == k.lists[0][i];
  }

  lemma ReadFreeHeadKeeps(s: State, p: nat)
    requires Inv(s) && p < |s.procs| && s.procs[p].pc.ReadFreeHead?
    ensures Inv(Advance(s, p))
  {
    hide Inv, Hash, Consistent, FreeWalkTo, Gone, HeadRead;
    var r := s.procs[p];
    InvConsistent(s);
    KnowsOf(s, p);
    ListFacts(s.k, s.dat, 0);
    assert Cell(Slot(0), s.k.lists[0], 0) == FREE_OFF;
    ReadsTrue(s, p, FREE_OFF);
    FreeWalkToKnows(s, p, r, At(s.ptr, FREE_OFF), FREE_OFF, 0);
    LocalKeeps(s, p, Local(s, r));
  }

  lemma FreeLinkKeeps(s: State, p: nat)
    requires Inv(s) && p < |s.procs| && s.procs[p].pc.FreeLink?
    ensures Inv(Advance(s, p))
  {
    hide Inv, Hash, Consistent, Knows, Continues, SameLocks;
    var r := s.procs[p];
    InvConsistent(s);
    KnowsOf(s, p);
    WalkingIs(s.k, s.dat, s.idxEnd, s.view, r);
    ListFacts(s.k, s.dat, 0);
    PlacedInFree(s.k, s.dat, r.i);
    ReadsTrue(s, p, r.off);
    LinkReadKnows(s.k, s.dat, s.idxEnd, s.view, r, Local(s, r));
    LocalKeeps(s, p, Local(s, r));
  }

  /** A record of the right sizes is taken. */
  lemma FreeFoundKnows(k: Links, dat: string, e: nat, view: map<string, string>, r: Proc, r': Proc)
    requires r.pc.FreeText? && Knows(k, dat, e, view, r) && r.off in k.body
             && r' == r.(pc := TakeFree, b := k.body[r.off])
    requires Fits(r'.b, |r.op.key|, |NewData(r)| + 1)
    ensures Knows(k, dat, e, view, r') && Continues(r, r') && SameLocks(r, r')
  {
    hide Hash, Gone, HeadRead, InChain, InFree, Hit, Owes, Owns, Extent, Filled, SameAt, Proper;
    Transfer(k, dat, view, r, r');
  }

  /** What a process walking the free list knows. */
  lemma FreeWalkingIs(k: Links, dat: string, e: nat, view: map<string, string>, r: Proc, b: Body)
    requires Knows(k, dat, e, view, r) && r.pc.FreeText?
    ensures r.own.None? && Gone(k, view, r.(b := b)) && r.op.StoreOp? && HeadRead(k, r.(b := b))
    ensures r.off in k.ptr && r.link == k.ptr[r.off]
  {
    hide Hash, InChain, InFree, Hit, Owes, Owns, Extent, Filled, SameAt, Proper;
    Transfer(k, dat, view, r, r.(b := b));
  }

  lemma FreeTextKeeps(s: State, p: nat)
    requires Inv(s) && p < |s.procs| && s.procs[p].pc.FreeText?
    ensures Inv(Advance(s, p))
  {
    hide Inv, Hash, Consistent, Knows, Continues, SameLocks, FreeWalkTo, Gone, HeadRead;
    var r := s.procs[p];
    InvConsistent(s);
    KnowsOf(s, p);
    WalkingIs(s.k, s.dat, s.idxEnd, s.view, r);
    ListFacts(s.k, s.dat, 0);
    PlacedInFree(s.k, s.dat, r.i);
    var r' := r.(b := BodyAt(s.k, r.off));
    if Fits(r'.b, |r.op.key|, |NewData(r)| + 1) {
      FreeFoundKnows(s.k, s.dat, s.idxEnd, s.view, r, Local(s, r));
    } else {
      FreeWalkingIs(s.k, s.dat, s.idxEnd, s.view, r, r'.b);
      FreeWalkToKnows(s, p, r', r.link, r.off, r.i + 1);
      SameBookkeeping(r, r', FreeWalkTo(r', r.link, r.off, r.i + 1));
    }
    LocalKeeps(s, p, Local(s, r));
  }

  /** Reading a body changes nothing that a step keeps. */
  lemma SameBookkeeping(r: Proc, r': Proc, q: Proc)
    requires r' == r.(b := r'.b) && Continues(r', q) && SameLocks(r', q) && !Appending(r.pc)
    ensures Continues(r, q) && SameLocks(r, q)
  {}

  // ---- Heads, ends and locks ------------------------------------------------------------------

  lemma ReadStoreHeadKeeps(s: State, p: nat)
    requires Inv(s) && p < |s.procs| && (s.procs[p].pc.ReadHeadStore? || s.procs[p].pc.RereadHead?)
    ensures Inv(Advance(s, p))
  {
    hide Inv, Hash, Consistent, Gone, InChain, InFree, Hit, Owes, Owns, Extent, Filled, SameAt, Proper;
    var r := s.procs[p];
    InvConsistent(s);
    KnowsOf(s, p);
    ListFacts(s.k, s.dat, Chain(r));
    assert Cell(Slot(Chain(r)), s.k.lists[Chain(r)], 0) == Slot(Chain(r));
    ReadsTrue(s, p, Slot(Chain(r)));
    Transfer(s.k, s.dat, s.view, s.procs[p], Local(s, s.procs[p]));
    LocalKeeps(s, p, Local(s, r));
  }

  lemma ReadFreeKeeps(s: State, p: nat)
    requires Inv(s) && p < |s.procs| && s.procs[p].pc.ReadFree?
    ensures Inv(Advance(s, p))
  {
    hide Inv, Hash, Consistent, Gone, HeadRead, InChain, InFree, Hit, Owes, Owns, Extent, Filled, SameAt, Proper;
    var r := s.procs[p];
    InvConsistent(s);
    KnowsOf(s, p);
    FreeHeadTrue(s, p);
    Transfer(s.k, s.dat, s.view, s.procs[p], Local(s, s.procs[p]));
    LocalKeeps(s, p, Local(s, r));
  }

  /** The free list head holds what k says for the process with the free lock. */
  lemma FreeHeadTrue(s: State, p: nat)
    requires Inv(s) && p < |s.procs| && HoldsFree(s.procs[p])
    ensures FREE_OFF in s.k.ptr && At(s.ptr, FREE_OFF) == s.k.ptr[FREE_OFF] && FREE_OFF in s.ptr
  {
    hide Hash, Consistent, Exclusion, Ownership, ExtentsApart, MapShown;
    InvConsistent(s);
    ListFacts(s.k, s.dat, 0);
    forall q | 0 <= q < |s.procs|
      ensures !Pends(s.procs[q], FREE_OFF)
    {
      assert Knows(s.k, s.dat, s.idxEnd, s.view, s.procs[q]);
      if Owing(s.procs[q].pc) {
        ListFacts(s.k, s.dat, Chain(s.procs[q]));
      }
    }
  }

  lemma SameFacts(k: Links, dat: string, e: nat, view: map<string, string>, r: Proc, pc: PC)
    requires Knows(k, dat, e, view, r)
    requires (r.pc, pc) in {(WantChain, ReadHead), (WantFreeDel, BlankData), (WantFreeFind, ReadFreeHead),
             (WantDat, SeekDat),
                            (WantIdx, SeekIdx), (UnlockFreeHit, ReuseData), (UnlockFreeMiss, WantDat),
                              (UnlockDat, WantIdx),
                            (UnlockIdx, LinkChain)}
    ensures Knows(k, dat, e, view, r.(pc := pc)) && Continues(r, r.(pc := pc))
  {
    hide Hash, Consistent, Gone, HeadRead, InChain, InFree, Hit, Owes, Owns, Extent, Filled, SameAt, Proper;
    Transfer(k, dat, view, r, r.(pc := pc));
  }

  /** Taking a lock that nobody holds in a conflicting way. */
  lemma LockKeeps(s: State, p: nat)
    requires Inv(s) && p < |s.procs| && Enabled(s, p)
    requires (s.procs[p].pc.WantChain? || s.procs[p].pc.WantFreeDel? || s.procs[p].pc.WantFreeFind?
             || s.procs[p].pc.WantDat? || s.procs[p].pc.WantIdx?)
    ensures Inv(Advance(s, p))
  {
    hide Inv, Knows, Continues;
    KnowsOf(s, p);
    EnabledIsCompatible(s, p);
    SameFacts(s.k, s.dat, s.idxEnd, s.view, s.procs[p], Local(s, s.procs[p]).pc);
    LocalKeeps(s, p, Local(s, s.procs[p]));
  }

  /** Giving a lock back. */
  lemma UnlockKeeps(s: State, p: nat)
    requires Inv(s) && p < |s.procs|
             && (s.procs[p].pc.UnlockFreeHit? || s.procs[p].pc.UnlockFreeMiss? || s.procs[p].pc.UnlockDat?
               || s.procs[p].pc.UnlockIdx?)
    requires s.procs[p].pc.UnlockDat? ==> TextFits(s.procs[p].b)
    ensures Inv(Advance(s, p))
  {
    hide Inv, Knows, Continues;
    KnowsOf(s, p);
    SameFacts(s.k, s.dat, s.idxEnd, s.view, s.procs[p], Local(s, s.procs[p]).pc);
    LocalKeeps(s, p, Local(s, s.procs[p]));
  }

  lemma EnabledIsCompatible(s: State, p: nat)
    requires Inv(s) && p < |s.procs| && Enabled(s, p)
    requires (s.procs[p].pc.WantChain? || s.procs[p].pc.WantFreeDel? || s.procs[p].pc.WantFreeFind?
             || s.procs[p].pc.WantDat? || s.procs[p].pc.WantIdx?)
    ensures forall q :: 0 <= q < |s.procs| && q != p ==> Compatible(Local(s, s.procs[p]), s.procs[q])
  {
    hide Hash, Consistent, AllKnow, Ownership, ExtentsApart, MapShown, Pointers;
    forall q | 0 <= q < |s.procs| && q != p
      ensures Compatible(Local(s, s.procs[p]), s.procs[q])
    {
      ExcludedPair(s.procs, p, q);
    }
  }

  lemma UnlockFreeDelKeeps(s: State, p: nat)
    requires Inv(s) && p < |s.procs| && s.procs[p].pc.UnlockFreeDel?
    ensures Inv(Advance(s, p))
  {
    hide Inv, Hash, Consistent, HeadRead, InChain, InFree, Hit, Owes, Owns, Extent, Filled, Proper;
    KnowsOf(s, p);
    Transfer(s.k, s.dat, s.view, s.procs[p], Local(s, s.procs[p]));
    LocalKeeps(s, p, Local(s, s.procs[p]));
  }

  /** Seeking to the end of a file whose append lock the process holds. */
  lemma SeekKeeps(s: State, p: nat)
    requires Inv(s) && p < |s.procs| && (s.procs[p].pc.SeekDat? || s.procs[p].pc.SeekIdx?)
    ensures Inv(Advance(s, p))
  {
    hide Inv, Hash, Consistent, Gone, HeadRead, InChain, InFree, Hit, Owes, Owns, Extent, Filled, SameAt, Proper;
    KnowsOf(s, p);
    Transfer(s.k, s.dat, s.view, s.procs[p], Local(s, s.procs[p]));
    LocalKeeps(s, p, Local(s, s.procs[p]));
  }
}
