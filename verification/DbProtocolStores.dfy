/** The steps of db_store that write the files. */
module DbProtocolStores {
  import opened Options
  import opened AsciiFields
  import opened DbRecords
  import opened DbMap
  import opened DbProtocol
  import opened DbProtocolInvariant
  import opened DbProtocolFrame
  import opened DbProtocolLocal
  import opened DbProtocolSteps
  import opened DbProtocolWrites

  // ---- Data over data of the same length ------------------------------------------------------

  /** Overwriting the data of a record touches at most that record. */
  lemma DataEffect(k: Links, dat: string, dat': string, r: Proc, o: nat)
    requires SameExcept(k.body, o, dat, dat')
    ensures Effect(k, dat, k, dat', r, o, o)
  {
    hide ExtentOk, Value, Hash;
  }

  lemma DataParts(s: State, p: nat, r: Proc, s': State, data: string)
    requires p < |s.procs| && r == s.procs[p] && r.off in s.k.body && |data| + 1 == s.k.body[r.off].datlen
    requires s'.k == s.k && s'.ptr == s.ptr && s'.dat == WithData(s.dat, s.k.body[r.off], data) && s'.idxEnd == s.idxEnd
    requires |s'.procs| == |s.procs| && s'.procs == s.procs[p := s'.procs[p]]
    requires s'.procs[p].op == r.op && s'.procs[p].own == r.own && !Appending(s'.procs[p].pc) && !Owing(s'.procs[p].pc)
             && !Owing(r.pc)
    requires Mine(s, p, r.off) && NotShared(s, r, r.off) && Consistent(s'.k, s'.dat) && Inv(s)
    ensures Parts(s, s', p, r.off, r.off)
  {
    hide Inv, Hash, Effect, Pointers, Ownership, ExtentsApart, NotShared, OtherExtents, Mine, WithData, Appending,
      Owing;
    InvParts(s);
    InvConsistent(s);
    OverwriteExtent(s.k.body, s.dat, r.off, data);
    WithDataLength(s.dat, s.k.body[r.off], data);
    hide Consistent, SameExcept;
    DataEffect(s.k, s.dat, s'.dat, r, r.off);
    OtherExtentsData(s, s', p, r.off, data);
    OwnershipKept(s, p, s'.procs[p]);
    SameOwnership(s.(procs := s'.procs), s');
    PointersKept(s, p, s'.procs[p]);
    SamePointers(s.(procs := s'.procs), s');
    ExtentsAfter(s.procs, p, s'.procs[p]);
  }

  lemma SamePointers(s: State, s': State)
    requires Pointers(s) && s'.procs == s.procs && s'.k == s.k && s'.ptr == s.ptr
    ensures Pointers(s')
  {}

  lemma FinishKnows(k: Links, dat: string, e: nat, view: map<string, string>, r: Proc)
    requires r.pc.Finish? && Proper(r.op) && r.own.None?
    requires SameAt(k, dat, MapStep(view, r.op), r.op.key) && r.answer == MapAnswer(view, r.op)
    ensures Knows(k, dat, e, view, r)
  {
    hide Owes, InChain, Hit, InFree, HeadRead, Extent, Filled, SameAt, MapStep, MapAnswer, Replaces, Fits, Gone, Owns,
      Proper, Hash;
  }

  lemma OverwriteLength(k: Links, dat: string, e: nat, view: map<string, string>, r: Proc)
    requires Knows(k, dat, e, view, r) && r.pc.OverwriteData?
    ensures r.op.StoreOp? && |NewData(r)| + 1 == r.b.datlen
  {}

  /** After the overwrite the files show the new data. */
  lemma OverwriteShows(k: Links, dat: string, dat': string, view: map<string, string>, r: Proc)
    requires r.op.StoreOp? && Proper(r.op) && Replaces(r) && SameAt(k, dat, view, r.op.key)
    requires r.op.key in k.at && k.at[r.op.key] in k.body && Value(k.body[k.at[r.op.key]], dat') == r.op.data
    ensures SameAt(k, dat', MapStep(view, r.op), r.op.key) && MapAnswer(view, r.op) == Code(0)
  {}

  lemma OverwriteStep(s: State, p: nat, r: Proc)
    requires p < |s.procs| && r == s.procs[p] && r.pc.OverwriteData?
    ensures Advance(s, p) == s.(procs := s.procs[p := Finished(r, Code(0))], dat := WithData(s.dat, r.b, NewData(r)))
  {
    hide Hash, WithData, NewData, Finished;
  }

  lemma OverwriteKeeps(s: State, p: nat, r: Proc, s': State)
    requires p < |s.procs| && r == s.procs[p] && r.pc.OverwriteData? && s' == Advance(s, p) && Inv(s)
    ensures Inv(s')
  {
    hide Inv, Parts, Knows, Hash, Consistent, WithData, SameAt, MapStep, MapAnswer, Replaces, Hit, Proper, Lookup,
      Value, Relied, Advance, Local;
    OverwriteStep(s, p, r);
    KnowsOf(s, p);
    InvConsistent(s);
    KnowsHit(s.k, s.dat, s.idxEnd, s.view, r);
    OverwriteLength(s.k, s.dat, s.idxEnd, s.view, r);
    HitIsStored(s, r);
    OverwriteFacts(s, p, r);
    ViewTrue(s, p);
    OverwriteShows(s.k, s.dat, s'.dat, s.view, r);
    FinishKnows(s'.k, s'.dat, s'.idxEnd, s'.view, s'.procs[p]);
    DataParts(s, p, r, s', r.op.data);
    EffectKeeps(s, s', p, r.off, r.off);
  }

  lemma OverwriteFacts(s: State, p: nat, r: Proc)
    requires p < |s.procs| && r == s.procs[p] && Consistent(s.k, s.dat) && Hit(s.k, r) && r.op.StoreOp?
    requires |r.op.data| + 1 == r.b.datlen
    ensures r.off in s.k.body && r.b == s.k.body[r.off]
    ensures Consistent(s.k, WithData(s.dat, s.k.body[r.off], r.op.data))
    ensures Value(s.k.body[r.off], WithData(s.dat, s.k.body[r.off], r.op.data)) == r.op.data
    ensures Mine(s, p, r.off) && NotShared(s, r, r.off)
  {
    hide Hash, Consistent, WithData, Value, SameExcept, Extents, Keyed, Shape, NotShared;
    HitFacts(s.k, s.dat, r);
    ConsistentParts(s.k, s.dat, r.off);
    OverwriteExtent(s.k.body, s.dat, r.off, r.op.data);
    MembersAreRecords(s.k, Chain(r));
    NotSharedHit(s, r, r.off);
    ReplacedMap(s.k, s.dat, r.off, r.op.data);
  }

  // ---- Reusing a free record --------------------------------------------------------------------

  /** What a store knows from the moment it read the head of its chain. */
  lemma StoreParts(k: Links, dat: string, e: nat, view: map<string, string>, r: Proc)
    requires Knows(k, dat, e, view, r) && HeadKnown(r.pc)
    ensures r.op.StoreOp? && Gone(k, view, r) && HeadRead(k, r) && Writes(r) && (r.own.Some? <==> Owner(r.pc))
    ensures Owner(r.pc) ==> Owns(k, r)
    ensures r.pc.TakeFree? ==> InFree(k, r) && r.off in k.ptr && r.link == k.ptr[r.off]
    ensures r.pc.TakeFree? || Reusing(r.pc) ==>
              r.off in k.body && r.b == k.body[r.off] && Fits(r.b, |r.op.key|, |NewData(r)| + 1)
    ensures r.pc.ReuseIdx? ==> Value(r.b, dat) == NewData(r)
    ensures r.pc.AppendDat? ==> r.b == Body(r.op.key, |dat|, |NewData(r)| + 1)
    ensures Appending(r.pc) ==> Extent(k, dat, r)
    ensures r.pc.AppendIdx? ==> r.off == e
    ensures Linking(r.pc) ==> Filled(k, dat, r)
  {
    hide Owes, InChain, Hit, InFree, HeadRead, Extent, Filled, SameAt, MapStep, MapAnswer, Replaces, Fits, Gone, Owns,
      Proper, Value, NewData, Hash;
  }

  lemma StoreKnows(k: Links, dat: string, e: nat, view: map<string, string>, r: Proc)
    requires Reusing(r.pc) || Linking(r.pc) || r.pc.UnlockDat?
    requires r.op.StoreOp? && Gone(k, view, r) && HeadRead(k, r) && (r.own.Some? <==> Owner(r.pc))
    requires Owner(r.pc) ==> Owns(k, r)
    requires Reusing(r.pc) ==> r.off in k.body && r.b == k.body[r.off] && Fits(r.b, |r.op.key|, |NewData(r)| + 1)
    requires r.pc.ReuseIdx? ==> Value(r.b, dat) == NewData(r)
    requires r.pc.UnlockDat? ==> Extent(k, dat, r)
    requires Linking(r.pc) ==> Filled(k, dat, r)
    ensures Knows(k, dat, e, view, r)
  {
    hide Owes, InChain, Hit, InFree, HeadRead, Extent, Filled, SameAt, MapStep, MapAnswer, Replaces, Fits, Owns, Proper,
      Value, NewData, Hash;
  }

  lemma TakeFreeStep(s: State, p: nat, r: Proc)
    requires p < |s.procs| && r == s.procs[p] && r.pc.TakeFree? && Placed(s.k, 0, r.i)
    ensures Advance(s, p) == s.(procs := s.procs[p := r.(pc := UnlockFreeHit, own := Some(r.off))],
                                ptr := s.ptr[r.from := r.link], k := Detached(s.k, 0, r.i))
  {
    hide Hash, Detached, Placed;
  }

  /** The record a store takes off the free list. */
  lemma TakeFreeFacts(s: State, p: nat, r: Proc, k': Links)
    requires p < |s.procs| && r == s.procs[p] && Consistent(s.k, s.dat) && InFree(s.k, r) && HoldsFree(r)
    requires r.off in s.k.ptr && r.link == s.k.ptr[r.off] && k' == Detached(s.k, 0, r.i)
    ensures Mine(s, p, r.from) && Mine(s, p, r.off) && NotShared(s, r, r.off)
    ensures Effect(s.k, s.dat, k', s.dat, r, r.from, r.off)
    ensures Loose(k') == Loose(s.k) + {r.off} && r.off !in Loose(s.k) && r.off >= FIRST_RECORD
    ensures Consistent(k', s.dat) && r.from in s.k.ptr && k'.ptr == s.k.ptr[r.from := r.link] && k'.body == s.k.body
            && k'.at == s.k.at
    ensures r.off in k'.ptr
  {
    hide Hash, Consistent, Effect, SameExcept, Loose, NotShared, View;
    ListFacts(s.k, s.dat, 0);
    PlacedInFree(s.k, s.dat, r.i);
    SameExceptSame(s.k, s.dat, r.off);
    DetachedEffect(s.k, s.dat, s.dat, r, 0, r.i, r.off);
    DetachedMap(s.k, s.dat, 0, r.i, r.off);
    FreeHome(s.k, s.dat, r.i);
    NotSharedHit(s, r, r.off);
  }

  lemma FreeHome(k: Links, dat: string, i: nat)
    requires Consistent(k, dat) && 0 < |k.lists| && i < |k.lists[0]|
    ensures k.lists[0][i] in k.home && k.home[k.lists[0][i]] == 0
  {
    MembersAreRecords(k, 0);
  }

  lemma TakeFreeKnows(s: State, r: Proc, r': Proc, k': Links)
    requires Consistent(s.k, s.dat) && r.pc.TakeFree? && Knows(s.k, s.dat, s.idxEnd, s.view, r)
    requires Placed(s.k, 0, r.i) && k' == Detached(s.k, 0, r.i) && r' == r.(pc := UnlockFreeHit, own := Some(r.off))
    requires Chain(r) <= NHASH && k'.body == s.k.body && k'.at == s.k.at && r.off in k'.ptr
    ensures Knows(k', s.dat, s.idxEnd, s.view, r')
  {
    hide Hash, Consistent, Knows, Detached, Placed;
    StoreParts(s.k, s.dat, s.idxEnd, s.view, r);
    TakenFacts(s.k, s.dat, r.i, Chain(r));
    StoreKnows(k', s.dat, s.idxEnd, s.view, r');
  }

  lemma TakeFreeBooks(s: State, p: nat, r: Proc, s': State, k': Links)
    requires p < |s.procs| && r == s.procs[p] && r.own.None? && !Owing(r.pc)
    requires s' == s.(procs := s.procs[p := r.(pc := UnlockFreeHit, own := Some(r.off))], ptr :=
             s.ptr[r.from := r.link], k := k')
    requires r.from in s.k.ptr && k'.ptr == s.k.ptr[r.from := r.link]
    requires Loose(k') == Loose(s.k) + {r.off} && r.off !in Loose(s.k) && r.off >= FIRST_RECORD
    requires Pointers(s) && Ownership(s) && ExtentsApart(s.procs)
    ensures Pointers(s') && Ownership(s') && ExtentsApart(s'.procs)
  {
    hide Pointers, Ownership, ExtentsApart, Loose;
    PointerKeys(s);
    PointersAfter(s, s', p, r.from);
    OwnershipAfter(s, s', p);
    ExtentsAfter(s.procs, p, s'.procs[p]);
  }

  lemma TakeFreeKeeps(s: State, p: nat, r: Proc, s': State)
    requires p < |s.procs| && r == s.procs[p] && r.pc.TakeFree? && s' == Advance(s, p) && Inv(s)
    ensures Inv(s')
  {
    hide Inv, Hash, Consistent, Knows, Detached, Placed, Advance, Local, Effect, Mine, Loose, NotShared, Gone, HeadRead,
      Fits, Pointers, Ownership, ExtentsApart, OtherExtents;
    KnowsOf(s, p);
    InvConsistent(s);
    InvParts(s);
    StoreParts(s.k, s.dat, s.idxEnd, s.view, r);
    TakeFreeStep(s, p, r);
    TakeFreeFacts(s, p, r, s'.k);
    TakeFreeKnows(s, r, s'.procs[p], s'.k);
    TakeFreeBooks(s, p, r, s', s'.k);
    OtherExtentsKept(s, s', p, r.off);
    EffectKeeps(s, s', p, r.from, r.off);
  }

  // ReuseData

  lemma ReuseDataStep(s: State, p: nat, r: Proc)
    requires p < |s.procs| && r == s.procs[p] && r.pc.ReuseData?
    ensures Advance(s, p) == s.(procs := s.procs[p := r.(pc := ReuseIdx)], dat := WithData(s.dat, r.b, NewData(r)))
  {
    hide Hash, WithData, NewData;
  }

  lemma ReuseDataKnows(k: Links, dat: string, e: nat, view: map<string, string>, r: Proc, dat': string)
    requires Knows(k, dat, e, view, r) && r.pc.ReuseData?
             && (r.off in k.body ==> Value(k.body[r.off], dat') == NewData(r))
    ensures Knows(k, dat', e, view, r.(pc := ReuseIdx))
  {
    hide Knows, Hash, Proper, MapStep, MapAnswer;
    StoreParts(k, dat, e, view, r);
    StoreKnows(k, dat', e, view, r.(pc := ReuseIdx));
  }

  lemma ReuseDataKeeps(s: State, p: nat, r: Proc, s': State)
    requires p < |s.procs| && r == s.procs[p] && r.pc.ReuseData? && s' == Advance(s, p) && Inv(s)
    ensures Inv(s')
  {
    hide Inv, Parts, Knows, Hash, Consistent, WithData, Value, Advance, Local, Mine, NotShared, Gone, HeadRead,
      SameExcept, Loose, Owns;
    ReuseDataStep(s, p, r);
    KnowsOf(s, p);
    InvConsistent(s);
    StoreParts(s.k, s.dat, s.idxEnd, s.view, r);
    assert r.own == Some(r.off) by { KnowsOwn(s.k, s.dat, s.idxEnd, s.view, r); }
    OwnFacts(s, p, r);
    LooseDataMap(s.k, s.dat, r.off, NewData(r));
    ReuseDataKnows(s.k, s.dat, s.idxEnd, s.view, r, s'.dat);
    DataParts(s, p, r, s', NewData(r));
    EffectKeeps(s, s', p, r.off, r.off);
  }

  // ReuseIdx

  lemma ReuseIdxStep(s: State, p: nat, r: Proc)
    requires p < |s.procs| && r == s.procs[p] && r.pc.ReuseIdx?
    ensures Advance(s, p) == s.(procs := s.procs[p := r.(pc := LinkChain)], ptr := s.ptr[r.off := r.head],
                                k := Written(s.k, r.off, r.head, r.b.(key := r.op.key)))
  {
    hide Hash, Written;
  }

  lemma ReuseIdxKnows(k: Links, dat: string, e: nat, view: map<string, string>, r: Proc)
    requires Knows(k, dat, e, view, r) && r.pc.ReuseIdx? && r.off >= FIRST_RECORD && Chain(r) <= NHASH
    ensures Knows(Written(k, r.off, r.head, r.b.(key := r.op.key)), dat, e, view, r.(pc := LinkChain))
  {
    hide Knows, Hash, Proper, MapStep, MapAnswer;
    StoreParts(k, dat, e, view, r);
    StoreKnows(Written(k, r.off, r.head, r.b.(key := r.op.key)), dat, e, view, r.(pc := LinkChain));
  }

  lemma ReuseIdxKeeps(s: State, p: nat, r: Proc, s': State)
    requires p < |s.procs| && r == s.procs[p] && r.pc.ReuseIdx? && s' == Advance(s, p) && Inv(s)
    ensures Inv(s')
  {
    hide Inv, Parts, Knows, Hash, Consistent, Advance, Local, Mine, NotShared, Gone, Loose;
    ReuseIdxStep(s, p, r);
    KnowsOf(s, p);
    InvConsistent(s);
    StoreParts(s.k, s.dat, s.idxEnd, s.view, r);
    OwnFacts(s, p, r);
    ListHead(s.k, s.dat, Chain(r));
    ReuseIdxKnows(s.k, s.dat, s.idxEnd, s.view, r);
    RewrittenParts(s, p, r, s'.procs[p], s', r.head, r.b.(key := r.op.key));
    EffectKeeps(s, s', p, r.off, r.off);
  }

  // ---- Appending ----------------------------------------------------------------------------------

  lemma AppendDatStep(s: State, p: nat, r: Proc)
    requires p < |s.procs| && r == s.procs[p] && r.pc.AppendDat?
    ensures Advance(s, p) == s.(procs := s.procs[p := r.(pc := UnlockDat)], dat := s.dat + (NewData(r) + [NEWLINE]))
  {
    hide Hash, NewData;
  }

  lemma EndIsMine(s: State, p: nat)
    requires p < |s.procs| && Consistent(s.k, s.dat) && forall o :: o in s.k.body ==> o < s.idxEnd
    ensures Mine(s, p, s.idxEnd) && NotShared(s, s.procs[p], s.idxEnd) && s.idxEnd !in s.k.body && s.idxEnd !in s.k.home
  {
    hide Hash, Extents, Threaded;
  }

  /** Appended data is apart from all data there was. */
  lemma NewApart(s: State, p: nat, b: Body)
    requires Inv(s) && p < |s.procs| && b.datoff == |s.dat|
    ensures forall q :: 0 <= q < |s.procs| && q != p && Appending(s.procs[q].pc) ==> Apart(b, s.procs[q].b)
  {
    hide Hash, Pointers, Exclusion, Ownership, MapShown, Value, Consistent;
    forall q | 0 <= q < |s.procs| && q != p && Appending(s.procs[q].pc)
      ensures Apart(b, s.procs[q].b)
    {
      assert Knows(s.k, s.dat, s.idxEnd, s.view, s.procs[q]);
    }
  }

  lemma OtherExtentsAppend(s: State, s': State, p: nat, more: string)
    requires Inv(s) && p < |s.procs| && |s'.procs| == |s.procs| && s'.k == s.k && s'.dat == s.dat + more
    ensures OtherExtents(s, s', p)
  {
    hide Hash, Pointers, Exclusion, Ownership, MapShown, Consistent, Apart;
    forall q | 0 <= q < |s.procs| && q != p && Appending(s.procs[q].pc)
      ensures Extent(s'.k, s'.dat, s.procs[q])
    {
      assert Knows(s.k, s.dat, s.idxEnd, s.view, s.procs[q]);
    }
  }

  lemma AppendDatParts(s: State, p: nat, r: Proc, s': State, data: string)
    requires p < |s.procs| && r == s.procs[p] && DATLEN_MIN <= |data| + 1 <= DATLEN_MAX && HoldsDat(r)
    requires r.own.None? && !Owing(r.pc) && r.b == Body(r.op.key, |s.dat|, |data| + 1)
    requires s' == s.(procs := s.procs[p := r.(pc := UnlockDat)], dat := s.dat + (data + [NEWLINE])) && Inv(s)
    ensures Parts(s, s', p, s.idxEnd, s.idxEnd)
  {
    hide Inv, Hash, Effect, Pointers, Ownership, ExtentsApart, NotShared, OtherExtents, Mine, Consistent, SameExcept,
      View;
    InvParts(s);
    InvConsistent(s);
    EndIsMine(s, p);
    AppendedExtent(s.k, s.dat, s.idxEnd, r.op.key, data);
    DataEffect(s.k, s.dat, s'.dat, r, s.idxEnd);
    OtherExtentsAppend(s, s', p, data + [NEWLINE]);
    OwnershipKept(s, p, s'.procs[p]);
    SameOwnership(s.(procs := s'.procs), s');
    PointersKept(s, p, s'.procs[p]);
    SamePointers(s.(procs := s'.procs), s');
    NewApart(s, p, r.b);
    ExtentsAfter(s.procs, p, s'.procs[p]);
  }

  lemma AppendDatKnows(k: Links, dat: string, e: nat, view: map<string, string>, r: Proc)
    requires Knows(k, dat, e, view, r) && r.pc.AppendDat? && Consistent(k, dat) && e !in k.body
    ensures Knows(k, dat + (NewData(r) + [NEWLINE]), e, view, r.(pc := UnlockDat))
    ensures DATLEN_MIN <= |NewData(r)| + 1 <= DATLEN_MAX
  {
    hide Knows, Hash, MapStep, MapAnswer, Consistent, View, Value, SameExcept, ExtentOk;
    StoreParts(k, dat, e, view, r);
    AppendedExtent(k, dat, e, r.op.key, NewData(r));
    StoreKnows(k, dat + (NewData(r) + [NEWLINE]), e, view, r.(pc := UnlockDat));
  }

  lemma AppendDatKeeps(s: State, p: nat, r: Proc, s': State)
    requires p < |s.procs| && r == s.procs[p] && r.pc.AppendDat? && s' == Advance(s, p) && Inv(s)
    ensures Inv(s')
  {
    hide Inv, Parts, Knows, Hash, Consistent, Advance, Local, Mine, NotShared, Gone, HeadRead, NewData;
    AppendDatStep(s, p, r);
    KnowsOf(s, p);
    InvConsistent(s);
    InvParts(s);
    EndIsMine(s, p);
    StoreParts(s.k, s.dat, s.idxEnd, s.view, r);
    AppendDatKnows(s.k, s.dat, s.idxEnd, s.view, r);
    AppendDatParts(s, p, r, s', NewData(r));
    EffectKeeps(s, s', p, s.idxEnd, s.idxEnd);
  }

  // AppendIdx

  lemma AppendIdxStep(s: State, p: nat, r: Proc)
    requires p < |s.procs| && r == s.procs[p] && r.pc.AppendIdx?
    ensures Advance(s, p) == s.(procs := s.procs[p := r.(pc := UnlockIdx, own := Some(r.off))], ptr :=
            s.ptr[r.off := r.head],
                                k := Written(s.k, r.off, r.head, r.b), idxEnd :=
                                  s.idxEnd + PTR_SZ + IDXLEN_SZ + |Text(r.b)|)
  {
    hide Hash, Written, Text;
  }

  lemma AppendIdxBooks(s: State, p: nat, r: Proc, r': Proc, s': State, e: nat)
    requires p < |s.procs| && r == s.procs[p] && r.own.None? && r' == r.(pc := UnlockIdx, own := Some(r.off))
             && !Owing(r.pc)
    requires s' == s.(procs := s.procs[p := r'], ptr := s.ptr[r.off := r.head], k :=
             Written(s.k, r.off, r.head, r.b), idxEnd := e)
    requires r.off !in s.k.body && r.off !in s.k.home && r.off >= FIRST_RECORD
    requires Pointers(s) && Ownership(s) && ExtentsApart(s.procs)
    ensures Pointers(s') && Ownership(s') && ExtentsApart(s'.procs)
  {
    hide Pointers, Ownership, ExtentsApart;
    PointerKeys(s);
    PointersAfter(s, s', p, r.off);
    OwnershipAfter(s, s', p);
    ExtentsAfter(s.procs, p, r');
  }

  lemma OtherExtentsNew(s: State, s': State, p: nat, r: Proc)
    requires Inv(s) && p < |s.procs| && |s'.procs| == |s.procs| && r == s.procs[p] && Appending(r.pc)
    requires s'.k.body == s.k.body[r.off := r.b] && s'.dat == s.dat
    ensures OtherExtents(s, s', p)
  {
    hide Hash, Pointers, Exclusion, Ownership, MapShown, Consistent, Value, ExtentOk;
    forall q | 0 <= q < |s.procs| && q != p && Appending(s.procs[q].pc)
      ensures Extent(s'.k, s'.dat, s.procs[q])
    {
      assert Knows(s.k, s.dat, s.idxEnd, s.view, s.procs[q]);
      assert Apart(s.procs[q].b, r.b);
    }
  }

  lemma ExtentParts(k: Links, dat: string, r: Proc)
    requires Extent(k, dat, r)
    ensures ExtentOk(r.b, dat) && (forall o :: o in k.body ==> Apart(r.b, k.body[o]))
    ensures Value(r.b, dat) == NewData(r) && r.b.key == r.op.key
  {}

  lemma AppendIdxParts(s: State, p: nat, r: Proc, s': State, r': Proc, e: nat)
    requires p < |s.procs| && r == s.procs[p] && r.own.None? && r' == r.(pc := UnlockIdx, own := Some(r.off))
             && r.pc.AppendIdx?
    requires s' == s.(procs := s.procs[p := r'], ptr := s.ptr[r.off := r.head], k :=
             Written(s.k, r.off, r.head, r.b), idxEnd := e)
    requires r.off == s.idxEnd < e && Extent(s.k, s.dat, r) && r.head <= PTR_MAX && Inv(s)
    ensures Parts(s, s', p, r.off, r.off)
  {
    hide Inv, Hash, Consistent, Effect, Pointers, Ownership, ExtentsApart, NotShared, OtherExtents, Mine, SameExcept,
      Apart, ExtentOk, Extent;
    InvConsistent(s);
    InvParts(s);
    EndIsMine(s, p);
    ExtentParts(s.k, s.dat, r);
    SameExceptSame(s.k, s.dat, r.off);
    WrittenMap(s.k, s.dat, s.dat, r.off, r.head, r.b);
    WrittenEffect(s.k, s.dat, r, r.off, r.head, r.b);
    OtherExtentsNew(s, s', p, r);
    AppendIdxBooks(s, p, r, r', s', e);
  }

  lemma AppendIdxKnows(k: Links, dat: string, e: nat, view: map<string, string>, r: Proc, e': nat)
    requires Knows(k, dat, e, view, r) && r.pc.AppendIdx? && r.off >= FIRST_RECORD && Chain(r) <= NHASH
    ensures Knows(Written(k, r.off, r.head, r.b), dat, e', view, r.(pc := UnlockIdx, own := Some(r.off)))
    ensures Extent(k, dat, r)
  {
    hide Knows, Hash, Proper, MapStep, MapAnswer, ExtentOk, Apart, Value;
    StoreParts(k, dat, e, view, r);
    StoreKnows(Written(k, r.off, r.head, r.b), dat, e', view, r.(pc := UnlockIdx, own := Some(r.off)));
  }

  lemma AppendIdxKeeps(s: State, p: nat, r: Proc, s': State)
    requires p < |s.procs| && r == s.procs[p] && r.pc.AppendIdx? && s' == Advance(s, p) && Inv(s)
    ensures Inv(s')
  {
    hide Inv, Parts, Knows, Hash, Consistent, Advance, Local, Mine, NotShared, Gone, Extent, Text;
    AppendIdxStep(s, p, r);
    KnowsOf(s, p);
    InvConsistent(s);
    InvParts(s);
    StoreParts(s.k, s.dat, s.idxEnd, s.view, r);
    ListHead(s.k, s.dat, Chain(r));
    AppendIdxKnows(s.k, s.dat, s.idxEnd, s.view, r, s'.idxEnd);
    AppendIdxParts(s, p, r, s', s'.procs[p], s'.idxEnd);
    EffectKeeps(s, s', p, r.off, r.off);
  }

  // ---- The new record joins its chain -------------------------------------------------------------

  lemma LinkChainStep(s: State, p: nat, r: Proc)
    requires p < |s.procs| && r == s.procs[p] && r.pc.LinkChain? && r.off <= PTR_MAX
    requires Chain(r) < |s.k.lists| && r.off in s.k.body
    ensures Advance(s, p) == s.(procs := s.procs[p := Finished(r, Code(0)).(own := None)],
                                ptr := s.ptr[Slot(Chain(r)) := r.off], k := Pushed(s.k, Chain(r), r.off))
  {
    hide Hash, Pushed, Finished;
  }

  lemma LinkChainKnows(k: Links, dat: string, e: nat, view: map<string, string>, r: Proc)
    requires Knows(k, dat, e, view, r) && r.pc.LinkChain? && Chain(r) < |k.lists| && r.off in k.body
    ensures Knows(Pushed(k, Chain(r), r.off), dat, e, view, Finished(r, Code(0)).(own := None))
    ensures r.own == Some(r.off) && r.off in k.ptr && Slot(Chain(r)) in k.ptr && k.ptr[r.off] == k.ptr[Slot(Chain(r))]
    ensures k.body[r.off].key == r.op.key && SEP !in r.op.key && r.op.key !in k.at
  {
    hide Knows, Hash, Value;
    StoreParts(k, dat, e, view, r);
    FinishKnows(Pushed(k, Chain(r), r.off), dat, e, view, Finished(r, Code(0)).(own := None));
  }

  lemma LinkChainKeeps(s: State, p: nat, r: Proc, s': State)
    requires p < |s.procs| && r == s.procs[p] && r.pc.LinkChain? && r.off <= PTR_MAX && s' == Advance(s, p) && Inv(s)
    ensures Inv(s')
  {
    hide Inv, Parts, Knows, Hash, Consistent, Advance, Local, Mine, NotShared, Gone, Value, View, Pushed;
    KnowsOf(s, p);
    InvConsistent(s);
    StoreParts(s.k, s.dat, s.idxEnd, s.view, r);
    ListFacts(s.k, s.dat, Chain(r));
    LinkChainStep(s, p, r);
    LinkChainKnows(s.k, s.dat, s.idxEnd, s.view, r);
    PushedParts(s, p, r, s'.procs[p], s', Chain(r));
    EffectKeeps(s, s', p, Slot(Chain(r)), r.off);
  }

  // ---- Ends of operations ---------------------------------------------------------------------------

  /** The step of a process that gives up in the middle of a store. */
  predicate Dies(r: Proc) { (r.pc.UnlockDat? && !TextFits(r.b)) || (r.pc.LinkChain? && r.off > PTR_MAX) }

  lemma DiesStep(s: State, p: nat, r: Proc)
    requires p < |s.procs| && r == s.procs[p] && Dies(r)
    ensures Advance(s, p) == Logged(s.(procs := s.procs[p := r.(pc := Crashed)]), DeleteOp(r.op.key),
                                    MapAnswer(s.view, DeleteOp(r.op.key)))
  {
    hide Hash, Logged, TextFits;
  }

  lemma CrashedKnows(k: Links, dat: string, e: nat, view: map<string, string>, r: Proc)
    requires r.pc.Crashed?
    ensures Knows(k, dat, e, view, r)
  {}

  lemma DiesKeeps(s: State, p: nat, r: Proc, s': State)
    requires p < |s.procs| && r == s.procs[p] && Dies(r) && s' == Advance(s, p) && Inv(s)
    ensures Inv(s')
  {
    hide Inv, Parts, Knows, Hash, Consistent, Advance, Local, Mine, NotShared, HeadRead, TextFits, MapAnswer, Pointers,
      Ownership;
    DiesStep(s, p, r);
    KnowsOf(s, p);
    InvConsistent(s);
    InvParts(s);
    StoreParts(s.k, s.dat, s.idxEnd, s.view, r);
    SlotIsMine(s, p, r);
    PointersKept(s, p, s'.procs[p]);
    SamePointers(s.(procs := s'.procs), s');
    QuietParts(s, p, r, s', Slot(Chain(r)));
    CrashedKnows(s'.k, s'.dat, s'.idxEnd, s'.view, s'.procs[p]);
    EffectKeeps(s, s', p, Slot(Chain(r)), Slot(Chain(r)));
  }

  lemma FinishParts(k: Links, dat: string, e: nat, view: map<string, string>, r: Proc)
    requires Knows(k, dat, e, view, r) && r.pc.Finish?
    ensures SameAt(k, dat, MapStep(view, r.op), r.op.key) && r.answer == MapAnswer(view, r.op) && r.own.None?
            && Proper(r.op)
  {
    hide Owes, InChain, Hit, InFree, HeadRead, Extent, Filled, SameAt, MapStep, MapAnswer, Replaces, Fits, Gone, Owns,
      Proper, Hash;
  }

  lemma IdleKnows(k: Links, dat: string, e: nat, view: map<string, string>, r: Proc)
    requires r.pc.Idle? && r.own.None?
    ensures Knows(k, dat, e, view, r)
  {}

  lemma LogIsBookkeeping(s: State, s': State)
    requires Inv(s) && s' == s.(log := s'.log)
    ensures Inv(s')
  {
    hide Consistent, Knows, SameAt, Compatible, Hash;
  }

  lemma FinishStep(s: State, p: nat, r: Proc)
    requires p < |s.procs| && r == s.procs[p] && r.pc.Finish?
    ensures Advance(s, p) == s.(procs := s.procs[p := r.(pc := Idle)], view := MapStep(s.view, r.op), log :=
            s.log + [(r.op, r.answer)])
  {
    hide Hash, MapStep;
  }

  lemma FinishKeeps(s: State, p: nat, r: Proc, s': State)
    requires p < |s.procs| && r == s.procs[p] && r.pc.Finish? && s' == Advance(s, p) && Inv(s)
    ensures Inv(s') && r.answer == MapAnswer(s.view, r.op)
  {
    hide Inv, Parts, Knows, Hash, Consistent, Advance, Local, Mine, NotShared, SameAt, MapAnswer, Pointers, Ownership,
      StoreCode;
    FinishStep(s, p, r);
    KnowsOf(s, p);
    InvConsistent(s);
    InvParts(s);
    FinishParts(s.k, s.dat, s.idxEnd, s.view, r);
    IdleKnows(s'.k, s'.dat, s'.idxEnd, s'.view, s'.procs[p]);
    if r.op.FetchOp? {
      LocalKeeps(s, p, s'.procs[p]);
      LogIsBookkeeping(s.(procs := s'.procs), s');
    } else {
      SlotIsMine(s, p, r);
      PointersKept(s, p, s'.procs[p]);
      SamePointers(s.(procs := s'.procs), s');
      QuietParts(s, p, r, s', Slot(Chain(r)));
      EffectKeeps(s, s', p, Slot(Chain(r)), Slot(Chain(r)));
    }
  }
}
