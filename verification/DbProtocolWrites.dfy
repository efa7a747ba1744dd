/** Each step that writes the files keeps the invariant. */
module DbProtocolWrites {
  import opened Options
  import opened AsciiFields
  import opened DbRecords
  import opened DbMap
  import opened DbProtocol
  import opened DbProtocolInvariant
  import opened DbProtocolFrame
  import opened DbProtocolLocal
  import opened DbProtocolSteps

  /** Overwriting the data of a record that is on no list changes nothing the map shows. */
  lemma LooseDataMap(k: Links, dat: string, o: nat, data: string)
    requires Consistent(k, dat) && o in k.body && o in k.ptr && o !in k.home && |data| + 1 == k.body[o].datlen
    ensures Consistent(k, WithData(dat, k.body[o], data)) && Value(k.body[o], WithData(dat, k.body[o], data)) == data
    ensures SameExcept(k.body, o, dat, WithData(dat, k.body[o], data)) && |WithData(dat, k.body[o], data)| == |dat|
  {
    hide Consistent, Shape, Extents, SameExcept, WithData, ExtentOk, Value;
    LooseFacts(k, dat, o);
    ConsistentParts(k, dat, o);
    OverwriteExtent(k.body, dat, o, data);
    ReuseExtent(k, dat, o, k.body[o], data);
    WrittenMap(k, dat, WithData(dat, k.body[o], data), o, k.ptr[o], k.body[o]);
    WithDataLength(dat, k.body[o], data);
    assert Written(k, o, k.ptr[o], k.body[o]) == k by {
      assert k.ptr[o := k.ptr[o]] == k.ptr && k.body[o := k.body[o]] == k.body;
    }
  }

  lemma WithDataLength(dat: string, b: Body, data: string)
    ensures |WithData(dat, b, data)| == |dat|
  {}

  lemma LooseFacts(k: Links, dat: string, o: nat)
    requires Consistent(k, dat) && o in k.body
    ensures o >= FIRST_RECORD && o in k.ptr && k.ptr[o] <= PTR_MAX
  {}

  lemma KnowsHit(k: Links, dat: string, e: nat, view: map<string, string>, r: Proc)
    requires Knows(k, dat, e, view, r) && Hitting(r.pc)
    ensures Hit(k, r) && r.own.None? && Proper(r.op) && if r.pc.ReadData? then r.op.FetchOp? else Replaces(r)
  {}

  /** What the deletion of the record a process has hit does to the links. */
  lemma CutFacts(s: State, p: nat, r: Proc)
    requires p < |s.procs| && r == s.procs[p] && r.pc.BlankData? && Inv(s)
    ensures Placed(s.k, Chain(r), r.i) && Chain(r) > 0 && r.off in s.k.home && r.off in s.k.body
            && r.b == s.k.body[r.off]
    ensures r.op.key in s.k.at && s.k.at[r.op.key] == r.off && s.k.body[r.off].key == r.op.key
    ensures r.off <= PTR_MAX && FIRST_RECORD <= r.off
  {
    hide Hash, Pointers, Exclusion, Ownership, MapShown, ExtentsApart, Consistent;
    KnowsOf(s, p);
    HitIsStored(s, s.procs[p]);
    HitFacts(s.k, s.dat, s.procs[p]);
  }

  lemma HitFacts(k: Links, dat: string, r: Proc)
    requires Consistent(k, dat) && Hit(k, r)
    ensures r.off in k.home && FIRST_RECORD <= r.off <= PTR_MAX && r.link == Next(k.lists[Chain(r)], r.i + 1)
    ensures r.from in k.ptr && Relied(k, r, r.from) && Relied(k, r, r.off)
  {
    hide Hash, Keyed, Extents;
    MembersAreRecords(k, Chain(r));
    InChainCell(k, dat, r);
    ListFacts(k, dat, Chain(r));
  }

  /** Detaching a record touches its predecessor's pointer and, if it stood for a key, that key. */
  lemma DetachedEffect(k: Links, dat: string, dat': string, r: Proc, c: nat, i: nat, o: nat)
    requires Consistent(k, dat) && Placed(k, c, i) && o == k.lists[c][i] && SameExcept(k.body, o, dat, dat')
    requires (c == Chain(r) && c > 0 && k.body[o].key == r.op.key) || (c == 0 && HoldsFree(r))
    ensures Effect(k, dat, Detached(k, c, i), dat', r, Cell(Slot(c), k.lists[c], i), o)
    ensures Loose(Detached(k, c, i)) == Loose(k) + {o} && o !in Loose(k)
    ensures Cell(Slot(c), k.lists[c], i) in k.ptr && Detached(k, c, i).ptr.Keys == k.ptr.Keys
    ensures Detached(k, c, i).ptr == k.ptr[Cell(Slot(c), k.lists[c], i) := Next(k.lists[c], i + 1)]
    ensures Detached(k, c, i).body == k.body
  {
    hide Hash, Keyed, Extents, ExtentOk, Value;
    ListFacts(k, dat, c);
    MembersAreRecords(k, c);
    DetachedPointers(k, c, i);
  }

  lemma NotSharedHit(s: State, r: Proc, o: nat)
    requires Consistent(s.k, s.dat) && o in s.k.body
    requires (o in s.k.home && s.k.home[o] > 0 ==> s.k.body[o].key == r.op.key)
    ensures NotShared(s, r, o)
  {
    hide Hash, Shape, Extents;
    forall key | key in s.k.at && key != r.op.key
      ensures s.k.at[key] != o
    {
      assert Live(s.k.home, s.k.at[key]);
    }
  }

  lemma BlankDataKnows(s: State, p: nat, r: Proc, s': State)
    requires p < |s.procs| && r == s.procs[p] && r.pc.BlankData? && s' == Advance(s, p) && Inv(s)
    ensures Knows(s'.k, s'.dat, s'.idxEnd, s'.view, s'.procs[p])
  {
    hide Inv, Hash, Consistent, Advance, Local;
    KnowsOf(s, p);
    CutFacts(s, p, r);
    InvConsistent(s);
    BlankDataStep(s, p, r);
    HitFacts(s.k, s.dat, r);
    ViewTrue(s, p);
    DetachedPointers2(s.k, s.dat, Chain(r), r.i);
  }

  lemma DetachedPointers2(k: Links, dat: string, c: nat, i: nat)
    requires Consistent(k, dat) && Placed(k, c, i)
    ensures |Detached(k, c, i).lists| == NHASH + 1 && c <= NHASH && i <= |Detached(k, c, i).lists[c]|
    ensures Cell(Slot(c), Detached(k, c, i).lists[c], i) == Cell(Slot(c), k.lists[c], i)
    ensures Cell(Slot(c), k.lists[c], i) in Detached(k, c, i).ptr
    ensures Detached(k, c, i).ptr[Cell(Slot(c), k.lists[c], i)] == Next(k.lists[c], i + 1)
    ensures k.lists[c][i] in Detached(k, c, i).ptr && Detached(k, c, i).body == k.body
  {
    hide Keyed, Extents;
    DetachedPointers(k, c, i);
  }

  lemma BlankDataStep(s: State, p: nat, r: Proc)
    requires p < |s.procs| && r == s.procs[p] && r.pc.BlankData? && Placed(s.k, Chain(r), r.i)
    ensures Advance(s, p) == s.(procs := s.procs[p := r.(pc := ReadFree, own := Some(r.off))], dat :=
            WipedData(r.b, s.dat),
                                k := Detached(s.k, Chain(r), r.i))
  {
    hide Hash, Placed, Detached, WipedData;
  }

  lemma BlankDataParts(s: State, p: nat, r: Proc, s': State)
    requires p < |s.procs| && r == s.procs[p] && r.pc.BlankData? && s' == Advance(s, p) && Inv(s)
    ensures Parts(s, s', p, r.from, r.off)
  {
    hide Inv, Hash, Consistent, Knows, Effect, Hit, InChain, Extents, Pointers, Ownership, WithData, ExtentsApart,
      NotShared, OtherExtents, Mine, Blanks, WipedData, Advance, Local, Detached, Loose;
    CutFacts(s, p, r);
    InvConsistent(s);
    BlankHit(s, p, r);
    BlankDataStep(s, p, r);
    InvParts(s);
    var k', data := Detached(s.k, Chain(r), r.i), Blanks(r.b.datlen - 1);
    DetachedMap(s.k, s.dat, Chain(r), r.i, r.off);
    DetachedPointers2(s.k, s.dat, Chain(r), r.i);
    LooseDataMap(k', s.dat, r.off, data);
    DetachedEffect(s.k, s.dat, s'.dat, r, Chain(r), r.i, r.off);
    NotSharedHit(s, r, r.off);
    OtherExtentsData(s, s', p, r.off, data);
    PointersAfter(s, s', p, r.from);
    OwnershipAfter(s, s', p);
    ExtentsAfter(s.procs, p, s'.procs[p]);
  }

  lemma BlankDataKeeps(s: State, p: nat, r: Proc, s': State)
    requires p < |s.procs| && r == s.procs[p] && r.pc.BlankData? && s' == Advance(s, p) && Inv(s)
    ensures Inv(s')
  {
    hide Inv, Parts, Knows, Advance, Local;
    KnowsOf(s, p);
    KnowsHit(s.k, s.dat, s.idxEnd, s.view, r);
    CutFacts(s, p, r);
    BlankDataStep(s, p, r);
    BlankDataParts(s, p, r, s');
    BlankDataKnows(s, p, r, s');
    EffectKeeps(s, s', p, r.from, r.off);
  }

  lemma BlankHit(s: State, p: nat, r: Proc)
    requires p < |s.procs| && r == s.procs[p] && r.pc.BlankData? && Inv(s)
    ensures r.own.None? && 1 < r.b.datlen && |Blanks(r.b.datlen - 1)| + 1 == r.b.datlen && !r.op.FetchOp?
    ensures WipedData(r.b, s.dat) == WithData(s.dat, r.b, Blanks(r.b.datlen - 1))
    ensures |s.k.lists| == NHASH + 1 && r.off == s.k.lists[Chain(r)][r.i]
    ensures r.from == Cell(Slot(Chain(r)), s.k.lists[Chain(r)], r.i) && r.link == Next(s.k.lists[Chain(r)], r.i + 1)
    ensures Mine(s, p, r.from) && Mine(s, p, r.off)
  {
    hide Inv, Hash, Consistent, WithData, Overwrite, Knows;
    KnowsOf(s, p);
    KnowsHit(s.k, s.dat, s.idxEnd, s.view, r);
    InvConsistent(s);
    CutFacts(s, p, r);
    HitFacts(s.k, s.dat, r);
    ConsistentParts(s.k, s.dat, r.off);
  }

  // ---- Steps that rewrite a record on no list -------------------------------------------------

  lemma OwnFacts(s: State, p: nat, r: Proc)
    requires p < |s.procs| && r == s.procs[p] && r.own == Some(r.off) && Inv(s)
    ensures r.off in s.k.body && r.off !in s.k.home && r.off >= FIRST_RECORD && r.off in s.k.ptr
    ensures Mine(s, p, r.off) && NotShared(s, r, r.off) && r.off in Loose(s.k)
  {
    hide Hash, Pointers, Exclusion, MapShown, ExtentsApart, AllKnow, Value, ExtentOk;
    ConsistentParts(s.k, s.dat, r.off);
    NotSharedHit(s, r, r.off);
    LooseFacts(s.k, s.dat, r.off);
  }

  lemma WrittenEffect(k: Links, dat: string, r: Proc, o: nat, q: nat, b: Body)
    requires Consistent(k, dat)
    ensures Effect(k, dat, Written(k, o, q, b), dat, r, o, o)
  {
    hide Hash, Consistent, Value;
  }

  lemma SameExceptSame(k: Links, dat: string, o: nat)
    requires Consistent(k, dat)
    ensures SameExcept(k.body, o, dat, dat)
  {}

  lemma SameExtent(k: Links, dat: string, o: nat, b: Body)
    requires Consistent(k, dat) && o in k.body && b.datoff == k.body[o].datoff && b.datlen == k.body[o].datlen
    ensures ExtentOk(b, dat) && Value(b, dat) == Value(k.body[o], dat)
    ensures forall q :: q in k.body && q != o ==> Apart(b, k.body[q])
  {
    ConsistentParts(k, dat, o);
  }

  lemma RewrittenBooks(s: State, p: nat, r: Proc, r': Proc, s': State, q: nat, b: Body)
    requires p < |s.procs| && r == s.procs[p] && r.own == r'.own == Some(r.off) && r'.op == r.op
    requires s' == s.(procs := s.procs[p := r'], ptr := s.ptr[r.off := q], k := Written(s.k, r.off, q, b))
    requires (Owing(r.pc) <==> Owing(r'.pc)) && r'.from == r.from && !Appending(r'.pc)
    requires r.off in s.k.body && r.off !in s.k.home && r.off >= FIRST_RECORD
    requires Pointers(s) && Ownership(s) && ExtentsApart(s.procs)
    ensures Pointers(s') && Ownership(s') && ExtentsApart(s'.procs)
  {
    hide Pointers, Ownership, ExtentsApart;
    PointerKeys(s);
    PointersAfter(s, s', p, r.off);
    OwnershipAfter(s, s', p);
    ExtentsAfter(s.procs, p, r');
  }

  /** A record on no list is given another pointer and another key. */
  lemma RewrittenParts(s: State, p: nat, r: Proc, r': Proc, s': State, q: nat, b: Body)
    requires p < |s.procs| && r == s.procs[p] && r.own == r'.own == Some(r.off) && r'.op == r.op
    requires s' == s.(procs := s.procs[p := r'], ptr := s.ptr[r.off := q], k := Written(s.k, r.off, q, b))
    requires r.off in s.k.body && b.datoff == s.k.body[r.off].datoff && b.datlen == s.k.body[r.off].datlen
    requires q <= PTR_MAX && (Owing(r.pc) <==> Owing(r'.pc)) && r'.from == r.from && !Appending(r'.pc) && Inv(s)
    ensures Parts(s, s', p, r.off, r.off)
  {
    hide Inv, Hash, Consistent, Effect, Pointers, Ownership, ExtentsApart, NotShared, OtherExtents, Mine, SameExcept,
      Apart, ExtentOk, Appending, Owing;
    InvConsistent(s);
    InvParts(s);
    OwnFacts(s, p, r);
    SameExtent(s.k, s.dat, r.off, b);
    SameExceptSame(s.k, s.dat, r.off);
    WrittenMap(s.k, s.dat, s.dat, r.off, q, b);
    WrittenEffect(s.k, s.dat, r, r.off, q, b);
    OtherExtentsKept(s, s', p, r.off);
    RewrittenBooks(s, p, r, r', s', q, b);
  }

  lemma PointerKeys(s: State)
    requires Pointers(s)
    ensures s.ptr.Keys == s.k.ptr.Keys
  {}

  /** The pointer a deletion owes is not that of a record on no list. */
  lemma OwesUnmoved(k: Links, r: Proc, o: nat, q: nat, b: Body)
    requires Owes(k, r) && Shape(k) && o !in k.home && o >= FIRST_RECORD
    ensures Owes(Written(k, o, q, b), r)
  {
    hide Hash;
    MembersAreRecords(k, Chain(r));
  }

  lemma BlankIdxKnows(k: Links, dat: string, e: nat, view: map<string, string>, r: Proc)
    requires Knows(k, dat, e, view, r) && r.pc.BlankIdx? && Shape(k) && r.off !in k.home && r.off >= FIRST_RECORD
    ensures Knows(Written(k, r.off, r.free, Blanked(r.b)), dat, e, view, r.(pc := LinkFree))
  {
    hide Knows, Shape, Hash;
    OwingParts(k, dat, e, view, r);
    OwesUnmoved(k, r, r.off, r.free, Blanked(r.b));
    OwingKnows(Written(k, r.off, r.free, Blanked(r.b)), dat, e, view, r.(pc := LinkFree));
  }

  lemma KnowsOwn(k: Links, dat: string, e: nat, view: map<string, string>, r: Proc)
    requires Knows(k, dat, e, view, r) && Owner(r.pc)
    ensures r.own == Some(r.off)
  {}

  lemma BlankIdxKeeps(s: State, p: nat, r: Proc, s': State)
    requires p < |s.procs| && r == s.procs[p] && r.pc.BlankIdx? && s' == Advance(s, p) && Inv(s)
    ensures Inv(s')
  {
    hide Inv, Parts, Knows, Hash, Consistent, Owes, Shape, Keyed, Extents;
    KnowsOf(s, p);
    KnowsOwn(s.k, s.dat, s.idxEnd, s.view, r);
    InvConsistent(s);
    OwnFacts(s, p, r);
    OwingParts(s.k, s.dat, s.idxEnd, s.view, r);
    ListHead(s.k, s.dat, 0);
    ConsistentParts(s.k, s.dat, r.off);
    BlankIdxKnows(s.k, s.dat, s.idxEnd, s.view, r);
    RewrittenParts(s, p, r, s'.procs[p], s', r.free, Blanked(r.b));
    EffectKeeps(s, s', p, r.off, r.off);
  }

  // ---- Steps that link a record into a list ---------------------------------------------------

  lemma PushedEffect(k: Links, dat: string, r: Proc, c: nat, o: nat)
    requires Consistent(k, dat) && o in k.body && o !in k.home && c < |k.lists|
    requires (c == Chain(r) && c > 0 && k.body[o].key == r.op.key) || (c == 0 && HoldsFree(r))
    ensures Effect(k, dat, Pushed(k, c, o), dat, r, Slot(c), o)
    ensures Loose(Pushed(k, c, o)) == Loose(k) - {o}
  {
    hide Hash, Consistent, Value;
  }

  lemma PushedBooks(s: State, p: nat, r: Proc, r': Proc, s': State, c: nat)
    requires p < |s.procs| && r == s.procs[p] && r.own == Some(r.off) && r'.own.None? && r'.op == r.op
    requires r.off in s.k.body && c < |s.k.lists| && Slot(c) in s.k.ptr
    requires s' == s.(procs := s.procs[p := r'], ptr := s.ptr[Slot(c) := r.off], k := Pushed(s.k, c, r.off))
    requires (Owing(r.pc) <==> Owing(r'.pc)) && r'.from == r.from && !Appending(r'.pc)
    requires r.off !in s.k.home && Loose(s'.k) == Loose(s.k) - {r.off}
    requires Pointers(s) && Ownership(s) && ExtentsApart(s.procs)
    ensures Pointers(s') && Ownership(s') && ExtentsApart(s'.procs)
  {
    hide Pointers, Ownership, ExtentsApart, Loose;
    PointerKeys(s);
    PointersAfter(s, s', p, Slot(c));
    assert r.off in Loose(s.k) by { LooseIs(s.k, r.off); }
    OwnershipAfter(s, s', p);
    ExtentsAfter(s.procs, p, r');
  }

  lemma LooseIs(k: Links, o: nat)
    ensures o in Loose(k) <==> o in k.body && o !in k.home
  {}

  /** A record on no list becomes the first of a list. */
  lemma PushedParts(s: State, p: nat, r: Proc, r': Proc, s': State, c: nat)
    requires p < |s.procs| && r == s.procs[p] && r.own == Some(r.off) && r'.own.None? && r'.op == r.op
    requires r.off in s.k.body && c <= NHASH && |s.k.lists| == NHASH + 1 && Slot(c) in s.k.ptr
    requires s' == s.(procs := s.procs[p := r'], ptr := s.ptr[Slot(c) := r.off], k := Pushed(s.k, c, r.off))
    requires (Owing(r.pc) <==> Owing(r'.pc)) && r'.from == r.from && !Appending(r'.pc)
    requires r.off <= PTR_MAX && r.off in s.k.ptr && s.k.ptr[r.off] == s.k.ptr[Slot(c)]
    requires if c == 0 then HoldsFree(r) && s.k.body[r.off].key == Blanks(|s.k.body[r.off].key|)
             else c == Chain(r) && s.k.body[r.off].key == r.op.key && SEP !in r.op.key && r.op.key !in s.k.at
    requires Inv(s)
    ensures Parts(s, s', p, Slot(c), r.off)
    ensures View(s'.k, s'.dat) == if c == 0 then View(s.k, s.dat)
            else View(s.k, s.dat)[r.op.key := Value(s.k.body[r.off], s.dat)]
  {
    hide Inv, Hash, Consistent, Effect, Pointers, Ownership, ExtentsApart, NotShared, OtherExtents, SameExcept, Apart,
      ExtentOk, Appending, Owing, View, Value, Loose, Blanks;
    InvConsistent(s);
    InvParts(s);
    OwnFacts(s, p, r);
    PushedMap(s.k, s.dat, c, r.off);
    PushedEffect(s.k, s.dat, r, c, r.off);
    OtherExtentsKept(s, s', p, r.off);
    PushedBooks(s, p, r, r', s', c);
  }

  lemma OwingParts(k: Links, dat: string, e: nat, view: map<string, string>, r: Proc)
    requires Knows(k, dat, e, view, r) && Owing(r.pc)
    ensures Owes(k, r) && Gone(k, view, r) && Writes(r)
    ensures Owner(r.pc) ==> Owns(k, r)
    ensures r.pc.BlankIdx? ==> FREE_OFF in k.ptr && r.free == k.ptr[FREE_OFF]
    ensures r.pc.BlankIdx? ==> r.off in k.body && r.b == k.body[r.off] && r.off <= PTR_MAX
    ensures r.pc.LinkFree? ==> FREE_OFF in k.ptr && r.off in k.ptr && r.off in k.body && k.ptr[r.off] == k.ptr[FREE_OFF]
    ensures r.pc.LinkFree? ==> r.off <= PTR_MAX && k.body[r.off].key == Blanks(|k.body[r.off].key|)
  {
    hide Owes, InChain, Hit, InFree, HeadRead, Extent, Filled, SameAt, MapStep, MapAnswer, Replaces, Fits, Blanks, Hash;
  }

  lemma OwingKnows(k: Links, dat: string, e: nat, view: map<string, string>, r: Proc)
    requires Owes(k, r) && Gone(k, view, r)
    requires r.pc.Unlink? || r.pc.LinkFree?
    requires r.own.Some? <==> Owner(r.pc)
    requires r.pc.LinkFree? ==> FREE_OFF in k.ptr && Owns(k, r) && k.ptr[r.off] == k.ptr[FREE_OFF]
    requires r.pc.LinkFree? ==> r.off <= PTR_MAX && k.body[r.off].key == Blanks(|k.body[r.off].key|)
    ensures Knows(k, dat, e, view, r)
  {
    hide Owes, InChain, Hit, InFree, HeadRead, Extent, Filled, SameAt, MapStep, MapAnswer, Replaces, Fits, Blanks, Hash;
  }

  lemma OwesPushed(k: Links, r: Proc, o: nat)
    requires Owes(k, r) && Shape(k) && o in k.body && 0 < |k.lists|
    ensures Owes(Pushed(k, 0, o), r)
  {
    hide Hash;
    MembersAreRecords(k, Chain(r));
  }

  lemma LinkFreeKnows(k: Links, dat: string, e: nat, view: map<string, string>, r: Proc)
    requires Knows(k, dat, e, view, r) && r.pc.LinkFree? && Shape(k) && r.off in k.body && 0 < |k.lists|
    ensures Knows(Pushed(k, 0, r.off), dat, e, view, r.(pc := Unlink, own := None))
  {
    hide Knows, Shape, Hash;
    OwingParts(k, dat, e, view, r);
    OwesPushed(k, r, r.off);
    OwingKnows(Pushed(k, 0, r.off), dat, e, view, r.(pc := Unlink, own := None));
  }

  lemma LinkFreeKeeps(s: State, p: nat, r: Proc, s': State)
    requires p < |s.procs| && r == s.procs[p] && r.pc.LinkFree? && s' == Advance(s, p) && Inv(s)
    ensures Inv(s')
  {
    hide Inv, Parts, Knows, Hash, Consistent, Blanks, Owes, Shape, Keyed, Extents;
    KnowsOf(s, p);
    KnowsOwn(s.k, s.dat, s.idxEnd, s.view, r);
    InvConsistent(s);
    OwnFacts(s, p, r);
    OwingParts(s.k, s.dat, s.idxEnd, s.view, r);
    ListFacts(s.k, s.dat, 0);
    ConsistentParts(s.k, s.dat, r.off);
    LinkFreeKnows(s.k, s.dat, s.idxEnd, s.view, r);
    PushedParts(s, p, r, s'.procs[p], s', 0);
    EffectKeeps(s, s', p, Slot(0), r.off);
  }

  // ---- Steps that leave the records and the map alone -----------------------------------------

  lemma SlotIsMine(s: State, p: nat, r: Proc)
    requires p < |s.procs| && r == s.procs[p] && Consistent(s.k, s.dat) && Chain(r) <= NHASH
    ensures Mine(s, p, Slot(Chain(r))) && NotShared(s, r, Slot(Chain(r)))
  {
    hide Hash, Extents, Threaded;
  }

  lemma SameEffect(k: Links, dat: string, r: Proc, a: nat, o: nat)
    ensures Effect(k, dat, k, dat, r, a, o)
  {}

  lemma QuietParts(s: State, p: nat, r: Proc, s': State, a: nat)
    requires p < |s.procs| && r == s.procs[p] && Mine(s, p, a)
    requires s'.k == s.k && s'.dat == s.dat && s'.idxEnd == s.idxEnd
    requires |s'.procs| == |s.procs| && s'.procs == s.procs[p := s'.procs[p]]
    requires s'.procs[p].op == r.op && s'.procs[p].own == r.own && !Appending(s'.procs[p].pc)
    requires Pointers(s') && Inv(s)
    ensures Parts(s, s', p, a, Slot(Chain(r)))
  {
    hide Inv, Hash, Consistent, Effect, Pointers, Ownership, ExtentsApart, NotShared, OtherExtents, Mine;
    InvConsistent(s);
    InvParts(s);
    SlotIsMine(s, p, r);
    SameEffect(s.k, s.dat, r, a, Slot(Chain(r)));
    OtherExtentsKept(s, s', p, Slot(Chain(r)));
    OwnershipKept(s, p, s'.procs[p]);
    SameOwnership(s.(procs := s'.procs), s');
    ExtentsAfter(s.procs, p, s'.procs[p]);
  }

  lemma SameOwnership(s: State, s': State)
    requires Ownership(s) && s'.procs == s.procs && s'.k == s.k
    ensures Ownership(s')
  {}

  lemma UnlinkKnows(k: Links, dat: string, e: nat, view: map<string, string>, r: Proc)
    requires Knows(k, dat, e, view, r) && r.pc.Unlink?
    ensures Knows(k, dat, e, view, r.(pc := UnlockFreeDel))
    ensures Owes(k, r) && Writes(r)
  {
    hide Owes, InChain, Hit, InFree, HeadRead, Extent, Filled, SameAt, MapStep, MapAnswer, Replaces, Fits, Blanks, Hash;
  }

  lemma UnlinkKeeps(s: State, p: nat, r: Proc, s': State)
    requires p < |s.procs| && r == s.procs[p] && r.pc.Unlink? && s' == Advance(s, p) && Inv(s)
    ensures Inv(s')
  {
    hide Inv, Parts, Knows, Hash, Consistent, Pointers, Ownership, ExtentsApart;
    KnowsOf(s, p);
    InvConsistent(s);
    InvParts(s);
    UnlinkKnows(s.k, s.dat, s.idxEnd, s.view, r);
    PointerKeys(s);
    PointersAfter(s, s', p, r.from);
    assert Mine(s, p, r.from);
    QuietParts(s, p, r, s', r.from);
    EffectKeeps(s, s', p, r.from, Slot(Chain(r)));
  }
}
