/** Why one process's step leaves alone what the others know. */
module DbProtocolFrame {
  import opened Options
  import opened AsciiFields
  import opened DbRecords
  import opened DbMap
  import opened DbProtocol
  import opened DbProtocolInvariant

  ghost predicate SameBody(k: Links, dat: string, k': Links, dat': string, x: nat) {
    x in k.body ==> x in k'.body && k'.body[x] == k.body[x] && Value(k'.body[x], dat') == Value(k.body[x], dat)
  }

  ghost predicate SamePtr(k: Links, k': Links, x: nat) {
    x in k.ptr ==> x in k'.ptr && k'.ptr[x] == k.ptr[x]
  }

  /** The change from k, dat to k', dat' touches at most the pointer at a, the record at o, the
      chain of r, the free list if r holds its lock, and the key of r. */
  ghost predicate Effect(k: Links, dat: string, k': Links, dat': string, r: Proc, a: nat, o: nat) {
    && |k'.lists| == |k.lists|
    && (forall d :: 0 <= d < |k.lists| && d != Chain(r) && (d != 0 || !HoldsFree(r)) ==> k'.lists[d] == k.lists[d])
    && (forall x :: x != o ==> SameBody(k, dat, k', dat', x))
    && (forall x :: x != a && x != o ==> SamePtr(k, k', x))
    && (forall key :: key != r.op.key ==>
          (key in k.at <==> key in k'.at) && (key in k.at ==> k'.at[key] == k.at[key]))
  }

  /** The addresses a process may rely on. */
  ghost predicate Relied(k: Links, q: Proc, x: nat)
    requires |k.lists| == NHASH + 1
  {
    || x == Slot(Chain(q)) || x in k.lists[Chain(q)]
    || (HoldsFree(q) && (x == FREE_OFF || x in k.lists[0]))
    || q.own == Some(x)
  }

  /** The addresses a writing process may touch. */
  ghost predicate Mine(s: State, p: nat, x: nat)
    requires p < |s.procs|
  {
    || (|s.k.lists| == NHASH + 1 && Relied(s.k, s.procs[p], x))
    || x == s.idxEnd
  }

  lemma ExcludedPair(procs: seq<Proc>, p: nat, q: nat)
    requires Exclusion(procs) && p < |procs| && q < |procs| && p != q
    ensures Compatible(procs[p], procs[q])
  {
    if p < q {
      assert Compatible(procs[p], procs[q]);
    } else {
      assert Compatible(procs[q], procs[p]);
    }
  }

  lemma DifferentOwners(s: State, p: nat, q: nat)
    requires Ownership(s) && p < |s.procs| && q < |s.procs| && p != q
    ensures s.procs[p].own.Some? && s.procs[q].own.Some? ==> s.procs[p].own.value != s.procs[q].own.value
  {}

  /** What a writer may touch no other process relies on. */
  lemma NotRelied(s: State, p: nat, q: nat, x: nat)
    requires Inv(s) && p < |s.procs| && q < |s.procs| && p != q
    requires Writes(s.procs[p]) && HoldsChain(s.procs[q]) && Mine(s, p, x)
    ensures |s.k.lists| == NHASH + 1 && !Relied(s.k, s.procs[q], x)
    ensures Chain(s.procs[p]) != Chain(s.procs[q]) && !(HoldsFree(s.procs[p]) && HoldsFree(s.procs[q]))
  {
    hide Hash, AllKnow, MapShown, Pointers, Extents, Keyed, Threaded;
    ExcludedPair(s.procs, p, q);
    DifferentOwners(s, p, q);
    var c, d := Chain(s.procs[p]), Chain(s.procs[q]);
    MembersAreRecords(s.k, c);
    MembersAreRecords(s.k, d);
    MembersAreRecords(s.k, 0);
  }

  /** Everything q relies on is as it was. */
  ghost predicate Unmoved(k: Links, dat: string, k': Links, dat': string, q: Proc) {
    && |k.lists| == NHASH + 1 && |k'.lists| == NHASH + 1
    && k'.lists[Chain(q)] == k.lists[Chain(q)] && (HoldsFree(q) ==> k'.lists[0] == k.lists[0])
    && (forall x :: Relied(k, q, x) ==> SameBody(k, dat, k', dat', x) && SamePtr(k, k', x))
    && (q.op.key in k.at <==> q.op.key in k'.at)
    && (q.op.key in k.at ==>
        k'.at[q.op.key] == k.at[q.op.key] && k.at[q.op.key] in k.body && Relied(k, q, k.at[q.op.key]))
  }

  lemma EffectUnmoved(s: State, p: nat, k': Links, dat': string, a: nat, o: nat, q: nat)
    requires Inv(s) && p < |s.procs| && q < |s.procs| && p != q
    requires Writes(s.procs[p]) && HoldsChain(s.procs[q]) && Mine(s, p, a) && Mine(s, p, o)
    requires Effect(s.k, s.dat, k', dat', s.procs[p], a, o)
    ensures Unmoved(s.k, s.dat, k', dat', s.procs[q])
  {
    hide Inv, Mine, SameBody, SamePtr, Hash;
    NotRelied(s, p, q, a);
    NotRelied(s, p, q, o);
    assert Consistent(s.k, s.dat) by { InvConsistent(s); }
    hide Consistent;
    if s.procs[q].op.key in s.k.at {
      LiveOnChain(s.k, s.dat, s.procs[q].op.key);
    }
  }

  lemma InvConsistent(s: State)
    requires Inv(s)
    ensures Consistent(s.k, s.dat)
  {}

  predicate SameEntry(m: map<string, string>, m': map<string, string>, key: string) {
    (key in m <==> key in m') && (key in m ==> m'[key] == m[key])
  }

  lemma ChainFrame(k: Links, dat: string, k': Links, dat': string, q: Proc)
    requires Unmoved(k, dat, k', dat', q) && FREE_OFF in k'.ptr
    ensures InChain(k, q) ==> InChain(k', q)
    ensures Hit(k, q) ==> Hit(k', q)
    ensures InChain(k, q) ==> q.off in k'.ptr && k'.ptr[q.off] == k.ptr[q.off]
    ensures Owes(k, q) ==> Owes(k', q)
    ensures HeadRead(k, q) ==> HeadRead(k', q)
  {
    hide Hash;
    var l := k.lists[Chain(q)];
    assert forall a :: 0 <= a < |l| ==> Relied(k, q, l[a]);
    assert Relied(k, q, Slot(Chain(q)));
    if Owes(k, q) {
      assert Relied(k, q, q.from);
    }
  }

  lemma FreeFrame(k: Links, dat: string, k': Links, dat': string, q: Proc)
    requires Unmoved(k, dat, k', dat', q) && FREE_OFF in k'.ptr && HoldsFree(q)
    ensures InFree(k, q) ==>
              InFree(k', q) && q.off in k'.ptr && q.off in k'.body && k'.ptr[q.off] == k.ptr[q.off]
              && k'.body[q.off] == k.body[q.off]
    ensures FREE_OFF in k.ptr ==> k'.ptr[FREE_OFF] == k.ptr[FREE_OFF]
  {
    hide Hash;
    assert forall a :: 0 <= a < |k.lists[0]| ==> Relied(k, q, k.lists[0][a]);
    assert Relied(k, q, FREE_OFF);
  }

  lemma OwnFrame(k: Links, dat: string, k': Links, dat': string, q: Proc)
    requires Unmoved(k, dat, k', dat', q)
    ensures Owns(k, q) ==> Owns(k', q) && k'.body[q.off] == k.body[q.off] && k'.ptr[q.off] == k.ptr[q.off]
    ensures Owns(k, q) ==> Value(k'.body[q.off], dat') == Value(k.body[q.off], dat)
    ensures Filled(k, dat, q) ==> Filled(k', dat', q)
  {
    if Owns(k, q) {
      assert Relied(k, q, q.off);
    }
  }

  lemma KeyFrame(k: Links, dat: string, k': Links, dat': string, view: map<string, string>, view': map<string, string>,
                 q: Proc)
    requires Unmoved(k, dat, k', dat', q) && SameEntry(view, view', q.op.key)
    ensures Gone(k, view, q) ==> Gone(k', view', q)
    ensures SameAt(k, dat, MapStep(view, q.op), q.op.key) ==> SameAt(k', dat', MapStep(view', q.op), q.op.key)
    ensures MapAnswer(view', q.op) == MapAnswer(view, q.op)
  {
    hide Hash, Relied;
  }

  /** The knowledge of a process survives a change that moves nothing it relies on. */
  lemma KnowsFrame(k: Links, dat: string, e: nat, view: map<string, string>,
                   k': Links, dat': string, e': nat, view': map<string, string>, q: Proc)
    requires Knows(k, dat, e, view, q) && HoldsChain(q) && Unmoved(k, dat, k', dat', q)
    requires SameEntry(view, view', q.op.key) && FREE_OFF in k'.ptr
    requires (HoldsIdx(q) ==> e' == e) && (HoldsDat(q) ==> |dat'| == |dat|) && (Appending(q.pc) ==> Extent(k', dat', q))
    ensures Knows(k', dat', e', view', q)
  {
    hide Hash, InChain, Hit, Owes, HeadRead, InFree, Gone, SameAt, MapStep, MapAnswer, Extent, Filled, Unmoved, Proper;
    ChainFrame(k, dat, k', dat', q);
    if HoldsFree(q) {
      FreeFrame(k, dat, k', dat', q);
    }
    OwnFrame(k, dat, k', dat', q);
    KeyFrame(k, dat, k', dat', view, view', q);
  }
}
