/** What every reachable state of the protocol keeps. */
module DbProtocolInvariant {
  import opened Options
  import opened AsciiFields
  import opened DbRecords
  import opened DbMap
  import opened DbProtocol

  // ---- What a process knows ---------------------------------------------------------------

  /** The process stands at position i of list c, and no earlier record of its chain has its key. */
  ghost predicate InChain(k: Links, r: Proc) {
    && Chain(r) <= NHASH && Placed(k, Chain(r), r.i)
    && r.off == k.lists[Chain(r)][r.i] && r.from == Cell(Slot(Chain(r)), k.lists[Chain(r)], r.i)
    && forall a :: 0 <= a < r.i ==> k.lists[Chain(r)][a] in k.body && k.body[k.lists[Chain(r)][a]].key != r.op.key
  }

  /** It has read the record of its key. */
  ghost predicate Hit(k: Links, r: Proc) {
    InChain(k, r) && r.link == k.ptr[r.off] && r.b == k.body[r.off] && r.b.key == r.op.key
  }

  /** Its operation is one that changes the map at its key, and its key is off the chain. */
  ghost predicate Gone(k: Links, view: map<string, string>, r: Proc) {
    && r.op.key !in k.at && Proper(r.op)
    && match r.op
       case FetchOp(_) => false
       case DeleteOp(key) => key in view
       case StoreOp(key, _, flag) => StoreCode(view, key, flag) == 0
  }

  /** It took its record off the chain but still owes the chain a pointer write. */
  ghost predicate Owes(k: Links, r: Proc) {
    && Chain(r) <= NHASH && |k.lists| == NHASH + 1 && r.i <= |k.lists[Chain(r)]|
    && r.from == Cell(Slot(Chain(r)), k.lists[Chain(r)], r.i) && r.from in k.ptr && r.link == k.ptr[r.from]
  }

  ghost predicate HeadRead(k: Links, r: Proc) { Slot(Chain(r)) in k.ptr && r.head == k.ptr[Slot(Chain(r))] }

  /** It stands at position i of the free list, whose lock it holds. */
  ghost predicate InFree(k: Links, r: Proc) {
    Placed(k, 0, r.i) && r.off == k.lists[0][r.i] && r.from == Cell(Slot(0), k.lists[0], r.i)
  }

  ghost predicate Owns(k: Links, r: Proc) { r.own == Some(r.off) && r.off in k.body && r.off in k.ptr }

  /** It appended data that no record refers to yet. */
  ghost predicate Extent(k: Links, dat: string, r: Proc) {
    && r.b == Body(r.op.key, r.b.datoff, |NewData(r)| + 1) && ExtentOk(r.b, dat) && Value(r.b, dat) == NewData(r)
    && forall o :: o in k.body ==> Apart(r.b, k.body[o])
  }

  /** The map the files hold at a key is that of m. */
  ghost predicate SameAt(k: Links, dat: string, m: map<string, string>, key: string) {
    (key in k.at <==> key in m) && (key in m ==> Lookup(k.body, k.at, dat, key) == m[key])
  }

  /** The phases of an operation. */
  predicate Walking(pc: PC) { pc.ReadLink? || pc.ReadText? }

  predicate Hitting(pc: PC) { pc.ReadData? || pc.WantFreeDel? || pc.BlankData? || pc.OverwriteData? }

  predicate Owing(pc: PC) { pc.ReadFree? || pc.BlankIdx? || pc.LinkFree? || pc.Unlink? }

  predicate FreeWalking(pc: PC) { pc.FreeLink? || pc.FreeText? || pc.TakeFree? }

  predicate Reusing(pc: PC) { pc.UnlockFreeHit? || pc.ReuseData? || pc.ReuseIdx? }

  predicate Appending(pc: PC) { pc.UnlockDat? || pc.WantIdx? || pc.SeekIdx? || pc.AppendIdx? }

  predicate Linking(pc: PC) { pc.UnlockIdx? || pc.LinkChain? }

  /** A store past the point where it read the head of its chain. */
  predicate HeadKnown(pc: PC) {
    || pc.WantFreeFind? || pc.ReadFreeHead? || pc.UnlockFreeMiss? || pc.WantDat? || pc.SeekDat? || pc.AppendDat?
    || FreeWalking(pc) || Reusing(pc) || Appending(pc) || Linking(pc)
  }

  predicate StorePhase(pc: PC) { pc.ReadHeadStore? || pc.RereadHead? || HeadKnown(pc) }

  predicate GonePhase(pc: PC) { Owing(pc) || pc == UnlockFreeDel || StorePhase(pc) }

  predicate Owner(pc: PC) { pc.ReadFree? || pc.BlankIdx? || pc.LinkFree? || Reusing(pc) || Linking(pc) }

  ghost predicate Knows(k: Links, dat: string, idxEnd: nat, view: map<string, string>, r: Proc) {
    && (!r.pc.Idle? && !r.pc.Crashed? ==> Proper(r.op))
    && (!r.pc.Crashed? ==> (r.own.Some? <==> Owner(r.pc)))
    && (Owner(r.pc) ==> Owns(k, r))
    && (Walking(r.pc) ==> InChain(k, r))
    && (r.pc.ReadText? || r.pc.FreeText? || r.pc.TakeFree? ==> r.off in k.ptr && r.link == k.ptr[r.off])
    && (Hitting(r.pc) ==> Hit(k, r) && (if r.pc.ReadData? then r.op.FetchOp? else Replaces(r)))
    && (r.pc.OverwriteData? ==> r.op.StoreOp? && |NewData(r)| + 1 == r.b.datlen)
    && (Owing(r.pc) ==> Owes(k, r))
    && (GonePhase(r.pc) ==> Gone(k, view, r))
    && (StorePhase(r.pc) ==> r.op.StoreOp?)
    && (HeadKnown(r.pc) ==> HeadRead(k, r))
    && ((r.pc.ReadFree? || r.pc.BlankIdx? || r.pc.TakeFree? || r.pc.UnlockFreeHit? || r.pc.ReuseData?
      || r.pc.ReuseIdx?) ==> r.off in k.body && r.b == k.body[r.off])
    && ((r.pc.ReadFree? || r.pc.BlankIdx? || r.pc.LinkFree?) ==> r.off <= PTR_MAX)
    && (r.pc.BlankIdx? ==> FREE_OFF in k.ptr && r.free == k.ptr[FREE_OFF])
    && (r.pc.LinkFree? ==> FREE_OFF in k.ptr && Owns(k, r) && k.ptr[r.off] == k.ptr[FREE_OFF]
                           && k.body[r.off].key == Blanks(|k.body[r.off].key|))
    && (FreeWalking(r.pc) ==> InFree(k, r))
    && (r.pc.TakeFree? || Reusing(r.pc) ==> Fits(r.b, |r.op.key|, |NewData(r)| + 1))
    && (r.pc.ReuseIdx? ==> Value(r.b, dat) == NewData(r))
    && (r.pc.AppendDat? ==> r.b == Body(r.op.key, |dat|, |NewData(r)| + 1))
    && (Appending(r.pc) ==> Extent(k, dat, r))
    && (r.pc.AppendIdx? ==> r.off == idxEnd)
    && (Linking(r.pc) ==> Filled(k, dat, r))
    && (r.pc.Finish? ==> SameAt(k, dat, MapStep(view, r.op), r.op.key) && r.answer == MapAnswer(view, r.op))
  }

  /** Its new record is complete but not yet on its chain. */
  ghost predicate Filled(k: Links, dat: string, r: Proc) {
    Owns(k, r) && k.ptr[r.off] == r.head && k.body[r.off].key == r.op.key && Value(k.body[r.off], dat) == NewData(r)
  }

  /** An operation on a stored key that will not keep its record or its data. */
  predicate Replaces(r: Proc) { r.op.DeleteOp? || (r.op.StoreOp? && r.op.flag != DB_INSERT) }

  // ---- The invariant ----------------------------------------------------------------------

  /** The pointer the process still has to write. */
  predicate Pends(r: Proc, a: nat) { Owing(r.pc) && r.from == a }

  /** The process may have changed the files at its key but not finished. */
  predicate Dirty(r: Proc, key: string) { r.op.key == key && (GonePhase(r.pc) || r.pc.Finish?) && Writes(r) }

  ghost predicate Pointers(s: State) {
    && s.ptr.Keys == s.k.ptr.Keys
    && forall a :: a in s.ptr && (forall p :: 0 <= p < |s.procs| ==> !Pends(s.procs[p], a)) ==> s.ptr[a] == s.k.ptr[a]
  }

  ghost predicate Exclusion(procs: seq<Proc>) {
    forall p, q :: 0 <= p < q < |procs| ==> Compatible(procs[p], procs[q])
  }

  ghost predicate AllKnow(s: State) {
    forall p :: 0 <= p < |s.procs| ==> Knows(s.k, s.dat, s.idxEnd, s.view, s.procs[p])
  }

  /** A record on no list belongs to exactly one process. */
  ghost predicate Ownership(s: State) {
    && (forall p :: 0 <= p < |s.procs| && s.procs[p].own.Some? ==>
          var o := s.procs[p].own.value; o in s.k.body && o !in s.k.home && o >= FIRST_RECORD)
    && (forall p, q :: 0 <= p < q < |s.procs| && s.procs[p].own.Some? && s.procs[q].own.Some? ==>
          s.procs[p].own.value != s.procs[q].own.value)
    && (forall o :: o in s.k.body && o !in s.k.home ==> exists p :: 0 <= p < |s.procs| && s.procs[p].own == Some(o))
  }

  ghost predicate ExtentsApart(procs: seq<Proc>) {
    forall p, q :: 0 <= p < q < |procs| && Appending(procs[p].pc) && Appending(procs[q].pc) ==>
        Apart(procs[p].b, procs[q].b)
  }

  ghost predicate MapShown(s: State) {
    forall key :: (forall p :: 0 <= p < |s.procs| ==> !Dirty(s.procs[p], key)) ==> SameAt(s.k, s.dat, s.view, key)
  }

  /** The history is one that a single process could have produced on the map. */
  ghost predicate LegalLog(log: seq<(Op, Answer)>, view0: map<string, string>, view: map<string, string>) {
    && view == MapRun(view0, Ops(log))
    && forall i :: 0 <= i < |log| ==> log[i].1 == MapAnswer(MapRun(view0, Ops(log[..i])), log[i].0)
  }

  function Ops(log: seq<(Op, Answer)>): seq<Op> { seq(|log|, i requires 0 <= i < |log| => log[i].0) }

  ghost predicate Inv(s: State) {
    && Consistent(s.k, s.dat)
    && s.idxEnd >= FIRST_RECORD && (forall o :: o in s.k.body ==> o < s.idxEnd)
    && Pointers(s) && Exclusion(s.procs) && AllKnow(s) && Ownership(s) && ExtentsApart(s.procs) && MapShown(s)
  }
}
