/** Any number of processes using the database at once. Each step is one file operation, one lock
    or one unlock of db.c; between two steps any other process may take its own. */
module DbProtocol {
  import opened Options
  import opened AsciiFields
  import opened DbRecords
  import opened DbMap

  /** Where a process stands: the name says what its next step does. */
  datatype PC =
    | Idle
    // _db_find_and_lock
    | WantChain | ReadHead | ReadLink | ReadText
    // db_fetch
    | ReadData
    // _db_dodelete
    | WantFreeDel | BlankData | ReadFree | BlankIdx | LinkFree | Unlink | UnlockFreeDel
    // db_store
    | OverwriteData | ReadHeadStore | RereadHead
    // _db_findfree
    | WantFreeFind | ReadFreeHead | FreeLink | FreeText | TakeFree | UnlockFreeHit | UnlockFreeMiss
    // db_store, reusing a record
    | ReuseData | ReuseIdx
    // _db_writedat and _db_writeidx, appending
    | WantDat | SeekDat | AppendDat | UnlockDat | WantIdx | SeekIdx | AppendIdx | UnlockIdx
    // the record goes to the front of its chain
    | LinkChain
    // un_lock of the chain, with the answer ready
    | Finish
    // err_dump or err_quit
    | Crashed

  /** A process: its operation and the local variables and DB fields it uses. from is ptroff or
      saveoffset, off the offset of the current record, link its chain pointer as read (ptrval or
      saveptr), b its text as read or written, head the chain head a store puts into its new record,
      free the free list head a deletion puts into its record. The position i of the record in the
      list being walked and the record own that no list holds are bookkeeping. */
  datatype Proc = Proc(op: Op, pc: PC, from: nat, off: nat, link: nat, b: Body, head: nat, free: nat, answer: Answer,
                       i: nat, own: Option<nat>)

  /** The two files, the processes, and the history of completed operations. The index file is its
      pointers ptr and the records of k.body; k, the map view and the log are bookkeeping: k.ptr is
      ptr with the pointer writes that a deletion still owes. */
  datatype State = State(ptr: map<nat, nat>, dat: string, idxEnd: nat, procs: seq<Proc>,
                         k: Links, view: map<string, string>, log: seq<(Op, Answer)>)

  function Chain(r: Proc): nat { Hash(r.op.key) + 1 }

  // ---- Locks ----------------------------------------------------------------------------------

  predicate HoldsChain(r: Proc) { !(r.pc.Idle? || r.pc.WantChain? || r.pc.Crashed?) }

  /** db_fetch takes the chain lock shared, db_delete and db_store exclusive. */
  predicate Writes(r: Proc) { HoldsChain(r) && !r.op.FetchOp? }

  predicate HoldsFree(r: Proc) {
    || r.pc.BlankData? || r.pc.ReadFree? || r.pc.BlankIdx? || r.pc.LinkFree? || r.pc.Unlink? || r.pc.UnlockFreeDel?
    || r.pc.ReadFreeHead? || r.pc.FreeLink? || r.pc.FreeText? || r.pc.TakeFree? || r.pc.UnlockFreeHit?
      || r.pc.UnlockFreeMiss?
  }

  predicate HoldsDat(r: Proc) { r.pc.SeekDat? || r.pc.AppendDat? || r.pc.UnlockDat? }

  predicate HoldsIdx(r: Proc) { r.pc.SeekIdx? || r.pc.AppendIdx? || r.pc.UnlockIdx? }

  predicate Compatible(r: Proc, q: Proc) {
    && !(HoldsChain(r) && HoldsChain(q) && Chain(r) == Chain(q) && (Writes(r) || Writes(q)))
    && !(HoldsFree(r) && HoldsFree(q))
    && !(HoldsDat(r) && HoldsDat(q))
    && !(HoldsIdx(r) && HoldsIdx(q))
  }

  /** A process waits only when it wants a lock that another one holds. */
  predicate Enabled(s: State, p: nat)
    requires p < |s.procs|
  {
    var r := s.procs[p];
    match r.pc
    case Idle => false
    case Crashed => false
    case WantChain =>
      forall q :: 0 <= q < |s.procs| && q != p && HoldsChain(s.procs[q]) && Chain(s.procs[q]) == Chain(r) ==>
        r.op.FetchOp? && s.procs[q].op.FetchOp?
    case WantFreeDel => forall q :: 0 <= q < |s.procs| && q != p ==> !HoldsFree(s.procs[q])
    case WantFreeFind => forall q :: 0 <= q < |s.procs| && q != p ==> !HoldsFree(s.procs[q])
    case WantDat => forall q :: 0 <= q < |s.procs| && q != p ==> !HoldsDat(s.procs[q])
    case WantIdx => forall q :: 0 <= q < |s.procs| && q != p ==> !HoldsIdx(s.procs[q])
    case _ => true
  }

  // ---- Steps ----------------------------------------------------------------------------------

  function At(ptr: map<nat, nat>, a: nat): nat { if a in ptr then ptr[a] else 0 }

  function BodyAt(k: Links, o: nat): Body { if o in k.body then k.body[o] else Body("", 0, 0) }

  function Cut(k: Links, c: nat, i: nat): Links { if Placed(k, c, i) then Detached(k, c, i) else k }

  function Link(k: Links, c: nat, o: nat): Links {
    if c < |k.lists| && o in k.body then Pushed(k, c, o) else k
  }

  function Finished(r: Proc, a: Answer): Proc { r.(pc := Finish, answer := a) }

  /** The key is not on its chain. */
  function Missed(r: Proc): Proc {
    match r.op
    case FetchOp(_) => Finished(r, Data(None))
    case DeleteOp(_) => Finished(r, Code(-1))
    case StoreOp(_, _, flag) => if flag == DB_REPLACE then Finished(r, Code(-1)) else r.(pc := ReadHeadStore)
  }

  /** The key was read from the current record. */
  function Found(r: Proc): Proc {
    match r.op
    case FetchOp(_) => r.(pc := ReadData)
    case DeleteOp(_) => r.(pc := WantFreeDel)
    case StoreOp(_, data, flag) =>
      if flag == DB_INSERT then Finished(r, Code(1))
      else if |data| + 1 != r.b.datlen then r.(pc := WantFreeDel)
      else r.(pc := OverwriteData)
  }

  /** The walk along the chain goes on at offset o, the i-th record. */
  function WalkTo(r: Proc, o: nat, from: nat, i: nat): Proc {
    if o == 0 then Missed(r) else r.(pc := ReadLink, off := o, from := from, i := i)
  }

  function FreeWalkTo(r: Proc, o: nat, from: nat, i: nat): Proc {
    if o == 0 then r.(pc := UnlockFreeMiss) else r.(pc := FreeLink, off := o, from := from, i := i)
  }

  function NewData(r: Proc): string { if r.op.StoreOp? then r.op.data else "" }

  /** What process p is after its step. */
  function Local(s: State, r: Proc): Proc {
    match r.pc
    case Idle => r
    case Crashed => r
    case WantChain => r.(pc := ReadHead)
    case ReadHead => WalkTo(r, At(s.ptr, Slot(Chain(r))), Slot(Chain(r)), 0)
    case ReadLink => r.(pc := ReadText, link := At(s.ptr, r.off))
    case ReadText =>
      var r' := r.(b := BodyAt(s.k, r.off));
      if r'.b.key == r.op.key then Found(r') else WalkTo(r', r.link, r.off, r.i + 1)
    case ReadData => Finished(r, Data(Some(Value(r.b, s.dat))))
    case WantFreeDel => r.(pc := BlankData)
    case BlankData => r.(pc := ReadFree, own := Some(r.off))
    case ReadFree => r.(pc := BlankIdx, free := At(s.ptr, FREE_OFF))
    case BlankIdx => r.(pc := LinkFree)
    case LinkFree => r.(pc := Unlink, own := None)
    case Unlink => r.(pc := UnlockFreeDel)
    case UnlockFreeDel => if r.op.StoreOp? then r.(pc := RereadHead) else Finished(r, Code(0))
    case OverwriteData => Finished(r, Code(0))
    case ReadHeadStore => r.(pc := WantFreeFind, head := At(s.ptr, Slot(Chain(r))))
    case RereadHead => r.(pc := WantDat, head := At(s.ptr, Slot(Chain(r))))
    case WantFreeFind => r.(pc := ReadFreeHead)
    case ReadFreeHead => FreeWalkTo(r, At(s.ptr, FREE_OFF), FREE_OFF, 0)
    case FreeLink => r.(pc := FreeText, link := At(s.ptr, r.off))
    case FreeText =>
      var r' := r.(b := BodyAt(s.k, r.off));
      if Fits(r'.b, |r.op.key|, |NewData(r)| + 1) then r'.(pc := TakeFree) else FreeWalkTo(r', r.link, r.off, r.i + 1)
    case TakeFree => r.(pc := UnlockFreeHit, own := Some(r.off))
    case UnlockFreeHit => r.(pc := ReuseData)
    case UnlockFreeMiss => r.(pc := WantDat)
    case ReuseData => r.(pc := ReuseIdx)
    case ReuseIdx => r.(pc := LinkChain)
    case WantDat => r.(pc := SeekDat)
    case SeekDat => r.(pc := AppendDat, b := Body(r.op.key, |s.dat|, |NewData(r)| + 1))
    case AppendDat => r.(pc := UnlockDat)
    case UnlockDat => r.(pc := if TextFits(r.b) then WantIdx else Crashed)
    case WantIdx => r.(pc := SeekIdx)
    case SeekIdx => r.(pc := AppendIdx, off := s.idxEnd)
    case AppendIdx => r.(pc := UnlockIdx, own := Some(r.off))
    case UnlockIdx => r.(pc := LinkChain)
    case LinkChain => if r.off <= PTR_MAX then Finished(r, Code(0)).(own := None) else r.(pc := Crashed)
    case Finish => r.(pc := Idle)
  }

  predicate TextFits(b: Body) { IDXLEN_MIN <= |Text(b)| <= IDXLEN_MAX }

  /** The step of process p: its effect on the files, then on itself. */
  function Advance(s: State, p: nat): State
    requires p < |s.procs|
  {
    var r := s.procs[p];
    var s' := s.(procs := s.procs[p := Local(s, r)]);
    match r.pc
    case BlankData =>
      s'.(dat := WipedData(r.b, s.dat), k := Cut(s.k, Chain(r), r.i))
    case BlankIdx =>
      s'.(ptr := s.ptr[r.off := r.free], k := Written(s.k, r.off, r.free, Blanked(r.b)))
    case LinkFree =>
      s'.(ptr := s.ptr[FREE_OFF := r.off], k := Link(s.k, 0, r.off))
    case Unlink =>
      s'.(ptr := s.ptr[r.from := r.link])
    case OverwriteData =>
      s'.(dat := WithData(s.dat, r.b, NewData(r)))
    case TakeFree =>
      s'.(ptr := s.ptr[r.from := r.link], k := Cut(s.k, 0, r.i))
    case ReuseData =>
      s'.(dat := WithData(s.dat, r.b, NewData(r)))
    case ReuseIdx =>
      s'.(ptr := s.ptr[r.off := r.head], k := Written(s.k, r.off, r.head, r.b.(key := r.op.key)))
    case AppendDat =>
      s'.(dat := s.dat + (NewData(r) + [NEWLINE]))
    case UnlockDat =>
      if TextFits(r.b) then s' else Died(s', r)
    case AppendIdx =>
      s'.(ptr := s.ptr[r.off := r.head], k := Written(s.k, r.off, r.head, r.b),
          idxEnd := s.idxEnd + PTR_SZ + IDXLEN_SZ + |Text(r.b)|)
    case LinkChain =>
      if r.off <= PTR_MAX
      then s'.(ptr := s.ptr[Slot(Chain(r)) := r.off], k := Link(s.k, Chain(r), r.off))
      else Died(s', r)
    case Finish =>
      Logged(s', r.op, r.answer)
    case _ => s'
  }

  /** An operation takes effect on the map and enters the history. */
  function Logged(s: State, op: Op, a: Answer): State {
    s.(view := MapStep(s.view, op), log := s.log + [(op, a)])
  }

  /** A store that dies leaves its key deleted: it enters the history as a deletion. */
  function Died(s: State, r: Proc): State {
    Logged(s, DeleteOp(r.op.key), MapAnswer(s.view, DeleteOp(r.op.key)))
  }

  /** The operations that get as far as the chain lock: a store with a known flag, data of a legal
      length and a key without separator. */
  predicate Proper(op: Op) {
    op.StoreOp? ==>
      && op.flag in {DB_INSERT, DB_REPLACE, DB_STORE}
      && DATLEN_MIN <= |op.data| + 1 <= DATLEN_MAX
      && SEP !in op.key
  }

  /** An idle process is called with a new operation. */
  function Begin(s: State, p: nat, op: Op): State
    requires p < |s.procs|
  {
    s.(procs := s.procs[p := s.procs[p].(op := op, pc := WantChain)])
  }

  ghost predicate Step(s: State, s': State) {
    || (exists p, op :: 0 <= p < |s.procs| && s.procs[p].pc.Idle? && Proper(op) && s' == Begin(s, p, op))
    || (exists p :: 0 <= p < |s.procs| && Enabled(s, p) && s' == Advance(s, p))
  }

  /** Any number of idle processes and the files of a database in order. */
  ghost predicate Initial(s: State) {
    && (forall p :: 0 <= p < |s.procs| ==> s.procs[p].pc.Idle? && s.procs[p].own.None?)
    && Consistent(s.k, s.dat) && AllListed(s.k) && s.ptr == s.k.ptr
    && s.idxEnd >= FIRST_RECORD && (forall o :: o in s.k.body ==> o < s.idxEnd)
    && s.view == View(s.k, s.dat) && s.log == []
  }

  ghost predicate IsRun(run: seq<State>) {
    |run| > 0 && Initial(run[0]) && forall i :: 0 <= i < |run| - 1 ==> Step(run[i], run[i + 1])
  }
}
