/** The bytes of the index file under concurrent use: every step of a process is the write call of
    db.c that it stands for, and at all times the records tile the file. */
module DbProtocolBytes {
  import opened Options
  import opened AsciiFields
  import opened DbRecords
  import opened DbBytes
  import opened DbMap
  import opened DbProtocol
  import opened DbProtocolInvariant
  import opened DbProtocolFrame
  import opened DbProtocolLocal
  import opened DbProtocolSteps
  import opened DbProtocolWrites
  import opened DbProtocolStores
  import opened DbProtocolRuns

  function Put(idx: string, at: nat, s: string): string {
    if at + |s| <= |idx| then Overwrite(idx, at, s) else idx + s
  }

  /** The index file after the step of r: pointers are rewritten in place, records in place or at
      the end. */
  function FileStep(idx: string, r: Proc): string {
    match r.pc
    case BlankIdx => Put(idx, r.off, Record(r.free, Blanked(r.b)))
    case LinkFree => Put(idx, FREE_OFF, Field(r.off, PTR_SZ))
    case Unlink => Put(idx, r.from, Field(r.link, PTR_SZ))
    case TakeFree => Put(idx, r.from, Field(r.link, PTR_SZ))
    case ReuseIdx => Put(idx, r.off, Record(r.head, r.b.(key := r.op.key)))
    case AppendIdx => Put(idx, r.off, Record(r.head, r.b))
    case LinkChain => if r.off <= PTR_MAX then Put(idx, Slot(Chain(r)), Field(r.off, PTR_SZ)) else idx
    case _ => idx
  }

  /** The file holds the pointers and records of the state and nothing else. */
  ghost predicate OnFile(s: State, idx: string) { |idx| == s.idxEnd && Image(idx, s.ptr, s.k.body) }

  /** A process about to append a record has checked its length. */
  ghost predicate Checked(s: State) {
    forall p :: 0 <= p < |s.procs| ==>
      (s.procs[p].pc.WantIdx? || s.procs[p].pc.SeekIdx? || s.procs[p].pc.AppendIdx? ==> TextFits(s.procs[p].b))
  }

  lemma WritesNoRecord(s: State, p: nat)
    requires p < |s.procs|
    requires !s.procs[p].pc.BlankIdx? && !s.procs[p].pc.ReuseIdx? && !s.procs[p].pc.AppendIdx?
    ensures Advance(s, p).k.body == s.k.body && Advance(s, p).idxEnd == s.idxEnd
  {
    hide Hash, Value, WithData, WipedData, BodyAt, Fits, Local;
  }

  lemma WritesNoPointer(s: State, p: nat)
    requires p < |s.procs| && FileStep("", s.procs[p]) == "" && !s.procs[p].pc.BlankIdx? && !s.procs[p].pc.LinkFree?
    requires !s.procs[p].pc.Unlink? && !s.procs[p].pc.TakeFree? && !s.procs[p].pc.ReuseIdx? && !s.procs[p].pc.AppendIdx?
    requires s.procs[p].pc.LinkChain? ==> s.procs[p].off > PTR_MAX
    ensures Advance(s, p).ptr == s.ptr
    ensures forall idx :: FileStep(idx, s.procs[p]) == idx
  {
    hide Hash, Value, WithData, WipedData, BodyAt, Fits, Local, Cut;
  }

  /** Rewriting any pointer on file. */
  lemma PointerOnFile(idx: string, ptr: map<nat, nat>, body: map<nat, Body>, a: nat, v: nat)
    requires Image(idx, ptr, body) && a in ptr && v <= PTR_MAX
    ensures |Put(idx, a, Field(v, PTR_SZ))| == |idx| && Image(Put(idx, a, Field(v, PTR_SZ)), ptr[a := v], body)
  {
    hide Image, Field, Overwrite;
    IsPointer(idx, ptr, body, a);
    if a in body {
      WriteLinkImage(idx, ptr, body, a, v);
    } else {
      WriteSlotImage(idx, ptr, body, a, v);
    }
    DbRecords.OverwriteLength(idx, a, Field(v, PTR_SZ));
  }

  lemma IsPointer(idx: string, ptr: map<nat, nat>, body: map<nat, Body>, a: nat)
    requires Image(idx, ptr, body) && a in ptr
    ensures IsSlot(a) || a in body
  {}

  /** The pointer a process writes is one of the file's, and its value fits the field. */
  lemma PointerWritten(s: State, p: nat, r: Proc)
    requires Inv(s) && p < |s.procs| && r == s.procs[p]
             && (r.pc.Unlink? || r.pc.TakeFree? || r.pc.LinkFree? || r.pc.LinkChain?)
    ensures (r.pc.Unlink? || r.pc.TakeFree?) ==> r.from in s.ptr && r.link <= PTR_MAX
    ensures r.pc.LinkFree? ==> FREE_OFF in s.ptr && r.off <= PTR_MAX
    ensures r.pc.LinkChain? ==> Slot(Chain(r)) in s.ptr
  {
    hide Hash, Exclusion, Ownership, ExtentsApart, MapShown, Keyed, Extents;
    KnowsOf(s, p);
    if r.pc.TakeFree? {
      InFreePointer(s.k, r);
    } else if r.pc.LinkChain? {
      assert IsSlot(Slot(Chain(r)));
    }
  }

  lemma InFreePointer(k: Links, r: Proc)
    requires Shape(k) && InFree(k, r)
    ensures r.from in k.ptr && r.off in k.ptr && k.ptr[r.off] <= PTR_MAX
  {
    assert IsList(k.ptr, Slot(0), k.lists[0]);
  }

  lemma PointerStep(s: State, p: nat, idx: string)
    requires Inv(s) && p < |s.procs| && OnFile(s, idx)
    requires !s.procs[p].pc.BlankIdx? && !s.procs[p].pc.ReuseIdx? && !s.procs[p].pc.AppendIdx?
    ensures OnFile(Advance(s, p), FileStep(idx, s.procs[p]))
  {
    hide Inv, Image, Field, Put, Hash, Local, Cut, Link;
    var r := s.procs[p];
    WritesNoRecord(s, p);
    if r.pc.Unlink? || r.pc.TakeFree? || r.pc.LinkFree? || (r.pc.LinkChain? && r.off <= PTR_MAX) {
      PointerWritten(s, p, r);
      var a := if r.pc.LinkFree? then FREE_OFF else if r.pc.LinkChain? then Slot(Chain(r)) else r.from;
      PointerOnFile(idx, s.ptr, s.k.body, a, if r.pc.Unlink? || r.pc.TakeFree? then r.link else r.off);
    } else {
      WritesNoPointer(s, p);
    }
  }

  /** The record a process writes is legible, and where it writes over one it keeps its size. */
  lemma RecordWritten(s: State, p: nat, r: Proc)
    requires Inv(s) && Checked(s) && p < |s.procs| && r == s.procs[p]
             && (r.pc.BlankIdx? || r.pc.ReuseIdx? || r.pc.AppendIdx?)
    ensures r.pc.BlankIdx? || r.pc.ReuseIdx? ==> r.off in s.k.body && r.b == s.k.body[r.off]
    ensures r.pc.BlankIdx? ==> r.free <= PTR_MAX
    ensures r.pc.ReuseIdx? || r.pc.AppendIdx? ==> r.head <= PTR_MAX && SEP !in r.op.key
    ensures r.pc.ReuseIdx? ==> |r.op.key| == |r.b.key|
    ensures r.pc.AppendIdx? ==>
              r.b.key == r.op.key && 0 < r.b.datlen <= DATLEN_MAX && TextFits(r.b) && r.off == s.idxEnd
  {
    hide Hash, Exclusion, Ownership, ExtentsApart, MapShown, Keyed, Extents, TextFits, Listed, Threaded, Value;
    KnowsOf(s, p);
    assert TextFits(r.b) || !r.pc.AppendIdx?;
  }

  lemma RewriteSizes(idx: string, ptr: map<nat, nat>, body: map<nat, Body>, o: nat, v: nat, b: Body)
    requires Image(idx, ptr, body) && o in body && v <= PTR_MAX && SEP !in b.key
    requires |b.key| == |body[o].key| && b.datoff == body[o].datoff && b.datlen == body[o].datlen
    ensures |Put(idx, o, Record(v, b))| == |idx| && Image(Put(idx, o, Record(v, b)), ptr[o := v], body[o := b])
  {
    hide Tiles, Text, Record, Field;
    SameSizeText(body[o], b);
    assert Legible(b);
    RewriteImage(idx, ptr, body, o, v, b);
    DbRecords.OverwriteLength(idx, o, Record(v, b));
  }

  lemma RecordStep(s: State, p: nat, idx: string)
    requires Inv(s) && Checked(s) && p < |s.procs| && OnFile(s, idx)
    requires s.procs[p].pc.BlankIdx? || s.procs[p].pc.ReuseIdx? || s.procs[p].pc.AppendIdx?
    ensures OnFile(Advance(s, p), FileStep(idx, s.procs[p]))
  {
    hide Inv, Image, Field, Text, Record, Checked, Hash, Local, Overwrite;
    var r := s.procs[p];
    RecordWritten(s, p, r);
    if r.pc.AppendIdx? {
      RecordLength(r.head, r.b);
      AppendImage(idx, s.ptr, s.k.body, r.head, r.b);
    } else if r.pc.BlankIdx? {
      BlankedText(r.b);
      RewriteSizes(idx, s.ptr, s.k.body, r.off, r.free, Blanked(r.b));
    } else {
      RewriteSizes(idx, s.ptr, s.k.body, r.off, r.head, r.b.(key := r.op.key));
    }
  }

  lemma LocalChecks(s: State, r: Proc)
    requires r.pc.WantIdx? || r.pc.SeekIdx? || r.pc.AppendIdx? ==> TextFits(r.b)
    ensures var r' := Local(s, r); r'.pc.WantIdx? || r'.pc.SeekIdx? || r'.pc.AppendIdx? ==> TextFits(r'.b)
  {
    hide Hash, TextFits, Value, At, BodyAt, Fits;
  }

  /** A step of a process writes exactly its bytes, and leaves a file made of whole records. */
  lemma AdvanceOnFile(s: State, p: nat, idx: string)
    requires Inv(s) && Checked(s) && p < |s.procs| && OnFile(s, idx)
    ensures OnFile(Advance(s, p), FileStep(idx, s.procs[p])) && Checked(Advance(s, p))
  {
    hide Inv, OnFile, Advance, Local, TextFits;
    if s.procs[p].pc.BlankIdx? || s.procs[p].pc.ReuseIdx? || s.procs[p].pc.AppendIdx? {
      RecordStep(s, p, idx);
    } else {
      PointerStep(s, p, idx);
    }
    LocalChecks(s, s.procs[p]);
    ProcsAfter(s, p);
  }

  lemma ProcsAfter(s: State, p: nat)
    requires p < |s.procs|
    ensures Advance(s, p).procs == s.procs[p := Local(s, s.procs[p])]
  {
    hide Hash, Value, WithData, WipedData, Cut, Link, Written, Local, Fits, TextFits;
  }

  /** What a process reads is what the bytes say: a pointer, and the record at its offset. */
  lemma ReadsAreBytes(s: State, p: nat, idx: string)
    requires Inv(s) && p < |s.procs| && OnFile(s, idx)
    ensures forall a :: a in s.ptr ==> a + PTR_SZ <= |idx| && Atol(idx[a..a + PTR_SZ]) == At(s.ptr, a)
    ensures forall o :: o in s.k.body ==> exists e :: Decode(idx, o) == Some(Entry(At(s.ptr, o), BodyAt(s.k, o), e))
  {
    hide Inv, Image, Decode, Atol;
    forall a | a in s.ptr
      ensures a + PTR_SZ <= |idx| && Atol(idx[a..a + PTR_SZ]) == At(s.ptr, a)
    {
      ReadPtrImage(idx, s.ptr, s.k.body, a);
    }
    forall o | o in s.k.body
      ensures exists e :: Decode(idx, o) == Some(Entry(At(s.ptr, o), BodyAt(s.k, o), e))
    {
      RecordHasPointer(idx, s.ptr, s.k.body, o);
      DecodeImage(idx, s.ptr, s.k.body, o);
      var e: nat :| Decode(idx, o) == Some(Entry(s.ptr[o], s.k.body[o], e));
      assert Decode(idx, o) == Some(Entry(At(s.ptr, o), BodyAt(s.k, o), e));
    }
  }

  lemma RecordHasPointer(idx: string, ptr: map<nat, nat>, body: map<nat, Body>, o: nat)
    requires Image(idx, ptr, body) && o in body
    ensures o in ptr
  {}

  // ---- Runs -------------------------------------------------------------------------------------

  /** The files of a run: each step writes the bytes of the process that takes it. */
  ghost predicate FileRun(run: seq<State>, files: seq<string>) {
    && |files| == |run| > 0 && OnFile(run[0], files[0])
    && forall i :: 0 <= i < |run| - 1 ==> FileStepOf(run[i], run[i + 1], files[i], files[i + 1])
  }

  ghost predicate FileStepOf(s: State, s': State, idx: string, idx': string) {
    || (exists p, op :: 0 <= p < |s.procs| && s.procs[p].pc.Idle? && Proper(op) && s' == Begin(s, p, op) && idx' == idx)
    || (exists p :: 0 <= p < |s.procs| && Enabled(s, p) && s' == Advance(s, p) && idx' == FileStep(idx, s.procs[p]))
  }

  lemma FileStepKeeps(s: State, s': State, idx: string, idx': string)
    requires Inv(s) && Checked(s) && OnFile(s, idx) && FileStepOf(s, s', idx, idx')
    ensures Inv(s') && Checked(s') && OnFile(s', idx')
  {
    hide Inv, OnFile, Advance, Enabled, Proper, FileStep;
    if p, op :| 0 <= p < |s.procs| && s.procs[p].pc.Idle? && Proper(op) && s' == Begin(s, p, op) && idx' == idx {
      BeginKeeps(s, p, op);
      BeginOnFile(s, p, op, idx);
    } else {
      var p :| 0 <= p < |s.procs| && Enabled(s, p) && s' == Advance(s, p) && idx' == FileStep(idx, s.procs[p]);
      AdvanceKeeps(s, p);
      AdvanceOnFile(s, p, idx);
    }
  }

  lemma BeginOnFile(s: State, p: nat, op: Op, idx: string)
    requires p < |s.procs| && OnFile(s, idx)
    ensures OnFile(Begin(s, p, op), idx)
  {}

  /** At every moment of every run, whatever the interleaving, the bytes of the index file are its
      head pointers followed by whole records that the library can read back. */
  lemma {:induction false} FilesStayWhole(run: seq<State>, files: seq<string>, n: nat)
    requires IsRun(run) && FileRun(run, files) && n < |run|
    ensures Inv(run[n]) && Checked(run[n]) && OnFile(run[n], files[n])
  {
    hide Inv, Initial, Step, OnFile, FileStepOf;
    if n == 0 {
      InitialInv(run[0]);
      InitialChecked(run[0]);
    } else {
      FilesStayWhole(run, files, n - 1);
      assert FileStepOf(run[n - 1], run[n - 1 + 1], files[n - 1], files[n - 1 + 1]);
      FileStepKeeps(run[n - 1], run[n], files[n - 1], files[n]);
    }
  }

  lemma InitialChecked(s: State)
    requires Initial(s)
    ensures Checked(s)
  {}
}
