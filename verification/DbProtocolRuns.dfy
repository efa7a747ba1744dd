/** What holds in every state of every run: the files are in order, completed operations answered as
    one after the other on a map, and somebody can always go on. */
module DbProtocolRuns {
  import opened Options
  import opened AsciiFields
  import opened DbRecords
  import opened DbMap
  import opened DbProtocol
  import opened DbProtocolInvariant
  import opened DbProtocolFrame
  import opened DbProtocolLocal
  import opened DbProtocolSteps
  import opened DbProtocolWrites
  import opened DbProtocolStores

  /** The steps that only read, or take or give back a lock. */
  predicate Quiet(r: Proc) {
    && !r.pc.BlankData? && !r.pc.BlankIdx? && !r.pc.LinkFree? && !r.pc.Unlink? && !r.pc.OverwriteData?
      && !r.pc.TakeFree?
    && !r.pc.ReuseData? && !r.pc.ReuseIdx? && !r.pc.AppendDat? && !r.pc.AppendIdx? && !r.pc.LinkChain? && !r.pc.Finish?
    && !Dies(r)
  }

  lemma QuietKeeps(s: State, p: nat)
    requires p < |s.procs| && Enabled(s, p) && Quiet(s.procs[p]) && Inv(s)
    ensures Inv(Advance(s, p))
  {
    hide Inv, Advance, Local, TextFits;
    match s.procs[p].pc
    case ReadHead => ReadHeadKeeps(s, p);
    case ReadLink => ReadLinkKeeps(s, p);
    case ReadText => ReadTextKeeps(s, p);
    case ReadData => ReadDataKeeps(s, p);
    case ReadFree => ReadFreeKeeps(s, p);
    case UnlockFreeDel => UnlockFreeDelKeeps(s, p);
    case ReadHeadStore => ReadStoreHeadKeeps(s, p);
    case RereadHead => ReadStoreHeadKeeps(s, p);
    case ReadFreeHead => ReadFreeHeadKeeps(s, p);
    case FreeLink => FreeLinkKeeps(s, p);
    case FreeText => FreeTextKeeps(s, p);
    case SeekDat => SeekKeeps(s, p);
    case SeekIdx => SeekKeeps(s, p);
    case UnlockFreeHit => UnlockKeeps(s, p);
    case UnlockFreeMiss => UnlockKeeps(s, p);
    case UnlockDat => UnlockKeeps(s, p);
    case UnlockIdx => UnlockKeeps(s, p);
    case _ => LockKeeps(s, p);
  }

  /** Every step of every process keeps the invariant. */
  lemma AdvanceKeeps(s: State, p: nat)
    requires p < |s.procs| && Enabled(s, p) && Inv(s)
    ensures Inv(Advance(s, p))
  {
    hide Inv, Advance, Local, TextFits, Enabled;
    var r, s' := s.procs[p], Advance(s, p);
    if Quiet(r) {
      QuietKeeps(s, p);
    } else if Dies(r) {
      DiesKeeps(s, p, r, s');
    } else {
      match r.pc
      case BlankData => BlankDataKeeps(s, p, r, s');
      case BlankIdx => BlankIdxKeeps(s, p, r, s');
      case LinkFree => LinkFreeKeeps(s, p, r, s');
      case Unlink => UnlinkKeeps(s, p, r, s');
      case OverwriteData => OverwriteKeeps(s, p, r, s');
      case TakeFree => TakeFreeKeeps(s, p, r, s');
      case ReuseData => ReuseDataKeeps(s, p, r, s');
      case ReuseIdx => ReuseIdxKeeps(s, p, r, s');
      case AppendDat => AppendDatKeeps(s, p, r, s');
      case AppendIdx => AppendIdxKeeps(s, p, r, s');
      case LinkChain => LinkChainKeeps(s, p, r, s');
      case Finish => FinishKeeps(s, p, r, s');
    }
  }

  lemma BeginKnows(k: Links, dat: string, e: nat, view: map<string, string>, r: Proc, op: Op)
    requires Knows(k, dat, e, view, r) && r.pc.Idle? && Proper(op)
    ensures Knows(k, dat, e, view, r.(op := op, pc := WantChain)) && r.own.None?
  {}

  lemma BeginShown(s: State, p: nat, r': Proc)
    requires MapShown(s) && p < |s.procs| && s.procs[p].pc.Idle? && r'.pc.WantChain?
    ensures MapShown(s.(procs := s.procs[p := r']))
  {
    var s' := s.(procs := s.procs[p := r']);
    forall key | forall q :: 0 <= q < |s'.procs| ==> !Dirty(s'.procs[q], key)
      ensures SameAt(s'.k, s'.dat, s'.view, key)
    {
      forall q | 0 <= q < |s.procs|
        ensures !Dirty(s.procs[q], key)
      {
        assert !Dirty(s'.procs[q], key);
      }
    }
  }

  /** So does a call of a new operation. */
  lemma BeginKeeps(s: State, p: nat, op: Op)
    requires p < |s.procs| && s.procs[p].pc.Idle? && Proper(op) && Inv(s)
    ensures Inv(Begin(s, p, op))
  {
    hide Consistent, Pointers, Exclusion, Ownership, MapShown, Knows, Compatible, Hash, Proper;
    var r, r' := s.procs[p], s.procs[p].(op := op, pc := WantChain);
    assert Knows(s.k, s.dat, s.idxEnd, s.view, r);
    BeginKnows(s.k, s.dat, s.idxEnd, s.view, r, op);
    assert forall q :: 0 <= q < |s.procs| && q != p ==> Compatible(r', s.procs[q]) by { NoLocks(r'); }
    ExclusionKept(s.procs, p, r');
    OwnershipKept(s, p, r');
    PointersKept(s, p, r');
    BeginShown(s, p, r');
    ExtentsAfter(s.procs, p, r');
    assert forall q :: 0 <= q < |s.procs| ==> Knows(s.k, s.dat, s.idxEnd, s.view, s.procs[q]);
  }

  lemma NoLocks(r: Proc)
    requires r.pc.WantChain?
    ensures forall q :: Compatible(r, q)
  {}

  lemma InitialInv(s: State)
    requires Initial(s)
    ensures Inv(s)
  {
    hide Consistent, Hash, Knows, SameAt, View;
    forall p | 0 <= p < |s.procs|
      ensures Knows(s.k, s.dat, s.idxEnd, s.view, s.procs[p])
    {
      IdleKnows(s.k, s.dat, s.idxEnd, s.view, s.procs[p]);
    }
    forall key | true
      ensures SameAt(s.k, s.dat, s.view, key)
    {
      ShownByView(s.k, s.dat, key);
    }
  }

  lemma ShownByView(k: Links, dat: string, key: string)
    requires Consistent(k, dat)
    ensures SameAt(k, dat, View(k, dat), key)
  {
    hide Consistent, Value, Hash, Live;
    AtIsView(k, dat, key);
  }

  // ---- The history ------------------------------------------------------------------------------

  /** What enters the history when process r becomes r': its operation, or, if it died in the middle
      of a store, the deletion of its key. */
  function Entered(r: Proc, r': Proc): Op { if r'.pc.Crashed? then DeleteOp(r.op.key) else r.op }

  /** Process p gives back its chain lock, and at that very step its operation takes effect on the
      map and answers as the map does. */
  ghost predicate RecordedBy(s: State, s': State, p: nat) {
    && p < |s.procs| && p < |s'.procs|
    && HoldsChain(s.procs[p]) && !HoldsChain(s'.procs[p])
    && s'.view == MapStep(s.view, Entered(s.procs[p], s'.procs[p]))
    && s'.log == s.log + [(Entered(s.procs[p], s'.procs[p]), MapAnswer(s.view, Entered(s.procs[p], s'.procs[p])))]
    && (s'.procs[p].pc.Idle? ==> s'.procs[p].answer == MapAnswer(s.view, s.procs[p].op))
  }

  ghost predicate Recorded(s: State, s': State) {
    || (s'.log == s.log && s'.view == s.view && forall p :: 0 <= p < |s.procs| && p < |s'.procs| ==>
          (HoldsChain(s.procs[p]) ==> HoldsChain(s'.procs[p])))
    || exists p: nat :: RecordedBy(s, s', p)
  }

  lemma QuietRecords(s: State, p: nat)
    requires p < |s.procs| && !s.procs[p].pc.Finish? && !Dies(s.procs[p])
    ensures Advance(s, p).log == s.log && Advance(s, p).view == s.view
    ensures HoldsChain(s.procs[p]) ==> HoldsChain(Local(s, s.procs[p]))
    ensures |Advance(s, p).procs| == |s.procs|
    ensures forall q :: 0 <= q < |s.procs| ==>
              Advance(s, p).procs[q] == if q == p then Local(s, s.procs[p]) else s.procs[q]
  {
    hide Hash, Value, WithData, WipedData, Cut, Link, Written, BodyAt, At, Fits;
  }

  lemma AdvanceRecords(s: State, p: nat)
    requires p < |s.procs| && Enabled(s, p) && Inv(s)
    ensures Recorded(s, Advance(s, p))
  {
    hide Inv, Advance, Local, TextFits, Enabled, MapAnswer, MapStep;
    var r, s' := s.procs[p], Advance(s, p);
    if r.pc.Finish? {
      FinishStep(s, p, r);
      FinishKeeps(s, p, r, s');
      assert RecordedBy(s, s', p);
    } else if Dies(r) {
      DiesStep(s, p, r);
      assert RecordedBy(s, s', p);
    } else {
      QuietRecords(s, p);
    }
  }

  lemma StepKeeps(s: State, s': State)
    requires Step(s, s') && Inv(s)
    ensures Inv(s') && Recorded(s, s')
  {
    hide Inv, Advance, Enabled, Proper;
    if p, op :| 0 <= p < |s.procs| && s.procs[p].pc.Idle? && Proper(op) && s' == Begin(s, p, op) {
      BeginKeeps(s, p, op);
    } else {
      var p :| 0 <= p < |s.procs| && Enabled(s, p) && s' == Advance(s, p);
      AdvanceKeeps(s, p);
      AdvanceRecords(s, p);
    }
  }

  lemma OpsSnoc(log: seq<(Op, Answer)>, e: (Op, Answer))
    ensures Ops(log + [e]) == Ops(log) + [e.0]
  {}

  lemma LegalLogGrows(log: seq<(Op, Answer)>, view0: map<string, string>, view: map<string, string>, op: Op)
    requires LegalLog(log, view0, view)
    ensures LegalLog(log + [(op, MapAnswer(view, op))], view0, MapStep(view, op))
  {
    hide MapAnswer, MapStep, Ops;
    var e := (op, MapAnswer(view, op));
    OpsSnoc(log, e);
    assert (Ops(log) + [op])[..|Ops(log)|] == Ops(log);
    forall i | 0 <= i < |log + [e]|
      ensures (log + [e])[i].1 == MapAnswer(MapRun(view0, Ops((log + [e])[..i])), (log + [e])[i].0)
    {
      assert (log + [e])[..i] == log[..i];
      if i == |log| {
        assert log[..i] == log;
      }
    }
  }

  /** In every state of every run the files are in order, and the completed operations have answered
      as if they had been made one after the other, each while it held its chain lock. */
  lemma {:induction false} RunsAreAtomic(run: seq<State>, n: nat)
    requires IsRun(run) && n < |run|
    ensures Inv(run[n]) && LegalLog(run[n].log, run[0].view, run[n].view)
    ensures n > 0 ==> Recorded(run[n - 1], run[n])
  {
    hide Inv, Initial, Step, MapAnswer, MapStep, HoldsChain, Entered;
    if n == 0 {
      InitialInv(run[0]);
      assert run[0].log == [] by { assert Initial(run[0]); InitialLog(run[0]); }
      assert Ops([]) == [];
    } else {
      RunsAreAtomic(run, n - 1);
      var s, s' := run[n - 1], run[n];
      assert Step(run[n - 1], run[n - 1 + 1]);
      StepKeeps(s, s');
      if p: nat :| RecordedBy(s, s', p) {
        LegalLogGrows(s.log, run[0].view, s.view, Entered(s.procs[p], s'.procs[p]));
      }
    }
  }

  lemma InitialLog(s: State)
    requires Initial(s)
    ensures s.log == []
  {}

  // ---- Progress ---------------------------------------------------------------------------------

  predicate Active(r: Proc) { !r.pc.Idle? && !r.pc.Crashed? }

  /** Whoever holds the free list or an append lock waits for nothing. */
  lemma InnerLocksNeverWait(s: State, q: nat)
    requires q < |s.procs| && (HoldsFree(s.procs[q]) || HoldsDat(s.procs[q]) || HoldsIdx(s.procs[q]))
    ensures Enabled(s, q) && Active(s.procs[q])
  {}

  /** Whoever holds a chain lock waits at most for a lock whose holder waits for nothing. */
  lemma ChainHolderMoves(s: State, p: nat) returns (q: nat)
    requires p < |s.procs| && HoldsChain(s.procs[p])
    ensures q < |s.procs| && Active(s.procs[q]) && Enabled(s, q)
  {
    hide Hash;
    var r := s.procs[p];
    q := p;
    if !Enabled(s, p) {
      if r.pc.WantDat? {
        q :| 0 <= q < |s.procs| && q != p && HoldsDat(s.procs[q]);
      } else if r.pc.WantIdx? {
        q :| 0 <= q < |s.procs| && q != p && HoldsIdx(s.procs[q]);
      } else {
        q :| 0 <= q < |s.procs| && q != p && HoldsFree(s.procs[q]);
      }
      InnerLocksNeverWait(s, q);
    }
  }

  /** No state with an operation under way is deadlocked. */
  lemma NoDeadlock(s: State, p: nat)
    requires p < |s.procs| && Active(s.procs[p])
    ensures exists q: nat :: q < |s.procs| && Active(s.procs[q]) && Enabled(s, q)
  {
    hide Hash;
    if !Enabled(s, p) {
      var q := p;
      if s.procs[p].pc.WantChain? {
        q :| 0 <= q < |s.procs| && q != p && HoldsChain(s.procs[q]);
      }
      var m := ChainHolderMoves(s, q);
    }
  }

  // ---- Quiescence -------------------------------------------------------------------------------

  /** When no operation is under way the pointers on file are those of well-formed lists, the files
      stand for the map of the history, and only a process that died can have left a record on no
      list. */
  lemma QuiescentState(s: State)
    requires Inv(s) && forall p :: 0 <= p < |s.procs| ==> !Active(s.procs[p])
    ensures s.ptr == s.k.ptr && Consistent(s.k, s.dat) && View(s.k, s.dat) == s.view
    ensures forall o :: o in s.k.body && o !in s.k.home ==>
              exists p :: 0 <= p < |s.procs| && s.procs[p].pc.Crashed? && s.procs[p].own == Some(o)
  {
    hide Hash, Consistent, Exclusion, ExtentsApart, Value, SameAt, Ownership, AllKnow, Knows;
    assert forall p, a :: 0 <= p < |s.procs| ==> !Pends(s.procs[p], a);
    assert forall p, key :: 0 <= p < |s.procs| ==> !Dirty(s.procs[p], key);
    forall key | true
      ensures SameAt(s.k, s.dat, s.view, key)
    {}
    ShownIsView(s.k, s.dat, s.view);
    QuiescentRecords(s);
  }

  lemma QuiescentRecords(s: State)
    requires Inv(s) && forall p :: 0 <= p < |s.procs| ==> !Active(s.procs[p])
    ensures forall o :: o in s.k.body && o !in s.k.home ==>
              exists p :: 0 <= p < |s.procs| && s.procs[p].pc.Crashed? && s.procs[p].own == Some(o)
  {
    hide Hash, Consistent, Exclusion, ExtentsApart, MapShown, Pointers;
    forall o | o in s.k.body && o !in s.k.home
      ensures exists p :: 0 <= p < |s.procs| && s.procs[p].pc.Crashed? && s.procs[p].own == Some(o)
    {
      var p :| 0 <= p < |s.procs| && s.procs[p].own == Some(o);
      assert Knows(s.k, s.dat, s.idxEnd, s.view, s.procs[p]);
    }
  }

  lemma ShownIsView(k: Links, dat: string, view: map<string, string>)
    requires Consistent(k, dat) && forall key :: SameAt(k, dat, view, key)
    ensures View(k, dat) == view
  {
    hide Consistent, Value;
    forall key | true
      ensures key in View(k, dat) <==> key in view
      ensures key in view ==> View(k, dat)[key] == view[key]
    {
      assert SameAt(k, dat, view, key);
      AtIsView(k, dat, key);
    }
  }
}
