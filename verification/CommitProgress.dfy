/** The commit-order recorder never gets stuck, and for programs that end it ends under every fair schedule: a block is
    tried once as a transaction, and after an abort it holds the lock until it is done. */
module CommitProgress {
  import opened Mem
  import opened Blocks
  import opened CommitRecord
  import opened CommitProof
  import opened Schedules

  // ---------------------------------------------------------------- no deadlock

  /** With its stores out, a thread that is not done waits for the lock only. */
  lemma OnlyLockBlocks(w: Workload, s: State, t: Tid)
    requires t < |s.thr| && Shape(w, t, s.thr[t]) && s.thr[t].buf == [] && s.thr[t].pc != Done
    ensures Step(w, s, Go(t)).Some? || (s.thr[t].pc.Spin? && !(s.sh.queue != [] && s.sh.queue[0] == t))
  {
    hide View, Returned, Phase, ReadBody, WriteBody, Holds, InBlock, Aborted, BlockEnd;
  }

  /** No deadlock: while a thread is not done or a store is not in memory, some thread can take its next step or some
      buffer can drain. */
  lemma CommitProgress(w: Workload, sched: seq<Act>) returns (act: Act)
    requires !Finished(Exec(w, sched))
    ensures act.tid < w.nthr && (act.Go? || act.Drain?) && Step(w, Exec(w, sched), act).Some?
  {
    ExecInv(w, sched);
    var s := Exec(w, sched);
    hide Exec, Shape, Ledger, Serial, MemInv, LocalStep;
    if t :| 0 <= t < |s.thr| && s.thr[t].buf != [] {
      act := Drain(t);
    } else {
      var t: Tid :| t < |s.thr| && s.thr[t].pc != Done;
      var u := NextToGo(w, s, t);
      act := Go(u);
    }
  }

  /** With all stores out: the thread itself or the one at the head of the lock's queue. */
  lemma NextToGo(w: Workload, s: State, t: Tid) returns (u: Tid)
    requires Inv(w, s) && (forall x | 0 <= x < |s.thr| :: s.thr[x].buf == []) && t < |s.thr| && s.thr[t].pc != Done
    ensures u < |s.thr| && Step(w, s, Go(u)).Some?
  {
    hide Shape, Ledger, Serial, MemInv, Step;
    u := t;
    assert ThreadInv(w, s, t);
    OnlyLockBlocks(w, s, t);
    if Step(w, s, Go(t)).None? {
      assert s.sh.queue != [];
      u := s.sh.queue[0];
      assert u in s.sh.queue;
      assert ThreadInv(w, s, u);
      HeadNotDone(w, s, u);
      OnlyLockBlocks(w, s, u);
    }
  }

  lemma HeadNotDone(w: Workload, s: State, u: Tid)
    requires u < |s.thr| && ThreadInv(w, s, u) && u in s.sh.queue && s.thr[u].buf == []
    ensures s.thr[u].pc != Done
  {
    hide Ledger, Returned, Phase;
  }

  // ---------------------------------------------------------------- the work left

  /** Steps to the end of the block, at most. */
  function Rank(th: Thread): int {
    var a := |InBlock(th)|;
    match th.pc
    case Idle => if th.mode.Out? then 100 else if th.mode.Tx? then 99 - 2 * a else 51 - 2 * a
    case Body => if th.mode.Tx? then 98 - 2 * a else 50 - 2 * a
    case CheckLock => 80
    case ReadTime => 79
    case Commit(_) => 78
    case Enqueue => 60
    case Spin => 59
    case LoadTime => 30
    case StoreTime(_) => 29
    case Unlock(_) => 150
    case LogCommit(_) => 110
    case _ => 0
  }

  /** The work a thread with at most n accesses has left; a step may add a store that has to drain. */
  function Left(n: nat, th: Thread): int {
    400 * (n - |Base(th)|) + 2 * Rank(th) + |th.buf|
  }

  function Work(n: nat, thr: seq<Thread>): int {
    if thr == [] then 0 else Work(n, Front(thr)) + Left(n, Last(thr))
  }

  lemma {:induction false} WorkUpdate(n: nat, thr: seq<Thread>, t: Tid, th: Thread)
    requires t < |thr|
    ensures Work(n, thr[t := th]) == Work(n, thr) + Left(n, th) - Left(n, thr[t])
  {
    hide Left;
    var thr' := thr[t := th];
    if t < |thr| - 1 {
      WorkUpdate(n, Front(thr), t, th);
      assert Front(thr') == Front(thr)[t := th];
    } else {
      assert Front(thr') == Front(thr);
    }
  }

  // ---------------------------------------------------------------- every step does some of it

  lemma BlockLength(w: Workload, t: Tid, th: Thread)
    requires Shape(w, t, th)
    ensures !th.mode.Out? ==> |InBlock(th)| == |th.regs.trace| - |th.saved.trace| <= BATCH_N
    ensures th.pc.Idle? && !th.mode.Out? ==> |InBlock(th)| < BATCH_N
    ensures th.pc.Body? ==> !th.mode.Out? && |InBlock(th)| < BATCH_N
    ensures AtEnd(th.pc) && !th.mode.Out? ==> 0 < |InBlock(th)|
    ensures th.pc.Enqueue? || th.pc.Spin? ==> InBlock(th) == [] && th.regs == th.saved
  {
    hide Returned, Phase, CurrentOp;
  }

  lemma AbortWorks(w: Workload, n: nat, t: Tid, th: Thread)
    requires Shape(w, t, th) && th.mode.Tx?
    ensures Left(n, Aborted(th)) < Left(n, th)
  {
    BlockLength(w, t, th);
    hide Returned, Phase, CurrentOp;
    assert !th.pc.Unlock? && !th.pc.Enqueue? && !th.pc.Spin? && !th.pc.LoadTime? && !th.pc.StoreTime? && !th.pc.Done?;
    hide Shape;
  }

  /** An access moves the thread on in its block. */
  lemma AccessWorks(w: Workload, n: nat, t: Tid, th: Thread, th1: Thread, e: Access)
    requires Shape(w, t, th) && th.pc.Body? && th1 == th.(mode := th1.mode, buf := th1.buf)
    requires th1.mode.Tx? == th.mode.Tx? && th1.mode.Locked? == th.mode.Locked? && |th1.buf| <= |th.buf| + 1
    ensures Left(n, Accessed(th1, e)) < Left(n, th)
  {
    BlockLength(w, t, th);
    AccessShape(w, t, th, th1, e);
    BodySaved(w, t, th);
    BlockExtended(th, Accessed(th1, e), e);
    hide Returned, Phase, CurrentOp, Shape, InBlock, Base;
  }

  lemma BodySaved(w: Workload, t: Tid, th: Thread)
    requires Shape(w, t, th) && th.pc.Body?
    ensures th.saved.trace <= th.regs.trace && !th.mode.Out?
  {
    hide Returned, Phase, CurrentOp;
  }

  lemma BodyWorks(w: Workload, n: nat, sh: Shared, t: Tid, th: Thread)
    requires Shape(w, t, th) && th.pc.Body? && LocalStep(w, sh, t, th).Some?
    ensures Left(n, LocalStep(w, sh, t, th).value) < Left(n, th)
  {
    hide Shape, Returned, Phase, View, Left, Aborted, Accessed, Get;
    var op := CurrentOp(w, t, th);
    BodySaved(w, t, th);
    match op
    case Stop =>
    case Write(a, x) =>
      if th.mode.Tx? {
        AccessWorks(w, n, t, th, th.(mode := Tx(th.mode.loaded, th.mode.stored[a := x])), Access(true, a, x));
      } else {
        AccessWorks(w, n, t, th, th.(buf := th.buf + [Data(a, x)]), Access(true, a, x));
      }
    case Read(a) =>
      var x := Get(View(sh, th.buf).mem, a);
      if !th.mode.Tx? {
        AccessWorks(w, n, t, th, th, Access(false, a, x));
      } else if a in th.mode.stored {
        AccessWorks(w, n, t, th, th, Access(false, a, th.mode.stored[a]));
      } else if a in th.mode.loaded && th.mode.loaded[a] != x {
        AbortWorks(w, n, t, th);
      } else {
        AccessWorks(w, n, t, th, th.(mode := Tx(th.mode.loaded[a := x], th.mode.stored)), Access(false, a, x));
      }
  }

  lemma PlainWorks(w: Workload, n: nat, sh: Shared, t: Tid, th: Thread)
    requires Shape(w, t, th) && !th.pc.Body? && LocalStep(w, sh, t, th).Some?
    ensures Left(n, LocalStep(w, sh, t, th).value) < Left(n, th)
  {
    hide Shape, View, CurrentOp, Phase;
    BlockLength(w, t, th);
    StartFacts(w, t, th);
    EndModes(w, t, th);
    if th.pc.CheckLock? && View(sh, th.buf).queue != [] {
      AbortWorks(w, n, t, th);
    }
  }

  lemma EndModes(w: Workload, t: Tid, th: Thread)
    requires Shape(w, t, th)
    ensures th.pc.CheckLock? || th.pc.ReadTime? || th.pc.Commit? ==> th.mode.Tx?
    ensures th.pc.LoadTime? || th.pc.StoreTime? || th.pc.Unlock? ==> th.mode.Locked?
    ensures th.pc.LogCommit? || th.pc.Enqueue? || th.pc.Spin? ==> th.mode.Out?
  {
    hide Returned, Phase, CurrentOp;
  }

  /** The end of a block. */
  lemma BlockWorks(w: Workload, n: nat, t: Tid, th: Thread, th': Thread)
    requires Shape(w, t, th) && (th.pc.Commit? || th.pc.StoreTime?)
    requires if th.pc.Commit? then th' == th.(pc := LogCommit(th.pc.ts), mode := Out)
             else th'.pc.Unlock? && th' == th.(pc := th'.pc, buf := th'.buf) && |th'.buf| == |th.buf| + 1
    ensures Left(n, th') < Left(n, th)
  {
    BlockLength(w, t, th);
    EndModes(w, t, th);
    hide Shape, Returned, Phase, CurrentOp;
  }

  /** Every step is one thread's, and does some of that thread's work. */
  lemma ThreadWorks(w: Workload, n: nat, s: State, act: Act)
    requires act.tid < |s.thr| && Shape(w, act.tid, s.thr[act.tid]) && Step(w, s, act).Some?
    ensures var s' := Step(w, s, act).value;
            && |s'.thr| == |s.thr| && s'.thr == s.thr[act.tid := s'.thr[act.tid]]
            && Left(n, s'.thr[act.tid]) < Left(n, s.thr[act.tid])
  {
    hide Shape, LocalStep, Returned, Phase, Holds, InBlock, Aborted, Reach;
    var t := act.tid;
    var th := s.thr[t];
    match act
    case Drain(_) =>
      hide Rank;
      assert Base(th.(buf := th.buf[1..])) == Base(th);
      RankOf(th, th.buf[1..]);
    case Abort(_) => AbortWorks(w, n, t, th);
    case Go(_) =>
      hide Left;
      match th.pc
      case Enqueue => EnqueueWorks(w, n, t, th);
      case Commit(ts) =>
        if s.sh.queue == [] && s.sh.time == ts && Holds(s.sh.mem, th.mode.loaded) {
          BlockWorks(w, n, t, th, th.(pc := LogCommit(ts), mode := Out));
        } else {
          AbortWorks(w, n, t, th);
        }
      case StoreTime(ts) => BlockWorks(w, n, t, th, th.(pc := Unlock(ts), buf := th.buf + [Time(ts + 1)]));
      case Body => BodyWorks(w, n, s.sh, t, th);
      case _ => PlainWorks(w, n, s.sh, t, th);
  }

  lemma RankOf(th: Thread, buf: seq<Store>)
    ensures Rank(th.(buf := buf)) == Rank(th)
  {
  }

  lemma EnqueueWorks(w: Workload, n: nat, t: Tid, th: Thread)
    requires Shape(w, t, th) && th.pc.Enqueue?
    ensures Left(n, th.(pc := Spin)) < Left(n, th)
  {
    EndModes(w, t, th);
    hide Shape;
  }

  lemma StepWorks(w: Workload, n: nat, s: State, act: Act)
    requires Inv(w, s) && Step(w, s, act).Some?
    ensures Work(n, Step(w, s, act).value.thr) < Work(n, s.thr)
  {
    hide Shape, Ledger, Serial, MemInv, Left;
    var t := act.tid;
    assert t < |s.thr| by { StepTid(w, s, act); }
    assert ThreadInv(w, s, t);
    hide Step;
    ThreadWorks(w, n, s, act);
    WorkUpdate(n, s.thr, t, Step(w, s, act).value.thr[t]);
  }

  lemma StepTid(w: Workload, s: State, act: Act)
    requires Step(w, s, act).Some?
    ensures act.tid < |s.thr|
  {
  }

  // ---------------------------------------------------------------- and there is only so much

  /** A thread's blocks have no more accesses than its program. */
  lemma {:induction false} CommittedBounded(w: Workload, n: nat, h: seq<Block>, t: Tid)
    requires Serial(w, h) && Bounded(w, n)
    ensures |Committed(h, t)| <= n
  {
    if h != [] {
      CommittedBounded(w, n, Front(h), t);
      var b, before := Last(h), Committed(Front(h), t);
      if b.tid == t {
        LastAccess(w, t, before, MemOf(w.init, Front(h)), b.accs);
        assert |Returned(before + Front(b.accs))| == |before| + |b.accs| - 1;
      }
    }
  }

  lemma LastAccess(w: Workload, t: Tid, before: seq<Access>, m: Memory, accs: seq<Access>)
    requires accs != [] && Runs(w.prog, t, before, m, accs)
    ensures !w.prog(t, Returned(before + Front(accs))).Stop?
  {
  }

  lemma LeftNonNegative(w: Workload, n: nat, s: State, t: Tid)
    requires Inv(w, s) && Bounded(w, n) && t < |s.thr|
    ensures 0 <= Left(n, s.thr[t])
  {
    hide Serial, MemInv, Committed, Times, Runs, After, TxRuns, MemOf, Returned, Phase, CurrentOp;
    assert ThreadInv(w, s, t);
    CommittedBounded(w, n, s.hist, t);
    BlockLength(w, t, s.thr[t]);
    hide Shape, Base, InBlock;
  }

  lemma {:induction false} WorkNonNegative(n: nat, thr: seq<Thread>)
    requires forall t | 0 <= t < |thr| :: 0 <= Left(n, thr[t])
    ensures 0 <= Work(n, thr)
  {
    hide Left;
    if thr != [] { WorkNonNegative(n, Front(thr)); }
  }

  // ---------------------------------------------------------------- fair schedules

  /** Every thread's next instruction and every thread's oldest buffered store; aborts may happen, but need not. */
  ghost function Acts(n: nat): iset<Act> {
    iset act: Act | act.tid < n && (act.Go? || act.Drain?)
  }

  function DoneOf(): State -> bool {
    s => Finished(s)
  }

  function WorkOf(n: nat): State -> int {
    (s: State) => Work(n, s.thr)
  }

  lemma NothingLeft(w: Workload, s: State, act: Act)
    requires Inv(w, s) && Finished(s)
    ensures Step(w, s, act).None?
  {
    hide Ledger, Serial, MemInv, CurrentOp, Phase;
    if act.tid < |s.thr| {
      assert ThreadInv(w, s, act.tid);
      assert s.thr[act.tid].pc == Done;
    }
  }

  /** Recording always can go on, and only so often. */
  lemma RecordingGoesOn(w: Workload, n: nat)
    requires Bounded(w, n)
    ensures Progresses(StepOf(w), Init(w), DoneOf(), WorkOf(n), Acts(w.nthr))
  {
    hide Inv, Step, Work, Finished, Init, Run, Left;
    forall sched: seq<Act>
      ensures CanGoOn(StepOf(w), DoneOf(), WorkOf(n), Acts(w.nthr), Run(StepOf(w), Init(w), sched))
    {
      var s := Exec(w, sched);
      assert s == Run(StepOf(w), Init(w), sched);
      ExecInv(w, sched);
      forall t | 0 <= t < |s.thr| ensures 0 <= Left(n, s.thr[t]) { LeftNonNegative(w, n, s, t); }
      WorkNonNegative(n, s.thr);
      forall act | Step(w, s, act).Some? ensures Work(n, Step(w, s, act).value.thr) < Work(n, s.thr) {
        StepWorks(w, n, s, act);
      }
      if Finished(s) {
        forall act ensures Step(w, s, act).None? { NothingLeft(w, s, act); }
      } else {
        var act := CommitProgress(w, sched);
        assert act in Acts(w.nthr) && StepOf(w)(s, act).Some?;
      }
    }
  }

  /** For programs that end, fair recording ends: from wherever a schedule has led, every continuation in which all
      threads and all buffers get more turns than there is work left completes the recording, whatever aborts. */
  lemma CommitFairlyFinishes(w: Workload, n: nat, sched: seq<Act>, rest: seq<Act>, k: nat)
    requires Bounded(w, n) && Rounds(Acts(w.nthr), rest, k) && Work(n, Exec(w, sched).thr) < k
    ensures Finished(Exec(w, sched + rest))
  {
    hide Work, Rounds, Finished, Step, Progresses, Bounded, Run, Init;
    RecordingGoesOn(w, n);
    FairlyDone(StepOf(w), Init(w), DoneOf(), WorkOf(n), Acts(w.nthr), sched, rest, k);
  }
}
