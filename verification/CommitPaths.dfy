/** The two ways a block is run by the commit-order recorder when nobody interferes: as one transaction, and after an
    abort with plain stores under the lock. */
module CommitPaths {
  import opened Mem
  import opened Schedules
  import opened Blocks
  import opened CommitRecord
  import opened CommitProof
  import CommitProgress

  /** The lock is free and every store is in memory. */
  predicate AtRest(s: State) {
    s.sh.queue == [] && forall t | 0 <= t < |s.thr| :: s.thr[t].buf == []
  }

  /** Thread t is about to enter the first access of a block. */
  predicate AtBlockStart(w: Workload, s: State, t: Tid) {
    && t < |s.thr| && s.thr[t].pc.Idle? && Phase(s.thr[t].regs.bbcnt) == 0
    && !CurrentOp(w, t, s.thr[t]).Stop?
  }

  /** The lock is free and thread t has nothing to do with it. */
  predicate OffLock(s: State, t: Tid) {
    && s.sh.queue == [] && t < |s.thr|
    && !s.thr[t].pc.Enqueue? && !s.thr[t].pc.Spin? && !s.thr[t].mode.Locked?
  }

  /** What thread t has done since s0. */
  function Since(s0: State, s: State, t: Tid): seq<Access>
    requires t < |s0.thr| && t < |s.thr| && |s0.thr[t].regs.trace| <= |s.thr[t].regs.trace|
  {
    s.thr[t].regs.trace[|s0.thr[t].regs.trace|..]
  }

  /** Only thread t has moved since s0, and nothing that others can see has changed. */
  predicate Hidden(s0: State, s: State, t: Tid) {
    t < |s.thr| == |s0.thr| && s == s0.(thr := s0.thr[t := s.thr[t]])
  }

  // ---------------------------------------------------------------- as a transaction

  /** Thread t is inside the transaction it began in s0, and memory still is what it loaded. */
  predicate InTx(s0: State, s: State, t: Tid) {
    && Hidden(s0, s, t)
    && var th := s.thr[t];
    && th.buf == [] && th.mode.Tx? && Holds(s.sh.mem, th.mode.loaded)
    && th.log == s0.thr[t].log && th.saved == s0.thr[t].regs
    && (th.pc.Idle? || th.pc.Body? || th.pc.CheckLock? || th.pc.ReadTime? || th.pc == Commit(s.sh.time))
  }

  /** The transaction has committed: in one step its block has its timestamp and its stores are in memory. */
  predicate JustCommitted(w: Workload, s0: State, s: State, t: Tid) {
    && t < |s.thr| == |s0.thr| && s.thr == s0.thr[t := s.thr[t]]
    && s0.thr[t].regs.trace <= s.thr[t].regs.trace
    && var accs := Since(s0, s, t);
    && s.sh == Shared(After(s0.sh.mem, accs), s0.sh.time + 1, []) && s.hist == s0.hist + [Block(t, accs)]
    && Runs(w.prog, t, s0.thr[t].regs.trace, s0.sh.mem, accs)
    && s.thr[t].pc == LogCommit(s0.sh.time) && s.thr[t].mode == Out && s.thr[t].buf == []
    && s.thr[t].log == s0.thr[t].log
  }

  lemma EmptyView(sh: Shared)
    ensures View(sh, []) == sh
  {
  }

  lemma TxAccesses(w: Workload, s0: State, s: State, t: Tid)
    requires t < |s.thr| && Shape(w, t, s.thr[t]) && InTx(s0, s, t) && s.thr[t].pc.Body?
    ensures Step(w, s, Go(t)).Some? && InTx(s0, Step(w, s, Go(t)).value, t)
  {
    EmptyView(s.sh);
    hide View, Returned, Phase;
  }

  /** A step of the transaction before its commit. */
  lemma TxGoesOn(w: Workload, s0: State, s: State, t: Tid)
    requires t < |s.thr| && Shape(w, t, s.thr[t]) && InTx(s0, s, t) && s.sh.queue == [] && !s.thr[t].pc.Commit?
    ensures Step(w, s, Go(t)).Some? && InTx(s0, Step(w, s, Go(t)).value, t)
  {
    var th := s.thr[t];
    if th.pc.Body? {
      TxAccesses(w, s0, s, t);
    } else {
      EmptyView(s.sh);
      StartFacts(w, t, th);
      hide View, CurrentOp, Phase, Shape, Holds;
    }
  }

  lemma TxCommits(w: Workload, s0: State, s: State, t: Tid)
    requires Inv(w, s) && InTx(s0, s, t) && s.sh.queue == [] && s.thr[t].pc.Commit?
    ensures Step(w, s, Go(t)).Some? && JustCommitted(w, s0, Step(w, s, Go(t)).value, t)
  {
    var th := s.thr[t];
    assert ThreadInv(w, s, t);
    TxAtomic(w.prog, t, th.saved.trace, th.mode.loaded, InBlock(th), s.sh.mem);
    hide Serial, MemInv, Returned, Phase, Committed, Times, InQueue, After, Runs, TxRuns, Holds;
  }

  lemma TxBegins(w: Workload, s: State, t: Tid)
    requires AtBlockStart(w, s, t) && Shape(w, t, s.thr[t]) && s.thr[t].buf == []
    ensures Step(w, s, Go(t)).Some? && InTx(s, Step(w, s, Go(t)).value, t)
  {
    StartFacts(w, t, s.thr[t]);
    hide View, CurrentOp, Phase, Shape;
  }

  /** On the way from s0 to the commit. */
  ghost predicate Way(w: Workload, s0: State, t: Tid, s: State) {
    Inv(w, s) && InTx(s0, s, t)
  }

  function Rank(t: Tid, s: State): int {
    if t < |s.thr| then CommitProgress.Rank(s.thr[t]) else 0
  }

  lemma RankDrops(w: Workload, s: State, t: Tid)
    requires t < |s.thr| && Shape(w, t, s.thr[t]) && Step(w, s, Go(t)).Some?
    requires var s' := Step(w, s, Go(t)).value;
             && t < |s'.thr| && !s'.thr[t].mode.Out? && !s'.thr[t].pc.Unlock? && |s.thr[t].buf| <= |s'.thr[t].buf|
             && Shape(w, t, s'.thr[t]) && Base(s'.thr[t]) == Base(s.thr[t])
    ensures 0 <= Rank(t, Step(w, s, Go(t)).value) < Rank(t, s)
  {
    CommitProgress.ThreadWorks(w, 0, s, Go(t));
    CommitProgress.BlockLength(w, t, Step(w, s, Go(t)).value.thr[t]);
    hide Step, Shape, Base;
  }

  ghost function WayOf(w: Workload, s0: State, t: Tid): State -> bool {
    (s: State) => Way(w, s0, t, s)
  }

  function GoalOf(w: Workload, s0: State, t: Tid): State -> bool {
    (s: State) => JustCommitted(w, s0, s, t)
  }

  function RankOf(t: Tid): State -> int {
    (s: State) => Rank(t, s)
  }

  lemma TxBase(s0: State, s: State, t: Tid)
    requires InTx(s0, s, t)
    ensures Base(s.thr[t]) == s0.thr[t].regs.trace && s.thr[t].mode.Tx? && s.thr[t].buf == [] && t < |s.thr|
    ensures s.sh == s0.sh && !s.thr[t].pc.Unlock?
  {
  }

  lemma WayAdvances(w: Workload, s0: State, t: Tid, s: State)
    requires s0.sh.queue == [] && Way(w, s0, t, s)
    ensures Advances(StepOf(w), Go(t), WayOf(w, s0, t), GoalOf(w, s0, t), RankOf(t), s)
  {
    hide Shape, Ledger, Serial, MemInv, InQueue, InTx, JustCommitted, Step, CurrentOp, Rank, Base;
    TxBase(s0, s, t);
    assert ThreadInv(w, s, t);
    if s.thr[t].pc.Commit? { TxCommits(w, s0, s, t); } else { TxGoesOn(w, s0, s, t); }
    StepKeeps(w, s, Go(t));
    var s' := Step(w, s, Go(t)).value;
    if !JustCommitted(w, s0, s', t) {
      TxBase(s0, s', t);
      assert ThreadInv(w, s', t);
      RankDrops(w, s, t);
    }
  }

  /** The block thread t began in s is over: it is in the order, in memory and, with its timestamp, in the thread's
      log; nothing else has changed. */
  predicate BlockLogged(w: Workload, s: State, s': State, t: Tid) {
    && t < |s'.thr| == |s.thr| && s'.thr == s.thr[t := s'.thr[t]]
    && s.thr[t].regs.trace <= s'.thr[t].regs.trace && (s'.thr[t].pc.Idle? || s'.thr[t].pc.Done?)
    && var accs := Since(s, s', t);
    && s'.hist == s.hist + [Block(t, accs)] && Runs(w.prog, t, s.thr[t].regs.trace, s.sh.mem, accs)
    && s'.sh == Shared(After(s.sh.mem, accs), s.sh.time + 1, [])
    && s'.thr[t].mode == Out && s'.thr[t].buf == [] && s'.thr[t].log == s.thr[t].log + [s.sh.time]
  }

  /** After its commit the thread logs the timestamp and is at its next block or done. */
  lemma Logged(w: Workload, s0: State, s: State, t: Tid)
    requires JustCommitted(w, s0, s, t)
    ensures Step(w, s, Go(t)).Some? && BlockLogged(w, s0, Step(w, s, Go(t)).value, t)
    ensures OffLock(s, t) && OffLock(Step(w, s, Go(t)).value, t)
  {
    hide View, CurrentOp, Phase, After, Runs;
  }

  lemma StartUnlocked(w: Workload, s: State, t: Tid)
    requires Inv(w, s) && AtRest(s) && AtBlockStart(w, s, t)
    ensures OffLock(s, t)
  {
    assert ThreadInv(w, s, t);
    StartFacts(w, t, s.thr[t]);
    hide Inv, Shape, Phase, CurrentOp, Ledger, InQueue;
  }

  lemma TxUnlocked(s0: State, s: State, t: Tid)
    requires InTx(s0, s, t) && s0.sh.queue == []
    ensures OffLock(s, t)
  {
    hide Holds;
  }

  lemma TxBeginsInv(w: Workload, s: State, t: Tid)
    requires Inv(w, s) && AtRest(s) && AtBlockStart(w, s, t)
    ensures Step(w, s, Go(t)).Some? && Way(w, s, t, Step(w, s, Go(t)).value)
  {
    hide Shape, Ledger, Serial, MemInv, InQueue, InTx, Step, CurrentOp;
    assert ThreadInv(w, s, t);
    TxBegins(w, s, t);
    StepKeeps(w, s, Go(t));
  }

  lemma TxAdvances(w: Workload, s: State, t: Tid)
    requires s.sh.queue == []
    ensures AlwaysAdvances(StepOf(w), Go(t), WayOf(w, s, t), GoalOf(w, s, t), RankOf(t))
  {
    hide Advances, Way;
    forall s1: State | WayOf(w, s, t)(s1)
      ensures Advances(StepOf(w), Go(t), WayOf(w, s, t), GoalOf(w, s, t), RankOf(t), s1)
    {
      WayAdvances(w, s, t, s1);
    }
  }

  /** The transaction up to its commit. */
  lemma TxRun(w: Workload, s: State, t: Tid) returns (k: nat)
    requires Inv(w, s) && AtRest(s) && AtBlockStart(w, s, t)
    ensures 0 < k && JustCommitted(w, s, Only(StepOf(w), s, Go(t), k), t)
    ensures forall j | 0 < j < k :: InTx(s, Only(StepOf(w), s, Go(t), j), t)
  {
    hide Inv, Step, InTx, JustCommitted, AtBlockStart, AlwaysAdvances, Only;
    TxBeginsInv(w, s, t);
    TxAdvances(w, s, t);
    k := ArrivesFrom(StepOf(w), Go(t), WayOf(w, s, t), GoalOf(w, s, t), RankOf(t), s);
    forall j | 0 < j < k ensures InTx(s, Only(StepOf(w), s, Go(t), j), t) {
      assert WayOf(w, s, t)(Only(StepOf(w), s, Go(t), j));
    }
  }

  /** One transaction: from every reachable state in which the lock is free and no store is buffered, a thread at the
      start of a block that is left alone, with no abort, runs the block as one transaction.  Until the commit nobody
      else can see anything of it; the commit adds the block to the order and its stores to memory in one step; then
      its timestamp is logged.  All the while the lock's queue stays empty. */
  lemma TxAlone(w: Workload, sched: seq<Act>, t: Tid) returns (k: nat)
    requires AtRest(Exec(w, sched)) && AtBlockStart(w, Exec(w, sched), t)
    ensures var s := Exec(w, sched);
            && 0 < k && (forall j | 0 < j < k :: InTx(s, Only(StepOf(w), s, Go(t), j), t))
            && JustCommitted(w, s, Only(StepOf(w), s, Go(t), k), t)
            && BlockLogged(w, s, Only(StepOf(w), s, Go(t), k + 1), t)
            && (forall j | 0 <= j <= k + 1 :: OffLock(Only(StepOf(w), s, Go(t), j), t))
  {
    var s := Exec(w, sched);
    ExecInv(w, sched);
    hide Exec, Inv, Step, InTx, JustCommitted, Only, Runs, After, BlockLogged, CurrentOp, Phase, OffLock;
    k := TxRun(w, s, t);
    var sk := Only(StepOf(w), s, Go(t), k);
    Logged(w, s, sk, t);
    OnlyNext(StepOf(w), s, Go(t), k);
    forall j | 0 <= j <= k + 1 ensures OffLock(Only(StepOf(w), s, Go(t), j), t) {
      if j == 0 {
        OnlyNone(StepOf(w), s, Go(t));
        StartUnlocked(w, s, t);
      } else if j < k {
        TxUnlocked(s, Only(StepOf(w), s, Go(t), j), t);
      }
    }
  }

  // ---------------------------------------------------------------- under the lock

  /** The plain stores of the accesses, oldest first. */
  function Stores(accs: seq<Access>): seq<Store> {
    if accs == [] then []
    else Stores(Front(accs)) + if Last(accs).write then [Data(Last(accs).addr, Last(accs).val)] else []
  }

  lemma OneMoreStore(accs: seq<Access>, e: Access)
    ensures Stores(accs + [e]) == Stores(accs) + if e.write then [Data(e.addr, e.val)] else []
  {
    assert Front(accs + [e]) == accs;
  }

  lemma {:induction false} StoresFree(accs: seq<Access>)
    ensures NoFree(Stores(accs))
  {
    if accs != [] { StoresFree(Front(accs)); }
  }

  /** Thread t runs the block it got the lock for in s0, and its stores are all still in its buffer. */
  predicate UnderLock(s0: State, s: State, t: Tid) {
    && Hidden(s0, s, t)
    && var th := s.thr[t];
    && Buffers(th) && th.saved == s0.thr[t].saved && th.log == s0.thr[t].log
    && (th.pc.Idle? || th.pc.Body? || th.pc.LoadTime? || th.pc.StoreTime?)
  }

  /** The block has its timestamp; its stores and the new time are buffered behind one another. */
  predicate JustStamped(s0: State, s: State, t: Tid) {
    && t < |s.thr| == |s0.thr| && s.thr == s0.thr[t := s.thr[t]] && s.sh == s0.sh
    && s0.thr[t].saved.trace <= s.thr[t].regs.trace
    && var th, accs := s.thr[t], s.thr[t].regs.trace[|s0.thr[t].saved.trace|..];
    && s.hist == s0.hist + [Block(t, accs)] && th.log == s0.thr[t].log
    && th.pc == Unlock(|s0.hist|) && th.buf == Stores(accs) + [Time(|s0.hist| + 1)]
  }

  /** The buffer holds exactly the block's stores. */
  predicate Buffers(th: Thread) {
    th.mode.Locked? && th.saved.trace <= th.regs.trace && th.buf == Stores(InBlock(th))
  }

  lemma BufferedAccess(th: Thread, th1: Thread, e: Access)
    requires Buffers(th) && th1 == th.(buf := th.buf + if e.write then [Data(e.addr, e.val)] else [])
    ensures var th' := Accessed(th1, e);
            Buffers(th') && th'.saved == th.saved && th'.log == th.log && (th'.pc.Idle? || th'.pc.LoadTime?)
  {
    hide Stores, InBlock, Phase;
    OneMoreStore(InBlock(th), e);
    BlockExtended(th, Accessed(th1, e), e);
  }

  /** The access a thread makes under the lock. */
  function LockedAccess(sh: Shared, th: Thread, op: Op): Access
    requires !op.Stop?
  {
    if op.Write? then Access(true, op.addr, op.val) else Access(false, op.addr, Get(View(sh, th.buf).mem, op.addr))
  }

  lemma LockedBodyIs(w: Workload, sh: Shared, t: Tid, th: Thread)
    requires th.mode.Locked? && th.pc.Body? && !CurrentOp(w, t, th).Stop?
    ensures var e := LockedAccess(sh, th, CurrentOp(w, t, th));
            var st := if e.write then [Data(e.addr, e.val)] else [];
            LocalStep(w, sh, t, th) == Some(Accessed(th.(buf := th.buf + st), e))
  {
    hide CurrentOp, View, Accessed, Get;
    assert th == th.(buf := th.buf + []);
  }

  lemma LockedBodyStep(w: Workload, sh: Shared, t: Tid, th: Thread)
    requires Buffers(th) && th.pc.Body? && !CurrentOp(w, t, th).Stop?
    ensures LocalStep(w, sh, t, th).Some?
    ensures var th' := LocalStep(w, sh, t, th).value;
            Buffers(th') && th'.saved == th.saved && th'.log == th.log && (th'.pc.Idle? || th'.pc.LoadTime?)
  {
    hide LocalStep, CurrentOp, LockedAccess, Accessed, Stores, InBlock;
    var e := LockedAccess(sh, th, CurrentOp(w, t, th));
    LockedBodyIs(w, sh, t, th);
    BufferedAccess(th, th.(buf := th.buf + if e.write then [Data(e.addr, e.val)] else []), e);
  }

  lemma LockedAccesses(w: Workload, s0: State, s: State, t: Tid)
    requires t < |s.thr| && Shape(w, t, s.thr[t]) && UnderLock(s0, s, t) && s.thr[t].pc.Body?
    ensures Step(w, s, Go(t)).Some? && UnderLock(s0, Step(w, s, Go(t)).value, t)
  {
    hide LocalStep, CurrentOp, Stores, InBlock, Phase;
    BodyGoesOn(w, t, s.thr[t]);
    hide Shape;
    LockedBodyStep(w, s.sh, t, s.thr[t]);
  }

  lemma BodyGoesOn(w: Workload, t: Tid, th: Thread)
    requires Shape(w, t, th) && th.pc.Body?
    ensures !CurrentOp(w, t, th).Stop?
  {
    hide Phase, Returned;
  }

  lemma LockedGoesOn(w: Workload, s0: State, s: State, t: Tid)
    requires t < |s.thr| && Shape(w, t, s.thr[t]) && UnderLock(s0, s, t) && !s.thr[t].pc.StoreTime?
    ensures Step(w, s, Go(t)).Some? && UnderLock(s0, Step(w, s, Go(t)).value, t)
  {
    var th := s.thr[t];
    if th.pc.Body? {
      LockedAccesses(w, s0, s, t);
    } else {
      StartFacts(w, t, th);
      hide View, CurrentOp, Phase, Shape, Stores;
    }
  }

  lemma StampFacts(w: Workload, s: State, t: Tid)
    requires Inv(w, s) && t < |s.thr| && s.thr[t].pc.StoreTime?
    ensures s.thr[t].pc.ts == |s.hist|
  {
    assert ThreadInv(w, s, t);
    hide Shape, Returned, Phase, Committed, Times, InQueue, After, Runs, TxRuns;
  }

  lemma LockedStamps(w: Workload, s0: State, s: State, t: Tid)
    requires Inv(w, s) && UnderLock(s0, s, t) && s.thr[t].pc.StoreTime?
    ensures Step(w, s, Go(t)).Some? && JustStamped(s0, Step(w, s, Go(t)).value, t)
  {
    hide Inv, Stores;
    StampFacts(w, s, t);
  }

  ghost predicate LockWay(w: Workload, s0: State, t: Tid, s: State) {
    Inv(w, s) && UnderLock(s0, s, t)
  }

  ghost function LockWayOf(w: Workload, s0: State, t: Tid): State -> bool {
    (s: State) => LockWay(w, s0, t, s)
  }

  function StampOf(s0: State, t: Tid): State -> bool {
    (s: State) => JustStamped(s0, s, t)
  }

  lemma LockBase(s0: State, s: State, t: Tid)
    requires UnderLock(s0, s, t)
    ensures Base(s.thr[t]) == s0.thr[t].saved.trace && !s.thr[t].mode.Out? && !s.thr[t].pc.Unlock? && t < |s.thr|
  {
  }

  lemma BufferGrows(w: Workload, s: State, t: Tid)
    requires t < |s.thr| && Step(w, s, Go(t)).Some? && t < |Step(w, s, Go(t)).value.thr|
    ensures |s.thr[t].buf| <= |Step(w, s, Go(t)).value.thr[t].buf|
  {
    hide View, CurrentOp, Phase, Holds, InBlock;
  }

  lemma LockWayAdvances(w: Workload, s0: State, t: Tid, s: State)
    requires LockWay(w, s0, t, s)
    ensures Advances(StepOf(w), Go(t), LockWayOf(w, s0, t), StampOf(s0, t), RankOf(t), s)
  {
    hide Shape, Ledger, Serial, MemInv, InQueue, UnderLock, JustStamped, Step, CurrentOp, Rank, Base;
    LockBase(s0, s, t);
    assert ThreadInv(w, s, t);
    if s.thr[t].pc.StoreTime? { LockedStamps(w, s0, s, t); } else { LockedGoesOn(w, s0, s, t); }
    StepKeeps(w, s, Go(t));
    var s' := Step(w, s, Go(t)).value;
    if !JustStamped(s0, s', t) {
      LockBase(s0, s', t);
      BufferGrows(w, s, t);
      assert ThreadInv(w, s', t);
      RankDrops(w, s, t);
    }
  }

  lemma LockAdvances(w: Workload, s: State, t: Tid)
    ensures AlwaysAdvances(StepOf(w), Go(t), LockWayOf(w, s, t), StampOf(s, t), RankOf(t))
  {
    hide Advances, LockWay;
    forall s1: State | LockWayOf(w, s, t)(s1)
      ensures Advances(StepOf(w), Go(t), LockWayOf(w, s, t), StampOf(s, t), RankOf(t), s1)
    {
      LockWayAdvances(w, s, t, s1);
    }
  }

  /** With the lock acquired. */
  function Holding(s: State, t: Tid): State
    requires t < |s.thr|
  {
    s.(sh := s.sh.(queue := [t]), thr := s.thr[t := Aborted(s.thr[t]).(pc := Body, mode := Locked)])
  }

  /** Waiting for the lock, first in the queue. */
  function Waiting(s: State, t: Tid): State
    requires t < |s.thr|
  {
    s.(sh := s.sh.(queue := [t]), thr := s.thr[t := Aborted(s.thr[t]).(pc := Spin)])
  }

  /** The steps of an abort, of queueing for the free lock and of getting it. */
  lemma AcquireSteps(w: Workload, s: State, t: Tid)
    requires AtRest(s) && t < |s.thr| && s.thr[t].mode.Tx?
    ensures Step(w, s, Abort(t)) == Some(s.(thr := s.thr[t := Aborted(s.thr[t])]))
    ensures Step(w, s.(thr := s.thr[t := Aborted(s.thr[t])]), Go(t)) == Some(Waiting(s, t))
    ensures Step(w, Waiting(s, t), Go(t)) == Some(Holding(s, t))
    ensures UnderLock(Holding(s, t), Holding(s, t), t)
  {
    hide View, CurrentOp, Phase;
    assert s.sh.queue + [t] == [t];
    assert s.thr[t := Aborted(s.thr[t])][t := Waiting(s, t).thr[t]] == Waiting(s, t).thr;
    assert Waiting(s, t).thr[t := Holding(s, t).thr[t]] == Holding(s, t).thr;
  }

  /** After an abort the thread queues for the free lock and gets it. */
  lemma Acquires(w: Workload, s: State, t: Tid)
    requires AtRest(s) && t < |s.thr| && s.thr[t].mode.Tx?
    ensures Run(StepOf(w), s, [Abort(t), Go(t), Go(t)]) == Holding(s, t)
    ensures UnderLock(Holding(s, t), Holding(s, t), t)
  {
    hide Step, Run, UnderLock, Aborted;
    AcquireSteps(w, s, t);
    RunThree(StepOf(w), s, Abort(t), Go(t), Go(t));
  }

  lemma {:induction false} RunKeeps(w: Workload, s: State, sched: seq<Act>)
    requires Inv(w, s)
    ensures Inv(w, Run(StepOf(w), s, sched))
  {
    hide Inv, Step;
    if sched != [] {
      RunKeeps(w, s, Front(sched));
      var s1 := Run(StepOf(w), s, Front(sched));
      if Step(w, s1, Last(sched)).Some? { StepKeeps(w, s1, Last(sched)); }
    }
  }

  /** The block thread t was in when it was aborted in s is over: it ran under the lock, which is not released yet, and
      all its stores, the new time and the release are in the thread's buffer. */
  predicate Buffered(w: Workload, s: State, s': State, t: Tid) {
    && t < |s'.thr| == |s.thr| && s'.thr == s.thr[t := s'.thr[t]] && s'.sh == s.sh.(queue := [t])
    && s.thr[t].saved.trace <= s'.thr[t].regs.trace && (s'.thr[t].pc.Idle? || s'.thr[t].pc.Done?)
    && var th', accs := s'.thr[t], s'.thr[t].regs.trace[|s.thr[t].saved.trace|..];
    && s'.hist == s.hist + [Block(t, accs)] && Runs(w.prog, t, s.thr[t].saved.trace, s.sh.mem, accs)
    && th'.mode == Out && th'.buf == Stores(accs) + [Time(s.sh.time + 1), Free] && th'.log == s.thr[t].log + [s.sh.time]
  }

  /** The release and the log entry. */
  lemma Releases(w: Workload, s0: State, s: State, t: Tid)
    requires JustStamped(s0, s, t)
    ensures var r := Step(w, s, Go(t));
            && r.Some? && Step(w, r.value, Go(t)).Some?
            && var s' := Step(w, r.value, Go(t)).value;
            && s' == s.(thr := s.thr[t := s'.thr[t]]) && t < |s'.thr|
            && var th, th' := s.thr[t], s'.thr[t];
            && (th'.pc.Idle? || th'.pc.Done?) && th'.mode == Out && th'.buf == th.buf + [Free]
            && th'.regs.trace == th.regs.trace && th'.log == th.log + [|s0.hist|]
  {
    hide View, CurrentOp, Phase, Stores;
  }

  /** The block that was added is a run from memory as it was. */
  lemma AddedRuns(w: Workload, s: State, s': State, t: Tid, accs: seq<Access>)
    requires Inv(w, s) && AtRest(s) && t < |s.thr| && s.thr[t].mode.Tx? && Inv(w, s')
    requires s'.hist == s.hist + [Block(t, accs)]
    ensures Runs(w.prog, t, s.thr[t].saved.trace, s.sh.mem, accs) && s.sh.time == |s.hist|
    ensures After(s.sh.mem, accs) == MemOf(w.init, s'.hist)
  {
    RestMem(w, s, t);
    hide ThreadInv, MemInv, Committed, Runs, MemOf, After, Times;
    OneMoreBlock(w, s.hist, Block(t, accs), t);
  }

  lemma RestMem(w: Workload, s: State, t: Tid)
    requires Inv(w, s) && AtRest(s) && t < |s.thr| && s.thr[t].mode.Tx?
    ensures Committed(s.hist, t) == s.thr[t].saved.trace
    ensures s.sh.mem == MemOf(w.init, s.hist) && s.sh.time == |s.hist|
  {
    EmptyView(s.sh);
    NothingRun(w.prog, t, [], MemOf(w.init, s.hist));
    assert ThreadInv(w, s, t);
    AbortShape(w, t, s.thr[t]);
    hide Committed, Times, MemOf, After, Runs, TxRuns, Shape, InQueue, Serial, View;
  }

  /** The block under the lock up to its timestamp. */
  lemma LockRun(w: Workload, s: State, t: Tid) returns (k: nat)
    requires Inv(w, s) && UnderLock(s, s, t) && s.thr[t].pc.Body?
    ensures JustStamped(s, Only(StepOf(w), s, Go(t), k), t) && Inv(w, Only(StepOf(w), s, Go(t), k))
  {
    hide Inv, Step, UnderLock, JustStamped, AlwaysAdvances, Only;
    LockAdvances(w, s, t);
    BodyFacts(w, s, t);
    LockedGoesOn(w, s, s, t);
    StepKeeps(w, s, Go(t));
    k := ArrivesFrom(StepOf(w), Go(t), LockWayOf(w, s, t), StampOf(s, t), RankOf(t), s);
    OnlyRuns(StepOf(w), s, Go(t), k);
    RunKeeps(w, s, Repeat([Go(t)], k));
  }

  lemma BodyFacts(w: Workload, s: State, t: Tid)
    requires Inv(w, s) && UnderLock(s, s, t)
    ensures t < |s.thr| && Shape(w, t, s.thr[t])
  {
    hide Shape, Ledger, InQueue, MemInv, Serial;
    assert ThreadInv(w, s, t);
  }

  /** The k oldest buffered stores of thread t are in memory. */
  function Drained(s: State, t: Tid, k: nat): State
    requires t < |s.thr| && k <= |s.thr[t].buf|
  {
    var th := s.thr[t];
    s.(sh := View(s.sh, th.buf[..k]), thr := s.thr[t := th.(buf := th.buf[k..])])
  }

  /** The buffer empties into memory, oldest store first. */
  lemma {:induction false} DrainsAll(w: Workload, s: State, t: Tid, k: nat)
    requires t < |s.thr| && k <= |s.thr[t].buf|
    ensures Only(StepOf(w), s, Drain(t), k) == Drained(s, t, k)
  {
    var th := s.thr[t];
    if k == 0 {
      EmptyView(s.sh);
      assert th.buf[..0] == [] && th.buf[0..] == th.buf;
      assert s.thr[t := th] == s.thr;
    } else {
      hide View, Reach;
      DrainsAll(w, s, t, k - 1);
      ViewPush(s.sh, th.buf[..k - 1], th.buf[k - 1]);
      assert th.buf[..k] == th.buf[..k - 1] + [th.buf[k - 1]];
      assert th.buf[k - 1..][1..] == th.buf[k..];
    }
  }

  /** Memory once the buffered block has drained. */
  lemma DrainedMemory(w: Workload, s: State, s': State, t: Tid)
    requires Inv(w, s) && AtRest(s) && t < |s.thr| && s.thr[t].mode.Tx? && Inv(w, s') && Buffered(w, s, s', t)
    ensures var accs := s'.thr[t].regs.trace[|s.thr[t].saved.trace|..];
            View(s'.sh, s'.thr[t].buf) == Shared(After(s.sh.mem, accs), s.sh.time + 1, [])
  {
    var th', accs := s'.thr[t], s'.thr[t].regs.trace[|s.thr[t].saved.trace|..];
    AddedRuns(w, s, s', t, accs);
    BufferedMem(w, s', t);
    var plain := Stores(accs) + [Time(s.sh.time + 1)];
    assert th'.buf == plain + [Free];
    StoresFree(accs);
    NoFreeQueue(s'.sh, plain);
    ViewPush(s'.sh, plain, Free);
    hide View, After, MemOf, Runs, Inv, Stores, NoFree;
  }

  lemma BufferedMem(w: Workload, s: State, t: Tid)
    requires Inv(w, s) && s.sh.queue == [t] && t < |s.thr| && s.thr[t].mode.Out?
    ensures View(s.sh, s.thr[t].buf).mem == MemOf(w.init, s.hist) && View(s.sh, s.thr[t].buf).time == |s.hist|
  {
    NothingRun(w.prog, t, [], MemOf(w.init, s.hist));
    hide View, After, MemOf, ThreadInv, Serial;
  }

  lemma DrainedAll(w: Workload, s: State, s': State, t: Tid)
    requires Inv(w, s) && AtRest(s) && t < |s.thr| && s.thr[t].mode.Tx? && Inv(w, s') && Buffered(w, s, s', t)
    ensures var accs := s'.thr[t].regs.trace[|s.thr[t].saved.trace|..];
            && Only(StepOf(w), s', Drain(t), |s'.thr[t].buf|)
            == s'.(sh := Shared(After(s.sh.mem, accs), s.sh.time + 1, []), thr := s'.thr[t := s'.thr[t].(buf := [])])
  {
    hide Inv, AtRest, After, View, Step, Only, Runs, Stores;
    DrainedMemory(w, s, s', t);
    var buf := s'.thr[t].buf;
    DrainsAll(w, s', t, |buf|);
    assert buf[..|buf|] == buf && buf[|buf|..] == [];
  }

  /** From the timestamp to the end of the block. */
  lemma BlockBuffered(w: Workload, s: State, s2: State, t: Tid)
    requires Inv(w, s) && AtRest(s) && t < |s.thr| && s.thr[t].mode.Tx? && Inv(w, s2)
    requires JustStamped(Holding(s, t), s2, t)
    ensures Step(w, s2, Go(t)).Some? && Step(w, Step(w, s2, Go(t)).value, Go(t)).Some?
    ensures var s' := Step(w, Step(w, s2, Go(t)).value, Go(t)).value; Inv(w, s') && Buffered(w, s, s', t)
  {
    hide Inv, Step, JustStamped, Runs, After, Stores;
    Releases(w, Holding(s, t), s2, t);
    Stamped(Holding(s, t), s2, t);
    StepKeeps(w, s2, Go(t));
    StepKeeps(w, Step(w, s2, Go(t)).value, Go(t));
    AddedRuns(w, s, s2, t, s2.thr[t].regs.trace[|s.thr[t].saved.trace|..]);
  }

  /** A whole block under the lock. */
  lemma Fallback(w: Workload, s: State, t: Tid) returns (k: nat)
    requires Inv(w, s) && AtRest(s) && t < |s.thr| && s.thr[t].mode.Tx?
    ensures var s' := Only(StepOf(w), Holding(s, t), Go(t), k); Inv(w, s') && Buffered(w, s, s', t)
  {
    hide Inv, Step, UnderLock, JustStamped, Only, Run, Buffered;
    var s1 := Holding(s, t);
    Acquires(w, s, t);
    RunKeeps(w, s, [Abort(t), Go(t), Go(t)]);
    var n := LockRun(w, s1, t);
    BlockBuffered(w, s, Only(StepOf(w), s1, Go(t), n), t);
    OnlyNext(StepOf(w), s1, Go(t), n);
    OnlyNext(StepOf(w), s1, Go(t), n + 1);
    k := n + 2;
  }

  lemma Stamped(s0: State, s: State, t: Tid)
    requires JustStamped(s0, s, t)
    ensures && t < |s.thr| == |s0.thr| && s.thr == s0.thr[t := s.thr[t]] && s.sh == s0.sh
            && s0.thr[t].saved.trace <= s.thr[t].regs.trace
            && var th, accs := s.thr[t], s.thr[t].regs.trace[|s0.thr[t].saved.trace|..];
            && s.hist == s0.hist + [Block(t, accs)] && th.log == s0.thr[t].log
            && th.buf == Stores(accs) + [Time(|s0.hist| + 1)]
  {
    hide Stores;
  }

  /** The fallback: from every reachable state in which the lock is free and no store is buffered, a transaction,
      aborted wherever it is, gets the lock and runs its block to the end although not one of its stores reaches memory:
      memory is as before, the lock is still held, and the buffer holds the block's stores, the new time and the
      release.  When they have drained memory is as the block leaves it and the lock is free. */
  lemma FallbackAlone(w: Workload, sched: seq<Act>, t: Tid) returns (k: nat)
    requires AtRest(Exec(w, sched)) && t < |Exec(w, sched).thr| && Exec(w, sched).thr[t].mode.Tx?
    ensures var s := Exec(w, sched);
            var s1 := Run(StepOf(w), s, [Abort(t), Go(t), Go(t)]);
            var s2 := Only(StepOf(w), s1, Go(t), k);
            && Buffered(w, s, s2, t)
            && var accs := s2.thr[t].regs.trace[|s.thr[t].saved.trace|..];
            && Only(StepOf(w), s2, Drain(t), |s2.thr[t].buf|)
            == s2.(sh := Shared(After(s.sh.mem, accs), s.sh.time + 1, []), thr := s2.thr[t := s2.thr[t].(buf := [])])
  {
    var s := Exec(w, sched);
    ExecInv(w, sched);
    hide Inv, Step, Only, Run, Runs, After, Stores, Exec, Buffered, View;
    Acquires(w, s, t);
    k := Fallback(w, s, t);
    var s2 := Only(StepOf(w), Holding(s, t), Go(t), k);
    BufferedTid(w, s, s2, t);
    DrainedAll(w, s, s2, t);
  }

  lemma BufferedTid(w: Workload, s: State, s': State, t: Tid)
    requires Buffered(w, s, s', t)
    ensures t < |s'.thr| == |s.thr| && s.thr[t].saved.trace <= s'.thr[t].regs.trace
  {
    hide Runs, Stores;
  }
}
