/** The two ways a block is run over the ticket lock itself: a transaction leaves the lock word alone, a block under the
    lock takes one ticket and gives it back. */
module CommitTicketPaths {
  import opened Mem
  import opened Schedules
  import opened Blocks
  import opened CommitTicket
  import opened CommitTicketProof
  import CommitProof
  import CP = CommitPaths
  import CR = CommitRecord
  import TL = TicketLock

  /** The lock word says that the lock is free, and every store is in memory. */
  predicate AtRest(s: State) {
    TL.Lockable(s.lk.u) && forall t | 0 <= t < |s.cr.thr| :: s.cr.thr[t].buf == []
  }

  lemma RestIsRest(w: Workload, s: State)
    requires Inv(w, s) && w.nthr < TL.WRAP && AtRest(s)
    ensures CP.AtRest(s.cr)
  {
    TL.QueueEmpty(s.lk);
    hide CommitProof.Inv, TL.Inv, TL.Lockable;
  }

  // ---------------------------------------------------------------- as a transaction

  /** Thread t is inside the transaction it began in s0, and the lock is as it was. */
  predicate InTx(s0: State, s: State, t: Tid) {
    && CP.InTx(s0.cr, s.cr, t) && s.lk == s0.lk && |s.seen| == |s0.seen| == |s.cr.thr| == |s.lk.thr|
    && (s.cr.thr[t].pc.ReadTime? || s.cr.thr[t].pc.Commit? ==> s.seen[t] == s.lk.u)
  }

  /** The transaction has committed, and the lock is as it was. */
  predicate JustCommitted(w: Workload, s0: State, s: State, t: Tid) {
    CP.JustCommitted(w, s0.cr, s.cr, t) && s.lk == s0.lk && |s.seen| == |s0.seen| == |s.cr.thr| == |s.lk.thr|
  }

  /** Without buffered stores a thread sees the lock word that is in memory. */
  lemma SeesWord(w: Workload, s: State, t: Tid)
    requires Inv(w, s) && t < w.nthr && s.cr.thr[t].buf == []
    ensures TL.Seen(s.lk, t) == s.lk.u
  {
    ThreadFacts(w, s, t);
    hide Inv, CommitProof.Shape, CommitProof.InQueue;
  }

  lemma TxFacts(s0: State, s: State, t: Tid)
    requires InTx(s0, s, t)
    ensures && t < |s.cr.thr| && s.cr.thr[t].buf == [] && s.cr.sh == s0.cr.sh && s.cr.thr[t].mode.Tx?
            && (s.cr.thr[t].pc.Idle? || s.cr.thr[t].pc.Body? || s.cr.thr[t].pc.CheckLock? || s.cr.thr[t].pc.ReadTime?
                || s.cr.thr[t].pc == CR.Commit(s.cr.sh.time))
            && CR.Holds(s.cr.sh.mem, s.cr.thr[t].mode.loaded)
  {
    hide CR.Holds;
  }

  lemma TxGoesOn(w: Workload, s0: State, s: State, t: Tid)
    requires Inv(w, s) && w.nthr < TL.WRAP && TL.Lockable(s.lk.u) && InTx(s0, s, t) && s.cr.sh.queue == []
    requires !s.cr.thr[t].pc.Commit?
    ensures Step(w, s, CR.Go(t)).Some?
    ensures Inv(w, Step(w, s, CR.Go(t)).value) && InTx(s0, Step(w, s, CR.Go(t)).value, t)
    ensures CR.Step(w, s.cr, CR.Go(t)) == Some(Step(w, s, CR.Go(t)).value.cr)
  {
    hide Inv, CommitProof.Shape, TL.Lockable, TL.Seen, CR.Step, CP.InTx;
    TxFacts(s0, s, t);
    InvSized(w, s);
    ThreadShape(w, s, t);
    CP.TxGoesOn(w, s0.cr, s.cr, t);
    SeesWord(w, s, t);
    if s.cr.thr[t].pc.CheckLock? {
      CheckSimulated(w, s, t);
    } else {
      ElsewhereSimulated(w, s, t);
      if !s.cr.thr[t].pc.ReadTime? { NotYetChecked(w, s.cr, t); }
    }
    InvSized(w, Step(w, s, CR.Go(t)).value);
  }

  lemma InvSized(w: Workload, s: State)
    requires Inv(w, s)
    ensures Sized(s, w.nthr) && CommitProof.Inv(w, s.cr)
  {
    hide CommitProof.Inv;
  }

  lemma ThreadShape(w: Workload, s: State, t: Tid)
    requires Inv(w, s) && t < w.nthr
    ensures CommitProof.Shape(w, t, s.cr.thr[t])
  {
    ThreadFacts(w, s, t);
    hide *;
  }

  lemma NotYetChecked(w: Workload, cr: CR.State, t: Tid)
    requires t < |cr.thr| && (cr.thr[t].pc.Idle? || cr.thr[t].pc.Body?) && CR.Step(w, cr, CR.Go(t)).Some?
    ensures var cr' := CR.Step(w, cr, CR.Go(t)).value;
            t < |cr'.thr| && !cr'.thr[t].pc.ReadTime? && !cr'.thr[t].pc.Commit?
  {
    hide CR.View, CR.CurrentOp, Phase;
  }

  lemma TxCommits(w: Workload, s0: State, s: State, t: Tid)
    requires Inv(w, s) && w.nthr < TL.WRAP && InTx(s0, s, t) && s.cr.sh.queue == [] && s.cr.thr[t].pc.Commit?
    ensures Step(w, s, CR.Go(t)).Some? && Inv(w, Step(w, s, CR.Go(t)).value)
    ensures JustCommitted(w, s0, Step(w, s, CR.Go(t)).value, t)
  {
    hide Inv, CommitProof.Inv, CR.Step, CP.InTx, CP.JustCommitted, CR.Holds;
    TxFacts(s0, s, t);
    InvSized(w, s);
    CP.TxCommits(w, s0.cr, s.cr, t);
    CommitStep(w, s.cr, t);
    var act := CommitSimulated(w, s, t);
    InvSized(w, Step(w, s, CR.Go(t)).value);
  }

  lemma CommitStep(w: Workload, cr: CR.State, t: Tid)
    requires t < |cr.thr| && cr.thr[t].pc == CR.Commit(cr.sh.time) && cr.sh.queue == [] && cr.thr[t].buf == []
    requires cr.thr[t].mode.Tx? && CR.Holds(cr.sh.mem, cr.thr[t].mode.loaded)
    ensures CR.Step(w, cr, CR.Go(t)) == Some(CR.TxCommitted(cr, t))
  {
    hide CR.Holds;
  }

  /** On the way from s0 to the commit. */
  ghost predicate Way(w: Workload, s0: State, t: Tid, s: State) {
    Inv(w, s) && InTx(s0, s, t)
  }

  ghost function WayOf(w: Workload, s0: State, t: Tid): State -> bool {
    (s: State) => Way(w, s0, t, s)
  }

  function GoalOf(w: Workload, s0: State, t: Tid): State -> bool {
    (s: State) => JustCommitted(w, s0, s, t)
  }

  function RankOf(t: Tid): State -> int {
    (s: State) => CP.Rank(t, s.cr)
  }

  lemma TxRankDrops(w: Workload, s0: State, s: State, t: Tid)
    requires Way(w, s0, t, s) && CR.Step(w, s.cr, CR.Go(t)).Some?
    requires var cr' := CR.Step(w, s.cr, CR.Go(t)).value; CommitProof.Inv(w, cr') && CP.InTx(s0.cr, cr', t)
    ensures 0 <= CP.Rank(t, CR.Step(w, s.cr, CR.Go(t)).value) < CP.Rank(t, s.cr)
  {
    var cr' := CR.Step(w, s.cr, CR.Go(t)).value;
    hide CommitProof.Shape, CommitProof.Ledger, CommitProof.InQueue, CommitProof.MemInv, CP.InTx, CR.Step,
         CommitProof.Base, CP.Rank, TL.Inv;
    CP.TxBase(s0.cr, s.cr, t);
    CP.TxBase(s0.cr, cr', t);
    assert CommitProof.ThreadInv(w, s.cr, t) && CommitProof.ThreadInv(w, cr', t);
    CP.RankDrops(w, s.cr, t);
  }

  lemma WayAdvances(w: Workload, s0: State, t: Tid, s: State)
    requires w.nthr < TL.WRAP && TL.Lockable(s0.lk.u) && s0.cr.sh.queue == [] && Way(w, s0, t, s)
    ensures Advances(StepOf(w), CR.Go(t), WayOf(w, s0, t), GoalOf(w, s0, t), RankOf(t), s)
  {
    hide Inv, JustCommitted, Step, CR.Step, CP.Rank, TL.Lockable, CP.InTx;
    TxFacts(s0, s, t);
    if s.cr.thr[t].pc.Commit? {
      TxCommits(w, s0, s, t);
    } else {
      TxGoesOn(w, s0, s, t);
      InvSized(w, Step(w, s, CR.Go(t)).value);
      TxRankDrops(w, s0, s, t);
    }
  }

  lemma TxAdvances(w: Workload, s: State, t: Tid)
    requires w.nthr < TL.WRAP && TL.Lockable(s.lk.u) && s.cr.sh.queue == []
    ensures AlwaysAdvances(StepOf(w), CR.Go(t), WayOf(w, s, t), GoalOf(w, s, t), RankOf(t))
  {
    hide Advances, Way, TL.Lockable;
    forall s1: State | WayOf(w, s, t)(s1)
      ensures Advances(StepOf(w), CR.Go(t), WayOf(w, s, t), GoalOf(w, s, t), RankOf(t), s1)
    {
      WayAdvances(w, s, t, s1);
    }
  }

  lemma TxBegins(w: Workload, s: State, t: Tid)
    requires Inv(w, s) && CP.AtRest(s.cr) && CP.AtBlockStart(w, s.cr, t)
    ensures Step(w, s, CR.Go(t)).Some? && Way(w, s, t, Step(w, s, CR.Go(t)).value)
  {
    hide Inv, CommitProof.Inv, CR.Step, CP.InTx;
    InvSized(w, s);
    CP.TxBeginsInv(w, s.cr, t);
    assert s.cr.thr[t].pc.Idle?;
    ElsewhereSimulated(w, s, t);
    NotYetChecked(w, s.cr, t);
    InvSized(w, Step(w, s, CR.Go(t)).value);
  }

  /** The transaction up to its commit. */
  lemma TxRun(w: Workload, s: State, t: Tid) returns (k: nat)
    requires Inv(w, s) && w.nthr < TL.WRAP && AtRest(s) && CP.AtBlockStart(w, s.cr, t)
    ensures 0 < k && JustCommitted(w, s, Only(StepOf(w), s, CR.Go(t), k), t)
    ensures forall j | 0 < j < k :: InTx(s, Only(StepOf(w), s, CR.Go(t), j), t)
  {
    hide Inv, Step, InTx, JustCommitted, CP.AtBlockStart, AlwaysAdvances, Only, TL.Lockable;
    RestIsRest(w, s);
    TxBegins(w, s, t);
    TxAdvances(w, s, t);
    k := ArrivesFrom(StepOf(w), CR.Go(t), WayOf(w, s, t), GoalOf(w, s, t), RankOf(t), s);
    forall j | 0 < j < k ensures InTx(s, Only(StepOf(w), s, CR.Go(t), j), t) {
      assert WayOf(w, s, t)(Only(StepOf(w), s, CR.Go(t), j));
    }
  }

  lemma Logged(w: Workload, s0: State, s: State, t: Tid)
    requires JustCommitted(w, s0, s, t)
    ensures Step(w, s, CR.Go(t)).Some?
    ensures var s' := Step(w, s, CR.Go(t)).value; CP.BlockLogged(w, s0.cr, s'.cr, t) && s'.lk == s.lk == s0.lk
  {
    assert s.cr.thr[t].pc.LogCommit?;
    CP.Logged(w, s0.cr, s.cr, t);
    hide CP.BlockLogged, CP.JustCommitted, CR.Step;
  }

  /** One transaction over the ticket lock: from every reachable state in which the lock word says that the lock is free
      and no store is buffered, a thread at the start of a block that is left alone, with no abort, commits the block
      as one transaction and logs its timestamp; the lock, its word and every thread's part of it, never changes. */
  lemma TicketTxAlone(w: Workload, sched: seq<CR.Act>, t: Tid) returns (k: nat)
    requires w.nthr < TL.WRAP && AtRest(Exec(w, sched)) && CP.AtBlockStart(w, Exec(w, sched).cr, t)
    ensures var s := Exec(w, sched);
            && 0 < k && JustCommitted(w, s, Only(StepOf(w), s, CR.Go(t), k), t)
            && (forall j | 0 < j < k :: InTx(s, Only(StepOf(w), s, CR.Go(t), j), t))
            && CP.BlockLogged(w, s.cr, Only(StepOf(w), s, CR.Go(t), k + 1).cr, t)
            && (forall j | 0 <= j <= k + 1 :: Only(StepOf(w), s, CR.Go(t), j).lk == s.lk)
  {
    hide Exec, CR.Exec, Inv, Step, AtRest, CP.AtBlockStart, Only, CP.BlockLogged, InTx, JustCommitted, Run;
    var rsched := TicketRefinesQueue(w, sched);
    var s := Exec(w, sched);
    k := TxRun(w, s, t);
    var sk := Only(StepOf(w), s, CR.Go(t), k);
    Logged(w, s, sk, t);
    OnlyNext(StepOf(w), s, CR.Go(t), k);
    forall j | 0 <= j <= k + 1 ensures Only(StepOf(w), s, CR.Go(t), j).lk == s.lk {
      if j == 0 {
        OnlyNone(StepOf(w), s, CR.Go(t));
      } else if j < k {
        TxSameLock(s, Only(StepOf(w), s, CR.Go(t), j), t);
      }
    }
  }

  lemma TxSameLock(s0: State, s: State, t: Tid)
    requires InTx(s0, s, t)
    ensures s.lk == s0.lk
  {
    hide CP.InTx;
  }

  // ---------------------------------------------------------------- under the lock

  ghost predicate LockWay(w: Workload, s0: State, t: Tid, s: State) {
    Inv(w, s) && CP.UnderLock(s0.cr, s.cr, t) && s.lk == s0.lk
  }

  ghost predicate JustStamped(w: Workload, s0: State, s: State, t: Tid) {
    Inv(w, s) && CP.JustStamped(s0.cr, s.cr, t) && s.lk == s0.lk
  }

  ghost function LockWayOf(w: Workload, s0: State, t: Tid): State -> bool {
    (s: State) => LockWay(w, s0, t, s)
  }

  ghost function StampOf(w: Workload, s0: State, t: Tid): State -> bool {
    (s: State) => JustStamped(w, s0, s, t)
  }

  lemma UnderLockPc(s0: CR.State, s: CR.State, t: Tid)
    requires CP.UnderLock(s0, s, t)
    ensures t < |s.thr| && Elsewhere(s.thr[t].pc)
  {
  }

  lemma LockWayAdvances(w: Workload, s0: State, t: Tid, s: State)
    requires LockWay(w, s0, t, s)
    ensures Advances(StepOf(w), CR.Go(t), LockWayOf(w, s0, t), StampOf(w, s0, t), RankOf(t), s)
  {
    hide Inv, CommitProof.Inv, CR.Step, CP.UnderLock, CP.JustStamped, CP.Rank;
    InvSized(w, s);
    UnderLockPc(s0.cr, s.cr, t);
    CP.LockWayAdvances(w, s0.cr, t, s.cr);
    ElsewhereSimulated(w, s, t);
  }

  lemma LockAdvances(w: Workload, s: State, t: Tid)
    ensures AlwaysAdvances(StepOf(w), CR.Go(t), LockWayOf(w, s, t), StampOf(w, s, t), RankOf(t))
  {
    hide Advances, LockWay;
    forall s1: State | LockWayOf(w, s, t)(s1)
      ensures Advances(StepOf(w), CR.Go(t), LockWayOf(w, s, t), StampOf(w, s, t), RankOf(t), s1)
    {
      LockWayAdvances(w, s, t, s1);
    }
  }

  /** The lock with thread t inside: it took the next ticket and was let in at once. */
  function Held(lk: TL.State, t: Tid): TL.State
    requires t < |lk.thr|
  {
    TL.With(lk, t, TL.Held).(u := TL.Pack(TL.Ticket(lk.u), TL.Succ(TL.Users(lk.u))), taken := lk.taken + [t],
                             entered := lk.entered + [t])
  }

  /** With the lock acquired. */
  function Holding(s: State, t: Tid): State
    requires t < |s.cr.thr| == |s.lk.thr|
  {
    s.(cr := CP.Holding(s.cr, t), lk := Held(s.lk, t))
  }

  lemma LetIn(lk: TL.State, t: Tid)
    requires t < |lk.thr| && lk.thr[t] == TL.Thread(TL.Out, None) && TL.Lockable(lk.u)
    ensures var r := TL.Step(lk, TL.Lock(t)); r.Some? && TL.Step(r.value, TL.Go(t)) == Some(Held(lk, t))
    ensures TL.Step(lk, TL.Lock(t)).value.thr[t].pc.Spin?
  {
    TL.Packed(TL.Ticket(lk.u), TL.Succ(TL.Users(lk.u)));
    var lk1 := TL.Step(lk, TL.Lock(t)).value;
    assert lk1.thr[t := TL.Thread(TL.Held, None)] == lk.thr[t := TL.Thread(TL.Held, None)];
    hide TL.Pack, TL.Ticket, TL.Users, TL.Succ;
  }

  lemma OutOfLock(w: Workload, s: State, t: Tid)
    requires Inv(w, s) && t < w.nthr && s.cr.thr[t].mode.Tx? && s.cr.thr[t].buf == []
    ensures s.lk.thr[t] == TL.Thread(TL.Out, None)
  {
    ThreadFacts(w, s, t);
    CommitProof.AbortShape(w, t, s.cr.thr[t]);
    hide Inv, CommitProof.Shape, CommitProof.InQueue;
  }

  /** After an abort the thread takes a ticket and is let in. */
  lemma Acquires(w: Workload, s: State, t: Tid)
    requires Inv(w, s) && w.nthr < TL.WRAP && AtRest(s) && t < |s.cr.thr| && s.cr.thr[t].mode.Tx?
    ensures t < |s.lk.thr| == |s.cr.thr| && Run(StepOf(w), s, [CR.Abort(t), CR.Go(t), CR.Go(t)]) == Holding(s, t)
    ensures Inv(w, Holding(s, t)) && CP.UnderLock(CP.Holding(s.cr, t), CP.Holding(s.cr, t), t)
  {
    hide Inv, CommitProof.Inv, TL.Step, CR.Step, TL.Lockable, CP.UnderLock, Run, CR.Aborted, Held, CP.Holding;
    InvSized(w, s);
    RestIsRest(w, s);
    OutOfLock(w, s, t);
    LetIn(s.lk, t);
    CP.AcquireSteps(w, s.cr, t);
    var s1 := s.(cr := WithThread(s.cr, t, CR.Aborted(s.cr.thr[t])));
    var s2 := s1.(cr := CP.Waiting(s.cr, t), lk := TL.Step(s.lk, TL.Lock(t)).value);
    AbortSimulated(w, s, t);
    assert CR.Aborted(s.cr.thr[t]).pc.Enqueue? by { AbortedPc(s.cr.thr[t]); }
    assert Step(w, s1, CR.Go(t)) == Some(s2);
    EnqueueSimulated(w, s1, t);
    InvSized(w, s2);
    SpinStep(w, s, s2, t);
    SpinSimulated(w, s2, t);
    RunThree(StepOf(w), s, CR.Abort(t), CR.Go(t), CR.Go(t));
  }

  lemma AbortedPc(th: CR.Thread)
    ensures CR.Aborted(th).pc.Enqueue?
  {
  }

  lemma SpinStep(w: Workload, s: State, s2: State, t: Tid)
    requires t < |s.cr.thr| == |s.lk.thr| == |s.seen| == |s2.lk.thr|
    requires s2.cr == CP.Waiting(s.cr, t) && s2.seen == s.seen && TL.Step(s2.lk, TL.Go(t)) == Some(Held(s.lk, t))
    ensures Step(w, s2, CR.Go(t)) == Some(Holding(s, t))
  {
    hide TL.Step, Held;
    assert s2.cr.thr[t := CP.Holding(s.cr, t).thr[t]] == CP.Holding(s.cr, t).thr;
  }

  /** The block under the lock up to its timestamp. */
  lemma LockRun(w: Workload, s: State, t: Tid) returns (k: nat)
    requires Inv(w, s) && CP.UnderLock(s.cr, s.cr, t) && s.cr.thr[t].pc.Body?
    ensures JustStamped(w, s, Only(StepOf(w), s, CR.Go(t), k), t)
  {
    hide LockWay, Step, JustStamped, AlwaysAdvances, Only;
    LockAdvances(w, s, t);
    FirstAccess(w, s, t);
    k := ArrivesFrom(StepOf(w), CR.Go(t), LockWayOf(w, s, t), StampOf(w, s, t), RankOf(t), s);
  }

  lemma FirstAccess(w: Workload, s: State, t: Tid)
    requires Inv(w, s) && CP.UnderLock(s.cr, s.cr, t) && s.cr.thr[t].pc.Body?
    ensures Step(w, s, CR.Go(t)).Some? && LockWay(w, s, t, Step(w, s, CR.Go(t)).value)
  {
    hide Inv, CommitProof.Inv, CR.Step, CP.UnderLock;
    InvSized(w, s);
    UnderLockPc(s.cr, s.cr, t);
    ThreadShape(w, s, t);
    CP.LockedGoesOn(w, s.cr, s.cr, t);
    ElsewhereSimulated(w, s, t);
  }

  /** The lock with thread t's release in its buffer. */
  function Releasing(lk: TL.State, t: Tid): TL.State
    requires t < |lk.thr|
  {
    Held(lk, t).(thr := lk.thr[t := TL.Thread(TL.Out, Some(TL.Succ(TL.Ticket(lk.u))))])
  }

  /** The lock after the release: both halves of the word have gone up by one. */
  function Released(lk: TL.State, t: Tid): TL.State
    requires t < |lk.thr|
  {
    Held(lk, t).(u := TL.Pack(TL.Succ(TL.Ticket(lk.u)), TL.Succ(TL.Users(lk.u))), left := lk.left + 1)
               .(thr := lk.thr[t := TL.Thread(TL.Out, None)])
  }

  lemma LetOut(lk: TL.State, t: Tid)
    requires t < |lk.thr| && lk.thr[t] == TL.Thread(TL.Out, None)
    ensures var r := TL.Step(Held(lk, t), TL.Unlock(t));
            r.Some? && !r.value.thr[t].pc.Held? && TL.Step(r.value, TL.Go(t)) == Some(Releasing(lk, t))
    ensures TL.Step(Releasing(lk, t), TL.Drain(t)) == Some(Released(lk, t))
  {
    TL.Packed(TL.Ticket(lk.u), TL.Succ(TL.Users(lk.u)));
    hide TL.Pack, TL.Ticket, TL.Users, TL.Succ;
    var u := TL.Ticket(lk.u);
    var lk1 := TL.Step(Held(lk, t), TL.Unlock(t)).value;
    assert lk1.thr[t := Releasing(lk, t).thr[t]] == Releasing(lk, t).thr;
    assert Releasing(lk, t).thr[t := Released(lk, t).thr[t]] == Released(lk, t).thr;
  }

  /** From the timestamp to the end of the block: the ticket is loaded, its successor buffered, the timestamp logged. */
  lemma Releases(w: Workload, s: State, s1: State, s2: State, t: Tid)
    requires Inv(w, s) && w.nthr < TL.WRAP && AtRest(s) && t < |s.cr.thr| && s.cr.thr[t].mode.Tx?
    requires t < |s.lk.thr| && s1 == Holding(s, t) && JustStamped(w, s1, s2, t)
    ensures var s' := Only(StepOf(w), s2, CR.Go(t), 3);
            Inv(w, s') && CP.Buffered(w, s.cr, s'.cr, t) && s'.lk == Releasing(s.lk, t)
  {
    hide Inv, CommitProof.Inv, TL.Step, CR.Step, CP.JustStamped, CP.Buffered, AtRest, Held, Releasing, Only;
    InvSized(w, s);
    InvSized(w, s2);
    RestIsRest(w, s);
    RestBuffer(s, t);
    OutOfLock(w, s, t);
    LetOut(s.lk, t);
    CP.BlockBuffered(w, s.cr, s2.cr, t);
    StampedPcs(w, s1.cr, s2.cr, t);
    var a := s2.(lk := TL.Step(s2.lk, TL.Unlock(t)).value);
    assert s2.lk.thr[t].pc.Held? by { HeldPc(s.lk, t); }
    assert Step(w, s2, CR.Go(t)) == Some(a);
    UnlockSimulated(w, s2, t);
    InvSized(w, a);
    var b := a.(cr := CR.Step(w, s2.cr, CR.Go(t)).value, lk := Releasing(s.lk, t));
    assert Step(w, a, CR.Go(t)) == Some(b);
    UnlockSimulated(w, a, t);
    InvSized(w, b);
    var c := b.(cr := CR.Step(w, b.cr, CR.Go(t)).value);
    assert Step(w, b, CR.Go(t)) == Some(c);
    ElsewhereSimulated(w, b, t);
    OnlyNone(StepOf(w), s2, CR.Go(t));
    OnlyNext(StepOf(w), s2, CR.Go(t), 0);
    OnlyNext(StepOf(w), s2, CR.Go(t), 1);
    OnlyNext(StepOf(w), s2, CR.Go(t), 2);
  }

  lemma RestBuffer(s: State, t: Tid)
    requires AtRest(s) && t < |s.cr.thr|
    ensures s.cr.thr[t].buf == []
  {
  }

  lemma HeldPc(lk: TL.State, t: Tid)
    requires t < |lk.thr|
    ensures t < |Held(lk, t).thr| && Held(lk, t).thr[t].pc.Held?
  {
  }

  lemma StampedPcs(w: Workload, s0: CR.State, s: CR.State, t: Tid)
    requires CP.JustStamped(s0, s, t)
    ensures t < |s.thr| && s.thr[t].pc.Unlock? && CR.Step(w, s, CR.Go(t)).Some?
    ensures var s' := CR.Step(w, s, CR.Go(t)).value; t < |s'.thr| && s'.thr[t].pc.LogCommit?
  {
    hide CP.Stores, CR.View, CR.CurrentOp, Phase;
  }

  /** While the release is not reached, draining has nothing to do with the lock. */
  lemma {:induction false} DrainsPlain(w: Workload, s: State, t: Tid, k: nat)
    requires t < |s.cr.thr| == |s.lk.thr| == |s.seen| && k <= |s.cr.thr[t].buf|
    requires CommitProof.NoFree(s.cr.thr[t].buf[..k])
    ensures Only(StepOf(w), s, CR.Drain(t), k) == s.(cr := Only(CR.StepOf(w), s.cr, CR.Drain(t), k))
    ensures Only(CR.StepOf(w), s.cr, CR.Drain(t), k) == CP.Drained(s.cr, t, k)
  {
    CP.DrainsAll(w, s.cr, t, k);
    if k > 0 {
      var buf := s.cr.thr[t].buf;
      assert forall i | 0 <= i < k - 1 :: buf[..k - 1][i] == buf[..k][i];
      assert !buf[..k][k - 1].Free?;
      DrainsPlain(w, s, t, k - 1);
      OnlyNone(StepOf(w), s, CR.Drain(t));
      hide CR.View;
      assert CP.Drained(s.cr, t, k - 1).thr[t].buf[0] == buf[k - 1];
    } else {
      OnlyNone(StepOf(w), s, CR.Drain(t));
      OnlyNone(CR.StepOf(w), s.cr, CR.Drain(t));
    }
  }

  /** The last store to drain is the release. */
  lemma DrainsRelease(w: Workload, s: State, lk: TL.State, t: Tid)
    requires t < |s.cr.thr| == |s.lk.thr| == |s.seen| && t < |lk.thr| && lk.thr[t] == TL.Thread(TL.Out, None)
    requires s.lk == Releasing(lk, t)
    requires var buf := s.cr.thr[t].buf; buf != [] && Last(buf).Free? && CommitProof.NoFree(Front(buf))
    ensures var n := |s.cr.thr[t].buf|;
            var cr' := Only(CR.StepOf(w), s.cr, CR.Drain(t), n);
            Only(StepOf(w), s, CR.Drain(t), n) == s.(cr := cr', lk := Released(lk, t))
  {
    hide TL.Step, CommitProof.NoFree, CR.View, CR.Reach, Held, Releasing, Released;
    var n := |s.cr.thr[t].buf| - 1;
    DrainsPlain(w, s, t, n);
    LetOut(lk, t);
    assert CP.Drained(s.cr, t, n).thr[t].buf[0] == Last(s.cr.thr[t].buf);
    var s1 := Only(StepOf(w), s, CR.Drain(t), n);
    OnlyNext(StepOf(w), s, CR.Drain(t), n);
    OnlyNext(CR.StepOf(w), s.cr, CR.Drain(t), n);
  }

  /** The fallback over the ticket lock: a transaction, aborted wherever it is while the lock is free and no store is
      buffered, takes one ticket, is let in at once and runs its block to the end although not one of its stores
      reaches memory, the release included; when they have drained both halves of the lock word are one higher. */
  lemma TicketFallbackAlone(w: Workload, sched: seq<CR.Act>, t: Tid) returns (k: nat)
    requires w.nthr < TL.WRAP && AtRest(Exec(w, sched))
    requires t < |Exec(w, sched).cr.thr| && Exec(w, sched).cr.thr[t].mode.Tx?
    ensures var s := Exec(w, sched);
            var s1 := Run(StepOf(w), s, [CR.Abort(t), CR.Go(t), CR.Go(t)]);
            var s2 := Only(StepOf(w), s1, CR.Go(t), k);
            && t < |s.lk.thr| && CP.Buffered(w, s.cr, s2.cr, t) && s2.lk == Releasing(s.lk, t)
            && var accs := s2.cr.thr[t].regs.trace[|s.cr.thr[t].saved.trace|..];
            && var s3 := Only(StepOf(w), s2, CR.Drain(t), |s2.cr.thr[t].buf|);
            && s3.cr.sh == CR.Shared(After(s.cr.sh.mem, accs), s.cr.sh.time + 1, []) && s3.lk == Released(s.lk, t)
  {
    hide Exec, CR.Exec, Inv, CommitProof.Inv, Step, Only, Run, JustStamped, Releasing, Released, CP.Buffered, AtRest,
         CP.UnderLock, Held, CP.Holding, After, TL.Lockable;
    var rsched := TicketRefinesQueue(w, sched);
    var s := Exec(w, sched);
    InvSized(w, s);
    RestIsRest(w, s);
    RestBuffer(s, t);
    OutOfLock(w, s, t);
    Acquires(w, s, t);
    var s1 := Holding(s, t);
    assert s1.cr.thr[t].pc.Body? by { HoldingBody(s.cr, t); }
    var n := LockRun(w, s1, t);
    k := n + 3;
    Releases(w, s, s1, Only(StepOf(w), s1, CR.Go(t), n), t);
    OnlyPlus(StepOf(w), s1, CR.Go(t), n, 3);
    var s2 := Only(StepOf(w), s1, CR.Go(t), k);
    InvSized(w, s2);
    BufferedStores(w, s.cr, s2.cr, t);
    DrainsRelease(w, s2, s.lk, t);
    CP.DrainedAll(w, s.cr, s2.cr, t);
  }

  lemma HoldingBody(s: CR.State, t: Tid)
    requires t < |s.thr|
    ensures t < |CP.Holding(s, t).thr| && CP.Holding(s, t).thr[t].pc.Body?
  {
  }

  lemma BufferedStores(w: Workload, s: CR.State, s': CR.State, t: Tid)
    requires CP.Buffered(w, s, s', t)
    ensures t < |s'.thr| == |s.thr| && s.thr[t].saved.trace <= s'.thr[t].regs.trace
    ensures var buf := s'.thr[t].buf; buf != [] && Last(buf).Free? && CommitProof.NoFree(Front(buf))
  {
    var accs := s'.thr[t].regs.trace[|s.thr[t].saved.trace|..];
    CP.StoresFree(accs);
    hide CP.Stores, Runs;
    assert Front(s'.thr[t].buf) == CP.Stores(accs) + [CR.Time(s.sh.time + 1)];
  }
}
