/** A block of the cluster recorder when nobody interferes: one transaction from its first access to its commit. */
module ClusterPaths {
  import opened Mem
  import opened Schedules
  import opened ClusterRecord
  import opened ClusterProof
  import ClusterSim
  import ClusterProgress
  import Blocks
  import RecordLog
  import RM = RecordModel

  /** No object is being written by a fallback access, and thread t has no buffered stores. */
  predicate Quiet(s: State, t: Tid) {
    && t < |s.thr| == |s.rm.thr| && s.rm.thr[t].buf == []
    && (forall o | o in s.rm.ver :: s.rm.ver[o] % 2 == 0) && (forall o | o in s.rm.lock :: s.rm.lock[o] == 0)
  }

  /** Thread t is about to enter the first access of a block. */
  predicate AtBlockStart(c: Config, s: State, t: Tid) {
    && t < |s.thr| && s.thr[t].pc.Idle? && Blocks.Phase(s.thr[t].regs.bbcnt) == 0
    && !CurrentOp(c, t, s.thr[t]).Stop?
  }

  /** Every version the transaction has in hand is even. */
  predicate EvenVersions(th: Thread) {
    && th.mode.Tx? && (forall o | o in th.mode.newVers :: th.mode.newVers[o] % 2 == 0)
    && (th.pc.TxWord? || th.pc.TxLock? ==> th.pc.v % 2 == 0)
  }

  /** Thread t is inside the transaction it began in s0; memory still is what it loaded, and nothing that others can see
      has changed. */
  predicate InTransaction(s0: State, s: State, t: Tid) {
    && t < |s.thr| == |s0.thr| && s == s0.(thr := s0.thr[t := s.thr[t]])
    && var th := s.thr[t];
    && th.mode.Tx? && Holds(s.rm, th.mode) && EvenVersions(th) && th.saved == s0.thr[t].regs
    && (th.pc.Idle? || InTx(th.pc))
  }

  /** The block is over: all its accesses took effect in one step, and the thread is outside transactions. */
  predicate CommittedAtOnce(c: Config, s0: State, s: State, t: Tid) {
    && t < |s.thr| == |s0.thr| && s.thr == s0.thr[t := s.thr[t]] && t < |s0.rm.thr|
    && s0.thr[t].regs.trace <= s.thr[t].regs.trace
    && var accs := s.thr[t].regs.trace[|s0.thr[t].regs.trace|..];
    && accs != [] && RecordLog.InRange(c.nobj, s0.rm.thr[t].trace + accs)
    && s.rm == ClusterSim.After(c, s0.rm, t, accs)
    && (s.thr[t].pc.Idle? || s.thr[t].pc.Done?) && s.thr[t].mode.Plain?
  }

  lemma EmptyLoad(rm: RM.State, l: RM.Loc)
    ensures RM.Load(rm, [], l) == RM.InMemory(rm, l)
  {
  }

  /** Inside the transaction, with memory as it was loaded and all versions even. */
  predicate Stays(rm: RM.State, th: Thread, th': Thread) {
    && th'.mode.Tx? && Holds(rm, th'.mode) && EvenVersions(th') && th'.saved == th.saved
    && (th'.pc.Idle? || InTx(th'.pc) || th'.pc == Failed)
  }

  lemma MadeStays(rm: RM.State, th: Thread, m: Mode, e: Event)
    requires m.Tx? && Holds(rm, m) && forall o | o in m.newVers :: m.newVers[o] % 2 == 0
    ensures Stays(rm, th, Made(th.(mode := m), e))
  {
    hide Holds, Blocks.Phase, Queued;
  }

  lemma VersionStays(s: State, t: Tid, th: Thread, op: Op)
    requires Quiet(s, t) && th.mode.Tx? && Holds(s.rm, th.mode) && EvenVersions(th) && !op.Stop?
    ensures Stays(s.rm, th, TxVersionStep(s.rm, [], th, op))
  {
    EmptyLoad(s.rm, RM.VersionOf(op.addr.obj));
    hide RM.Load;
  }

  lemma WordStays(s: State, t: Tid, th: Thread, a: Addr, v: Version)
    requires th.mode.Tx? && Holds(s.rm, th.mode) && EvenVersions(th)
    ensures Stays(s.rm, th, TxWordStep(s.rm, [], t, th, a, v))
  {
    EmptyLoad(s.rm, RM.Word(a));
    hide RM.Load, Stays, Made;
    var m, x := th.mode, Get(s.rm.data, a);
    if a in m.newWords {
      assert th == th.(mode := m);
      MadeStays(s.rm, th, m, Event(t, false, a, v, m.newWords[a]));
    } else {
      MadeStays(s.rm, th, m.(words := m.words[a := x]), Event(t, false, a, v, x));
    }
  }

  lemma LockStays(s: State, t: Tid, th: Thread, a: Addr, x: Value, v: Version)
    requires Quiet(s, t) && th.mode.Tx? && Holds(s.rm, th.mode) && EvenVersions(th) && v % 2 == 0
    ensures Stays(s.rm, th, TxLockStep(s.rm, [], t, th, a, x, v))
  {
    EmptyLoad(s.rm, RM.LockOf(a.obj));
    hide RM.Load, Stays, Made;
    MadeStays(s.rm, th, Wrote(th.mode, a, x, v, 0), Event(t, true, a, v, x));
  }

  /** A step inside the transaction finds what it found before. */
  lemma TxStepStays(c: Config, s: State, t: Tid)
    requires Quiet(s, t) && s.thr[t].mode.Tx? && Holds(s.rm, s.thr[t].mode) && EvenVersions(s.thr[t])
    requires TxStep(c, s.rm, t, s.thr[t]).Some?
    ensures Stays(s.rm, s.thr[t], TxStep(c, s.rm, t, s.thr[t]).value)
  {
    hide Stays, CurrentOp, Holds, TxVersionStep, TxWordStep, TxLockStep;
    var th, op := s.thr[t], CurrentOp(c, t, s.thr[t]);
    match th.pc
    case TxVersion => VersionStays(s, t, th, op);
    case TxWord(v) => WordStays(s, t, th, op.addr, v);
    case TxLock(v) => LockStays(s, t, th, op.addr, op.val, v);
    case _ =>
  }

  lemma IdleStays(c: Config, rm: RM.State, t: Tid, th: Thread)
    requires Local(c, t, th) && th.pc.Idle? && (th.mode.Tx? ==> Holds(rm, th.mode) && EvenVersions(th))
    requires th.mode.Tx? || (Blocks.Phase(th.regs.bbcnt) == 0 && !CurrentOp(c, t, th).Stop?)
    ensures Stays(rm, if th.mode.Tx? then th else th.(saved := th.regs), IdleStep(c, t, th))
  {
    IdleInTx(c, t, th);
    hide Local, CurrentOp, Blocks.Phase, Flushed;
  }

  /** On the way from s0 to the commit. */
  ghost predicate Way(c: Config, s0: State, t: Tid, s: State) {
    Inv(c, s) && InTransaction(s0, s, t)
  }

  lemma InTxFacts(c: Config, s0: State, s: State, t: Tid)
    requires Way(c, s0, t, s) && Quiet(s0, t)
    ensures t < |s.thr| == |s.rm.thr| && Quiet(s, t) && s.rm == s0.rm && ThreadInv(c, s, t)
    ensures s.thr[t].pc != Done && !s.thr[t].pc.Access?
  {
    hide Local, Link, Holds, EvenVersions;
  }

  lemma TxGoesOn(c: Config, s0: State, s: State, t: Tid)
    requires Way(c, s0, t, s) && Quiet(s0, t) && RM.InBounds(c) && !s.thr[t].pc.TxEnd?
    ensures Step(c, s, Go(t)).Some? && Way(c, s0, t, Step(c, s, Go(t)).value)
    ensures 0 <= Rank(t, Step(c, s, Go(t)).value) < Rank(t, s)
  {
    hide Local, Link, Holds, EvenVersions, IdleStep, TxStep, RM.InBounds, ClusterProgress.Rank;
    InTxFacts(c, s0, s, t);
    ClusterProgress.OnlyAccessBlocks(c, s, t);
    PrivateSimulated(c, s, Go(t));
    ClusterProgress.PrivatePays(c, 0, s, Go(t));
    var s' := Step(c, s, Go(t)).value;
    if s.thr[t].pc.Idle? { IdleStays(c, s.rm, t, s.thr[t]); } else { TxStepStays(c, s, t); }
    assert ThreadInv(c, s', t);
    ClusterProgress.TxFacts(c, t, s'.thr[t]);
    ClusterProgress.RankBounds(c, t, s'.thr[t]);
  }

  function Rank(t: Tid, s: State): int {
    if t < |s.thr| then ClusterProgress.Rank(s.thr[t]) else 0
  }

  lemma DoneTrace(th: Thread)
    requires th.pc.TxEnd?
    ensures var th' := TxDone(th);
            th'.regs.trace == th.regs.trace && th'.mode.Plain? && (th'.pc.Idle? || th'.pc.Done?)
  {
  }

  lemma TxCommits(c: Config, s0: State, s: State, t: Tid)
    requires Way(c, s0, t, s) && Quiet(s0, t) && s.thr[t].pc.TxEnd?
    ensures Step(c, s, Go(t)).Some? && CommittedAtOnce(c, s0, Step(c, s, Go(t)).value, t)
  {
    hide Local, Link, EvenVersions, ClusterSim.Sound, ClusterSim.OwnVers, ClusterSim.OwnWords, RecordLog.LogAll, TxDone,
         Holds;
    var th := s.thr[t];
    InTxFacts(c, s0, s, t);
    AtCommit(c, t, s.rm.thr[t], th);
    ClusterProgress.EndCanStep(c, s, t);
    ClusterProgress.BlockLength(c, t, th);
    DoneTrace(th);
    assert InBlock(th) == th.regs.trace[|th.saved.trace|..];
    var s' := Step(c, s, Go(t)).value;
    assert s'.rm == ClusterSim.After(c, s.rm, t, InBlock(th));
  }

  lemma TxBegins(c: Config, s: State, t: Tid)
    requires Inv(c, s) && Quiet(s, t) && AtBlockStart(c, s, t)
    ensures Step(c, s, Go(t)).Some? && Way(c, s, t, Step(c, s, Go(t)).value)
  {
    hide Local, Link, Holds, EvenVersions, IdleStep, CurrentOp, Blocks.Phase;
    assert ThreadInv(c, s, t);
    StartsPlain(c, t, s.thr[t]);
    PrivateSimulated(c, s, Go(t));
    IdleStays(c, s.rm, t, s.thr[t]);
    var s' := Step(c, s, Go(t)).value;
    assert ThreadInv(c, s', t);
    ClusterProgress.TxFacts(c, t, s'.thr[t]);
  }

  lemma StartsPlain(c: Config, t: Tid, th: Thread)
    requires Local(c, t, th) && th.pc.Idle? && Blocks.Phase(th.regs.bbcnt) == 0
    ensures th.mode.Plain?
  {
    IdleInTx(c, t, th);
    hide Local, Blocks.Phase;
  }

  ghost function WayOf(c: Config, s0: State, t: Tid): State -> bool {
    (s: State) => Way(c, s0, t, s)
  }

  function GoalOf(c: Config, s0: State, t: Tid): State -> bool {
    (s: State) => CommittedAtOnce(c, s0, s, t)
  }

  function RankOf(t: Tid): State -> int {
    (s: State) => Rank(t, s)
  }

  lemma TxAdvances(c: Config, s: State, t: Tid)
    requires RM.InBounds(c) && Quiet(s, t)
    ensures AlwaysAdvances(StepOf(c), Go(t), WayOf(c, s, t), GoalOf(c, s, t), RankOf(t))
  {
    hide Way, CommittedAtOnce, Step, Rank, RM.InBounds, Quiet;
    forall s1: State | WayOf(c, s, t)(s1)
      ensures Advances(StepOf(c), Go(t), WayOf(c, s, t), GoalOf(c, s, t), RankOf(t), s1)
    {
      InTxFacts(c, s, s1, t);
      if s1.thr[t].pc.TxEnd? { TxCommits(c, s, s1, t); } else { TxGoesOn(c, s, s1, t); }
    }
  }

  /** Wherever the transaction is aborted, the thread is back at the start of the block, outside transactions. */
  lemma AbortRestores(c: Config, s0: State, s: State, t: Tid)
    requires InTransaction(s0, s, t) && |s.rm.thr| == |s.thr|
    ensures Step(c, s, Abort(t)) == Some(FellBack(s0, t))
  {
    hide Holds, EvenVersions;
    assert s.thr[t := Aborted(s.thr[t])] == FellBack(s0, t).thr;
  }

  /** s with thread t's block to be made access by access, from its first one on. */
  function FellBack(s: State, t: Tid): State
    requires t < |s.thr|
  {
    s.(thr := s.thr[t := Thread(Access, Plain, s.thr[t].regs, s.thr[t].regs)])
  }

  /** One transaction: from every reachable state in which no fallback write is under way and the thread's own stores
      are in memory, a thread at the start of a block that is left alone, with no abort, runs the block as one
      transaction: it never makes an access outside it, nobody else sees anything of it before the commit, and the
      commit adds all its accesses to the order, to memory and to the versions in one step.  An abort on the way leaves
      no trace: the thread has its queue, count, logs and accesses of the block start and makes the accesses one by
      one. */
  lemma BlockAlone(c: Config, sched: seq<Act>, t: Tid) returns (k: nat)
    requires c.fenced && RM.InBounds(c) && Quiet(Exec(c, sched), t) && AtBlockStart(c, Exec(c, sched), t)
    ensures var s := Exec(c, sched);
            && 1 < k && CommittedAtOnce(c, s, Only(StepOf(c), s, Go(t), k), t)
            && forall j | 0 < j < k ::
                 var s1 := Only(StepOf(c), s, Go(t), j);
                 InTransaction(s, s1, t) && Step(c, s1, Abort(t)) == Some(FellBack(s, t))
  {
    hide Exec, RM.Exec, Inv, InTransaction, CommittedAtOnce, Quiet, AlwaysAdvances, Only, Step, RM.InBounds, CurrentOp,
         FellBack;
    var rsched := ClusterRefinesHybrid(c, sched);
    var s := Exec(c, sched);
    TxBegins(c, s, t);
    TxAdvances(c, s, t);
    k := ArrivesFrom(StepOf(c), Go(t), WayOf(c, s, t), GoalOf(c, s, t), RankOf(t), s);
    forall j | 0 < j < k
      ensures var s1 := Only(StepOf(c), s, Go(t), j);
              InTransaction(s, s1, t) && Step(c, s1, Abort(t)) == Some(FellBack(s, t))
    {
      var s1 := Only(StepOf(c), s, Go(t), j);
      assert WayOf(c, s, t)(s1);
      InTxFacts(c, s, s1, t);
      AbortRestores(c, s, s1, t);
    }
  }
}
