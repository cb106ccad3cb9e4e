/** The cluster recorder never gets stuck, and for programs that end it ends under every fair schedule: a block is tried
    once as a transaction, and what it does to the shared state is work of the hybrid recorder. */
module ClusterProgress {
  import opened Mem
  import opened ClusterRecord
  import opened ClusterSim
  import opened ClusterProof
  import opened Schedules
  import Blocks
  import Recorder
  import RecordLog
  import RecordProof
  import RecordProgress
  import RM = RecordModel

  // ---------------------------------------------------------------- no deadlock

  /** With its stores out, only an access outside transactions can be stuck. */
  lemma OnlyAccessBlocks(c: Config, s: State, t: Tid)
    requires t < |s.thr| == |s.rm.thr| && ThreadInv(c, s, t) && s.rm.thr[t].buf == [] && RM.InBounds(c)
    requires s.thr[t].pc != Done && !s.thr[t].pc.Access?
    ensures Step(c, s, Go(t)).Some?
  {
    hide Local, Link, RM.Load, Results, TxVersionStep, TxWordStep, TxLockStep, IdleStep, EndStep;
    var th := s.thr[t];
    TxFacts(c, t, th);
    if th.pc.TxEnd? { EndCanStep(c, s, t); }
  }

  lemma TxFacts(c: Config, t: Tid, th: Thread)
    requires Local(c, t, th)
    ensures th.pc != Failed && (InTx(th.pc) ==> th.mode.Tx?)
    ensures th.pc.TxVersion? || th.pc.TxWord? || th.pc.TxLock? ==> !CurrentOp(c, t, th).Stop?
    ensures (th.pc.TxWord? ==> CurrentOp(c, t, th).Read?) && (th.pc.TxLock? ==> CurrentOp(c, t, th).Write?)
  {
    hide RegsOk, Results, Blocks.Phase;
  }

  lemma EndCanStep(c: Config, s: State, t: Tid)
    requires t < |s.thr| == |s.rm.thr| && ThreadInv(c, s, t) && s.rm.thr[t].buf == [] && s.thr[t].pc.TxEnd?
    ensures EndStep(c, s, t).Some?
  {
    hide Link, Results, Blocks.Phase, TxDone, Holds, Aborted, Recorder.Drain, Recorder.Fits, RecordLog.BatchAll;
    var th := s.thr[t];
    AtCommit(c, t, s.rm.thr[t], th);
    assert th.pc == TxEnd(false) ==> th.regs.trace == Front(th.regs.trace) + [Last(th.regs.trace)];
    hide CurrentOp, InBlock;
  }

  /** A step of the hybrid recorder's access is one of the cluster recorder's. */
  lemma AccessCanStep(c: Config, s: State, t: Tid)
    requires t < |s.thr| == |s.rm.thr| && ThreadInv(c, s, t) && RM.Step(c, s.rm, RM.Go(t)).Some?
    requires s.thr[t].pc.Access?
    ensures Step(c, s, Go(t)).Some?
  {
    hide RM.Load, Results, Local;
    var op := CurrentOp(c, t, s.thr[t]);
    assert s.thr[t].mode.Plain? by { AccessPlain(c, t, s.thr[t]); }
    assert RM.CurrentOp(c, s.rm, t) == op;
    hide RM.ReadStep, RM.WriteStep;
    if op.Read? { ReadMoves(s.rm, t, op.addr); }
    if op.Write? { WriteMoves(c, s.rm, t, op.addr, op.val); }
  }

  lemma AccessPlain(c: Config, t: Tid, th: Thread)
    requires Local(c, t, th) && th.pc.Access?
    ensures th.mode.Plain? && !CurrentOp(c, t, th).Stop?
  {
  }

  /** A thread that is inside an access of the hybrid recorder is outside transactions. */
  lemma InsideAccess(c: Config, s: State, t: Tid)
    requires t < |s.thr| == |s.rm.thr| && ThreadInv(c, s, t) && s.rm.thr[t].pc != RM.Start
    ensures s.thr[t].pc.Access?
  {
    hide Local, Sound, OwnVers, OwnWords, Results;
  }

  /** No deadlock: while a thread is not done or a store is not in memory, some thread can take its next step or some
      buffer can drain. */
  lemma ClusterProgress(c: Config, sched: seq<Act>) returns (act: Act)
    requires c.fenced && RM.InBounds(c) && !Finished(Exec(c, sched))
    ensures act.tid < c.w.nthr && (act.Go? || act.Drain?) && Step(c, Exec(c, sched), act).Some?
  {
    var rsched := ClusterRefinesHybrid(c, sched);
    var s := Exec(c, sched);
    RecordProof.ExecInv(c, rsched);
    hide Exec, RM.Exec, Local, Link, RecordProof.Inv;
    if t :| 0 <= t < |s.rm.thr| && s.rm.thr[t].buf != [] {
      act := Drain(t);
    } else {
      var t: Tid :| t < |s.thr| && s.thr[t].pc != Done;
      assert ThreadInv(c, s, t);
      hide Step, RM.Step;
      var u := t;
      if s.thr[t].pc.Access? {
        u := Unblocked(c, s, t);
      } else {
        OnlyAccessBlocks(c, s, t);
      }
      act := Go(u);
    }
  }

  lemma Unblocked(c: Config, s: State, t: Tid) returns (u: Tid)
    requires Inv(c, s) && RecordProof.Inv(c, s.rm) && RM.InBounds(c) && t < |s.thr| && s.thr[t].pc.Access?
    requires forall x | 0 <= x < |s.rm.thr| :: s.rm.thr[x].buf == []
    ensures u < |s.thr| && Step(c, s, Go(u)).Some?
  {
    hide Local, Sound, OwnVers, OwnWords, Step, RM.Step, RecordProof.Inv, Results;
    assert ThreadInv(c, s, t);
    AccessPlain(c, t, s.thr[t]);
    assert s.rm.thr[t].trace == s.thr[t].regs.trace;
    u := RecordProgress.NextToGo(c, s.rm, t);
    assert ThreadInv(c, s, u);
    if u != t { InsideAccess(c, s, u); }
    AccessCanStep(c, s, u);
  }

  // ---------------------------------------------------------------- the work left

  /** Steps of a thread before it touches the shared state. */
  function Rank(th: Thread): int {
    var a := |InBlock(th)|;
    match th.pc
    case Idle => if th.mode.Tx? then 51 - 3 * a else if Blocks.Phase(th.regs.bbcnt) == 0 then 60 else 2
    case TxVersion => 50 - 3 * a
    case TxWord(_) => 49 - 3 * a
    case TxLock(_) => 49 - 3 * a
    case TxEnd(_) => 20
    case Access => 1
    case _ => 0
  }

  function Ranks(thr: seq<Thread>): int {
    if thr == [] then 0 else Ranks(Front(thr)) + Rank(Last(thr))
  }

  /** One piece of the hybrid recorder's work is worth more than a block of private steps. */
  function Work(c: Config, n: nat, s: State): int {
    100 * RecordProgress.Work(c, n, s.rm) + Ranks(s.thr)
  }

  lemma {:induction false} RanksUpdate(thr: seq<Thread>, t: Tid, th: Thread)
    requires t < |thr|
    ensures Ranks(thr[t := th]) == Ranks(thr) + Rank(th) - Rank(thr[t])
  {
    hide Rank;
    var thr' := thr[t := th];
    if t < |thr| - 1 {
      RanksUpdate(Front(thr), t, th);
      assert Front(thr') == Front(thr)[t := th];
    } else {
      assert Front(thr') == Front(thr);
    }
  }

  lemma BlockLength(c: Config, t: Tid, th: Thread)
    requires Local(c, t, th)
    ensures th.mode.Tx? && !th.pc.TxEnd? ==> |InBlock(th)| == |th.regs.trace| - |th.saved.trace| < Blocks.BATCH_N
    ensures th.pc.TxEnd? ==> 0 < |InBlock(th)|
    ensures th.pc.TxVersion? || th.pc.TxWord? || th.pc.TxLock? || th.pc.TxEnd? ==> th.mode.Tx?
    ensures th.pc.Access? || th.pc.Done? ==> th.mode.Plain?
  {
    hide RegsOk, Results, Blocks.Phase, CurrentOp;
  }

  lemma RankBounds(c: Config, t: Tid, th: Thread)
    requires Local(c, t, th)
    ensures 0 <= Rank(th) < 100
  {
    BlockLength(c, t, th);
    hide Local, InBlock, Blocks.Phase;
  }

  // ---------------------------------------------------------------- every step does some of it

  lemma IdleWorks(c: Config, t: Tid, th: Thread)
    requires Local(c, t, th) && th.pc.Idle?
    ensures Rank(IdleStep(c, t, th)) < Rank(th)
  {
    hide Local, CurrentOp, Blocks.Phase, Flushed;
    BlockLength(c, t, th);
    IdleInTx(c, t, th);
    assert InBlock(th.(saved := th.regs)) == [];
  }

  lemma AbortWorks(c: Config, t: Tid, th: Thread)
    requires Local(c, t, th) && th.mode.Tx?
    ensures Rank(Aborted(th)) < Rank(th)
  {
    BlockLength(c, t, th);
    hide Local, InBlock, Blocks.Phase;
  }

  lemma MadeWorks(c: Config, t: Tid, th: Thread, m: Mode, e: Event)
    requires Local(c, t, th) && (th.pc.TxWord? || th.pc.TxLock?) && m.Tx? && e.addr.obj < c.nobj
    ensures Rank(Made(th.(mode := m), e)) < Rank(th)
  {
    hide Local, Blocks.Phase, Recorder.Encode;
    BlockLength(c, t, th);
    MadeBlock(c, t, th, m, e);
    hide InBlock;
  }

  lemma TxWorks(c: Config, rm: RM.State, t: Tid, th: Thread)
    requires t < |rm.thr| && Local(c, t, th) && TxStep(c, rm, t, th).Some?
    ensures Rank(TxStep(c, rm, t, th).value) < Rank(th)
  {
    hide Local, CurrentOp, Rank, Made, Aborted, RM.Load;
    var op, buf, m := CurrentOp(c, t, th), rm.thr[t].buf, th.mode;
    AbortWorks(c, t, th);
    match th.pc
    case TxVersion => VersionWorks(c, t, th, TxVersionStep(rm, buf, th, op));
    case TxWord(v) =>
      var a := op.addr;
      var x := RM.Load(rm, buf, RM.Word(a));
      if a in m.newWords {
        assert th.(mode := m) == th;
        MadeWorks(c, t, th, m, Event(t, false, a, v, m.newWords[a]));
      } else {
        MadeWorks(c, t, th, m.(words := m.words[a := x]), Event(t, false, a, v, x));
      }
    case TxLock(v) =>
      var a, x := op.addr, op.val;
      MadeWorks(c, t, th, Wrote(m, a, x, v, RM.Load(rm, buf, RM.LockOf(a.obj))), Event(t, true, a, v, x));
    case _ =>
  }

  lemma VersionWorks(c: Config, t: Tid, th: Thread, th': Thread)
    requires Local(c, t, th) && th.pc.TxVersion?
    requires th' == Aborted(th) || ((th'.pc.TxWord? || th'.pc.TxLock?) && th' == th.(mode := th'.mode, pc := th'.pc))
    ensures Rank(th') < Rank(th)
  {
    hide Local;
    BlockLength(c, t, th);
    if th' == Aborted(th) { AbortWorks(c, t, th); }
  }

  /** Only thread t moves; it does private work, or work of the hybrid recorder. */
  ghost predicate Pays(c: Config, n: nat, s: State, s': State, t: Tid) {
    && t < |s.thr| == |s'.thr| && s'.thr == s.thr[t := s'.thr[t]]
    && (if s'.rm == s.rm then Rank(s'.thr[t]) < Rank(s.thr[t])
        else RecordProgress.Work(c, n, s'.rm) < RecordProgress.Work(c, n, s.rm))
  }

  lemma PrivatePays(c: Config, n: nat, s: State, act: Act)
    requires Inv(c, s) && Step(c, s, act).Some? && !act.Drain?
    requires act.Go? ==> !s.thr[act.tid].pc.Access? && !s.thr[act.tid].pc.TxEnd?
    ensures Pays(c, n, s, Step(c, s, act).value, act.tid)
  {
    hide Local, Link, Aborted, IdleStep, TxStep, Rank, RecordProgress.Work;
    var t := act.tid;
    var th := s.thr[t];
    assert ThreadInv(c, s, t);
    if act.Abort? {
      AbortWorks(c, t, th);
    } else if th.pc.Idle? {
      IdleWorks(c, t, th);
    } else {
      TxWorks(c, s.rm, t, th);
    }
  }

  lemma AccessPays(c: Config, n: nat, s: State, t: Tid)
    requires Inv(c, s) && t < |s.thr| && s.thr[t].pc.Access? && AccessStep(c, s, t).Some?
    requires |s.rm.thr[t].log.last| == c.nobj
    ensures Pays(c, n, s, AccessStep(c, s, t).value, t)
  {
    AccessKeeps(c, s, t);
    RecordProgress.StepWorks(c, n, s.rm, RM.Go(t));
    hide Inv, Rank, RecordProgress.Work, RM.Step, RM.ReadStep, RM.WriteStep, Added, CurrentOp;
  }

  lemma DrainPays(c: Config, n: nat, s: State, t: Tid)
    requires Step(c, s, Drain(t)).Some?
    ensures Pays(c, n, s, Step(c, s, Drain(t)).value, t)
  {
    hide RM.Step, Rank, RecordProgress.Work;
    RecordProgress.StepWorks(c, n, s.rm, RM.Drain(t));
    assert s.thr == s.thr[t := s.thr[t]];
  }

  /** A commit does the work of single-access transactions; a failed one goes back to the start of the block. */
  lemma EndPays(c: Config, n: nat, s: State, t: Tid, sched: seq<RM.Act>)
    requires c.fenced && RM.InBounds(c) && Bounded(c.w, n) && Inv(c, s) && RM.Exec(c, sched) == s.rm
    requires t < |s.thr| && s.thr[t].pc.TxEnd? && EndStep(c, s, t).Some?
    ensures Pays(c, n, s, EndStep(c, s, t).value, t)
  {
    hide Local, Link, Rank, RecordProgress.Work, InBlock, RM.InBounds, Bounded, RM.Exec, EndStep;
    assert ThreadInv(c, s, t);
    BlockLength(c, t, s.thr[t]);
    AbortWorks(c, t, s.thr[t]);
    var sched' := EndKeeps(c, s, t, sched);
    HybridWorks(c, n, sched, sched');
    EndEffect(c, s, t);
  }

  lemma EndEffect(c: Config, s: State, t: Tid)
    requires t < |s.thr| == |s.rm.thr| && s.thr[t].pc.TxEnd? && EndStep(c, s, t).Some? && InBlock(s.thr[t]) != []
    ensures var s' := EndStep(c, s, t).value;
            && |s'.thr| == |s.thr| && s'.thr == s.thr[t := s'.thr[t]]
            && (s'.rm == s.rm ==> s'.thr[t] == Aborted(s.thr[t]))
  {
    hide InBlock, TxDone, Aborted, Holds, RecordLog.LogAll;
    var s' := EndStep(c, s, t).value;
    assert Holds(s.rm, s.thr[t].mode) ==> |s'.rm.hist| > |s.rm.hist|;
  }

  /** Continuing a run of the hybrid recorder does some of its work, or changes nothing. */
  lemma HybridWorks(c: Config, n: nat, sched: seq<RM.Act>, sched': seq<RM.Act>)
    requires c.fenced && RM.InBounds(c) && Bounded(c.w, n) && sched <= sched'
    ensures RM.Exec(c, sched') == RM.Exec(c, sched)
         || RecordProgress.Work(c, n, RM.Exec(c, sched')) < RecordProgress.Work(c, n, RM.Exec(c, sched))
  {
    hide RecordProgress.Work, Progresses, Run, RM.Init, RM.InBounds, Bounded;
    RecordProgress.RecordingGoesOn(c, n);
    var rest := sched'[|sched|..];
    assert sched + rest == sched';
    StaysOrWorks(RM.StepOf(c), RM.Init(c), RecordProgress.DoneOf(c), RecordProgress.WorkOf(c, n),
                 RecordProgress.Acts(c.w.nthr), sched, rest);
  }

  lemma StepPays(c: Config, n: nat, s: State, act: Act, sched: seq<RM.Act>)
    requires c.fenced && RM.InBounds(c) && Bounded(c.w, n) && Inv(c, s) && RM.Exec(c, sched) == s.rm
    requires Step(c, s, act).Some?
    ensures Pays(c, n, s, Step(c, s, act).value, act.tid)
  {
    hide Pays, AccessStep, EndStep, IdleStep, TxStep, Aborted, RM.Step, RM.Exec, RM.InBounds, Bounded;
    var t := act.tid;
    assert |s.thr| == |s.rm.thr| == c.w.nthr;
    hide Inv;
    if act.Drain? {
      DrainPays(c, n, s, t);
    } else if act.Go? && s.thr[t].pc.Access? {
      LastLength(c, sched, t);
      AccessPays(c, n, s, t);
    } else if act.Go? && s.thr[t].pc.TxEnd? {
      EndPays(c, n, s, t, sched);
    } else {
      PrivatePays(c, n, s, act);
    }
  }

  lemma StepWorks(c: Config, n: nat, s: State, act: Act, sched: seq<RM.Act>)
    requires c.fenced && RM.InBounds(c) && Bounded(c.w, n) && Inv(c, s) && RM.Exec(c, sched) == s.rm
    requires Step(c, s, act).Some?
    ensures Work(c, n, Step(c, s, act).value) < Work(c, n, s)
  {
    hide Step, Rank, RM.Exec, Local, Link, RecordProgress.Work, RM.InBounds, Bounded;
    var s', t := Step(c, s, act).value, act.tid;
    StepPays(c, n, s, act, sched);
    var sched' := StepSimulated(c, s, act, sched);
    assert ThreadInv(c, s, t) && ThreadInv(c, s', t);
    RankBounds(c, t, s.thr[t]);
    RankBounds(c, t, s'.thr[t]);
    RanksUpdate(s.thr, t, s'.thr[t]);
    hide Inv, Ranks;
  }

  lemma {:induction false} RanksNonNegative(c: Config, s: State, k: nat)
    requires Inv(c, s) && k <= |s.thr|
    ensures 0 <= Ranks(s.thr[..k])
  {
    hide Rank, Local, Link;
    if k > 0 {
      RanksNonNegative(c, s, k - 1);
      assert ThreadInv(c, s, k - 1);
      RankBounds(c, k - 1, s.thr[k - 1]);
      assert Front(s.thr[..k]) == s.thr[..k - 1] && Last(s.thr[..k]) == s.thr[k - 1];
    }
  }

  lemma WorkNonNegative(c: Config, n: nat, s: State)
    requires Inv(c, s) && RecordProof.Inv(c, s.rm) && Bounded(c.w, n)
    ensures 0 <= Work(c, n, s)
  {
    hide Inv, RecordProof.Inv, RecordProgress.Work, Ranks, Bounded;
    RecordProgress.StateWork(c, n, s.rm);
    RanksNonNegative(c, s, |s.thr|);
    assert s.thr[..|s.thr|] == s.thr;
  }

  // ---------------------------------------------------------------- fair schedules

  /** Every thread's next instruction and every thread's oldest buffered store; aborts may happen, but need not. */
  ghost function Acts(n: nat): iset<Act> {
    iset act: Act | act.tid < n && (act.Go? || act.Drain?)
  }

  function DoneOf(): State -> bool {
    s => Finished(s)
  }

  function WorkOf(c: Config, n: nat): State -> int {
    s => Work(c, n, s)
  }

  lemma NothingLeft(c: Config, s: State, act: Act)
    requires Inv(c, s) && Finished(s)
    ensures Step(c, s, act).None?
  {
    hide Link, RegsOk, Results;
    if act.tid < |s.thr| {
      assert ThreadInv(c, s, act.tid);
      assert s.thr[act.tid].pc == Done && s.rm.thr[act.tid].buf == [];
    }
  }

  /** Recording always can go on, and only so often. */
  lemma RecordingGoesOn(c: Config, n: nat)
    requires c.fenced && RM.InBounds(c) && Bounded(c.w, n)
    ensures Progresses(StepOf(c), Init(c), DoneOf(), WorkOf(c, n), Acts(c.w.nthr))
  {
    hide Inv, Step, Work, Finished, Init, Run, RecordProof.Inv, RM.InBounds, Bounded;
    forall sched: seq<Act>
      ensures CanGoOn(StepOf(c), DoneOf(), WorkOf(c, n), Acts(c.w.nthr), Run(StepOf(c), Init(c), sched))
    {
      var s := Exec(c, sched);
      assert s == Run(StepOf(c), Init(c), sched);
      var rsched := ClusterRefinesHybrid(c, sched);
      RecordProof.ExecInv(c, rsched);
      WorkNonNegative(c, n, s);
      forall act | Step(c, s, act).Some? ensures Work(c, n, Step(c, s, act).value) < Work(c, n, s) {
        StepWorks(c, n, s, act, rsched);
      }
      if Finished(s) {
        forall act ensures Step(c, s, act).None? { NothingLeft(c, s, act); }
      } else {
        var act := ClusterProgress(c, sched);
        assert act in Acts(c.w.nthr) && StepOf(c)(s, act).Some?;
      }
    }
  }

  /** For programs that end, fair recording ends: from wherever a schedule has led, every continuation in which all
      threads and all buffers get more turns than there is work left completes the recording, whatever aborts. */
  lemma ClusterFairlyFinishes(c: Config, n: nat, sched: seq<Act>, rest: seq<Act>, k: nat)
    requires c.fenced && RM.InBounds(c) && Bounded(c.w, n)
    requires Rounds(Acts(c.w.nthr), rest, k) && Work(c, n, Exec(c, sched)) < k
    ensures Finished(Exec(c, sched + rest))
  {
    hide Work, Rounds, Finished, Step, Progresses, RM.InBounds, Bounded, Run, Init;
    RecordingGoesOn(c, n);
    FairlyDone(StepOf(c), Init(c), DoneOf(), WorkOf(c, n), Acts(c.w.nthr), sched, rest, k);
  }
}
