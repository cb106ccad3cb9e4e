/** The commit-order recorder over the ticket lock refines the one over a queue, and so is serializable. */
module CommitTicketProof {
  import opened Mem
  import opened Blocks
  import opened CommitTicket
  import opened KWay
  import MergeCommit
  import CommitProof
  import CommitTheorems
  import CommitProgress
  import CommitEndToEnd
  import CommitReplayTso
  import CR = CommitRecord
  import TL = TicketLock

  // ---------------------------------------------------------------- the invariant

  /** A thread's part of the lock against what it does in the recorder. */
  predicate Matches(th: CR.Thread, l: TL.Thread, word: nat) {
    && (l.pc.Spin? <==> th.pc.Spin?)
    && (l.pc.Held? || l.pc.Unlocking? <==> th.mode.Locked?)
    && (l.pc.Unlocking? ==> th.pc.Unlock?) && !l.pc.Trying?
    && (l.pending.Some? <==> !th.mode.Locked? && th.buf != [])
    && (th.pc.ReadTime? || th.pc.Commit? ==> TL.Lockable(word))
  }

  predicate Sized(s: State, n: nat) {
    |s.cr.thr| == |s.lk.thr| == |s.seen| == n
  }

  ghost predicate Inv(w: Workload, s: State) {
    && Sized(s, w.nthr) && CommitProof.Inv(w, s.cr) && TL.Inv(s.lk)
    && s.cr.sh.queue == TL.Queue(s.lk)
    && forall t | 0 <= t < w.nthr :: Matches(s.cr.thr[t], s.lk.thr[t], s.seen[t])
  }

  /** What the recorder's invariant says about one thread. */
  lemma ThreadFacts(w: Workload, s: State, t: Tid)
    requires Inv(w, s) && t < w.nthr
    ensures Matches(s.cr.thr[t], s.lk.thr[t], s.seen[t])
    ensures CommitProof.Shape(w, t, s.cr.thr[t]) && CommitProof.InQueue(s.cr.sh.queue, t, s.cr.thr[t])
  {
    hide CommitProof.Shape, CommitProof.InQueue, CommitProof.Ledger, CommitProof.MemInv, TL.Inv, Matches;
    assert CommitProof.ThreadInv(w, s.cr, t);
  }

  /** Only thread t moved, in the recorder and in the lock. */
  lemma Kept(w: Workload, s: State, s': State, t: Tid)
    requires Inv(w, s) && t < w.nthr && Sized(s', w.nthr) && CommitProof.Inv(w, s'.cr) && TL.Inv(s'.lk)
    requires s'.cr.sh.queue == TL.Queue(s'.lk) && Matches(s'.cr.thr[t], s'.lk.thr[t], s'.seen[t])
    requires forall u | 0 <= u < w.nthr && u != t ::
               s'.cr.thr[u] == s.cr.thr[u] && s'.lk.thr[u] == s.lk.thr[u] && s'.seen[u] == s.seen[u]
    ensures Inv(w, s')
  {
    hide CommitProof.Inv, TL.Inv, Matches;
  }

  // ---------------------------------------------------------------- the recorder's own steps

  /** Steps that have nothing to do with the lock. */
  predicate Elsewhere(pc: CR.PC) {
    pc.Idle? || pc.Body? || pc.ReadTime? || pc.LoadTime? || pc.StoreTime? || pc.LogCommit?
  }

  lemma ElsewhereMatches(w: Workload, cr: CR.State, t: Tid, l: TL.Thread, word: nat)
    requires t < |cr.thr| && Elsewhere(cr.thr[t].pc) && CR.Step(w, cr, CR.Go(t)).Some?
    requires CommitProof.Shape(w, t, cr.thr[t]) && Matches(cr.thr[t], l, word)
    ensures var cr' := CR.Step(w, cr, CR.Go(t)).value;
            && |cr'.thr| == |cr.thr| && cr'.thr == cr.thr[t := cr'.thr[t]] && cr'.sh.queue == cr.sh.queue
            && Matches(cr'.thr[t], l, word)
  {
    hide CR.View, Returned, Phase, CR.InBlock;
  }

  lemma AbortMatches(w: Workload, t: Tid, th: CR.Thread, l: TL.Thread, word: nat)
    requires th.mode.Tx? && CommitProof.Shape(w, t, th) && Matches(th, l, word)
    ensures Matches(CR.Aborted(th), l, word)
  {
    hide Returned, Phase;
  }

  /** The queue as a thread with this buffer sees it. */
  lemma ViewQueue(sh: CR.Shared, buf: seq<CR.Store>)
    requires buf == [] || CommitProof.NoFree(buf) || (Last(buf).Free? && CommitProof.NoFree(Front(buf)))
    ensures CR.View(sh, buf).queue == if buf != [] && Last(buf).Free? && sh.queue != [] then sh.queue[1..] else sh.queue
  {
    if buf != [] && Last(buf).Free? {
      assert buf == Front(buf) + [Last(buf)];
      CommitProof.ViewPush(sh, Front(buf), Last(buf));
      CommitProof.NoFreeQueue(sh, Front(buf));
    } else {
      CommitProof.NoFreeQueue(sh, buf);
    }
    hide CR.View;
  }

  /** spin_lockable in a transaction: the ticket lock and the queue agree, also while the thread's own release is
      buffered. */
  lemma SameCheck(w: Workload, s: State, t: Tid)
    requires Inv(w, s) && w.nthr < TL.WRAP && t < w.nthr && s.cr.thr[t].mode.Tx?
    ensures TL.Lockable(TL.Seen(s.lk, t)) <==> CR.View(s.cr.sh, s.cr.thr[t].buf).queue == []
  {
    ThreadFacts(w, s, t);
    hide CommitProof.Shape, CR.View, CommitProof.Inv, TL.Inv, TL.Seen, TL.Lockable;
    ViewQueue(s.cr.sh, s.cr.thr[t].buf);
    TL.SeenLockable(s.lk, t);
  }

  // ---------------------------------------------------------------- simulation

  /** What a step of the lock keeps and does to its queue. */
  lemma LockStep(lk: TL.State, act: TL.Act)
    requires TL.Inv(lk) && |lk.thr| < TL.WRAP && TL.Step(lk, act).Some?
    ensures var lk' := TL.Step(lk, act).value;
            && TL.Inv(lk') && |lk'.thr| == |lk.thr| && lk'.thr == lk.thr[act.tid := lk'.thr[act.tid]]
            && TL.Queue(lk') == TL.NextQueue(TL.Queue(lk), lk, act)
  {
    TL.StepKeeps(lk, act);
    TL.StepQueue(lk, act);
    hide TL.Inv, TL.Ticket, TL.Users, TL.Pack, TL.Succ, TL.TryWord, TL.Queue, TL.NextQueue;
  }

  lemma ElsewhereSimulated(w: Workload, s: State, t: Tid)
    requires Inv(w, s) && t < w.nthr && Elsewhere(s.cr.thr[t].pc) && GoStep(w, s, t).Some?
    ensures CR.Step(w, s.cr, CR.Go(t)) == Some(GoStep(w, s, t).value.cr) && Inv(w, GoStep(w, s, t).value)
  {
    ThreadFacts(w, s, t);
    hide CommitProof.Shape, CommitProof.InQueue, CommitProof.Inv, TL.Inv, TL.Queue, Matches, CR.Step;
    ElsewhereMatches(w, s.cr, t, s.lk.thr[t], s.seen[t]);
    CommitProof.StepKeeps(w, s.cr, CR.Go(t));
    Kept(w, s, GoStep(w, s, t).value, t);
  }

  lemma EnqueueSimulated(w: Workload, s: State, t: Tid)
    requires Inv(w, s) && w.nthr < TL.WRAP && t < w.nthr && s.cr.thr[t].pc.Enqueue? && GoStep(w, s, t).Some?
    ensures CR.Step(w, s.cr, CR.Go(t)) == Some(GoStep(w, s, t).value.cr) && Inv(w, GoStep(w, s, t).value)
  {
    ThreadFacts(w, s, t);
    LockStep(s.lk, TL.Lock(t));
    CommitProof.StepKeeps(w, s.cr, CR.Go(t));
    hide CommitProof.Shape, CommitProof.InQueue, CommitProof.Inv, TL.Inv, TL.Queue, TL.Users, TL.Pack, TL.Ticket,
         TL.Succ;
    assert Matches(GoStep(w, s, t).value.cr.thr[t], GoStep(w, s, t).value.lk.thr[t], s.seen[t]);
    hide Matches;
    Kept(w, s, GoStep(w, s, t).value, t);
  }

  lemma SpinSimulated(w: Workload, s: State, t: Tid)
    requires Inv(w, s) && w.nthr < TL.WRAP && t < w.nthr && s.cr.thr[t].pc.Spin? && GoStep(w, s, t).Some?
    ensures CR.Step(w, s.cr, CR.Go(t)) == Some(GoStep(w, s, t).value.cr) && Inv(w, GoStep(w, s, t).value)
  {
    ThreadFacts(w, s, t);
    LockStep(s.lk, TL.Go(t));
    TL.HeadEnters(s.lk, t);
    hide CommitProof.Inv, TL.Inv, CommitProof.Shape, TL.Users, TL.Pack, TL.Ticket, TL.Succ, CR.View, Returned;
    assert CR.Step(w, s.cr, CR.Go(t)) == Some(GoStep(w, s, t).value.cr);
    CommitProof.StepKeeps(w, s.cr, CR.Go(t));
    assert Matches(GoStep(w, s, t).value.cr.thr[t], GoStep(w, s, t).value.lk.thr[t], s.seen[t]);
    hide Matches, CR.Step, TL.Queue;
    Kept(w, s, GoStep(w, s, t).value, t);
  }

  /** An abort that the recorder over the queue could take as well. */
  lemma AbortSimulated(w: Workload, s: State, t: Tid)
    requires Inv(w, s) && t < w.nthr && s.cr.thr[t].mode.Tx?
    ensures var s' := s.(cr := WithThread(s.cr, t, CR.Aborted(s.cr.thr[t])));
            CR.Step(w, s.cr, CR.Abort(t)) == Some(s'.cr) && Inv(w, s')
  {
    ThreadFacts(w, s, t);
    hide CommitProof.Shape, CommitProof.InQueue, CommitProof.Inv, TL.Inv, TL.Queue, Matches, CR.Aborted;
    AbortMatches(w, t, s.cr.thr[t], s.lk.thr[t], s.seen[t]);
    CommitProof.StepKeeps(w, s.cr, CR.Abort(t));
    Kept(w, s, s.(cr := WithThread(s.cr, t, CR.Aborted(s.cr.thr[t]))), t);
  }

  lemma CheckSimulated(w: Workload, s: State, t: Tid)
    requires Inv(w, s) && w.nthr < TL.WRAP && t < w.nthr && s.cr.thr[t].pc.CheckLock? && GoStep(w, s, t).Some?
    ensures CR.Step(w, s.cr, CR.Go(t)) == Some(GoStep(w, s, t).value.cr) && Inv(w, GoStep(w, s, t).value)
  {
    ThreadFacts(w, s, t);
    assert s.cr.thr[t].mode.Tx?;
    hide CommitProof.Shape, CommitProof.InQueue, CommitProof.Inv, TL.Inv, TL.Queue, TL.Lockable, TL.Seen, CR.View,
         CR.Aborted;
    SameCheck(w, s, t);
    assert CR.Step(w, s.cr, CR.Go(t)) == Some(GoStep(w, s, t).value.cr);
    if TL.Lockable(TL.Seen(s.lk, t)) {
      CommitProof.StepKeeps(w, s.cr, CR.Go(t));
      assert Matches(GoStep(w, s, t).value.cr.thr[t], s.lk.thr[t], TL.Seen(s.lk, t));
      hide Matches, CR.Step;
      Kept(w, s, GoStep(w, s, t).value, t);
    } else {
      AbortSimulated(w, s, t);
    }
  }

  /** A commit: the word the transaction loaded said that the lock was free, and it is still in memory. */
  lemma CommitSimulated(w: Workload, s: State, t: Tid) returns (act: CR.Act)
    requires Inv(w, s) && w.nthr < TL.WRAP && t < w.nthr && s.cr.thr[t].pc.Commit? && GoStep(w, s, t).Some?
    ensures CR.Step(w, s.cr, act) == Some(GoStep(w, s, t).value.cr) && Inv(w, GoStep(w, s, t).value)
  {
    var th := s.cr.thr[t];
    ThreadFacts(w, s, t);
    hide CommitProof.Shape, CommitProof.InQueue, CommitProof.Inv, TL.Inv, TL.Queue, TL.Lockable, CR.Aborted, CR.Holds,
         CR.InBlock;
    if s.lk.u == s.seen[t] && s.cr.sh.time == th.pc.ts && CR.Holds(s.cr.sh.mem, th.mode.loaded) {
      act := CR.Go(t);
      TL.QueueEmpty(s.lk);
      assert CR.Step(w, s.cr, act) == Some(CR.TxCommitted(s.cr, t));
      CommitProof.StepKeeps(w, s.cr, act);
      assert Matches(GoStep(w, s, t).value.cr.thr[t], s.lk.thr[t], s.seen[t]);
      hide Matches, CR.Step;
      Kept(w, s, GoStep(w, s, t).value, t);
    } else {
      act := CR.Abort(t);
      AbortSimulated(w, s, t);
    }
  }

  /** The release: first the ticket is loaded, then its successor is buffered. */
  lemma UnlockSimulated(w: Workload, s: State, t: Tid)
    requires Inv(w, s) && w.nthr < TL.WRAP && t < w.nthr && s.cr.thr[t].pc.Unlock? && GoStep(w, s, t).Some?
    ensures var s' := GoStep(w, s, t).value;
            (s'.cr == s.cr || CR.Step(w, s.cr, CR.Go(t)) == Some(s'.cr)) && Inv(w, s')
  {
    ThreadFacts(w, s, t);
    var s', l := GoStep(w, s, t).value, s.lk.thr[t];
    assert s.cr.thr[t].mode.Locked?;
    hide CommitProof.Shape, CommitProof.InQueue, CommitProof.Inv, TL.Inv, TL.Queue, TL.Ticket, TL.Users, TL.Pack,
         TL.Succ;
    LockStep(s.lk, if l.pc.Held? then TL.Unlock(t) else TL.Go(t));
    if !l.pc.Held? { CommitProof.StepKeeps(w, s.cr, CR.Go(t)); }
    assert Matches(s'.cr.thr[t], s'.lk.thr[t], s.seen[t]);
    assert s'.cr.sh.queue == s.cr.sh.queue;
    hide Matches, CR.Step;
    Kept(w, s, s', t);
  }

  lemma DrainSimulated(w: Workload, s: State, t: Tid)
    requires Inv(w, s) && w.nthr < TL.WRAP && t < w.nthr && Step(w, s, CR.Drain(t)).Some?
    ensures var s' := Step(w, s, CR.Drain(t)).value;
            CR.Step(w, s.cr, CR.Drain(t)) == Some(s'.cr) && Inv(w, s')
  {
    ThreadFacts(w, s, t);
    var s', buf := Step(w, s, CR.Drain(t)).value, s.cr.thr[t].buf;
    if buf[0].Free? {
      assert |buf| == 1 && !s.cr.thr[t].mode.Locked?;
      LockStep(s.lk, TL.Drain(t));
    }
    CommitProof.StepKeeps(w, s.cr, CR.Drain(t));
    hide CommitProof.Shape, CommitProof.Inv, TL.Inv, TL.Users, TL.Pack, TL.Queue;
    assert Matches(s'.cr.thr[t], s'.lk.thr[t], s.seen[t]);
    hide Matches, CommitProof.InQueue;
    Kept(w, s, s', t);
  }

  /** Every step is one of the recorder over the queue, or only a load of the ticket. */
  lemma StepSimulated(w: Workload, s: State, act: CR.Act, sched: seq<CR.Act>) returns (sched': seq<CR.Act>)
    requires Inv(w, s) && w.nthr < TL.WRAP && Step(w, s, act).Some? && CR.Exec(w, sched) == s.cr
    ensures Inv(w, Step(w, s, act).value) && CR.Exec(w, sched') == Step(w, s, act).value.cr
  {
    var t, s' := act.tid, Step(w, s, act).value;
    assert t < w.nthr;
    var act' := act;
    hide Inv, CR.Step, CR.Exec, TL.Step, CR.Aborted;
    if act.Drain? {
      DrainSimulated(w, s, t);
    } else if act.Abort? {
      AbortStep(w, s, t);
      AbortSimulated(w, s, t);
    } else {
      match s.cr.thr[t].pc
      case Enqueue => EnqueueSimulated(w, s, t);
      case Spin => SpinSimulated(w, s, t);
      case CheckLock => CheckSimulated(w, s, t);
      case Commit(_) => act' := CommitSimulated(w, s, t);
      case Unlock(_) => UnlockSimulated(w, s, t);
      case _ => NotStuck(w, s.cr, t); ElsewhereSimulated(w, s, t);
    }
    sched' := if s'.cr == s.cr then sched else sched + [act'];
    if s'.cr != s.cr { OneMore(w, sched, act'); }
  }

  lemma AbortStep(w: Workload, s: State, t: Tid)
    requires Step(w, s, CR.Abort(t)).Some?
    ensures t < |s.cr.thr| && s.cr.thr[t].mode.Tx?
    ensures Step(w, s, CR.Abort(t)).value == s.(cr := WithThread(s.cr, t, CR.Aborted(s.cr.thr[t])))
  {
  }

  lemma NotStuck(w: Workload, cr: CR.State, t: Tid)
    requires t < |cr.thr| && CR.Step(w, cr, CR.Go(t)).Some?
    requires !cr.thr[t].pc.Enqueue? && !cr.thr[t].pc.Spin? && !cr.thr[t].pc.CheckLock? && !cr.thr[t].pc.Commit?
    requires !cr.thr[t].pc.Unlock?
    ensures Elsewhere(cr.thr[t].pc)
  {
  }

  lemma OneMore(w: Workload, sched: seq<CR.Act>, act: CR.Act)
    requires CR.Step(w, CR.Exec(w, sched), act).Some?
    ensures CR.Exec(w, sched + [act]) == CR.Step(w, CR.Exec(w, sched), act).value
  {
    hide CR.Step;
    assert Front(sched + [act]) == sched;
  }

  lemma InitInv(w: Workload)
    ensures Inv(w, Init(w))
  {
    CommitProof.InitInv(w);
    hide CommitProof.Inv;
  }

  /** Refinement: below 65536 threads every run over the ticket lock is a run over the queue. */
  lemma {:induction false} TicketRefinesQueue(w: Workload, sched: seq<CR.Act>) returns (rsched: seq<CR.Act>)
    requires w.nthr < TL.WRAP
    ensures Inv(w, Exec(w, sched)) && CR.Exec(w, rsched) == Exec(w, sched).cr
  {
    hide Inv, Step, CR.Step;
    if sched == [] {
      rsched := [];
      InitInv(w);
    } else {
      rsched := TicketRefinesQueue(w, Front(sched));
      var s := Exec(w, Front(sched));
      if Step(w, s, Last(sched)).Some? { rsched := StepSimulated(w, s, Last(sched), rsched); }
    }
  }

  // ---------------------------------------------------------------- what follows

  /** Serializability of the recorder over the ticket lock: the blocks in the order of their timestamps are a run of the
      program with the same values, and memory is what they leave whenever the lock word says that the lock is free. */
  lemma TicketCommitSerializable(w: Workload, sched: seq<CR.Act>)
    requires w.nthr < TL.WRAP
    ensures var s := Exec(w, sched);
            && |s.cr.thr| == w.nthr && Serial(w, s.cr.hist)
            && (forall t | 0 <= t < w.nthr ::
                  && s.cr.thr[t].pc != CR.Failed
                  && (CommitTheorems.AtBlockStart(s.cr.thr[t]) ==> !s.cr.thr[t].mode.Tx?)
                  && Committed(s.cr.hist, t) <= s.cr.thr[t].regs.trace
                  && |s.cr.thr[t].regs.trace| <= |Committed(s.cr.hist, t)| + BATCH_N
                  && s.cr.thr[t].log <= Times(s.cr.hist, t) && |Times(s.cr.hist, t)| <= |s.cr.thr[t].log| + 1)
            && (TL.Lockable(s.lk.u) ==> s.cr.sh.mem == MemOf(w.init, s.cr.hist) && s.cr.sh.time == |s.cr.hist|)
  {
    var rsched := TicketRefinesQueue(w, sched);
    CommitTheorems.CommitSerializable(w, rsched);
    TL.QueueEmpty(Exec(w, sched).lk);
    hide Exec, CR.Exec, CommitProof.Inv, TL.Inv;
  }

  /** Record commit order over the ticket lock, merge the logs, replay: every replay repeats the recording. */
  lemma TicketRecordThenReplay(w: Workload, recording: seq<CR.Act>, out: seq<Tagged<nat>>,
                               replaying: seq<CommitReplayTso.Act>)
    requires w.nthr < TL.WRAP && Finished(Exec(w, recording))
    requires Merged(MergeCommit.NotAfter, CommitEndToEnd.CommitFiles(Exec(w, recording).cr), out)
    ensures CommitEndToEnd.Repeats(w, Exec(w, recording).cr, MergeCommit.Tids(out), replaying)
  {
    var rsched := TicketRefinesQueue(w, recording);
    hide Inv, Exec, CR.Exec, Merged, CommitEndToEnd.Repeats;
    CommitEndToEnd.CommitRecordThenReplay(w, rsched, out, replaying);
  }

  /** No deadlock over the ticket lock. */
  lemma TicketProgress(w: Workload, sched: seq<CR.Act>) returns (act: CR.Act)
    requires w.nthr < TL.WRAP && !Finished(Exec(w, sched))
    ensures (act.Go? || act.Drain?) && Step(w, Exec(w, sched), act).Some?
  {
    var rsched := TicketRefinesQueue(w, sched);
    var s := Exec(w, sched);
    hide Exec, CR.Exec, Step;
    act := CommitProgress.CommitProgress(w, rsched);
    StepEnabled(w, s, act);
  }

  lemma StepEnabled(w: Workload, s: State, act: CR.Act)
    requires Inv(w, s) && w.nthr < TL.WRAP && CR.Step(w, s.cr, act).Some? && !act.Abort?
    ensures Step(w, s, act).Some?
  {
    var t := act.tid;
    assert t < |s.cr.thr|;
    ThreadFacts(w, s, t);
    var th := s.cr.thr[t];
    if act.Go? && th.pc.Spin? { TL.HeadEnters(s.lk, t); }
    assert act.Go? && th.pc.Unlock? ==> th.mode.Locked?;
    assert act.Drain? && th.buf[0].Free? ==> !th.mode.Locked?;
    hide CommitProof.Inv, TL.Inv, CommitProof.Shape, CommitProof.InQueue, CR.View, TL.Ticket, TL.Users, TL.Pack,
    TL.Succ,
         Returned, CR.Holds, CR.InBlock, CR.Aborted;
  }
}
