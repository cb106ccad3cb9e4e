/** What the commit-order recorder guarantees about every run. */
module CommitTheorems {
  import opened Mem
  import opened Blocks
  import opened CommitRecord
  import opened CommitProof

  /** About to call bb_start, which asserts that no transaction is running. */
  predicate AtBlockStart(th: Thread) {
    th.pc.Idle? && th.regs.bbcnt % 7 == 0
  }

  /** Serializability: in every reachable state, whatever transactions, aborts and fallback blocks it took to
      get there, the blocks that have a timestamp, run one at a time in the order of their timestamps,
      are a run of the workload; every thread has made exactly the accesses of its blocks, with the same
      values, followed by those of the block it is in; g_time is the number of blocks; and no block begins inside a
      transaction. */
  lemma CommitSerializable(w: Workload, sched: seq<Act>)
    ensures var s := Exec(w, sched);
            && |s.thr| == w.nthr && Serial(w, s.hist)
            && (forall t | 0 <= t < w.nthr ::
                  && s.thr[t].pc != Failed && (AtBlockStart(s.thr[t]) ==> !s.thr[t].mode.Tx?)
                  && Committed(s.hist, t) <= s.thr[t].regs.trace
                  && |s.thr[t].regs.trace| <= |Committed(s.hist, t)| + BATCH_N
                  && s.thr[t].log <= Times(s.hist, t) && |Times(s.hist, t)| <= |s.thr[t].log| + 1)
            && (s.sh.queue == [] ==> s.sh.mem == MemOf(w.init, s.hist) && s.sh.time == |s.hist|)
  {
    ExecInv(w, sched);
    var s := Exec(w, sched);
    hide Serial;
    forall t | 0 <= t < w.nthr
      ensures s.thr[t].pc != Failed && (AtBlockStart(s.thr[t]) ==> !s.thr[t].mode.Tx?)
              && Committed(s.hist, t) <= s.thr[t].regs.trace
              && |s.thr[t].regs.trace| <= |Committed(s.hist, t)| + BATCH_N
              && s.thr[t].log <= Times(s.hist, t) && |Times(s.hist, t)| <= |s.thr[t].log| + 1
    {
      assert ThreadInv(w, s, t);
      hide Committed, Times, Phase;
    }
    if s.sh.queue == [] { assert MemOk(w, s.sh, s.hist, [], []); }
  }

  /** At the end the threads' accesses, their logs and memory are those of the serial run. */
  lemma CommitFinishes(w: Workload, sched: seq<Act>)
    requires Finished(Exec(w, sched))
    ensures var s := Exec(w, sched);
            && |s.thr| == w.nthr && Serial(w, s.hist) && Complete(w, s.hist)
            && (forall t | 0 <= t < w.nthr ::
                  s.thr[t].regs.trace == Committed(s.hist, t) && s.thr[t].log == Times(s.hist, t))
            && s.sh.mem == MemOf(w.init, s.hist) && s.sh.time == |s.hist|
  {
    ExecInv(w, sched);
    var s := Exec(w, sched);
    hide Serial, Returned;
    assert s.sh.queue != [] ==> s.sh.queue[0] in s.sh.queue;
    forall t | 0 <= t < w.nthr
      ensures s.thr[t].regs.trace == Committed(s.hist, t) && s.thr[t].log == Times(s.hist, t)
              && w.prog(t, Returned(Committed(s.hist, t))) == Stop && t !in s.sh.queue
    {
      assert ThreadInv(w, s, t);
      assert s.thr[t].pc == Done;
      hide Committed, Times;
    }
    assert MemOk(w, s.sh, s.hist, [], []);
  }

  /** The timestamps in the finished logs are exactly 0 .. n-1, each in one log, where each log increases. */
  lemma TimestampsExact(w: Workload, sched: seq<Act>, t: Tid, ts: nat)
    requires Finished(Exec(w, sched)) && t < |Exec(w, sched).thr|
    ensures var s := Exec(w, sched);
            && s.sh.time == |s.hist|
            && (ts in s.thr[t].log <==> ts < |s.hist| && s.hist[ts].tid == t)
            && (forall i, j | 0 <= i < j < |s.thr[t].log| :: s.thr[t].log[i] < s.thr[t].log[j])
  {
    CommitFinishes(w, sched);
    TimesExact(Exec(w, sched).hist, t, ts);
    TimesIncrease(Exec(w, sched).hist, t);
  }

  /** The block size: a finished thread with n accesses has one timestamp for every seven of them, the last one possibly
      for fewer, and only its last block has fewer than seven. */
  lemma BlockSizes(w: Workload, sched: seq<Act>, t: Tid)
    requires Finished(Exec(w, sched)) && t < w.nthr
    ensures var s := Exec(w, sched);
            && |s.thr| == w.nthr && |s.thr[t].log| == (|s.thr[t].regs.trace| + 6) / 7
            && (forall i, j | 0 <= i < j < |s.hist| && s.hist[i].tid == s.hist[j].tid == t ::
                  |s.hist[i].accs| == 7 && 0 < |s.hist[j].accs| <= 7)
  {
    CommitFinishes(w, sched);
    var s := Exec(w, sched);
    hide *;
    BlockCount(w, s.hist, t);
    forall i, j | 0 <= i < j < |s.hist| && s.hist[i].tid == s.hist[j].tid == t
      ensures |s.hist[i].accs| == 7 && 0 < |s.hist[j].accs| <= 7
    {
      if |s.hist[i].accs| != 7 { ShortIsLast(w, s.hist, t, i, j); }
      BlockAccesses(w, s.hist, j);
    }
  }

  lemma BlockAccesses(w: Workload, h: seq<Block>, i: nat)
    requires Serial(w, h) && i < |h|
    ensures 0 < |h[i].accs| <= 7
  {
    SerialAt(w, h, i);
    NextSizes(w, h[..i], h[i]);
  }

  /** Fallback blocks exclude each other, and no stores but those of the lock holder are on their way to memory. */
  lemma FallbackExclusive(w: Workload, sched: seq<Act>, t: Tid, u: Tid)
    requires var s := Exec(w, sched);
             && t < |s.thr| && u < |s.thr| && s.thr[t].mode.Locked?
             && (s.thr[u].mode.Locked? || s.thr[u].buf != [])
    ensures t == u
  {
    ExecInv(w, sched);
    assert ThreadInv(w, Exec(w, sched), t) && ThreadInv(w, Exec(w, sched), u);
  }
}
