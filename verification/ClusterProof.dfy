/** Every run of the cluster recorder is a run of the hybrid recorder, its queue is in step with its blocks, and
    its logs are the ones the seqlock recorder takes. */
module ClusterProof {
  import opened Mem
  import opened RecordLog
  import opened ClusterRecord
  import opened ClusterSim
  import Blocks
  import Recorder
  import RecordTheorems
  import RM = RecordModel

  // ---------------------------------------------------------------- the queue

  /** The logs taken so far and the queued accesses together cover the accesses `tr`, and the queue is as long as
      the block is. */
  predicate RegsOk(c: Config, r: Regs, tr: seq<Event>) {
    && InRange(c.nobj, tr) && |r.log.last| == c.nobj && Recorder.Fits(c.nobj, r.queue)
    && |tr| == r.bbcnt && |r.queue| == Blocks.Phase(r.bbcnt)
    && Recorder.Drain(r.log, r.queue) == BatchAll(c.nobj, tr)
  }

  lemma BatchOneMore(nobj: nat, tr: seq<Event>, e: Event)
    requires InRange(nobj, tr) && e.addr.obj < nobj
    ensures InRange(nobj, tr + [e])
    ensures BatchAll(nobj, tr + [e]) == LogBatched(BatchAll(nobj, tr), e.write, e.addr.obj, e.version)
  {
    assert Front(tr + [e]) == tr;
  }

  lemma PhaseSucc(n: nat)
    ensures Blocks.Phase(n + 1) == if Blocks.Phase(n) == Blocks.BATCH_N - 1 then 0 else Blocks.Phase(n) + 1
  {
  }

  /** Inside a block. */
  lemma QueuedOk(c: Config, r: Regs, tr: seq<Event>, e: Event)
    requires RegsOk(c, r, tr) && e.addr.obj < c.nobj
    ensures var r1 := Queued(r, e);
            && InRange(c.nobj, tr + [e]) && |r1.log.last| == c.nobj && Recorder.Fits(c.nobj, r1.queue)
            && Recorder.Drain(r1.log, r1.queue) == BatchAll(c.nobj, tr + [e])
            && |r1.queue| == Blocks.Phase(r.bbcnt) + 1
    ensures Blocks.Phase(r.bbcnt) != Blocks.BATCH_N - 1 ==>
            RegsOk(c, Queued(r, e).(bbcnt := r.bbcnt + 1), tr + [e]) && !Full(Queued(r, e))
  {
    hide Recorder.Drain, BatchAll, Blocks.Phase, Recorder.Encode, Recorder.Fits, InRange, LogBatched;
    Recorder.DrainOneMore(r.log, r.queue, e.write, e.addr.obj, e.version);
    BatchOneMore(c.nobj, tr, e);
    PhaseSucc(r.bbcnt);
  }

  /** Outside transactions, also at the end of a block. */
  lemma AddedOk(c: Config, r: Regs, tr: seq<Event>, e: Event)
    requires RegsOk(c, r, tr) && e.addr.obj < c.nobj
    ensures RegsOk(c, Added(r, e), tr + [e])
  {
    QueuedOk(c, r, tr, e);
    PhaseSucc(r.bbcnt);
    FlushedOk(c, Queued(r, e), tr + [e]);
    hide Recorder.Drain, BatchAll, Recorder.Encode;
  }

  lemma FlushedOk(c: Config, r: Regs, tr: seq<Event>)
    requires InRange(c.nobj, tr) && |r.log.last| == c.nobj && Recorder.Fits(c.nobj, r.queue)
    requires Recorder.Drain(r.log, r.queue) == BatchAll(c.nobj, tr)
    ensures var r1 := Flushed(r);
            && r1.log == BatchAll(c.nobj, tr) && r1.queue == [] && r1 == r.(log := r1.log, queue := [])
            && Recorder.Fits(c.nobj, []) && Recorder.Drain(r1.log, []) == BatchAll(c.nobj, tr)
  {
  }

  // ---------------------------------------------------------------- the invariant

  predicate InTx(pc: PC) {
    pc.TxVersion? || pc.TxWord? || pc.TxLock? || pc.TxEnd?
  }

  /** The thread's private state. */
  predicate Local(c: Config, t: Tid, th: Thread) {
    var n, k := |th.regs.trace|, |th.saved.trace|;
    && th.pc != Failed
    && (InTx(th.pc) ==> th.mode.Tx?) && (th.pc.Access? || th.pc.Done? ==> th.mode.Plain?)
    && (if th.pc.Done? then
          && CurrentOp(c, t, th).Stop? && InRange(c.nobj, th.regs.trace)
          && th.regs.log == BatchAll(c.nobj, th.regs.trace)
        else if th.pc == TxEnd(false) then
          && n > 0 && RegsOk(c, th.regs, Front(th.regs.trace)) && Last(th.regs.trace).addr.obj < c.nobj
          && Blocks.Phase(th.regs.bbcnt) == Blocks.BATCH_N - 1
        else RegsOk(c, th.regs, th.regs.trace))
    && (th.pc == TxEnd(true) ==> CurrentOp(c, t, th).Stop?)
    && (th.pc.Access? || th.pc.TxVersion? || th.pc.TxWord? || th.pc.TxLock? ==> !CurrentOp(c, t, th).Stop?)
    && (th.pc.TxWord? ==> CurrentOp(c, t, th).Read?) && (th.pc.TxLock? ==> CurrentOp(c, t, th).Write?)
    && (th.mode.Tx? ==> !c.w.prog(t, Results(th.saved.trace)).Stop?)
    && (th.pc.Idle? && th.mode.Tx? ==> 0 < n - k < Blocks.BATCH_N) && (th.pc.TxEnd? ==> 0 < n - k)
    && (th.mode.Tx? && !th.pc.TxEnd? ==> n - k < Blocks.BATCH_N)
    && (th.mode.Tx? ==> th.regs.log == th.saved.log)
    && (th.mode.Tx? ==> th.saved.trace <= th.regs.trace && Blocks.Phase(k) == 0 && RegsOk(c, th.saved, th.saved.trace))
  }

  /** The thread against the shared state. */
  predicate Link(c: Config, t: Tid, rth: RM.Thread, th: Thread) {
    match th.mode
    case Plain => rth.trace == th.regs.trace && (!th.pc.Access? ==> rth.pc == RM.Start)
    case Tx(_, _, _, newVers, newWords) =>
      && rth.trace == th.saved.trace && rth.pc == RM.Start
      && Sound(c, t, th.saved.trace, th.mode, InBlock(th)) && newVers == OwnVers(InBlock(th))
          && newWords == OwnWords(InBlock(th))
      && (th.pc.TxWord? || th.pc.TxLock? ==>
            && !CurrentOp(c, t, th).Stop?
            && SeesVersion(th.mode, InBlock(th), CurrentOp(c, t, th).addr.obj, th.pc.v))
      && (th.pc.TxWord? ==> th.pc.v % 2 == 0)
  }

  predicate ThreadInv(c: Config, s: State, t: Tid)
    requires t < |s.thr| == |s.rm.thr|
  {
    Local(c, t, s.thr[t]) && Link(c, t, s.rm.thr[t], s.thr[t])
  }

  ghost predicate Inv(c: Config, s: State) {
    |s.thr| == |s.rm.thr| == c.w.nthr && forall t | 0 <= t < |s.thr| :: ThreadInv(c, s, t)
  }

  // ---------------------------------------------------------------- steps of one thread

  lemma IdleOk(c: Config, t: Tid, rth: RM.Thread, th: Thread)
    requires Local(c, t, th) && Link(c, t, rth, th) && th.pc.Idle?
    ensures Local(c, t, IdleStep(c, t, th)) && Link(c, t, rth, IdleStep(c, t, th))
  {
    hide Local, Link;
    IdleLocal(c, t, th);
    IdleLink(c, t, rth, th);
  }

  lemma IdleLocal(c: Config, t: Tid, th: Thread)
    requires Local(c, t, th) && th.pc.Idle?
    ensures Local(c, t, IdleStep(c, t, th))
  {
    if th.mode.Tx? { Blocks.PhaseInBlock(|th.saved.trace|, |th.regs.trace|); }
    FlushedOk(c, th.regs, th.regs.trace);
    hide Recorder.Drain, BatchAll, Blocks.Phase, Results, Flushed, Recorder.Fits, InRange;
  }

  lemma IdleLink(c: Config, t: Tid, rth: RM.Thread, th: Thread)
    requires Local(c, t, th) && Link(c, t, rth, th) && th.pc.Idle?
    ensures Link(c, t, rth, IdleStep(c, t, th))
  {
    hide RegsOk, Blocks.Phase, Results, Sound, OwnVers, OwnWords, Recorder.Drain, Recorder.Fits;
    assert InBlock(th.(saved := th.regs)) == [];
    NothingSound(c, t, th.regs.trace, Tx(map[], map[], map[], map[], map[]));
    assert th.mode.Tx? ==> Blocks.Phase(th.regs.bbcnt) != 0 by { IdleInTx(c, t, th); }
    hide Local;
  }

  lemma IdleInTx(c: Config, t: Tid, th: Thread)
    requires Local(c, t, th) && th.pc.Idle?
    ensures th.mode.Tx? ==> Blocks.Phase(th.regs.bbcnt) != 0
  {
    if th.mode.Tx? { Blocks.PhaseInBlock(|th.saved.trace|, |th.regs.trace|); }
    hide Recorder.Drain, BatchAll, Blocks.Phase, Results, Recorder.Fits, InRange, CurrentOp;
  }

  lemma NothingSound(c: Config, t: Tid, before: seq<Event>, m: Mode)
    requires m.Tx?
    ensures Sound(c, t, before, m, []) && OwnVers([]) == map[] && OwnWords([]) == map[]
  {
  }

  lemma AbortedOk(c: Config, t: Tid, rth: RM.Thread, th: Thread)
    requires Local(c, t, th) && Link(c, t, rth, th) && th.mode.Tx?
    ensures Local(c, t, Aborted(th)) && Link(c, t, rth, Aborted(th))
  {
    hide RegsOk, Blocks.Phase, Results, Sound, OwnVers, OwnWords;
  }

  /** The transaction has loaded more. */
  predicate Extends(m: Mode, m': Mode) {
    && m.Tx? && m'.Tx?
    && (forall o | o in m.vers :: o in m'.vers && m'.vers[o] == m.vers[o])
    && (forall a | a in m.words :: a in m'.words && m'.words[a] == m.words[a])
    && (forall o | o in m.locks :: o in m'.locks && m'.locks[o] == m.locks[o])
  }

  lemma {:induction false} SoundMore(c: Config, t: Tid, before: seq<Event>, m: Mode, m': Mode, accs: seq<Event>)
    requires Extends(m, m') && Sound(c, t, before, m, accs)
    ensures Sound(c, t, before, m', accs)
  {
    if accs != [] {
      SoundMore(c, t, before, m, m', Front(accs));
      hide OwnVers, OwnWords, Results;
    }
  }

  lemma SoundOneMore(c: Config, t: Tid, before: seq<Event>, m: Mode, accs: seq<Event>, e: Event)
    requires m.Tx? && Sound(c, t, before, m, accs) && Sound1(c, t, before, m, accs, e)
    ensures Sound(c, t, before, m, accs + [e])
  {
    assert Front(accs + [e]) == accs;
  }

  lemma MadeLocal(c: Config, t: Tid, th: Thread, th1: Thread, e: Event)
    requires Local(c, t, th) && (th.pc.TxWord? || th.pc.TxLock?) && th1 == th.(mode := th1.mode) && th1.mode.Tx?
    requires e.addr.obj < c.nobj
    ensures Local(c, t, Made(th1, e))
  {
    hide Recorder.Drain, BatchAll, Results, Recorder.Encode, Recorder.Fits, InRange;
    var n, k := |th.regs.trace|, |th.saved.trace|;
    Blocks.PhaseInBlock(k, n);
    hide Blocks.Phase;
    QueuedOk(c, th.regs.(trace := th.regs.trace + [e]), th.regs.trace, e);
    assert Front(th.regs.trace + [e]) == th.regs.trace && Last(th.regs.trace + [e]) == e;
  }

  lemma MadeLink(c: Config, t: Tid, rth: RM.Thread, th: Thread, m: Mode, e: Event)
    requires Local(c, t, th) && Link(c, t, rth, th) && th.mode.Tx? && Extends(th.mode, m)
    requires Sound1(c, t, th.saved.trace, m, InBlock(th), e)
    requires m.newVers == OwnVers(InBlock(th) + [e]) && m.newWords == OwnWords(InBlock(th) + [e])
    ensures Link(c, t, rth, Made(th.(mode := m), e))
  {
    MadeBlock(c, t, th, m, e);
    SoundMore(c, t, th.saved.trace, th.mode, m, InBlock(th));
    SoundOneMore(c, t, th.saved.trace, m, InBlock(th), e);
    hide Sound, Sound1, OwnVers, OwnWords, Local, InBlock, Made, Results;
  }

  lemma MadeBlock(c: Config, t: Tid, th: Thread, m: Mode, e: Event)
    requires Local(c, t, th) && th.mode.Tx?
    ensures var th' := Made(th.(mode := m), e);
            && InBlock(th') == InBlock(th) + [e] && th'.saved == th.saved && th'.mode == m
            && !th'.pc.TxWord? && !th'.pc.TxLock?
  {
    hide RegsOk, Blocks.Phase, Full;
  }

  lemma BlockOf(c: Config, t: Tid, th: Thread)
    requires Local(c, t, th) && th.mode.Tx?
    ensures th.saved.trace + InBlock(th) == th.regs.trace
  {
    hide RegsOk, Results, Blocks.Phase, CurrentOp;
  }

  lemma LoadedLocal(c: Config, t: Tid, th: Thread, m: Mode, pc: PC)
    requires Local(c, t, th) && th.pc.TxVersion? && m.Tx? && (pc.TxWord? || pc.TxLock?)
    requires if pc.TxWord? then CurrentOp(c, t, th).Read? else CurrentOp(c, t, th).Write?
    ensures Local(c, t, th.(mode := m, pc := pc))
  {
    hide RegsOk, Results, Blocks.Phase;
  }

  lemma LoadedLink(c: Config, t: Tid, rth: RM.Thread, th: Thread, m: Mode, pc: PC)
    requires Link(c, t, rth, th) && th.mode.Tx? && !CurrentOp(c, t, th).Stop?
    requires Extends(th.mode, m) && m.newVers == th.mode.newVers && m.newWords == th.mode.newWords
    requires (pc.TxWord? || pc.TxLock?) && (pc.TxWord? ==> pc.v % 2 == 0)
    requires var o := CurrentOp(c, t, th).addr.obj;
             if o in m.newVers then m.newVers[o] == pc.v else o in m.vers && m.vers[o] == pc.v
    ensures Link(c, t, rth, th.(mode := m, pc := pc))
  {
    SoundMore(c, t, th.saved.trace, th.mode, m, InBlock(th));
    assert InBlock(th.(mode := m, pc := pc)) == InBlock(th);
    hide Sound, OwnVers, OwnWords, Results, InBlock;
  }

  lemma TxVersionOk(c: Config, t: Tid, rm: RM.State, buf: seq<RM.Pending>, rth: RM.Thread, th: Thread)
    requires Local(c, t, th) && Link(c, t, rth, th) && th.pc.TxVersion? && !CurrentOp(c, t, th).Stop?
    ensures th.mode.Tx?
    ensures var th' := TxVersionStep(rm, buf, th, CurrentOp(c, t, th)); Local(c, t, th') && Link(c, t, rth, th')
  {
    assert th.mode.Tx?;
    hide Local, Link, Aborted, RM.Load, CurrentOp;
    var op := CurrentOp(c, t, th);
    var th' := TxVersionStep(rm, buf, th, op);
    if th' == Aborted(th) {
      AbortedOk(c, t, rth, th);
    } else {
      LoadedLocal(c, t, th, th'.mode, th'.pc);
      LoadedLink(c, t, rth, th, th'.mode, th'.pc);
    }
  }

  lemma TxMode(c: Config, t: Tid, th: Thread)
    requires Local(c, t, th) && InTx(th.pc)
    ensures th.mode.Tx?
  {
    hide RegsOk, Results, Blocks.Phase;
  }

  /** The word the transaction reads is one its loads and stores explain. */
  lemma WordSound(c: Config, t: Tid, rth: RM.Thread, th: Thread, m: Mode, e: Event)
    requires Local(c, t, th) && Link(c, t, rth, th) && th.pc.TxWord? && CurrentOp(c, t, th) == Read(e.addr)
    requires e.addr.obj < c.nobj
    requires e == Event(t, false, e.addr, th.pc.v, e.val)
    requires if e.addr in th.mode.newWords then m == th.mode && e.val == th.mode.newWords[e.addr]
             else
               && m == th.mode.(words := th.mode.words[e.addr := e.val])
               && (e.addr in th.mode.words ==> th.mode.words[e.addr] == e.val)
    ensures Extends(th.mode, m) && Sound1(c, t, th.saved.trace, m, InBlock(th), e)
    ensures m.newVers == OwnVers(InBlock(th) + [e]) && m.newWords == OwnWords(InBlock(th) + [e])
  {
    hide Local, Sound, OwnVers, OwnWords, Results, InBlock;
    TxMode(c, t, th);
    BlockOf(c, t, th);
    OwnOneMore(InBlock(th), e);
    assert SameOp(e, c.w.prog(t, Results(th.saved.trace + InBlock(th))));
  }

  lemma TxWordOk(c: Config, t: Tid, rm: RM.State, buf: seq<RM.Pending>, rth: RM.Thread, th: Thread, a: Addr)
    requires Local(c, t, th) && Link(c, t, rth, th) && th.pc.TxWord? && CurrentOp(c, t, th) == Read(a) && a.obj < c.nobj
    ensures var th' := TxWordStep(rm, buf, t, th, a, th.pc.v); Local(c, t, th') && Link(c, t, rth, th')
  {
    assert th.mode.Tx?;
    hide Local, Link, Extends, Sound1, OwnVers, OwnWords, Made, Aborted, InBlock, RM.Load, CurrentOp;
    var m, x := th.mode, RM.Load(rm, buf, RM.Word(a));
    if a !in m.newWords && a in m.words && m.words[a] != x {
      AbortedOk(c, t, rth, th);
    } else {
      var m' := if a in m.newWords then m else m.(words := m.words[a := x]);
      var e := Event(t, false, a, th.pc.v, if a in m.newWords then m.newWords[a] else x);
      assert a in m.newWords ==> th.(mode := m') == th;
      WordSound(c, t, rth, th, m', e);
      MadeLocal(c, t, th, th.(mode := m'), e);
      MadeLink(c, t, rth, th, m', e);
    }
  }

  lemma StoreSound(c: Config, t: Tid, rth: RM.Thread, th: Thread, m: Mode, e: Event)
    requires Local(c, t, th) && Link(c, t, rth, th) && th.pc.TxLock? && CurrentOp(c, t, th) == Write(e.addr, e.val)
    requires e.addr.obj < c.nobj
    requires e == Event(t, true, e.addr, th.pc.v, e.val)
    requires th.mode.Tx? && m == Wrote(th.mode, e.addr, e.val, e.version, 0)
    requires e.addr.obj in th.mode.locks ==> th.mode.locks[e.addr.obj] == 0
    ensures Extends(th.mode, m) && Sound1(c, t, th.saved.trace, m, InBlock(th), e)
    ensures m.newVers == OwnVers(InBlock(th) + [e]) && m.newWords == OwnWords(InBlock(th) + [e])
  {
    hide Local, Sound, OwnVers, OwnWords, Results, InBlock;
    TxMode(c, t, th);
    BlockOf(c, t, th);
    OwnOneMore(InBlock(th), e);
    assert SameOp(e, c.w.prog(t, Results(th.saved.trace + InBlock(th))));
  }

  lemma TxLockOk(c: Config, t: Tid, rm: RM.State, buf: seq<RM.Pending>, rth: RM.Thread, th: Thread, a: Addr, x: Value)
    requires Local(c, t, th) && Link(c, t, rth, th) && th.pc.TxLock? && CurrentOp(c, t, th) == Write(a, x)
    requires a.obj < c.nobj
    ensures var th' := TxLockStep(rm, buf, t, th, a, x, th.pc.v); Local(c, t, th') && Link(c, t, rth, th')
  {
    assert th.mode.Tx?;
    hide Local, Link, Extends, Sound1, OwnVers, OwnWords, Made, Aborted, InBlock, RM.Load, CurrentOp;
    var m, o, v := th.mode, a.obj, th.pc.v;
    var l := RM.Load(rm, buf, RM.LockOf(o));
    if l != 0 || (o in m.locks && m.locks[o] != l) {
      AbortedOk(c, t, rth, th);
    } else {
      var m' := Wrote(m, a, x, v, l);
      var e := Event(t, true, a, v, x);
      StoreSound(c, t, rth, th, m', e);
      MadeLocal(c, t, th, th.(mode := m'), e);
      MadeLink(c, t, rth, th, m', e);
    }
  }

  /** The block is committed: its last access is queued, the queue is emptied. */
  lemma TxDoneOk(c: Config, t: Tid, rth: RM.Thread, th: Thread)
    requires Local(c, t, th) && th.pc.TxEnd? && rth.pc == RM.Start && rth.trace == th.regs.trace
    ensures Local(c, t, TxDone(th)) && Link(c, t, rth, TxDone(th))
  {
    if th.pc.ending {
      FlushedOk(c, th.regs, th.regs.trace);
    } else {
      var e := Last(th.regs.trace);
      assert Front(th.regs.trace) + [e] == th.regs.trace;
      AddedOk(c, th.regs, Front(th.regs.trace), e);
      FlushedOk(c, Added(th.regs, e), th.regs.trace);
      PhaseSucc(th.regs.bbcnt);
    }
    hide Recorder.Drain, BatchAll, Blocks.Phase, Results, Recorder.Encode, Recorder.Fits, Flushed;
  }

  /** A complete access outside transactions. */
  lemma AccessOk(c: Config, t: Tid, th: Thread, e: Event)
    requires Local(c, t, th) && th.pc.Access? && e.addr.obj < c.nobj
    ensures var r := Added(th.regs.(trace := th.regs.trace + [e]), e);
            Local(c, t, th.(pc := Idle, regs := r)) && r.trace == th.regs.trace + [e]
  {
    var r := th.regs.(trace := th.regs.trace + [e]);
    AddedOk(c, r, th.regs.trace, e);
    hide RegsOk, Blocks.Phase, Results;
  }

  // ---------------------------------------------------------------- steps of the whole state

  /** Thread t moved; the others are as they were. */
  predicate Moved(s: State, s': State, t: Tid) {
    && |s'.thr| == |s.thr| && |s'.rm.thr| == |s.rm.thr|
    && (forall u | 0 <= u < |s.thr| && u != t :: s'.thr[u] == s.thr[u])
    && (forall u | 0 <= u < |s.rm.thr| && u != t :: s'.rm.thr[u] == s.rm.thr[u])
  }

  lemma Kept(c: Config, s: State, s': State, t: Tid)
    requires Inv(c, s) && t < |s.thr| && Moved(s, s', t)
    requires Local(c, t, s'.thr[t]) && Link(c, t, s'.rm.thr[t], s'.thr[t])
    ensures Inv(c, s')
  {
    hide Local, Link;
    forall u | 0 <= u < |s'.thr| ensures ThreadInv(c, s', u) {
      assert ThreadInv(c, s, u);
    }
  }

  /** Outside transactions a step leaves the thread's accesses alone or completes one. */
  predicate Completes(rm: RM.State, rm': RM.State, t: Tid)
    requires t < |rm.thr| == |rm'.thr|
  {
    var tr, tr' := rm.thr[t].trace, rm'.thr[t].trace;
    tr' == tr || (tr' != [] && tr' == tr + [Last(tr')] && rm'.thr[t].pc == RM.Start
        && Last(tr').addr.obj < |rm.thr[t].log.last|)
  }

  lemma ReadMoves(rm: RM.State, t: Tid, a: Addr)
    requires t < |rm.thr| && RM.ReadStep(rm, t, a).Some?
    ensures var rm' := RM.ReadStep(rm, t, a).value;
            |rm'.thr| == |rm.thr| && rm'.thr == rm.thr[t := rm'.thr[t]] && Completes(rm, rm', t)
  {
    hide RM.Load, LogEvent, Get, Num;
    if !rm.thr[t].pc.LogRead? { assert RM.ReadStep(rm, t, a).value.thr[t].trace == rm.thr[t].trace; }
  }

  lemma WriteMoves(c: Config, rm: RM.State, t: Tid, a: Addr, x: Value)
    requires t < |rm.thr| && RM.WriteStep(c, rm, t, a, x).Some?
    ensures var rm' := RM.WriteStep(c, rm, t, a, x).value;
            |rm'.thr| == |rm.thr| && rm'.thr == rm.thr[t := rm'.thr[t]] && Completes(rm, rm', t)
  {
    hide RM.Load, LogEvent, Get, Num;
    if !rm.thr[t].pc.LogWrite? { assert RM.WriteStep(c, rm, t, a, x).value.thr[t].trace == rm.thr[t].trace; }
  }

  lemma AccessKeeps(c: Config, s: State, t: Tid)
    requires Inv(c, s) && t < |s.thr| && s.thr[t].pc.Access? && AccessStep(c, s, t).Some?
    requires |s.rm.thr[t].log.last| == c.nobj
    ensures Inv(c, AccessStep(c, s, t).value)
    ensures RM.Step(c, s.rm, RM.Go(t)) == Some(AccessStep(c, s, t).value.rm)
  {
    var th, op, s' := s.thr[t], CurrentOp(c, t, s.thr[t]), AccessStep(c, s, t).value;
    assert ThreadInv(c, s, t);
    assert th.mode.Plain? && s.rm.thr[t].trace == th.regs.trace;
    hide Local, Results, RM.ReadStep, RM.WriteStep, Added;
    if op.Read? { ReadMoves(s.rm, t, op.addr); } else { WriteMoves(c, s.rm, t, op.addr, op.val); }
    var tr' := s'.rm.thr[t].trace;
    if |tr'| != |th.regs.trace| { AccessOk(c, t, th, Last(tr')); }
    hide Inv;
    Kept(c, s, s', t);
  }

  lemma EndKeeps(c: Config, s: State, t: Tid, sched: seq<RM.Act>) returns (sched': seq<RM.Act>)
    requires c.fenced && Inv(c, s) && t < |s.thr| && s.thr[t].pc.TxEnd? && EndStep(c, s, t).Some?
    requires RM.Exec(c, sched) == s.rm
    ensures Inv(c, EndStep(c, s, t).value) && sched <= sched' && RM.Exec(c, sched') == EndStep(c, s, t).value.rm
  {
    hide RM.Exec, Local, Link, LogAll, OwnVers, OwnWords, Sound, InBlock, Holds, TxDone, Aborted;
    var th, s' := s.thr[t], EndStep(c, s, t).value;
    assert ThreadInv(c, s, t);
    RecordTheorems.RecorderLinearizes(c, sched);
    AtCommit(c, t, s.rm.thr[t], th);
    if Holds(s.rm, th.mode) {
      sched' := BlockTx(c, sched, t, th.mode, InBlock(th));
      assert s'.rm == After(c, s.rm, t, InBlock(th));
      TxDoneOk(c, t, s'.rm.thr[t], th);
    } else {
      sched' := sched;
      AbortedOk(c, t, s.rm.thr[t], th);
    }
    hide Inv;
    Kept(c, s, s', t);
  }

  /** What a transaction knows when it ends. */
  lemma AtCommit(c: Config, t: Tid, rth: RM.Thread, th: Thread)
    requires Local(c, t, th) && Link(c, t, rth, th) && th.mode.Tx?
    ensures rth.trace == th.saved.trace && rth.pc == RM.Start && Sound(c, t, rth.trace, th.mode, InBlock(th))
    ensures th.mode.newVers == OwnVers(InBlock(th)) && th.mode.newWords == OwnWords(InBlock(th))
    ensures rth.trace + InBlock(th) == th.regs.trace
  {
    BlockOf(c, t, th);
    hide Local, Sound, OwnVers, OwnWords, InBlock, Results;
  }

  /** A step inside a transaction touches nothing shared. */
  lemma TxStepOk(c: Config, rm: RM.State, t: Tid, th: Thread)
    requires t < |rm.thr| && Local(c, t, th) && Link(c, t, rm.thr[t], th) && TxStep(c, rm, t, th).Some?
    ensures var th' := TxStep(c, rm, t, th).value; Local(c, t, th') && Link(c, t, rm.thr[t], th')
  {
    var op, buf, rth := CurrentOp(c, t, th), rm.thr[t].buf, rm.thr[t];
    hide Local, Link, CurrentOp, TxVersionStep, TxWordStep, TxLockStep;
    match th.pc
    case TxVersion => TxVersionOk(c, t, rm, buf, rth, th);
    case TxWord(v) => TxWordOk(c, t, rm, buf, rth, th, op.addr);
    case TxLock(v) => TxLockOk(c, t, rm, buf, rth, th, op.addr, op.val);
    case _ =>
  }

  lemma DrainMoves(c: Config, rm: RM.State, t: Tid)
    requires t < |rm.thr| && RM.Step(c, rm, RM.Drain(t)).Some?
    ensures var rm' := RM.Step(c, rm, RM.Drain(t)).value;
            && |rm'.thr| == |rm.thr| && rm'.thr[t].trace == rm.thr[t].trace && rm'.thr[t].pc == rm.thr[t].pc
            && forall u | 0 <= u < |rm.thr| && u != t :: rm'.thr[u] == rm.thr[u]
  {
    hide RM.ReadStep, RM.WriteStep, Results;
  }

  /** Steps that touch nothing shared. */
  lemma PrivateSimulated(c: Config, s: State, act: Act)
    requires Inv(c, s) && Step(c, s, act).Some? && !act.Drain?
    requires act.Go? ==> !s.thr[act.tid].pc.Access? && !s.thr[act.tid].pc.TxEnd?
    ensures Inv(c, Step(c, s, act).value) && Step(c, s, act).value.rm == s.rm
  {
    hide Local, Link, Aborted, IdleStep, TxStep;
    var t, s' := act.tid, Step(c, s, act).value;
    var th, rth := s.thr[t], s.rm.thr[t];
    assert ThreadInv(c, s, t);
    if act.Abort? {
      AbortedOk(c, t, rth, th);
    } else if th.pc.Idle? {
      IdleOk(c, t, rth, th);
    } else {
      TxStepOk(c, s.rm, t, th);
    }
    hide Inv;
    Kept(c, s, s', t);
  }

  /** Every step is simulated by steps of the hybrid recorder. */
  lemma StepSimulated(c: Config, s: State, act: Act, sched: seq<RM.Act>) returns (sched': seq<RM.Act>)
    requires c.fenced && Inv(c, s) && Step(c, s, act).Some? && RM.Exec(c, sched) == s.rm
    ensures Inv(c, Step(c, s, act).value) && sched <= sched' && RM.Exec(c, sched') == Step(c, s, act).value.rm
  {
    var t := act.tid;
    assert |s.thr| == |s.rm.thr| == c.w.nthr;
    hide Inv, RM.Step, RM.Exec, AccessStep, EndStep, IdleStep, TxStep, Aborted;
    if act.Drain? {
      sched' := DrainSimulated(c, s, t, sched);
    } else if act.Go? && s.thr[t].pc.Access? {
      LastLength(c, sched, t);
      AccessKeeps(c, s, t);
      OneMore(c, sched, RM.Go(t), AccessStep(c, s, t).value.rm);
      sched' := sched + [RM.Go(t)];
    } else if act.Go? && s.thr[t].pc.TxEnd? {
      sched' := EndKeeps(c, s, t, sched);
    } else {
      PrivateSimulated(c, s, act);
      sched' := sched;
    }
  }

  lemma LastLength(c: Config, sched: seq<RM.Act>, t: Tid)
    requires c.fenced && t < c.w.nthr && t < |RM.Exec(c, sched).thr|
    ensures |RM.Exec(c, sched).thr[t].log.last| == c.nobj
  {
    RecordTheorems.RecorderLinearizes(c, sched);
    hide RM.Exec;
  }

  lemma DrainSimulated(c: Config, s: State, t: Tid, sched: seq<RM.Act>) returns (sched': seq<RM.Act>)
    requires Inv(c, s) && Step(c, s, Drain(t)).Some? && RM.Exec(c, sched) == s.rm
    ensures Inv(c, Step(c, s, Drain(t)).value) && sched <= sched' && RM.Exec(c, sched') == Step(c, s, Drain(t)).value.rm
  {
    var s' := Step(c, s, Drain(t)).value;
    assert ThreadInv(c, s, t);
    DrainMoves(c, s.rm, t);
    OneMore(c, sched, RM.Drain(t), s'.rm);
    sched' := sched + [RM.Drain(t)];
    hide RM.Step, Local, Sound, OwnVers, OwnWords, RM.Exec;
    Kept(c, s, s', t);
  }

  lemma InitInv(c: Config)
    ensures Inv(c, Init(c)) && RM.Exec(c, []) == Init(c).rm
  {
    var s := Init(c);
    forall t | 0 <= t < |s.thr| ensures ThreadInv(c, s, t) {
    }
  }

  /** Refinement: the shared state of every run of the cluster recorder, with the order of all accesses, is reached
      by some run of the hybrid recorder. */
  lemma {:induction false} ClusterRefinesHybrid(c: Config, sched: seq<Act>) returns (rsched: seq<RM.Act>)
    requires c.fenced
    ensures Inv(c, Exec(c, sched)) && RM.Exec(c, rsched) == Exec(c, sched).rm
  {
    hide Inv, Step, RM.Exec;
    if sched == [] {
      rsched := [];
      InitInv(c);
    } else {
      rsched := ClusterRefinesHybrid(c, Front(sched));
      var s := Exec(c, Front(sched));
      if Step(c, s, Last(sched)).Some? { rsched := StepSimulated(c, s, Last(sched), rsched); }
    }
  }
}
