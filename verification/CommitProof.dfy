/** What every step of the commit-order recorder keeps. */
module CommitProof {
  import opened Mem
  import opened StoreBuffer
  import opened Blocks
  import opened CommitRecord

  // ---------------------------------------------------------------- transactions

  /** The accesses follow from the program, the loaded values and the transaction's own stores. */
  predicate TxRuns(prog: Program, t: Tid, before: seq<Access>, loaded: Memory, accs: seq<Access>) {
    accs == [] ||
    (var f, e := Front(accs), Last(accs);
     && TxRuns(prog, t, before, loaded, f)
     && Does(e, prog(t, Returned(before + f)))
     && (!e.write ==> var own := After(map[], f);
                      if e.addr in own then e.val == own[e.addr] else e.addr in loaded && loaded[e.addr] == e.val))
  }

  lemma OneMoreTx(prog: Program, t: Tid, before: seq<Access>, loaded: Memory, accs: seq<Access>, e: Access)
    requires TxRuns(prog, t, before, loaded, accs) && Does(e, prog(t, Returned(before + accs)))
    requires !e.write ==> var own := After(map[], accs);
                          if e.addr in own then e.val == own[e.addr] else e.addr in loaded && loaded[e.addr] == e.val
    ensures TxRuns(prog, t, before, loaded, accs + [e])
  {
    assert Front(accs + [e]) == accs;
  }

  lemma {:induction false} TxLoadsMore(prog: Program, t: Tid, before: seq<Access>, loaded: Memory, accs: seq<Access>,
                                       a: Addr, x: Value)
    requires TxRuns(prog, t, before, loaded, accs) && (a in loaded ==> loaded[a] == x)
    ensures TxRuns(prog, t, before, loaded[a := x], accs)
  {
    if accs != [] { TxLoadsMore(prog, t, before, loaded, Front(accs), a, x); }
  }

  /** A transaction whose loaded values are all in memory behaves as if it ran there without interruption. */
  lemma {:induction false} TxAtomic(prog: Program, t: Tid, before: seq<Access>, loaded: Memory, accs: seq<Access>,
                                    m: Memory)
    requires TxRuns(prog, t, before, loaded, accs) && Holds(m, loaded)
    ensures Runs(prog, t, before, m, accs) && After(m, accs) == m + After(map[], accs)
  {
    if accs != [] { TxAtomic(prog, t, before, loaded, Front(accs), m); }
  }

  // ---------------------------------------------------------------- the invariant

  predicate AtEnd(pc: PC) {
    pc.CheckLock? || pc.ReadTime? || pc.Commit? || pc.LoadTime? || pc.StoreTime? || pc.Unlock? || pc.LogCommit?
  }

  /** Where the thread is in its block. */
  predicate Shape(w: Workload, t: Tid, th: Thread) {
    var n, k := |th.regs.trace|, |th.saved.trace|;
    && th.pc != Failed
    && (th.mode.Out? <==>
          th.pc.Enqueue? || th.pc.Spin? || th.pc.LogCommit? || th.pc.Done? || (th.pc.Idle? && Phase(n) == 0))
    && (th.pc.CheckLock? || th.pc.ReadTime? || th.pc.Commit? ==> th.mode.Tx?)
    && (th.pc.LoadTime? || th.pc.StoreTime? || th.pc.Unlock? ==> th.mode.Locked?)
    && (th.ending ==> (AtEnd(th.pc) && Phase(n) != 0) || th.pc.Done?)
    && (th.ending || th.pc.Done? ==> CurrentOp(w, t, th).Stop?)
    && n == th.regs.bbcnt + (if AtEnd(th.pc) && !th.ending then 1 else 0)
    && (AtEnd(th.pc) && !th.ending ==> Phase(n) == 0)
    && (th.pc.Enqueue? || th.pc.Spin? ==> th.regs == th.saved)
    && (th.pc.Body? ==> !CurrentOp(w, t, th).Stop?)
    && (!th.mode.Out? || th.pc.Enqueue? || th.pc.Spin? ==>
          && th.saved.trace <= th.regs.trace && th.saved.bbcnt == k && Phase(k) == 0 && n - k <= BATCH_N
          && !w.prog(t, Returned(th.saved.trace)).Stop?
          && (th.pc.Idle? ==> 0 < n - k < BATCH_N)
          && (th.pc.Body? ==> n - k < BATCH_N)
          && (AtEnd(th.pc) ==> 0 < n - k && (th.ending || n - k == BATCH_N)))
  }

  /** The accesses that are in `hist`. */
  function Base(th: Thread): seq<Access> {
    if th.mode.Out? || th.pc.Unlock? then th.regs.trace else th.saved.trace
  }

  function Stamp(pc: PC): seq<nat> {
    match pc
    case Unlock(ts) => [ts]
    case LogCommit(ts) => [ts]
    case _ => []
  }

  /** What the thread has done against what `hist` says. */
  predicate Ledger(w: Workload, h: seq<Block>, t: Tid, th: Thread) {
    && Committed(h, t) == Base(th)
    && Times(h, t) == th.log + Stamp(th.pc)
    && (th.mode.Tx? ==> && th.mode.stored == After(map[], InBlock(th))
                        && TxRuns(w.prog, t, th.saved.trace, th.mode.loaded, InBlock(th)))
    && (th.mode.Locked? && !th.pc.Unlock? ==> Runs(w.prog, t, th.saved.trace, MemOf(w.init, h), InBlock(th)))
    && (th.pc.StoreTime? ==> th.pc.ts == |h|)
  }

  predicate NoFree(buf: seq<Store>) {
    forall i | 0 <= i < |buf| :: !buf[i].Free?
  }

  /** Only the holder of the lock has buffered stores; it still does after it has released it, until the release is
      out. */
  predicate InQueue(queue: seq<Tid>, t: Tid, th: Thread) {
    && (th.pc.Spin? || th.mode.Locked? || th.buf != [] <==> t in queue)
    && (th.mode.Locked? || th.buf != [] ==> queue != [] && queue[0] == t)
    && (th.mode.Locked? ==> NoFree(th.buf))
    && (!th.mode.Locked? && th.buf != [] ==> Last(th.buf).Free? && NoFree(Front(th.buf)))
    && (th.pc.Spin? ==> th.buf == [])
  }

  predicate QueueOk(queue: seq<Tid>, n: nat) {
    && (forall i | 0 <= i < |queue| :: queue[i] < n)
    && (forall i, j | 0 <= i < j < |queue| :: queue[i] != queue[j])
  }

  predicate ThreadInv(w: Workload, s: State, t: Tid)
    requires t < |s.thr|
  {
    Shape(w, t, s.thr[t]) && Ledger(w, s.hist, t, s.thr[t]) && InQueue(s.sh.queue, t, s.thr[t])
  }

  /** Accesses that are on their way to memory but not in `hist`. */
  function Unpublished(th: Thread): seq<Access> {
    if th.mode.Locked? && !th.pc.Unlock? then InBlock(th) else []
  }

  /** Memory with the lock holder's stores is what the blocks so far and the holder's own one left. */
  predicate MemOk(w: Workload, sh: Shared, h: seq<Block>, buf: seq<Store>, accs: seq<Access>) {
    View(sh, buf).mem == After(MemOf(w.init, h), accs) && View(sh, buf).time == |h|
  }

  predicate MemInv(w: Workload, s: State)
    requires QueueOk(s.sh.queue, |s.thr|)
  {
    if s.sh.queue == [] then MemOk(w, s.sh, s.hist, [], [])
    else var th := s.thr[s.sh.queue[0]]; MemOk(w, s.sh, s.hist, th.buf, Unpublished(th))
  }

  ghost predicate Inv(w: Workload, s: State) {
    && |s.thr| == w.nthr && Serial(w, s.hist)
    && QueueOk(s.sh.queue, |s.thr|)
    && (forall t | 0 <= t < |s.thr| :: ThreadInv(w, s, t))
    && MemInv(w, s)
  }

  lemma ViewPush(sh: Shared, buf: seq<Store>, st: Store)
    ensures View(sh, buf + [st]) == Reach(View(sh, buf), st)
  {
    SeenPush(Reach, sh, buf, st);
  }

  lemma {:induction false} NoFreeQueue(sh: Shared, buf: seq<Store>)
    requires NoFree(buf)
    ensures View(sh, buf).queue == sh.queue
    decreases |buf|
  {
    if buf != [] {
      assert !buf[0].Free?;
      assert forall i | 0 <= i < |buf[1..]| :: buf[1..][i] == buf[i + 1];
      NoFreeQueue(Reach(sh, buf[0]), buf[1..]);
    }
  }

  lemma InitInv(w: Workload)
    ensures Inv(w, Init(w))
  {
    assert w.nthr == |Init(w).thr|;
  }

  // ---------------------------------------------------------------- local steps

  /** What a step of one thread has to keep: the rest of the state is not involved. */
  predicate Good(w: Workload, sh: Shared, h: seq<Block>, t: Tid, th: Thread) {
    && Shape(w, t, th) && Ledger(w, h, t, th) && InQueue(sh.queue, t, th)
    && (sh.queue != [] && sh.queue[0] == t ==> MemOk(w, sh, h, th.buf, Unpublished(th)))
  }

  lemma IsGood(w: Workload, s: State, t: Tid)
    requires Inv(w, s) && t < |s.thr|
    ensures Good(w, s.sh, s.hist, t, s.thr[t])
  {
    hide MemOk, Shape, Ledger, InQueue, Unpublished, Serial;
    assert ThreadInv(w, s, t);
  }

  /** A step that changes one thread only. */
  lemma Kept(w: Workload, s: State, t: Tid, th': Thread)
    requires Inv(w, s) && t < |s.thr| && Good(w, s.sh, s.hist, t, th')
    ensures Inv(w, s.(thr := s.thr[t := th']))
  {
    hide Shape, Ledger, InQueue, MemOk, Serial, Unpublished;
    var s' := s.(thr := s.thr[t := th']);
    forall u | 0 <= u < |s'.thr| ensures ThreadInv(w, s', u) {
      assert ThreadInv(w, s, u);
    }
  }

  /** The head of the queue sees committed memory with its own accesses. */
  lemma HeadMem(w: Workload, s: State, t: Tid)
    requires Inv(w, s) && t < |s.thr| && s.thr[t].mode.Locked?
    ensures s.sh.queue != [] && s.sh.queue[0] == t
    ensures MemOk(w, s.sh, s.hist, s.thr[t].buf, Unpublished(s.thr[t]))
  {
    assert ThreadInv(w, s, t);
  }

  lemma BlockExtended(th: Thread, th': Thread, e: Access)
    requires th.saved.trace <= th.regs.trace && th'.saved == th.saved && th'.regs.trace == th.regs.trace + [e]
    ensures InBlock(th') == InBlock(th) + [e] && th.saved.trace + InBlock(th) == th.regs.trace
    ensures th'.saved.trace + InBlock(th') == th'.regs.trace
  {
  }

  lemma AbortKeeps(w: Workload, s: State, t: Tid)
    requires Inv(w, s) && t < |s.thr| && s.thr[t].mode.Tx?
    ensures Inv(w, s.(thr := s.thr[t := Aborted(s.thr[t])]))
  {
    hide Shape, Ledger, InQueue, MemOk, Serial, Aborted;
    var th, th' := s.thr[t], Aborted(s.thr[t]);
    IsGood(w, s, t);
    AbortGood(w, s.sh, s.hist, t, th);
    Kept(w, s, t, th');
  }

  lemma AbortShape(w: Workload, t: Tid, th: Thread)
    requires Shape(w, t, th) && th.mode.Tx?
    ensures Shape(w, t, Aborted(th)) && !th.pc.Spin? && Stamp(th.pc) == [] && !th.pc.Unlock?
  {
    hide Returned, Phase;
  }

  lemma AbortLedger(w: Workload, h: seq<Block>, t: Tid, th: Thread)
    requires Ledger(w, h, t, th) && th.mode.Tx? && Stamp(th.pc) == [] && !th.pc.Unlock?
    ensures Ledger(w, h, t, Aborted(th))
  {
    assert Stamp(Enqueue) == [];
    hide Committed, Times, After, Runs, TxRuns, MemOf, Stamp;
  }

  lemma AbortGood(w: Workload, sh: Shared, h: seq<Block>, t: Tid, th: Thread)
    requires Good(w, sh, h, t, th) && th.mode.Tx?
    ensures Good(w, sh, h, t, Aborted(th))
  {
    hide Shape, Ledger, InQueue, MemOk, Stamp;
    AbortShape(w, t, th);
    AbortLedger(w, h, t, th);
    SameQueue(sh.queue, t, th, Aborted(th));
  }

  /** Making an access keeps count of the block. */
  lemma AccessShape(w: Workload, t: Tid, th: Thread, th1: Thread, e: Access)
    requires Shape(w, t, th) && th.pc.Body? && th1 == th.(mode := th1.mode, buf := th1.buf)
    requires th1.mode.Tx? == th.mode.Tx? && th1.mode.Locked? == th.mode.Locked?
    ensures Shape(w, t, Accessed(th1, e))
    ensures Base(Accessed(th1, e)) == Base(th)
  {
    PhaseInBlock(|th.saved.trace|, |th.regs.trace|);
    PhaseInBlock(|th.saved.trace|, |th.regs.trace| + 1);
    hide Returned, Phase;
  }

  lemma ExtraAccess(w: Workload, h: seq<Block>, t: Tid, th: Thread, th1: Thread, e: Access)
    requires Shape(w, t, th) && Ledger(w, h, t, th) && th.pc.Body? && th1 == th.(mode := th1.mode, buf := th1.buf)
    requires th1.mode.Tx? == th.mode.Tx? && th1.mode.Locked? == th.mode.Locked?
    requires var accs := InBlock(th) + [e];
             && (th1.mode.Tx? ==> && th1.mode.stored == After(map[], accs)
                                  && TxRuns(w.prog, t, th.saved.trace, th1.mode.loaded, accs))
             && (th1.mode.Locked? ==> Runs(w.prog, t, th.saved.trace, MemOf(w.init, h), accs))
    ensures var th' := Accessed(th1, e); && Shape(w, t, th') && Ledger(w, h, t, th')
    ensures InBlock(Accessed(th1, e)) == InBlock(th) + [e]
  {
    hide After, Runs, TxRuns, Committed, Times, MemOf, Returned, Phase;
    AccessShape(w, t, th, th1, e);
    BlockExtended(th, Accessed(th1, e), e);
    assert Stamp(Accessed(th1, e).pc) == Stamp(th.pc);
    hide Shape;
  }

  lemma WriteTx(w: Workload, sh: Shared, h: seq<Block>, t: Tid, th: Thread, e: Access)
    requires Good(w, sh, h, t, th) && th.pc.Body? && th.mode.Tx? && e.write
    requires CurrentOp(w, t, th) == Write(e.addr, e.val)
    ensures Good(w, sh, h, t, Accessed(th.(mode := Tx(th.mode.loaded, th.mode.stored[e.addr := e.val])), e))
  {
    var accs, th1 := InBlock(th), th.(mode := Tx(th.mode.loaded, th.mode.stored[e.addr := e.val]));
    assert th.saved.trace + accs == th.regs.trace;
    OneMoreAccess(w.prog, t, th.saved.trace, map[], accs, e);
    hide After, Runs, TxRuns, View, Committed, Times, Returned, Phase, MemOf, Shape;
    OneMoreTx(w.prog, t, th.saved.trace, th.mode.loaded, accs, e);
    ExtraAccess(w, h, t, th, th1, e);
    hide Ledger;
    assert InQueue(sh.queue, t, Accessed(th1, e));
    hide InQueue;
  }

  lemma BufferedWrite(w: Workload, sh: Shared, h: seq<Block>, buf: seq<Store>, accs: seq<Access>, a: Addr, x: Value)
    requires MemOk(w, sh, h, buf, accs)
    ensures MemOk(w, sh, h, buf + [Data(a, x)], accs + [Access(true, a, x)])
  {
    ViewPush(sh, buf, Data(a, x));
    OneMoreAccess((t, r) => Stop, 0, [], MemOf(w.init, h), accs, Access(true, a, x));
    hide View, After, MemOf, Runs;
  }

  lemma PushQueue(q: seq<Tid>, t: Tid, th: Thread, th': Thread, st: Store)
    requires InQueue(q, t, th) && th.mode.Locked? && th'.mode.Locked? && !th'.pc.Spin?
    requires !st.Free? && th'.buf == th.buf + [st]
    ensures InQueue(q, t, th')
  {
  }

  lemma LockedBody(w: Workload, q: seq<Tid>, h: seq<Block>, t: Tid, th: Thread)
    requires Shape(w, t, th) && Ledger(w, h, t, th) && InQueue(q, t, th) && th.pc.Body? && th.mode.Locked?
    ensures th.saved.trace + InBlock(th) == th.regs.trace
            && Runs(w.prog, t, th.saved.trace, MemOf(w.init, h), InBlock(th))
    ensures q != [] && q[0] == t
  {
    hide Committed, Times, After, Runs, MemOf, Returned, Phase;
  }

  lemma WriteLocked(w: Workload, sh: Shared, h: seq<Block>, t: Tid, th: Thread, e: Access)
    requires Good(w, sh, h, t, th) && th.pc.Body? && th.mode.Locked? && e.write
    requires CurrentOp(w, t, th) == Write(e.addr, e.val)
    ensures Good(w, sh, h, t, Accessed(th.(buf := th.buf + [Data(e.addr, e.val)]), e))
  {
    hide Shape, Ledger, InQueue, MemOk, InBlock, After, Runs, TxRuns, View, Committed, Times, Returned, Phase, MemOf;
    var accs, th1 := InBlock(th), th.(buf := th.buf + [Data(e.addr, e.val)]);
    var th' := Accessed(th1, e);
    LockedBody(w, sh.queue, h, t, th);
    OneMoreAccess(w.prog, t, th.saved.trace, MemOf(w.init, h), accs, e);
    BufferedWrite(w, sh, h, th.buf, accs, e.addr, e.val);
    ExtraAccess(w, h, t, th, th1, e);
    PushQueue(sh.queue, t, th, th', Data(e.addr, e.val));
  }

  lemma WriteGood(w: Workload, sh: Shared, h: seq<Block>, t: Tid, th: Thread, a: Addr, x: Value)
    requires Good(w, sh, h, t, th) && th.pc.Body? && CurrentOp(w, t, th) == Write(a, x)
    ensures Good(w, sh, h, t, WriteBody(th, a, x))
  {
    assert !th.mode.Out?;
    hide Good, Returned, Phase, Accessed;
    if th.mode.Locked? {
      WriteLocked(w, sh, h, t, th, Access(true, a, x));
    } else {
      WriteTx(w, sh, h, t, th, Access(true, a, x));
    }
  }

  lemma ReadLocked(w: Workload, sh: Shared, h: seq<Block>, t: Tid, th: Thread, e: Access)
    requires Good(w, sh, h, t, th) && th.pc.Body? && th.mode.Locked? && CurrentOp(w, t, th) == Read(e.addr)
    requires e == Access(false, e.addr, Get(View(sh, th.buf).mem, e.addr))
    ensures Good(w, sh, h, t, Accessed(th, e))
  {
    hide Shape, Ledger, InQueue, InBlock, After, Runs, TxRuns, View, Committed, Times, Returned, Phase, MemOf;
    var accs, th' := InBlock(th), Accessed(th, e);
    LockedBody(w, sh.queue, h, t, th);
    OneMoreAccess(w.prog, t, th.saved.trace, MemOf(w.init, h), accs, e);
    assert MemOk(w, sh, h, th.buf, accs + [e]);
    hide MemOk;
    ExtraAccess(w, h, t, th, th, e);
    SameQueue(sh.queue, t, th, th');
  }

  lemma ReadTx(w: Workload, sh: Shared, h: seq<Block>, t: Tid, th: Thread, e: Access, loaded: Memory)
    requires Good(w, sh, h, t, th) && th.pc.Body? && th.mode.Tx? && CurrentOp(w, t, th) == Read(e.addr) && !e.write
    requires if e.addr in th.mode.stored then e.val == th.mode.stored[e.addr] && loaded == th.mode.loaded
             else
               && loaded == th.mode.loaded[e.addr := e.val]
               && (e.addr in th.mode.loaded ==> th.mode.loaded[e.addr] == e.val)
    ensures Good(w, sh, h, t, Accessed(th.(mode := Tx(loaded, th.mode.stored)), e))
  {
    var accs, th1 := InBlock(th), th.(mode := Tx(loaded, th.mode.stored));
    assert th.saved.trace + accs == th.regs.trace;
    OneMoreAccess(w.prog, t, th.saved.trace, map[], accs, e);
    hide After, Runs, TxRuns, View, Committed, Times, Returned, Phase, MemOf, Shape;
    if e.addr !in th.mode.stored { TxLoadsMore(w.prog, t, th.saved.trace, th.mode.loaded, accs, e.addr, e.val); }
    OneMoreTx(w.prog, t, th.saved.trace, loaded, accs, e);
    ExtraAccess(w, h, t, th, th1, e);
    hide Ledger;
    assert InQueue(sh.queue, t, Accessed(th1, e));
    hide InQueue;
  }

  lemma ReadGood(w: Workload, sh: Shared, h: seq<Block>, t: Tid, th: Thread, a: Addr)
    requires Good(w, sh, h, t, th) && th.pc.Body? && CurrentOp(w, t, th) == Read(a)
    requires var x := Get(View(sh, th.buf).mem, a);
             th.mode.Tx? && a !in th.mode.stored && a in th.mode.loaded ==> th.mode.loaded[a] == x
    ensures Good(w, sh, h, t, ReadBody(th, a, Get(View(sh, th.buf).mem, a)))
  {
    var x := Get(View(sh, th.buf).mem, a);
    assert !th.mode.Out?;
    hide Good, View, Returned, Phase, Accessed;
    if th.mode.Locked? {
      ReadLocked(w, sh, h, t, th, Access(false, a, x));
    } else if a in th.mode.stored {
      ReadTx(w, sh, h, t, th, Access(false, a, th.mode.stored[a]), th.mode.loaded);
      assert th == th.(mode := Tx(th.mode.loaded, th.mode.stored));
    } else {
      ReadTx(w, sh, h, t, th, Access(false, a, x), th.mode.loaded[a := x]);
    }
  }

  lemma BodyKeeps(w: Workload, s: State, t: Tid)
    requires Inv(w, s) && t < |s.thr| && s.thr[t].pc.Body? && LocalStep(w, s.sh, t, s.thr[t]).Some?
    ensures Inv(w, s.(thr := s.thr[t := LocalStep(w, s.sh, t, s.thr[t]).value]))
  {
    hide Inv, WriteBody, View, MemOk, Shape, Ledger, InQueue, Unpublished, Returned, Phase, Aborted, Accessed;
    var th := s.thr[t];
    IsGood(w, s, t);
    match CurrentOp(w, t, th)
    case Read(a) =>
      if th.mode.Tx? && a !in th.mode.stored && a in th.mode.loaded
          && th.mode.loaded[a] != Get(View(s.sh, th.buf).mem, a) {
        AbortKeeps(w, s, t);
      } else {
        ReadGood(w, s.sh, s.hist, t, th, a);
        Kept(w, s, t, LocalStep(w, s.sh, t, th).value);
      }
    case Write(a, x) =>
      WriteGood(w, s.sh, s.hist, t, th, a, x);
      Kept(w, s, t, LocalStep(w, s.sh, t, th).value);
    case Stop =>
  }

  /** Steps that make no access. */
  lemma PlainKeeps(w: Workload, s: State, t: Tid)
    requires Inv(w, s) && t < |s.thr| && !s.thr[t].pc.Body? && LocalStep(w, s.sh, t, s.thr[t]).Some?
    ensures Inv(w, s.(thr := s.thr[t := LocalStep(w, s.sh, t, s.thr[t]).value]))
  {
    var th, th' := s.thr[t], LocalStep(w, s.sh, t, s.thr[t]).value;
    assert ThreadInv(w, s, t);
    if th.pc.CheckLock? && View(s.sh, th.buf).queue != [] {
      AbortKeeps(w, s, t);
    } else {
      PlainShape(w, s.sh, t, th);
      PlainQueue(w, s.sh, t, th);
      if th.pc.LoadTime? { HeadMem(w, s, t); }
      PlainLedger(w, s, t);
      if s.sh.queue != [] && s.sh.queue[0] == t { PlainMem(w, s, t); }
      hide Shape, Ledger, InQueue, MemOk, LocalStep;
      Kept(w, s, t, th');
    }
  }

  lemma PlainShape(w: Workload, sh: Shared, t: Tid, th: Thread)
    requires Shape(w, t, th) && !th.pc.Body? && LocalStep(w, sh, t, th).Some?
    requires !(th.pc.CheckLock? && View(sh, th.buf).queue != [])
    ensures Shape(w, t, LocalStep(w, sh, t, th).value)
  {
    if !th.mode.Out? { PhaseInBlock(|th.saved.trace|, |th.regs.trace|); }
    hide View, Returned, Phase;
  }

  lemma SameQueue(q: seq<Tid>, t: Tid, th: Thread, th': Thread)
    requires InQueue(q, t, th) && th'.buf == th.buf && th'.pc.Spin? == th.pc.Spin?
    requires th'.mode.Locked? == th.mode.Locked?
    ensures InQueue(q, t, th')
  {
  }

  lemma UnlockQueue(q: seq<Tid>, t: Tid, th: Thread, th': Thread)
    requires InQueue(q, t, th) && th.mode.Locked? && !th'.mode.Locked? && th'.buf == th.buf + [Free] && !th'.pc.Spin?
    ensures InQueue(q, t, th')
  {
    assert Front(th.buf + [Free]) == th.buf;
  }

  lemma PlainQueue(w: Workload, sh: Shared, t: Tid, th: Thread)
    requires Shape(w, t, th) && InQueue(sh.queue, t, th) && !th.pc.Body? && LocalStep(w, sh, t, th).Some?
    requires !(th.pc.CheckLock? && View(sh, th.buf).queue != [])
    ensures InQueue(sh.queue, t, LocalStep(w, sh, t, th).value)
  {
    var th' := LocalStep(w, sh, t, th).value;
    hide View, Returned, Phase;
    if th.pc.Unlock? {
      assert th.mode.Locked?;
      hide Shape, InQueue;
      UnlockQueue(sh.queue, t, th, th');
    } else if !th.pc.Spin? {
      assert th'.mode.Locked? == th.mode.Locked?;
      hide Shape, InQueue;
      SameQueue(sh.queue, t, th, th');
    }
  }

  lemma NothingRun(prog: Program, t: Tid, before: seq<Access>, m: Memory)
    ensures After(m, []) == m && Runs(prog, t, before, m, []) && TxRuns(prog, t, before, m, [])
  {
  }

  /** The ledger depends on few of the thread's fields. */
  lemma SameLedger(w: Workload, h: seq<Block>, t: Tid, th: Thread, th': Thread)
    requires Ledger(w, h, t, th) && th'.mode == th.mode && th'.saved == th.saved && th'.regs.trace == th.regs.trace
    requires th'.log + Stamp(th'.pc) == th.log + Stamp(th.pc) && (th'.pc.Unlock? <==> th.pc.Unlock?)
    requires th'.pc.StoreTime? ==> th'.pc.ts == |h|
    ensures Ledger(w, h, t, th')
  {
    hide Returned, Phase, Committed, Times, MemOf, After, Runs, TxRuns, Stamp;
  }

  lemma BeginLedger(w: Workload, h: seq<Block>, t: Tid, th: Thread)
    requires Ledger(w, h, t, th) && th.mode.Out? && th.pc.Idle?
    ensures Ledger(w, h, t, th.(pc := Body, mode := Tx(map[], map[]), saved := th.regs))
  {
    NothingRun(w.prog, t, th.regs.trace, map[]);
    assert InBlock(th.(saved := th.regs)) == [];
    hide Returned, Phase, Committed, Times, MemOf, After, Runs, TxRuns;
  }

  lemma LockLedger(w: Workload, h: seq<Block>, t: Tid, th: Thread)
    requires Ledger(w, h, t, th) && th.mode.Out? && th.pc.Spin? && th.regs == th.saved
    ensures Ledger(w, h, t, th.(pc := Body, mode := Locked))
  {
    NothingRun(w.prog, t, th.saved.trace, MemOf(w.init, h));
    assert InBlock(th) == [];
    hide Returned, Phase, Committed, Times, MemOf, After, Runs, TxRuns;
  }

  lemma UnlockLedger(w: Workload, h: seq<Block>, t: Tid, th: Thread)
    requires Ledger(w, h, t, th) && th.pc.Unlock?
    ensures Ledger(w, h, t, th.(pc := LogCommit(th.pc.ts), mode := Out, buf := th.buf + [Free]))
  {
    hide Committed, Times, MemOf, After, Runs, TxRuns;
  }

  lemma LogLedger(w: Workload, h: seq<Block>, t: Tid, th: Thread, th': Thread)
    requires Ledger(w, h, t, th) && th.pc.LogCommit? && th'.mode == th.mode && th'.saved == th.saved
    requires th'.regs.trace == th.regs.trace && th'.log == th.log + [th.pc.ts] && (th'.pc.Done? || th'.pc.Idle?)
    ensures Ledger(w, h, t, th')
  {
    assert th'.log + Stamp(th'.pc) == th.log + Stamp(th.pc);
    SameLedger(w, h, t, th, th');
  }

  lemma PlainLedger(w: Workload, s: State, t: Tid)
    requires t < |s.thr| && Shape(w, t, s.thr[t]) && Ledger(w, s.hist, t, s.thr[t])
    requires !s.thr[t].pc.Body? && LocalStep(w, s.sh, t, s.thr[t]).Some?
    requires !(s.thr[t].pc.CheckLock? && View(s.sh, s.thr[t].buf).queue != [])
    requires s.thr[t].pc.LoadTime? ==> View(s.sh, s.thr[t].buf).time == |s.hist|
    ensures Ledger(w, s.hist, t, LocalStep(w, s.sh, t, s.thr[t]).value)
  {
    hide View, CurrentOp, Phase, Ledger, Shape, Stamp;
    var th, th' := s.thr[t], LocalStep(w, s.sh, t, s.thr[t]).value;
    StartFacts(w, t, th);
    StampSame(th.pc, th'.pc);
    match th.pc
    case Spin => LockLedger(w, s.hist, t, th);
    case Unlock(_) => UnlockLedger(w, s.hist, t, th);
    case LogCommit(_) => LogLedger(w, s.hist, t, th, th');
    case Idle =>
      if th'.pc.Body? && th.mode.Out? {
        BeginLedger(w, s.hist, t, th);
      } else {
        SameLedger(w, s.hist, t, th, th');
      }
    case _ => SameLedger(w, s.hist, t, th, th');
  }

  lemma StampSame(pc: PC, pc': PC)
    ensures !pc.Unlock? && !pc.LogCommit? && !pc'.Unlock? && !pc'.LogCommit? ==> Stamp(pc) == Stamp(pc')
  {
  }

  lemma StartFacts(w: Workload, t: Tid, th: Thread)
    requires Shape(w, t, th)
    ensures th.pc.Spin? ==> th.mode.Out? && th.regs == th.saved
    ensures th.pc.Idle? ==> (th.mode.Out? <==> Phase(th.regs.bbcnt) == 0)
    ensures th.pc != Failed
  {
    hide Returned, Phase;
  }

  lemma PlainMem(w: Workload, s: State, t: Tid)
    requires t < |s.thr| && Shape(w, t, s.thr[t]) && MemOk(w, s.sh, s.hist, s.thr[t].buf, Unpublished(s.thr[t]))
    requires !s.thr[t].pc.Body? && LocalStep(w, s.sh, t, s.thr[t]).Some?
    requires !(s.thr[t].pc.CheckLock? && View(s.sh, s.thr[t].buf).queue != [])
    ensures var th' := LocalStep(w, s.sh, t, s.thr[t]).value;
            MemOk(w, s.sh, s.hist, th'.buf, Unpublished(th'))
  {
    hide View, CurrentOp, Phase, MemOf, After, Shape;
    var th := s.thr[t];
    StartFacts(w, t, th);
    EndFacts(w, t, th);
    if th.pc.Unlock? { ViewPush(s.sh, th.buf, Free); }
  }

  lemma EndFacts(w: Workload, t: Tid, th: Thread)
    requires Shape(w, t, th)
    ensures th.pc.CheckLock? || th.pc.ReadTime? ==> th.mode.Tx?
    ensures th.pc.LoadTime? || th.pc.Unlock? ==> th.mode.Locked?
    ensures th.pc.LogCommit? ==> th.mode.Out?
    ensures th.pc.Spin? ==> InBlock(th) == []
  {
    hide Returned, Phase, CurrentOp;
  }

  // ---------------------------------------------------------------- steps on shared state

  lemma EnqueueKeeps(w: Workload, s: State, t: Tid)
    requires Inv(w, s) && t < |s.thr| && s.thr[t].pc.Enqueue? && s.thr[t].buf == []
    ensures Inv(w, s.(sh := s.sh.(queue := s.sh.queue + [t]), thr := s.thr[t := s.thr[t].(pc := Spin)]))
  {
    var th, q := s.thr[t], s.sh.queue;
    var s' := s.(sh := s.sh.(queue := q + [t]), thr := s.thr[t := th.(pc := Spin)]);
    hide Serial, View, Committed, Times, After, Runs, TxRuns, MemOf, Returned, Phase;
    assert ThreadInv(w, s, t);
    EnqueueThread(w, s.hist, t, th);
    hide Shape, Ledger;
    EnqueueMem(w, s, t);
    hide MemInv, InQueue;
    forall u | 0 <= u < |s'.thr| ensures ThreadInv(w, s', u) {
      assert ThreadInv(w, s, u);
      EnqueueQueue(q, t, th, u, s.thr[u]);
    }
  }

  lemma EnqueueQueue(q: seq<Tid>, t: Tid, th: Thread, u: Tid, uh: Thread)
    requires InQueue(q, t, th) && InQueue(q, u, uh) && th.pc.Enqueue? && th.mode.Out? && th.buf == []
             && (u == t ==> uh == th)
    ensures InQueue(q + [t], u, if u == t then th.(pc := Spin) else uh)
  {
  }

  lemma EnqueueThread(w: Workload, h: seq<Block>, t: Tid, th: Thread)
    requires Shape(w, t, th) && Ledger(w, h, t, th) && th.pc.Enqueue?
    ensures Shape(w, t, th.(pc := Spin)) && Ledger(w, h, t, th.(pc := Spin)) && th.mode.Out?
  {
    hide Committed, Times, After, Runs, TxRuns, MemOf, Returned, Phase;
  }

  lemma {:induction false} ViewOf(sh: Shared, q: seq<Tid>, buf: seq<Store>)
    ensures View(sh, buf).mem == View(sh.(queue := q), buf).mem && View(sh, buf).time == View(sh.(queue := q), buf).time
    decreases |buf|
  {
    if buf != [] {
      var q' := Reach(sh.(queue := q), buf[0]).queue;
      ViewOf(Reach(sh, buf[0]), q', buf[1..]);
      assert Reach(sh.(queue := q), buf[0]) == Reach(sh, buf[0]).(queue := q');
    }
  }

  lemma EnqueueMem(w: Workload, s: State, t: Tid)
    requires QueueOk(s.sh.queue, |s.thr|) && MemInv(w, s)
    requires t < |s.thr| && s.thr[t].mode.Out? && s.thr[t].buf == [] && t !in s.sh.queue
    ensures QueueOk(s.sh.queue + [t], |s.thr|)
    ensures MemInv(w, s.(sh := s.sh.(queue := s.sh.queue + [t]), thr := s.thr[t := s.thr[t].(pc := Spin)]))
  {
    var q := s.sh.queue;
    if q == [] {
      ViewOf(s.sh, q + [t], []);
    } else {
      ViewOf(s.sh, q + [t], s.thr[q[0]].buf);
    }
    hide View, After, MemOf;
  }

  lemma DrainQueue(sh: Shared, n: nat, t: Tid, th: Thread, u: Tid, uh: Thread)
    requires QueueOk(sh.queue, n) && th.buf != [] && InQueue(sh.queue, t, th) && InQueue(sh.queue, u, uh)
             && (u == t ==> uh == th)
    ensures var uh' := if u == t then th.(buf := th.buf[1..]) else uh;
            InQueue(Reach(sh, th.buf[0]).queue, u, uh')
  {
    var q := sh.queue;
    if th.buf[0].Free? {
      assert |th.buf| == 1;
      assert q == [t] + q[1..];
      assert t !in q[1..];
    } else {
      assert forall i | 0 <= i < |th.buf| - 2 :: Front(th.buf[1..])[i] == Front(th.buf)[i + 1];
    }
  }

  lemma DrainMem(w: Workload, s: State, t: Tid)
    requires QueueOk(s.sh.queue, |s.thr|) && MemInv(w, s)
    requires t < |s.thr| && s.thr[t].buf != [] && forall u | 0 <= u < |s.thr| :: InQueue(s.sh.queue, u, s.thr[u])
    ensures var s' := s.(sh := Reach(s.sh, s.thr[t].buf[0]), thr := s.thr[t := s.thr[t].(buf := s.thr[t].buf[1..])]);
            QueueOk(s'.sh.queue, |s'.thr|) && MemInv(w, s')
  {
    var th, q := s.thr[t], s.sh.queue;
    assert InQueue(q, t, th);
    assert View(Reach(s.sh, th.buf[0]), th.buf[1..]) == View(s.sh, th.buf);
    hide View, After, MemOf;
    if th.buf[0].Free? {
      assert th.buf[1..] == [] && !th.mode.Locked?;
      if |q| > 1 { assert InQueue(q, q[1], s.thr[q[1]]); }
    }
  }

  /** One store of the lock holder reaches memory. */
  lemma DrainKeeps(w: Workload, s: State, t: Tid)
    requires Inv(w, s) && t < |s.thr| && s.thr[t].buf != []
    ensures Inv(w, s.(sh := Reach(s.sh, s.thr[t].buf[0]), thr := s.thr[t := s.thr[t].(buf := s.thr[t].buf[1..])]))
  {
    var th := s.thr[t];
    var th' := th.(buf := th.buf[1..]);
    var s' := s.(sh := Reach(s.sh, th.buf[0]), thr := s.thr[t := th']);
    hide Serial, View, Committed, Times, After, Runs, TxRuns, MemOf, Returned, Phase;
    assert ThreadInv(w, s, t);
    assert Shape(w, t, th') && Ledger(w, s.hist, t, th');
    hide Shape, Ledger, InQueue, QueueOk, MemInv, Reach;
    forall u | 0 <= u < |s'.thr| ensures InQueue(s.sh.queue, u, s.thr[u]) && ThreadInv(w, s', u) {
      assert ThreadInv(w, s, u);
      DrainQueue(s.sh, |s.thr|, t, th, u, s.thr[u]);
    }
    DrainMem(w, s, t);
  }

  // ---------------------------------------------------------------- steps that end a block

  /** Another thread's block does not disturb a thread that is not under the lock. */
  lemma OtherLedger(w: Workload, h: seq<Block>, b: Block, u: Tid, uh: Thread)
    requires Ledger(w, h, u, uh) && b.tid != u && !uh.mode.Locked? && !uh.pc.StoreTime?
    ensures Ledger(w, h + [b], u, uh)
  {
    OneMoreBlock(w, h, b, u);
  }

  /** The block a thread ends is one the serial run can do next. */
  lemma BlockNext(w: Workload, h: seq<Block>, t: Tid, th: Thread)
    requires Shape(w, t, th) && AtEnd(th.pc) && !th.mode.Out? && Committed(h, t) == th.saved.trace && t < w.nthr
    requires Runs(w.prog, t, th.saved.trace, MemOf(w.init, h), InBlock(th))
    ensures Next(w, h, Block(t, InBlock(th)))
    ensures th.saved.trace + InBlock(th) == th.regs.trace
  {
    hide Runs, Committed, MemOf, Returned, Phase;
    assert th.saved.trace + InBlock(th) == th.regs.trace;
  }

  /** The thread that ended its block. */
  lemma EndedThread(w: Workload, q: seq<Tid>, h: seq<Block>, t: Tid, th: Thread, th': Thread)
    requires Shape(w, t, th) && Ledger(w, h, t, th) && InQueue(q, t, th)
    requires if th.pc.Commit? then th.pc.ts == |h| && th' == th.(pc := LogCommit(|h|), mode := Out)
             else th.pc == StoreTime(|h|) && th' == th.(pc := Unlock(|h|), buf := th.buf + [Time(|h| + 1)])
    ensures Shape(w, t, th') && Ledger(w, h + [Block(t, InBlock(th))], t, th') && InQueue(q, t, th')
  {
    hide Shape, Ledger, InQueue, InBlock;
    EndedShape(w, t, th, th');
    EndedLedger(w, h, t, th, th');
    EndedQueue(q, t, th, th');
  }

  lemma EndedShape(w: Workload, t: Tid, th: Thread, th': Thread)
    requires Shape(w, t, th)
    requires if th.pc.Commit? then th' == th.(pc := LogCommit(th.pc.ts), mode := Out)
             else th.pc.StoreTime? && th' == th.(pc := Unlock(th.pc.ts), buf := th'.buf)
    ensures Shape(w, t, th') && th.saved.trace + InBlock(th) == th.regs.trace
    ensures if th.pc.Commit? then th.mode.Tx? else th.mode.Locked?
  {
    hide Returned, Phase;
  }

  lemma EndedLedger(w: Workload, h: seq<Block>, t: Tid, th: Thread, th': Thread)
    requires Ledger(w, h, t, th) && th.saved.trace + InBlock(th) == th.regs.trace
    requires if th.pc.Commit? then th.mode.Tx? && th.pc.ts == |h| && th' == th.(pc := LogCommit(|h|), mode := Out)
             else th.mode.Locked? && th.pc == StoreTime(|h|) && th' == th.(pc := Unlock(|h|), buf := th'.buf)
    ensures Ledger(w, h + [Block(t, InBlock(th))], t, th')
  {
    hide Serial, Next, Committed, Times, After, Runs, TxRuns, MemOf, InBlock;
    OneMoreBlock(w, h, Block(t, InBlock(th)), t);
    assert th.log + [] == th.log;
  }

  lemma EndedQueue(q: seq<Tid>, t: Tid, th: Thread, th': Thread)
    requires InQueue(q, t, th)
    requires if th.pc.Commit? then th.mode.Tx? && th' == th.(pc := LogCommit(th.pc.ts), mode := Out)
             else th.mode.Locked? && th.pc.StoreTime? && th'.pc.Unlock?
                  && exists ts :: th' == th.(pc := th'.pc, buf := th.buf + [Time(ts)])
    ensures InQueue(q, t, th')
  {
    if th.pc.Commit? {
      SameQueue(q, t, th, th');
    } else {
      PushQueue(q, t, th, th', Last(th'.buf));
    }
  }

  lemma CommitKeeps(w: Workload, s: State, t: Tid)
    requires Inv(w, s) && t < |s.thr| && s.thr[t].pc.Commit? && s.thr[t].buf == [] && s.thr[t].mode.Tx?
    requires s.sh.queue == [] && s.sh.time == s.thr[t].pc.ts && Holds(s.sh.mem, s.thr[t].mode.loaded)
    ensures Inv(w, TxCommitted(s, t))
  {
    hide Shape, Ledger, InQueue, MemOk, Serial, InBlock, Holds;
    var th, h, b := s.thr[t], s.hist, Block(t, InBlock(s.thr[t]));
    var th' := th.(pc := LogCommit(th.pc.ts), mode := Out);
    var sh' := s.sh.(mem := s.sh.mem + th.mode.stored, time := th.pc.ts + 1);
    assert ThreadInv(w, s, t);
    CommitMem(w, s.sh, h, t, th);
    EndedThread(w, [], h, t, th, th');
    OthersKept(w, s, t, sh', th', b);
  }

  /** The other threads do not notice that a block ended. */
  lemma OthersKept(w: Workload, s: State, t: Tid, sh': Shared, th': Thread, b: Block)
    requires forall u | 0 <= u < |s.thr| :: ThreadInv(w, s, u)
    requires t < |s.thr| && b.tid == t && sh'.queue == s.sh.queue && (s.sh.queue == [] || s.sh.queue[0] == t)
    requires Shape(w, t, th') && Ledger(w, s.hist + [b], t, th') && InQueue(sh'.queue, t, th')
    ensures var s' := State(sh', s.thr[t := th'], s.hist + [b]);
            forall u | 0 <= u < |s'.thr| :: ThreadInv(w, s', u)
  {
    hide Shape, Ledger, InQueue;
    var s' := State(sh', s.thr[t := th'], s.hist + [b]);
    forall u | 0 <= u < |s'.thr| ensures ThreadInv(w, s', u) {
      assert ThreadInv(w, s, u);
      if u != t {
        NotLocked(w, s, u);
        OtherLedger(w, s.hist, b, u, s.thr[u]);
      }
    }
  }

  /** The commit of a transaction is the next block of the serial run. */
  lemma CommitMem(w: Workload, sh: Shared, h: seq<Block>, t: Tid, th: Thread)
    requires MemOk(w, sh, h, [], []) && Shape(w, t, th) && Ledger(w, h, t, th) && Serial(w, h) && t < w.nthr
    requires th.pc == Commit(sh.time) && Holds(sh.mem, th.mode.loaded)
    ensures |h| == sh.time && Serial(w, h + [Block(t, InBlock(th))])
    ensures MemOk(w, sh.(mem := sh.mem + th.mode.stored, time := sh.time + 1), h + [Block(t, InBlock(th))], [], [])
  {
    var b, sh' := Block(t, InBlock(th)), sh.(mem := sh.mem + th.mode.stored, time := sh.time + 1);
    assert View(sh, []) == sh && View(sh', []) == sh';
    NothingRun(w.prog, t, [], MemOf(w.init, h));
    NothingRun(w.prog, t, [], MemOf(w.init, h + [b]));
    hide View, After, MemOf, Runs, TxRuns;
    TxAtomic(w.prog, t, th.saved.trace, th.mode.loaded, b.accs, sh.mem);
    BlockNext(w, h, t, th);
    OneMoreBlock(w, h, b, t);
  }

  lemma NotLocked(w: Workload, s: State, u: Tid)
    requires u < |s.thr| && ThreadInv(w, s, u) && !(s.sh.queue != [] && s.sh.queue[0] == u)
    ensures !s.thr[u].mode.Locked? && !s.thr[u].pc.StoreTime?
  {
  }

  lemma StoreTimeKeeps(w: Workload, s: State, t: Tid)
    requires Inv(w, s) && t < |s.thr| && s.thr[t].pc.StoreTime?
    ensures var th := s.thr[t];
            Inv(w, State(s.sh, s.thr[t := th.(pc := Unlock(th.pc.ts), buf := th.buf + [Time(th.pc.ts + 1)])],
                         s.hist + [Block(t, InBlock(th))]))
  {
    hide Shape, Ledger, InQueue, MemOk, Serial, InBlock;
    var th, h, b := s.thr[t], s.hist, Block(t, InBlock(s.thr[t]));
    var th' := th.(pc := Unlock(th.pc.ts), buf := th.buf + [Time(th.pc.ts + 1)]);
    assert ThreadInv(w, s, t);
    PublishMem(w, s.sh, h, t, th);
    EndedThread(w, s.sh.queue, h, t, th, th');
    OthersKept(w, s, t, s.sh, th', b);
  }

  lemma PublishMem(w: Workload, sh: Shared, h: seq<Block>, t: Tid, th: Thread)
    requires Shape(w, t, th) && Ledger(w, h, t, th) && Serial(w, h) && t < w.nthr && InQueue(sh.queue, t, th)
    requires th.pc.StoreTime? && (sh.queue != [] && sh.queue[0] == t ==> MemOk(w, sh, h, th.buf, Unpublished(th)))
    ensures sh.queue != [] && sh.queue[0] == t && th.pc.ts == |h| && Serial(w, h + [Block(t, InBlock(th))])
    ensures MemOk(w, sh, h + [Block(t, InBlock(th))], th.buf + [Time(th.pc.ts + 1)], [])
  {
    var b := Block(t, InBlock(th));
    NothingRun(w.prog, t, [], MemOf(w.init, h + [b]));
    hide View, After, MemOf, Runs, TxRuns;
    ViewPush(sh, th.buf, Time(th.pc.ts + 1));
    BlockNext(w, h, t, th);
    OneMoreBlock(w, h, b, t);
  }

  // ---------------------------------------------------------------- all runs

  lemma StepKeeps(w: Workload, s: State, act: Act)
    requires Inv(w, s) && Step(w, s, act).Some?
    ensures Inv(w, Step(w, s, act).value)
  {
    hide Inv, LocalStep, Aborted, Reach, InBlock, Holds;
    var t := act.tid;
    match act
    case Drain(_) => DrainKeeps(w, s, t);
    case Abort(_) => AbortKeeps(w, s, t);
    case Go(_) =>
      match s.thr[t].pc
      case Enqueue => EnqueueKeeps(w, s, t);
      case Commit(ts) => EndTxKeeps(w, s, t);
      case StoreTime(ts) => StoreTimeKeeps(w, s, t);
      case _ => LocalKeeps(w, s, t);
  }

  lemma EndTxKeeps(w: Workload, s: State, t: Tid)
    requires Inv(w, s) && t < |s.thr| && s.thr[t].pc.Commit? && Step(w, s, Go(t)).Some?
    ensures Inv(w, Step(w, s, Go(t)).value)
  {
    hide Inv, LocalStep, Aborted, Reach, InBlock, Holds;
    var th := s.thr[t];
    if s.sh.queue == [] && s.sh.time == th.pc.ts && Holds(s.sh.mem, th.mode.loaded) {
      CommitKeeps(w, s, t);
    } else {
      AbortKeeps(w, s, t);
    }
  }

  lemma LocalKeeps(w: Workload, s: State, t: Tid)
    requires Inv(w, s) && t < |s.thr| && LocalStep(w, s.sh, t, s.thr[t]).Some?
    ensures Inv(w, s.(thr := s.thr[t := LocalStep(w, s.sh, t, s.thr[t]).value]))
  {
    hide *;
    if s.thr[t].pc.Body? { BodyKeeps(w, s, t); } else { PlainKeeps(w, s, t); }
  }

  lemma {:induction false} ExecInv(w: Workload, sched: seq<Act>)
    ensures Inv(w, Exec(w, sched))
  {
    hide Inv, Step;
    if sched == [] {
      InitInv(w);
    } else {
      ExecInv(w, Front(sched));
      if Step(w, Exec(w, Front(sched)), Last(sched)).Some? { StepKeeps(w, Exec(w, Front(sched)), Last(sched)); }
    }
  }
}
