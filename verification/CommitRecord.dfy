/** The commit-order recorder of mem-record-rtmcommit.c as a transition system over x86 store buffers.

    A block runs as a transaction: its stores are buffered apart, its loads are remembered, it may abort at
    any time, an abort restores everything private to the thread as it was at _xbegin, and it commits in
    one step only while every location it loaded, including g_lock and g_time, still holds the value
    loaded.  After an abort the block runs with plain loads and stores under g_lock.  g_lock is a queue
    of threads, the first of which holds it; TicketLock shows that the ticket lock implements this. */
module CommitRecord {
  import opened Mem
  import opened Schedules
  import opened StoreBuffer
  import opened Blocks

  /** A buffered plain store: to data, to g_time, or the one that releases g_lock. */
  datatype Store = Data(addr: Addr, val: Value) | Time(ts: nat) | Free

  datatype Shared = Shared(mem: Memory, time: nat, queue: seq<Tid>)

  datatype Mode = Out | Tx(loaded: Memory, stored: Memory) | Locked

  datatype PC =
    | Idle                   // entering mem_read, mem_write or mem_finish_thr
    | Enqueue                // ticket_lock: take a ticket
    | Spin                   // ticket_lock: wait
    | Body                   // val = *addr, *addr = val
    | CheckLock              // bb_end in a transaction: spin_lockable
    | ReadTime               // gettime
    | Commit(ts: nat)        // _xend
    | LoadTime               // bb_end under the lock: gettime, the load
    | StoreTime(ts: nat)     // and the store
    | Unlock(ts: nat)        // spin_unlock
    | LogCommit(ts: nat)     // log_commit
    | Done
    | Failed                 // assert(!_xtest())

  /** What an abort restores: g_sim_bbcnt and, standing for the program's own state, its accesses. */
  datatype Regs = Regs(bbcnt: nat, trace: seq<Access>)

  /** `ending`: bb_end was called by mem_finish_thr. */
  datatype Thread = Thread(pc: PC, ending: bool, mode: Mode, regs: Regs, saved: Regs, buf: seq<Store>, log: seq<nat>)

  /** `hist` is auxiliary: the blocks in the order of their timestamps. */
  datatype State = State(sh: Shared, thr: seq<Thread>, hist: seq<Block>)

  datatype Act = Go(tid: Tid) | Abort(tid: Tid) | Drain(tid: Tid)

  function Init(w: Workload): State {
    State(Shared(w.init, 0, []), seq(w.nthr, t => Thread(Idle, false, Out, Regs(0, []), Regs(0, []), [], [])), [])
  }

  // ---------------------------------------------------------------- store buffers

  function Reach(sh: Shared, st: Store): Shared {
    match st
    case Data(a, x) => sh.(mem := sh.mem[a := x])
    case Time(ts) => sh.(time := ts)
    case Free => if sh.queue == [] then sh else sh.(queue := sh.queue[1..])
  }

  /** What a thread with this buffer sees: each location's newest buffered store, else memory. */
  function View(sh: Shared, buf: seq<Store>): Shared {
    Seen(Reach, sh, buf)
  }

  // ---------------------------------------------------------------- steps

  function CurrentOp(w: Workload, t: Tid, th: Thread): Op {
    w.prog(t, Returned(th.regs.trace))
  }

  /** The accesses of the block in progress. */
  function InBlock(th: Thread): seq<Access> {
    if |th.saved.trace| <= |th.regs.trace| then th.regs.trace[|th.saved.trace|..] else []
  }

  function Aborted(th: Thread): Thread {
    th.(pc := Enqueue, ending := false, mode := Out, regs := th.saved)
  }

  /** bb_end starts. */
  function BlockEnd(th: Thread): Thread {
    th.(pc := if th.mode.Tx? then CheckLock else LoadTime)
  }

  /** The access is made; on to bb_end or to the next access. */
  function Accessed(th: Thread, e: Access): Thread {
    var th1 := th.(regs := th.regs.(trace := th.regs.trace + [e]));
    if Phase(th.regs.bbcnt) == BATCH_N - 1 then BlockEnd(th1)
    else th1.(pc := Idle, regs := th1.regs.(bbcnt := th.regs.bbcnt + 1))
  }

  function ReadBody(th: Thread, a: Addr, inMemory: Value): Thread {
    match th.mode
    case Tx(loaded, stored) =>
      if a in stored then Accessed(th, Access(false, a, stored[a]))
      else if a in loaded && loaded[a] != inMemory then Aborted(th)
      else Accessed(th.(mode := Tx(loaded[a := inMemory], stored)), Access(false, a, inMemory))
    case _ => Accessed(th, Access(false, a, inMemory))
  }

  function WriteBody(th: Thread, a: Addr, x: Value): Thread {
    match th.mode
    case Tx(loaded, stored) => Accessed(th.(mode := Tx(loaded, stored[a := x])), Access(true, a, x))
    case _ => Accessed(th.(buf := th.buf + [Data(a, x)]), Access(true, a, x))
  }

  /** The steps that change nothing but the thread itself; None where it has to wait or is elsewhere. */
  function LocalStep(w: Workload, sh: Shared, t: Tid, th: Thread): Option<Thread> {
    var op, view := CurrentOp(w, t, th), View(sh, th.buf);
    match th.pc
    case Idle =>
      if op.Stop? then Some(if Phase(th.regs.bbcnt) == 0 then th.(pc := Done) else BlockEnd(th.(ending := true)))
      else if Phase(th.regs.bbcnt) != 0 then Some(th.(pc := Body))
      else Some(if th.mode.Tx? then th.(pc := Failed) else th.(pc := Body, mode := Tx(map[], map[]), saved := th.regs))
    case Spin =>
      if sh.queue == [] || sh.queue[0] != t then None else Some(th.(pc := Body, mode := Locked))
    case Body =>
      (match op
       case Stop => None
       case Read(a) => Some(ReadBody(th, a, Get(view.mem, a)))
       case Write(a, x) => Some(WriteBody(th, a, x)))
    case CheckLock => Some(if view.queue != [] then Aborted(th) else th.(pc := ReadTime))
    case ReadTime => Some(th.(pc := Commit(view.time)))
    case LoadTime => Some(th.(pc := StoreTime(view.time)))
    case Unlock(ts) => Some(th.(pc := LogCommit(ts), mode := Out, buf := th.buf + [Free]))
    case LogCommit(ts) =>
      var th1 := th.(log := th.log + [ts]);
      Some(if th.ending then th1.(pc := Done) else th1.(pc := Idle, regs := th.regs.(bbcnt := th.regs.bbcnt + 1)))
    case _ => None
  }

  /** Memory still holds what the transaction loaded. */
  predicate Holds(m: Memory, loaded: Memory) {
    forall a | a in loaded :: Get(m, a) == loaded[a]
  }

  /** The stores of a transaction, g_time included, reach memory together. */
  function TxCommitted(s: State, t: Tid): State
    requires t < |s.thr| && s.thr[t].pc.Commit? && s.thr[t].mode.Tx?
  {
    var th := s.thr[t];
    State(s.sh.(mem := s.sh.mem + th.mode.stored, time := th.pc.ts + 1),
          s.thr[t := th.(pc := LogCommit(th.pc.ts), mode := Out)], s.hist + [Block(t, InBlock(th))])
  }

  function Step(w: Workload, s: State, act: Act): Option<State> {
    var t := act.tid;
    if t >= |s.thr| then None else
    var th, sh := s.thr[t], s.sh;
    match act
    case Drain(_) =>
      if th.buf == [] then None
      else Some(s.(sh := Reach(sh, th.buf[0]), thr := s.thr[t := th.(buf := th.buf[1..])]))
    case Abort(_) =>
      if th.mode.Tx? then Some(s.(thr := s.thr[t := Aborted(th)])) else None
    case Go(_) =>
      match th.pc
      case Enqueue =>
        if th.buf != [] then None
        else Some(s.(sh := sh.(queue := sh.queue + [t]), thr := s.thr[t := th.(pc := Spin)]))
      case Commit(ts) =>
        if th.buf != [] || !th.mode.Tx? then None
        else if sh.queue == [] && sh.time == ts && Holds(sh.mem, th.mode.loaded) then Some(TxCommitted(s, t))
        else Some(s.(thr := s.thr[t := Aborted(th)]))
      case StoreTime(ts) =>
        Some(State(sh, s.thr[t := th.(pc := Unlock(ts), buf := th.buf + [Time(ts + 1)])],
            s.hist + [Block(t, InBlock(th))]))
      case _ =>
        var r := LocalStep(w, sh, t, th);
        if r.None? then None else Some(s.(thr := s.thr[t := r.value]))
  }

  /** The state after a schedule; an action that is not possible changes nothing. */
  function StepOf(w: Workload): (State, Act) -> Option<State> {
    (s, act) => Step(w, s, act)
  }

  function Exec(w: Workload, sched: seq<Act>): State {
    Run(StepOf(w), Init(w), sched)
  }

  predicate Finished(s: State) {
    forall t | 0 <= t < |s.thr| :: s.thr[t].pc == Done && s.thr[t].buf == []
  }
}
