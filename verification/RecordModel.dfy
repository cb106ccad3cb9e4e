/** The version-based recorders as a transition system over x86 store buffers: the seqlock readers and
    writers of mem-record-seqlock.c and the transactions with seqlock fallback of mem-record-rtmseq.c.

    A store goes to the thread's FIFO buffer and reaches memory in a later Drain step; a load sees the
    newest buffered store to its location, else memory.  The locked exchange of spin_lock and the
    commit of a transaction need an empty buffer, and so does __sync_synchronize.  A transaction may
    abort at any time; it commits only while memory still holds every value it read, which real conflict
    detection guarantees and more. */
module RecordModel {
  import opened Mem
  import opened Schedules
  import opened RecordLog

  datatype Loc = VersionOf(obj: ObjId) | LockOf(obj: ObjId) | Word(addr: Addr)

  datatype Pending = Pending(loc: Loc, val: int)

  /** Program counters of mem_read and mem_write, with their live locals. */
  datatype PC =
    | Start
    // read transaction
    | TxReadVersion
    | TxReadWord(v: Version)
    | TxReadEnd(v: Version, val: Value)      // odd test, _xend
    // write transaction
    | TxWriteVersion
    | TxWriteLock(v: Version)                // info->write_lock test
    | TxWriteEnd(v: Version, l: int)         // _xend, having loaded l
    // seqlock reader
    | ReadVersion
    | ReadWord(v: Version)
    | Recheck(v: Version, val: Value)        // while (version != info->version)
    // seqlock writer
    | Acquire                                // spin_lock
    | WriteVersion                           // version = info->version
    | FirstLoad(v: Version)                  // info->version++, the load
    | FirstStore(v: Version, x: Version)     // and the store
    | StoreWord(v: Version)                  // *addr = val
    | Fence(v: Version)                      // __sync_synchronize()
    | SecondLoad(v: Version)                 // info->version++ again
    | SecondStore(v: Version, x: Version)
    | Release(v: Version)                    // spin_unlock
    // log taking, memop++
    | LogRead(v: Version, val: Value)
    | LogWrite(v: Version)

  /** `trace` is the debug-access log. */
  datatype Thread = Thread(pc: PC, buf: seq<Pending>, log: LogState, trace: seq<Event>)

  /** `hist` and `owner` are auxiliary: no step looks at them.  `hist` lists the accesses in the order in
      which they take effect; `owner` tells whose buffered unlock will free a lock. */
  datatype State = State(ver: map<ObjId, int>, lock: map<ObjId, int>, data: map<Addr, Value>,
                         owner: map<ObjId, Tid>, hist: seq<Event>, thr: seq<Thread>)

  /** Who moves: a thread's next instruction, the start or abort of a transaction, or its store buffer. */
  datatype Act = Go(tid: Tid) | Begin(tid: Tid) | Abort(tid: Tid) | Drain(tid: Tid)

  datatype Config = Config(w: Workload, nobj: nat, fenced: bool)

  function Init(c: Config): State {
    State(map[], map[], c.w.init, map[], [], seq(c.w.nthr, t => Thread(Start, [], NewLog(c.nobj), [])))
  }

  function InMemory(s: State, l: Loc): int {
    match l
    case VersionOf(o) => Num(s.ver, o)
    case LockOf(o) => Num(s.lock, o)
    case Word(a) => Get(s.data, a)
  }

  function ToMemory(s: State, l: Loc, x: int): State {
    match l
    case VersionOf(o) => s.(ver := s.ver[o := x])
    case LockOf(o) => s.(lock := s.lock[o := x], owner := s.owner - {o})
    case Word(a) => s.(data := s.data[a := x])
  }

  /** A load: the newest buffered store to the location, else memory. */
  function Load(s: State, buf: seq<Pending>, l: Loc): int {
    if buf == [] then InMemory(s, l)
    else if Last(buf).loc == l then Last(buf).val
    else Load(s, Front(buf), l)
  }

  function CurrentOp(c: Config, s: State, t: Tid): Op
    requires t < |s.thr|
  {
    c.w.prog(t, Results(s.thr[t].trace))
  }

  function Goto(s: State, t: Tid, pc: PC): State
    requires t < |s.thr|
  {
    s.(thr := s.thr[t := s.thr[t].(pc := pc)])
  }

  lemma GotoTwice(s: State, t: Tid, p: PC, q: PC)
    requires t < |s.thr|
    ensures Goto(Goto(s, t, p), t, q) == Goto(s, t, q)
  {
    assert s.thr[t := s.thr[t].(pc := p)][t := s.thr[t].(pc := q)] == s.thr[t := s.thr[t].(pc := q)];
  }

  function Push(s: State, t: Tid, l: Loc, x: int, pc: PC): State
    requires t < |s.thr|
  {
    var th := s.thr[t];
    s.(thr := s.thr[t := th.(pc := pc, buf := th.buf + [Pending(l, x)])])
  }

  /** The access takes effect. */
  function Commit(s: State, t: Tid, e: Event, pc: PC): State
    requires t < |s.thr|
  {
    Goto(s, t, pc).(hist := s.hist + [e])
  }

  function Logged(s: State, t: Tid, e: Event): State
    requires t < |s.thr| && e.addr.obj < |s.thr[t].log.last|
  {
    var th := s.thr[t];
    s.(thr := s.thr[t := th.(pc := Start, log := LogEvent(th.log, e), trace := th.trace + [e])])
  }

  /** mem_read */
  function ReadStep(s: State, t: Tid, a: Addr): Option<State>
    requires t < |s.thr|
  {
    var th, o := s.thr[t], a.obj;
    match th.pc
    case Start => Some(Goto(s, t, ReadVersion))
    case TxReadVersion => Some(Goto(s, t, TxReadWord(Load(s, th.buf, VersionOf(o)))))
    case TxReadWord(v) => Some(Goto(s, t, TxReadEnd(v, Load(s, th.buf, Word(a)))))
    case TxReadEnd(v, val) =>
      if v % 2 == 1 then Some(Goto(s, t, ReadVersion))
      else if th.buf != [] then None
      else if Num(s.ver, o) == v
          && Get(s.data, a) == val then Some(Commit(s, t, Event(t, false, a, v, val), LogRead(v, val)))
      else Some(Goto(s, t, ReadVersion))
    case ReadVersion =>
      var v := Load(s, th.buf, VersionOf(o));
      if v % 2 == 1 then None else Some(Goto(s, t, ReadWord(v)))
    case ReadWord(v) => Some(Goto(s, t, Recheck(v, Load(s, th.buf, Word(a)))))
    case Recheck(v, val) =>
      if Load(s, th.buf, VersionOf(o)) != v then Some(Goto(s, t, ReadVersion))
      else Some(Commit(s, t, Event(t, false, a, v, val), LogRead(v, val)))
    case LogRead(v, val) =>
      if o < |th.log.last| then Some(Logged(s, t, Event(t, false, a, v, val))) else None
    case _ => None
  }

  /** mem_write up to the fence, and its transaction. */
  function WriteStep(c: Config, s: State, t: Tid, a: Addr, x: Value): Option<State>
    requires t < |s.thr|
  {
    var th, o := s.thr[t], a.obj;
    match th.pc
    case Start => Some(Goto(s, t, Acquire))
    case TxWriteVersion => Some(Goto(s, t, TxWriteLock(Load(s, th.buf, VersionOf(o)))))
    case TxWriteLock(v) =>
      var l := Load(s, th.buf, LockOf(o));
      Some(Goto(s, t, if l != 0 then Acquire else TxWriteEnd(v, l)))
    case TxWriteEnd(v, l) =>
      if th.buf != [] then None
      else if Num(s.ver, o) == v && Num(s.lock, o) == l then
        Some(Commit(s, t, Event(t, true, a, v, x), LogWrite(v)).(ver := s.ver[o := v + 2], data := s.data[a := x]))
      else Some(Goto(s, t, Acquire))
    case Acquire =>
      if th.buf != [] || Num(s.lock, o) != 0 then None
      else Some(Goto(s, t, WriteVersion).(lock := s.lock[o := 1], owner := s.owner[o := t]))
    case WriteVersion => Some(Goto(s, t, FirstLoad(Load(s, th.buf, VersionOf(o)))))
    case FirstLoad(v) => Some(Goto(s, t, FirstStore(v, Load(s, th.buf, VersionOf(o)))))
    case FirstStore(v, y) => Some(Push(s, t, VersionOf(o), y + 1, StoreWord(v)))
    case StoreWord(v) => Some(Push(s, t, Word(a), x, Fence(v)))
    case Fence(v) =>
      if c.fenced && th.buf != [] then None
      else Some(Commit(s, t, Event(t, true, a, v, x), SecondLoad(v)))
    case SecondLoad(v) => Some(Goto(s, t, SecondStore(v, Load(s, th.buf, VersionOf(o)))))
    case SecondStore(v, y) => Some(Push(s, t, VersionOf(o), y + 1, Release(v)))
    case Release(v) => Some(Push(s, t, LockOf(o), 0, LogWrite(v)))
    case LogWrite(v) =>
      if o < |th.log.last| then Some(Logged(s, t, Event(t, true, a, v, x))) else None
    case _ => None
  }

  predicate InTx(pc: PC) {
    pc.TxReadVersion? || pc.TxReadWord? || pc.TxReadEnd? || pc.TxWriteVersion? || pc.TxWriteLock? || pc.TxWriteEnd?
  }

  function Step(c: Config, s: State, act: Act): Option<State> {
    var t := act.tid;
    if t >= |s.thr| then None else
    var th, op := s.thr[t], CurrentOp(c, s, t);
    match act
    case Drain(_) =>
      if th.buf == [] then None
      else Some(ToMemory(s.(thr := s.thr[t := th.(buf := th.buf[1..])]), th.buf[0].loc, th.buf[0].val))
    case Begin(_) =>
      if th.pc != Start || op.Stop? then None
      else Some(Goto(s, t, if op.Read? then TxReadVersion else TxWriteVersion))
    case Abort(_) =>
      if !InTx(th.pc) || op.Stop? then None
      else Some(Goto(s, t, if op.Read? then ReadVersion else Acquire))
    case Go(_) =>
      match op
      case Stop => None
      case Read(a) => ReadStep(s, t, a)
      case Write(a, x) => WriteStep(c, s, t, a, x)
  }

  /** The state after a schedule; an action that is not possible changes nothing. */
  function StepOf(c: Config): (State, Act) -> Option<State> {
    (s, act) => Step(c, s, act)
  }

  function Exec(c: Config, sched: seq<Act>): State {
    Run(StepOf(c), Init(c), sched)
  }

  /** The program only accesses objects that exist. */
  ghost predicate InBounds(c: Config) {
    forall t: Tid, results | !c.w.prog(t, results).Stop? :: c.w.prog(t, results).addr.obj < c.nobj
  }

  /** All threads have reached mem_finish_thr and all stores are in memory. */
  predicate Finished(c: Config, s: State) {
    forall t | 0 <= t < |s.thr| :: CurrentOp(c, s, t).Stop? && s.thr[t].buf == []
  }
}
