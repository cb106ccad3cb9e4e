/** mem-record-rtmcluster.c: one transaction for BATCH_N accesses, each with its own version.  After an abort
    the block's accesses run one by one as in the seqlock recorder; these, the shared state and the store
    buffers are those of RecordModel.  Accesses are queued and turned into logs outside transactions.

    Thread-private state, including the queue, is restored by an abort.  A transaction commits in one
    step, only while memory holds every version, word and lock it loaded. */
module ClusterRecord {
  import opened Mem
  import opened Schedules
  import opened RecordLog
  import Recorder
  import Blocks
  import RM = RecordModel

  type Config = RM.Config

  /** Inside a transaction: what it loaded from memory, and what it stored. */
  datatype Mode =
    | Plain
    | Tx(vers: map<ObjId, Version>, words: map<Addr, Value>, locks: map<ObjId, int>,
         newVers: map<ObjId, Version>, newWords: map<Addr, Value>)

  datatype PC =
    | Idle                   // entering mem_read, mem_write or mem_finish_thr
    | Access                 // an access outside transactions, at RecordModel's program counter
    | TxVersion              // version = info->version
    | TxWord(v: Version)     // val = *addr
    | TxLock(v: Version)     // info->write_lock, *addr = val, info->version += 2
    | TxEnd(ending: bool)    // _xend, after the block's last access or in before_finish_thr
    | Done
    | Failed                 // assert(!_xtest()), or logs processed inside a transaction

  /** What an abort restores: g_sim_bbcnt, g_batch_q with g_batch_idx, g_last and the logs, and the program's own
      state, which its accesses determine. */
  datatype Regs = Regs(bbcnt: nat, queue: seq<Recorder.BatchEntry>, log: LogState, trace: seq<Event>)

  datatype Thread = Thread(pc: PC, mode: Mode, regs: Regs, saved: Regs)

  /** The fields log, trace and hist of `rm` are auxiliary here. */
  datatype State = State(rm: RM.State, thr: seq<Thread>)

  datatype Act = Go(tid: Tid) | Abort(tid: Tid) | Drain(tid: Tid)

  function Init(c: Config): State {
    var r := Regs(0, [], NewLog(c.nobj), []);
    State(RM.Init(c), seq(c.w.nthr, t => Thread(Idle, Plain, r, r)))
  }

  function CurrentOp(c: Config, t: Tid, th: Thread): Op {
    c.w.prog(t, Results(th.regs.trace))
  }

  // ---------------------------------------------------------------- the queue

  /** batch_process_log */
  function Flushed(r: Regs): Regs {
    if Recorder.Fits(|r.log.last|, r.queue) then r.(log := Recorder.Drain(r.log, r.queue), queue := []) else r
  }

  /** batch_add_log without its flush. */
  function Queued(r: Regs, e: Event): Regs {
    r.(queue := r.queue + [Recorder.Encode(e.write, e.addr.obj, e.version)])
  }

  predicate Full(r: Regs) {
    |r.queue| == Blocks.BATCH_N
  }

  /** batch_add_log and g_sim_bbcnt++, outside transactions. */
  function Added(r: Regs, e: Event): Regs {
    var r1 := Queued(r, e);
    (if Full(r1) then Flushed(r1) else r1).(bbcnt := r.bbcnt + 1)
  }

  // ---------------------------------------------------------------- transactions

  /** An access made inside the transaction: it is queued at once unless it is the block's last. */
  function Made(th: Thread, e: Event): Thread {
    var r := th.regs.(trace := th.regs.trace + [e]);
    if Blocks.Phase(r.bbcnt) == Blocks.BATCH_N - 1 then th.(regs := r, pc := TxEnd(false))
    else th.(regs := Queued(r, e).(bbcnt := r.bbcnt + 1), pc := if Full(Queued(r, e)) then Failed else Idle)
  }

  function Aborted(th: Thread): Thread {
    Thread(Access, Plain, th.saved, th.saved)
  }

  /** The transaction's load of a version: its own store, else memory, which must not have changed since the
      transaction first loaded it. */
  function TxVersionStep(rm: RM.State, buf: seq<RM.Pending>, th: Thread, op: Op): Thread
    requires th.mode.Tx? && !op.Stop?
  {
    var o, m := op.addr.obj, th.mode;
    var x := RM.Load(rm, buf, RM.VersionOf(o));
    var v := if o in m.newVers then m.newVers[o] else x;
    if o !in m.newVers && o in m.vers && m.vers[o] != x then Aborted(th)
    else if op.Read? && v % 2 == 1 then Aborted(th)
    else th.(mode := if o in m.newVers then m else m.(vers := m.vers[o := x]),
        pc := if op.Read? then TxWord(v) else TxLock(v))
  }

  function TxWordStep(rm: RM.State, buf: seq<RM.Pending>, t: Tid, th: Thread, a: Addr, v: Version): Thread
    requires th.mode.Tx?
  {
    var m, x := th.mode, RM.Load(rm, buf, RM.Word(a));
    if a in m.newWords then Made(th, Event(t, false, a, v, m.newWords[a]))
    else if a in m.words && m.words[a] != x then Aborted(th)
    else Made(th.(mode := m.(words := m.words[a := x])), Event(t, false, a, v, x))
  }

  /** The transaction has loaded the lock and stored the word and the version. */
  function Wrote(m: Mode, a: Addr, x: Value, v: Version, l: int): Mode
    requires m.Tx?
  {
    m.(locks := m.locks[a.obj := l], newVers := m.newVers[a.obj := v + 2], newWords := m.newWords[a := x])
  }

  function TxLockStep(rm: RM.State, buf: seq<RM.Pending>, t: Tid, th: Thread, a: Addr, x: Value, v: Version): Thread
    requires th.mode.Tx?
  {
    var m, l := th.mode, RM.Load(rm, buf, RM.LockOf(a.obj));
    if l != 0 || (a.obj in m.locks && m.locks[a.obj] != l) then Aborted(th)
    else Made(th.(mode := Wrote(m, a, x, v, l)), Event(t, true, a, v, x))
  }

  /** Memory still holds what the transaction loaded. */
  predicate Holds(rm: RM.State, m: Mode)
    requires m.Tx?
  {
    && (forall o | o in m.vers :: Num(rm.ver, o) == m.vers[o])
    && (forall a | a in m.words :: Get(rm.data, a) == m.words[a])
    && (forall o | o in m.locks :: Num(rm.lock, o) == m.locks[o])
  }

  function InBlock(th: Thread): seq<Event> {
    if |th.saved.trace| <= |th.regs.trace| then th.regs.trace[|th.saved.trace|..] else []
  }

  /** The shared state after the commit. */
  function Committed(c: Config, rm: RM.State, t: Tid, m: Mode, accs: seq<Event>): RM.State
    requires t < |rm.thr| && m.Tx? && InRange(c.nobj, rm.thr[t].trace + accs)
  {
    var th := rm.thr[t];
    rm.(ver := rm.ver + m.newVers, data := rm.data + m.newWords, hist := rm.hist + accs,
        thr := rm.thr[t := th.(trace := th.trace + accs, log := LogAll(c.nobj, th.trace + accs))])
  }

  /** After _xend: the block's last access is queued and the logs are taken. */
  function TxDone(th: Thread): Thread
    requires th.pc.TxEnd?
  {
    if th.pc.ending || th.regs.trace == [] then th.(pc := Done, mode := Plain, regs := Flushed(th.regs))
    else
      var r := Added(th.regs, Last(th.regs.trace));
      th.(pc := Idle, mode := Plain, regs := Flushed(r))
  }

  // ---------------------------------------------------------------- steps

  function IdleStep(c: Config, t: Tid, th: Thread): Thread {
    var atStart := Blocks.Phase(th.regs.bbcnt) == 0;
    if CurrentOp(c, t, th).Stop? then
      if !atStart && th.mode.Tx? then th.(pc := TxEnd(true)) else th.(pc := Done, regs := Flushed(th.regs))
    else if atStart then
      if th.mode.Tx? then th.(pc := Failed)
      else Thread(TxVersion, Tx(map[], map[], map[], map[], map[]), th.regs, th.regs)
    else th.(pc := if th.mode.Tx? then TxVersion else Access)
  }

  /** One step of an access outside transactions; when the access is complete it is queued. */
  function AccessStep(c: Config, s: State, t: Tid): Option<State>
    requires t < |s.thr| == |s.rm.thr|
  {
    var th, op := s.thr[t], CurrentOp(c, t, s.thr[t]);
    var r := match op
      case Stop => None
      case Read(a) => RM.ReadStep(s.rm, t, a)
      case Write(a, x) => RM.WriteStep(c, s.rm, t, a, x);
    if r.None? || |r.value.thr| != |s.thr| then None
    else
      var trace := r.value.thr[t].trace;
      if |trace| == |s.rm.thr[t].trace| || trace == [] then Some(s.(rm := r.value))
      else
        var regs := th.regs.(trace := th.regs.trace + [Last(trace)]);
        Some(State(r.value, s.thr[t := th.(pc := Idle, regs := Added(regs, Last(trace)))]))
  }

  /** The steps inside a transaction. */
  function TxStep(c: Config, rm: RM.State, t: Tid, th: Thread): Option<Thread>
    requires t < |rm.thr|
  {
    var op, buf := CurrentOp(c, t, th), rm.thr[t].buf;
    if !th.mode.Tx? || op.Stop? || op.addr.obj >= c.nobj then None
    else match th.pc
      case TxVersion => Some(TxVersionStep(rm, buf, th, op))
      case TxWord(v) => if op.Read? then Some(TxWordStep(rm, buf, t, th, op.addr, v)) else None
      case TxLock(v) => if op.Write? then Some(TxLockStep(rm, buf, t, th, op.addr, op.val, v)) else None
      case _ => None
  }

  function EndStep(c: Config, s: State, t: Tid): Option<State>
    requires t < |s.thr| == |s.rm.thr| && s.thr[t].pc.TxEnd?
  {
    var th, rth := s.thr[t], s.rm.thr[t];
    if !th.mode.Tx? || rth.buf != [] || !InRange(c.nobj, rth.trace + InBlock(th)) then None
    else if Holds(s.rm, th.mode) then
      Some(State(Committed(c, s.rm, t, th.mode, InBlock(th)), s.thr[t := TxDone(th)]))
    else Some(s.(thr := s.thr[t := Aborted(th)]))
  }

  function Step(c: Config, s: State, act: Act): Option<State> {
    var t := act.tid;
    if t >= |s.thr| || |s.rm.thr| != |s.thr| then None else
    var th := s.thr[t];
    match act
    case Drain(_) =>
      var r := RM.Step(c, s.rm, RM.Drain(t));
      if r.None? then None else Some(s.(rm := r.value))
    case Abort(_) => if th.mode.Tx? then Some(s.(thr := s.thr[t := Aborted(th)])) else None
    case Go(_) =>
      match th.pc
      case Idle => Some(s.(thr := s.thr[t := IdleStep(c, t, th)]))
      case Access => AccessStep(c, s, t)
      case TxEnd(_) => EndStep(c, s, t)
      case _ =>
        var r := TxStep(c, s.rm, t, th);
        if r.None? then None else Some(s.(thr := s.thr[t := r.value]))
  }

  function StepOf(c: Config): (State, Act) -> Option<State> {
    (s, act) => Step(c, s, act)
  }

  function Exec(c: Config, sched: seq<Act>): State {
    Run(StepOf(c), Init(c), sched)
  }

  predicate Finished(s: State) {
    |s.rm.thr| == |s.thr| && forall t | 0 <= t < |s.thr| :: s.thr[t].pc == Done && s.rm.thr[t].buf == []
  }
}
