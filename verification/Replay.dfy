/** The version-based replayer of mem-replay.c as a transition system: every thread takes one shared memory access per
    step, except that the look at the reader log between taking and releasing its mutex is one step; a run is an
    arbitrary schedule of threads. */
module Replay {
  import opened Mem

  /** struct replay_wait_memop */
  datatype ReaderEntry = ReaderEntry(version: Version, memop: Memop, tid: Tid)

  /** What the recorder and the log tools hand over: a version log for each thread and the reader
      log of every object (`wait_reader_log[o].log[0..size]`). */
  datatype Logs = Logs(version: seq<seq<WaitVersion>>, reader: map<ObjId, seq<ReaderEntry>>)

  /** The program counter inside mem_read / mem_write, with the locals that are live there. */
  datatype PC =
    | Start                                       // before `memop == wait_version.memop`
    | SpinVersion                                 // while (obj_version[objid] < wait_version.version)
    | CheckVersion                                // assert(obj_version[objid] == wait_version.version)
    | Load                                        // val = *addr
    | SeenRead(val: Value)                        // check_access loads obj_version[objid]
    | DoneRead(val: Value, seen: Version)         // memop++
    | TryLock                                     // pthread_mutex_trylock in next_reader_memop
    | Peek                                        // look at log[n]
    | UnlockNone                                  // unlock, return NULL
    | UnlockSome(entry: ReaderEntry)              // unlock, return &log[logid]
    | SpinReader(entry: ReaderEntry)              // while (*memop_cnt[log->tid] <= log->memop)
    | SeenWrite                                   // check_access loads obj_version[objid]
    | Store(seen: Version)                        // *addr = val
    | LoadVersion(seen: Version)                  // obj_version[objid] += 2, the load
    | StoreVersion(seen: Version, loaded: Version) // and the store
    | DoneWrite(seen: Version)                    // memop++
    | Failed                                      // an assert or abort() fired

  /** `trace` is the debug-access log: the accesses completed so far. */
  datatype Thread = Thread(memop: nat, wait: WaitVersion, pos: nat, pc: PC, trace: seq<Event>)

  /** `cursor[o]` is wait_reader_log[o].n; `mutex` maps a locked mutex to its owner. */
  datatype State = State(mem: map<Addr, Value>, ver: map<ObjId, int>, cursor: map<ObjId, int>,
                         mutex: map<ObjId, Tid>, thr: seq<Thread>)

  function ReaderLog(logs: Logs, o: ObjId): seq<ReaderEntry> {
    if o in logs.reader then logs.reader[o] else []
  }

  /** next_wait_version_log: the new wait_version and the new log->buf. */
  function NextWait(log: seq<WaitVersion>, pos: nat, wait: WaitVersion): (WaitVersion, nat) {
    if pos < |log| && log[pos].memop != -1 then (log[pos], pos + 1)
    else (wait.(memop := -1), pos)
  }

  function NewThread(log: seq<WaitVersion>): Thread {
    var (wait, pos) := NextWait(log, 0, WaitVersion(0, 0));
    Thread(0, wait, pos, Start, [])
  }

  function Init(w: Workload, logs: Logs): State {
    State(w.init, map[], map[], map[],
        seq(|logs.version|, t requires 0 <= t < |logs.version| => NewThread(logs.version[t])))
  }

  function CurrentOp(w: Workload, s: State, t: Tid): Op
    requires t < |s.thr|
  {
    w.prog(t, Results(s.thr[t].trace))
  }

  function Goto(s: State, t: Tid, pc: PC): State
    requires t < |s.thr|
  {
    s.(thr := s.thr[t := s.thr[t].(pc := pc)])
  }

  function Finish(s: State, t: Tid, e: Event): State
    requires t < |s.thr|
  {
    var th := s.thr[t];
    s.(thr := s.thr[t := th.(memop := th.memop + 1, pc := Start, trace := th.trace + [e])])
  }

  /** The part of the access that follows wait_object_version. */
  function AfterVersion(op: Op): PC {
    if op.Read? then Load else TryLock
  }

  /** Only thread t moved. */
  predicate Moves(s: State, s': State, t: Tid) {
    t < |s.thr| == |s'.thr| && s'.thr == s.thr[t := s'.thr[t]]
  }

  /** wait_object_version */
  function VersionStep(log: seq<WaitVersion>, s: State, t: Tid, op: Op): (r: Option<State>)
    requires t < |s.thr| && !op.Stop?
    ensures r.Some? ==> Moves(s, r.value, t)
  {
    var th, o := s.thr[t], op.addr.obj;
    match th.pc
    case Start =>
      Some(Goto(s, t, if th.memop == th.wait.memop then SpinVersion else AfterVersion(op)))
    case SpinVersion =>
      if Num(s.ver, o) < th.wait.version then None else Some(Goto(s, t, CheckVersion))
    case _ =>
      if Num(s.ver, o) != th.wait.version then Some(Goto(s, t, Failed)) else
      var (wait, pos) := NextWait(log, th.pos, th.wait);
      Some(s.(thr := s.thr[t := th.(pc := AfterVersion(op), wait := wait, pos := pos)]))
  }

  /** mem_read after its version wait. */
  function ReadStep(s: State, t: Tid, a: Addr): (r: Option<State>)
    requires t < |s.thr|
    ensures r.Some? ==> Moves(s, r.value, t)
  {
    match s.thr[t].pc
    case Load => Some(Goto(s, t, SeenRead(Get(s.mem, a))))
    case SeenRead(val) => Some(Goto(s, t, DoneRead(val, Num(s.ver, a.obj))))
    case DoneRead(val, seen) => Some(Finish(s, t, Event(t, false, a, seen, val)))
    case _ => None
  }

  /** wait_reader and next_reader_memop. */
  function ReaderStep(logs: Logs, s: State, t: Tid, o: ObjId): (r: Option<State>)
    requires t < |s.thr|
    ensures r.Some? ==> Moves(s, r.value, t)
  {
    match s.thr[t].pc
    case TryLock =>
      if o in s.mutex then Some(Goto(s, t, Failed))
      else Some(Goto(s, t, Peek).(mutex := s.mutex[o := t]))
    case Peek => Some(PeekStep(logs, s, t, o))
    case UnlockNone => Some(Goto(s, t, SeenWrite).(mutex := s.mutex - {o}))
    case UnlockSome(entry) => Some(Goto(s, t, SpinReader(entry)).(mutex := s.mutex - {o}))
    case SpinReader(entry) =>
      if entry.tid >= |s.thr| then Some(Goto(s, t, Failed))
      else if s.thr[entry.tid].memop <= entry.memop then None
      else Some(Goto(s, t, TryLock))
    case _ => None
  }

  /** next_reader_memop between taking and releasing the mutex, in one step: it looks at the cursor and the object's
      version and may move the cursor. */
  function PeekStep(logs: Logs, s: State, t: Tid, o: ObjId): State
    requires t < |s.thr|
  {
    var n, log, v := Num(s.cursor, o), ReaderLog(logs, o), Num(s.ver, o);
    if n < 0 || n >= |log| then Goto(s, t, UnlockNone)
    else if v > log[n].version then Goto(s, t, Failed)
    else if v == log[n].version then Goto(s, t, UnlockSome(log[n])).(cursor := s.cursor[o := n + 1])
    else Goto(s, t, UnlockNone)
  }

  /** mem_write after wait_reader. */
  function WriteStep(s: State, t: Tid, a: Addr, x: Value): (r: Option<State>)
    requires t < |s.thr|
    ensures r.Some? ==> Moves(s, r.value, t)
  {
    match s.thr[t].pc
    case SeenWrite => Some(Goto(s, t, Store(Num(s.ver, a.obj))))
    case Store(seen) => Some(Goto(s, t, LoadVersion(seen)).(mem := s.mem[a := x]))
    case LoadVersion(seen) => Some(Goto(s, t, StoreVersion(seen, Num(s.ver, a.obj))))
    case StoreVersion(seen, loaded) => Some(Goto(s, t, DoneWrite(seen)).(ver := s.ver[a.obj := loaded + 2]))
    case DoneWrite(seen) => Some(Finish(s, t, Event(t, true, a, seen, x)))
    case _ => None
  }

  predicate AtVersion(pc: PC) {
    pc.Start? || pc.SpinVersion? || pc.CheckVersion?
  }

  predicate AtReader(pc: PC) {
    pc.TryLock? || pc.Peek? || pc.UnlockNone? || pc.UnlockSome? || pc.SpinReader?
  }

  /** One step of thread t; None when it is spinning or has finished. */
  function Step(w: Workload, logs: Logs, s: State, t: Tid): (r: Option<State>)
    requires t < |s.thr| == |logs.version|
    ensures r.Some? ==> Moves(s, r.value, t)
  {
    var op := CurrentOp(w, s, t);
    if op.Stop? then None
    else if AtVersion(s.thr[t].pc) then VersionStep(logs.version[t], s, t, op)
    else if op.Read? then ReadStep(s, t, op.addr)
    else if AtReader(s.thr[t].pc) then ReaderStep(logs, s, t, op.addr.obj)
    else WriteStep(s, t, op.addr, op.val)
  }

  /** The state after a schedule; scheduling a spinning or finished thread changes nothing. */
  function Exec(w: Workload, logs: Logs, sched: seq<Tid>): (s: State)
    ensures |s.thr| == |logs.version|
  {
    if sched == [] then Init(w, logs)
    else
      var s := Exec(w, logs, Front(sched));
      var t := Last(sched);
      if t < |s.thr| && Step(w, logs, s, t).Some? then Step(w, logs, s, t).value else s
  }

  /** Every thread has made its last access. */
  predicate Finished(w: Workload, s: State) {
    forall t | 0 <= t < |s.thr| :: CurrentOp(w, s, t).Stop?
  }
}
