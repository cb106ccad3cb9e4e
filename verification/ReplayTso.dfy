/** The replayer of mem-replay.c on x86 store buffers.  Its stores to data, obj_version and memop are plain: they
    reach memory later, in order, while the thread goes on; nothing but compiler barriers and the locked
    operations of the debug mutex orders them.  The reader log cursors are only touched between those locked
    operations, which wait for the thread's buffer, so their stores are shown in memory at once.

    A step is the step that Replay takes, done with the memory the thread sees. */
module ReplayTso {
  import opened Mem
  import opened Schedules
  import opened StoreBuffer
  import R = Replay

  datatype Store = Word(addr: Addr, val: Value) | Bump(obj: ObjId, version: Version) | Count(n: nat)

  /** Memory: data, obj_version and the threads' memop counters. */
  datatype Shared = Shared(mem: map<Addr, Value>, ver: map<ObjId, int>, count: seq<nat>)

  /** `flat` holds the threads' private state, the cursors and the mutexes; its mem and ver are auxiliary: memory
      as it would be if no store were buffered. */
  datatype State = State(flat: R.State, sh: Shared, buf: seq<seq<Store>>)

  datatype Act = Go(tid: Tid) | Drain(tid: Tid)

  function Init(w: Workload, logs: R.Logs): State {
    var s := R.Init(w, logs);
    State(s, Shared(s.mem, s.ver, seq(|s.thr|, t => 0)), seq(|s.thr|, t => []))
  }

  /** A store of thread t reaches memory. */
  function Reach(sh: Shared, t: Tid, st: Store): Shared {
    match st
    case Word(a, x) => sh.(mem := sh.mem[a := x])
    case Bump(o, v) => sh.(ver := sh.ver[o := v])
    case Count(n) => if t < |sh.count| then sh.(count := sh.count[t := n]) else sh
  }

  /** What thread t sees with this buffer. */
  function View(sh: Shared, t: Tid, buf: seq<Store>): Shared {
    Seen(ReachBy(t), sh, buf)
  }

  function ReachBy(t: Tid): (Shared, Store) -> Shared {
    (sh, st) => Reach(sh, t, st)
  }

  /** The replayer's state as thread t sees it: its own private state, and everyone's memop from memory. */
  function SeenBy(s: State, t: Tid): R.State
    requires t < |s.flat.thr| == |s.buf| == |s.sh.count|
  {
    var v, thr := View(s.sh, t, s.buf[t]), s.flat.thr;
    s.flat.(mem := v.mem, ver := v.ver,
            thr := seq(|thr|, u requires 0 <= u < |thr| => if u == t then thr[u] else thr[u].(memop := s.sh.count[u])))
  }

  /** The store a step makes. */
  function Pushed(th: R.Thread, op: Op): seq<Store> {
    match th.pc
    case Store(_) => if op.Write? then [Word(op.addr, op.val)] else []
    case StoreVersion(_, loaded) => if op.Write? then [Bump(op.addr.obj, loaded + 2)] else []
    case DoneRead(_, _) => [Count(th.memop + 1)]
    case DoneWrite(_) => [Count(th.memop + 1)]
    case _ => []
  }

  /** The flat state after thread t took a step from what it saw to r. */
  function Merged(flat: R.State, t: Tid, r: R.State, st: seq<Store>): R.State
    requires t < |flat.thr| == |r.thr|
  {
    var flat1 := flat.(thr := flat.thr[t := r.thr[t]], cursor := r.cursor, mutex := r.mutex);
    if st == [] then flat1
    else match st[0]
      case Word(a, x) => flat1.(mem := flat.mem[a := x])
      case Bump(o, v) => flat1.(ver := flat.ver[o := v])
      case Count(_) => flat1
  }

  /** pthread_mutex_trylock and pthread_mutex_unlock are locked instructions. */
  predicate NeedsEmpty(pc: R.PC) {
    pc.TryLock? || pc.UnlockNone? || pc.UnlockSome?
  }

  function Step(w: Workload, logs: R.Logs, s: State, act: Act): Option<State> {
    var t := act.tid;
    if !(t < |s.flat.thr| == |s.buf| == |s.sh.count| == |logs.version|) then None else
    match act
    case Drain(_) =>
      if s.buf[t] == [] then None
      else Some(s.(sh := Reach(s.sh, t, s.buf[t][0]), buf := s.buf[t := s.buf[t][1..]]))
    case Go(_) =>
      if NeedsEmpty(s.flat.thr[t].pc) && s.buf[t] != [] then None else
      var r := R.Step(w, logs, SeenBy(s, t), t);
      if r.None? then None else
      var st := Pushed(s.flat.thr[t], R.CurrentOp(w, s.flat, t));
      Some(State(Merged(s.flat, t, r.value, st), s.sh, s.buf[t := s.buf[t] + st]))
  }

  function StepOf(w: Workload, logs: R.Logs): (State, Act) -> Option<State> {
    (s, act) => Step(w, logs, s, act)
  }

  function Exec(w: Workload, logs: R.Logs, sched: seq<Act>): State {
    Run(StepOf(w, logs), Init(w, logs), sched)
  }

  /** Every thread has made its last access and all stores are in memory. */
  predicate Finished(w: Workload, s: State) {
    R.Finished(w, s.flat) && forall t | 0 <= t < |s.buf| :: s.buf[t] == []
  }
}
