/** mem-replay-rtmcommit.c on x86 store buffers: the stores to data, to the log's cursor and to g_next_thr are plain,
    and no fence orders them.  A step is the step that CommitReplay takes, done with the memory the thread
    sees. */
module CommitReplayTso {
  import opened Mem
  import opened Schedules
  import opened StoreBuffer
  import opened Blocks
  import R = CommitReplay

  datatype Store = Word(addr: Addr, val: Value) | Cursor(n: nat) | Token(tid: Tid)

  datatype Shared = Shared(mem: Memory, token: Tid, cursor: nat)

  /** `flat` holds the threads' private state; its mem, token and cursor are auxiliary: memory as it would be if no
      store were buffered. */
  datatype State = State(flat: R.State, sh: Shared, buf: seq<seq<Store>>)

  datatype Act = Go(tid: Tid) | Drain(tid: Tid)

  function Init(w: Workload, log: seq<Tid>): State {
    var s := R.Init(w, log);
    State(s, Shared(s.mem, s.token, s.cursor), seq(|s.thr|, t => []))
  }

  function Reach(sh: Shared, st: Store): Shared {
    match st
    case Word(a, x) => sh.(mem := sh.mem[a := x])
    case Cursor(n) => sh.(cursor := n)
    case Token(t) => sh.(token := t)
  }

  /** What a thread with this buffer sees. */
  function View(sh: Shared, buf: seq<Store>): Shared {
    Seen(Reach, sh, buf)
  }

  function With(flat: R.State, sh: Shared): R.State {
    flat.(mem := sh.mem, token := sh.token, cursor := sh.cursor)
  }

  function SeenBy(s: State, t: Tid): R.State
    requires t < |s.buf|
  {
    With(s.flat, View(s.sh, s.buf[t]))
  }

  /** The store a step makes. */
  function Pushed(log: seq<Tid>, seen: R.State, t: Tid, op: Op): seq<Store>
    requires t < |seen.thr|
  {
    match seen.thr[t].pc
    case Body => if op.Write? then [Word(op.addr, op.val)] else []
    case ReadNext => if seen.cursor < |log| then [Cursor(seen.cursor + 1)] else []
    case SetNext(next) => [Token(next)]
    case _ => []
  }

  function Flat(flat: R.State): Shared {
    Shared(flat.mem, flat.token, flat.cursor)
  }

  /** The flat state after thread t took a step to th and made these stores. */
  function Merged(flat: R.State, t: Tid, th: R.Thread, st: seq<Store>): R.State
    requires t < |flat.thr|
  {
    With(R.With(flat, t, th), View(Flat(flat), st))
  }

  function Step(w: Workload, log: seq<Tid>, s: State, act: Act): Option<State> {
    var t := act.tid;
    if !(t < |s.flat.thr| == |s.buf|) then None else
    match act
    case Drain(_) =>
      if s.buf[t] == [] then None
      else Some(s.(sh := Reach(s.sh, s.buf[t][0]), buf := s.buf[t := s.buf[t][1..]]))
    case Go(_) =>
      var seen := SeenBy(s, t);
      var r := R.Step(w, log, seen, t);
      if r.None? || |r.value.thr| != |s.buf| then None else
      var st := Pushed(log, seen, t, R.CurrentOp(w, t, s.flat.thr[t]));
      Some(State(Merged(s.flat, t, r.value.thr[t], st), s.sh, s.buf[t := s.buf[t] + st]))
  }

  function StepOf(w: Workload, log: seq<Tid>): (State, Act) -> Option<State> {
    (s, act) => Step(w, log, s, act)
  }

  function Exec(w: Workload, log: seq<Tid>, sched: seq<Act>): State {
    Run(StepOf(w, log), Init(w, log), sched)
  }

  predicate Finished(s: State) {
    R.Finished(s.flat) && forall t | 0 <= t < |s.buf| :: s.buf[t] == []
  }
}
