/** mem-replay-rtmcommit.c: blocks are replayed one after another by passing the token g_next_thr. */
module CommitReplay {
  import opened Mem
  import opened Blocks

  datatype PC =
    | Idle                 // entering mem_read, mem_write or mem_finish_thr; while (g_next_thr != g_tid)
    | Check                // assert(g_next_thr == g_tid)
    | Body                 // the access itself
    | ReadNext             // read_next_thr: read_log_entry
    | SetNext(next: Tid)   // read_next_thr: g_next_thr = *ptid
    | Return               // g_sim_bbcnt++, or the end of mem_finish_thr
    | Done
    | Failed

  datatype Thread = Thread(pc: PC, ending: bool, bbcnt: nat, trace: seq<Access>)

  datatype State = State(mem: Memory, token: Tid, cursor: nat, thr: seq<Thread>)

  function Init(w: Workload, log: seq<Tid>): State {
    State(w.init, if log == [] then 0 else log[0], if log == [] then 0 else 1,
          seq(w.nthr, t => Thread(Idle, false, 0, [])))
  }

  function CurrentOp(w: Workload, t: Tid, th: Thread): Op {
    w.prog(t, Returned(th.trace))
  }

  function Accessed(th: Thread, e: Access): Thread {
    var th1 := th.(trace := th.trace + [e]);
    if Phase(th.bbcnt) == BATCH_N - 1 then th1.(pc := ReadNext) else th1.(pc := Idle, bbcnt := th.bbcnt + 1)
  }

  function With(s: State, t: Tid, th: Thread): State
    requires t < |s.thr|
  {
    s.(thr := s.thr[t := th])
  }

  /** One step of thread t, which makes one shared access, except that reading the commit log both looks at its cursor
      and moves it; None when it spins or has finished. */
  function Step(w: Workload, log: seq<Tid>, s: State, t: Tid): Option<State>
    requires t < |s.thr|
  {
    var th := s.thr[t];
    var op := CurrentOp(w, t, th);
    match th.pc
    case Idle =>
      if op.Stop? then
        Some(With(s, t, if Phase(th.bbcnt) == 0 then th.(pc := Done) else th.(pc := ReadNext, ending := true)))
      else if Phase(th.bbcnt) == 0 && s.token != t then None
      else Some(With(s, t, th.(pc := Check)))
    case Check => Some(With(s, t, th.(pc := if s.token == t then Body else Failed)))
    case Body =>
      (match op
       case Stop => None
       case Read(a) => Some(With(s, t, Accessed(th, Access(false, a, Get(s.mem, a)))))
       case Write(a, x) => Some(With(s, t, Accessed(th, Access(true, a, x))).(mem := s.mem[a := x])))
    case ReadNext =>
      if s.cursor < |log| then Some(With(s, t, th.(pc := SetNext(log[s.cursor]))).(cursor := s.cursor + 1))
      else Some(With(s, t, th.(pc := Return)))
    case SetNext(next) => Some(With(s, t, th.(pc := Return)).(token := next))
    case Return => Some(With(s, t, if th.ending then th.(pc := Done) else th.(pc := Idle, bbcnt := th.bbcnt + 1)))
    case _ => None
  }

  function Exec(w: Workload, log: seq<Tid>, sched: seq<Tid>): State {
    if sched == [] then Init(w, log)
    else
      var s, t := Exec(w, log, Front(sched)), Last(sched);
      if t < |s.thr| && Step(w, log, s, t).Some? then Step(w, log, s, t).value else s
  }

  predicate Finished(s: State) {
    forall t | 0 <= t < |s.thr| :: s.thr[t].pc == Done
  }
}
