/** mem-record-rtmcommit.c over the ticket lock itself: g_lock is the 32-bit word of ticket-spinlock.h.  A transaction
    loads the word in bb_end and commits only while memory holds the word it loaded; ticket_lock takes a ticket and
    compares; ticket_unlock loads the ticket and stores its successor, which may stay in the store buffer behind the
    block's other stores. */
module CommitTicket {
  import opened Mem
  import opened Schedules
  import opened Blocks
  import CR = CommitRecord
  import TL = TicketLock

  /** `cr` is the recorder; the queue in it is auxiliary, no step below looks at it.  `lk` is the lock: the word, the
      threads' tickets and loaded tickets, their buffered releases.  `seen` is the lock word a transaction loaded. */
  datatype State = State(cr: CR.State, lk: TL.State, seen: seq<nat>)

  function Init(w: Workload): State {
    State(CR.Init(w), TL.Init(w.nthr), seq(w.nthr, t => 0))
  }

  function WithThread(cr: CR.State, t: Tid, th: CR.Thread): CR.State
    requires t < |cr.thr|
  {
    cr.(thr := cr.thr[t := th])
  }

  /** A step of the recorder together with one of the lock. */
  function Both(s: State, cr: Option<CR.State>, lk: Option<TL.State>): Option<State> {
    if cr.None? || lk.None? then None else Some(s.(cr := cr.value, lk := lk.value))
  }

  function GoStep(w: Workload, s: State, t: Tid): Option<State>
    requires t < |s.cr.thr| == |s.lk.thr| == |s.seen|
  {
    var th, word := s.cr.thr[t], TL.Seen(s.lk, t);
    match th.pc
    case Enqueue => Both(s, CR.Step(w, s.cr, CR.Go(t)), TL.Step(s.lk, TL.Lock(t)))
    case Spin => Both(s, Some(WithThread(s.cr, t, th.(pc := CR.Body, mode := CR.Locked))), TL.Step(s.lk, TL.Go(t)))
    case CheckLock =>
      if !TL.Lockable(word) then Some(s.(cr := WithThread(s.cr, t, CR.Aborted(th))))
      else Some(s.(cr := WithThread(s.cr, t, th.(pc := CR.ReadTime)), seen := s.seen[t := word]))
    case Commit(ts) =>
      if th.buf != [] || !th.mode.Tx? then None
      else if s.lk.u == s.seen[t] && s.cr.sh.time == ts && CR.Holds(s.cr.sh.mem, th.mode.loaded) then
        Some(s.(cr := CR.TxCommitted(s.cr, t)))
      else Some(s.(cr := WithThread(s.cr, t, CR.Aborted(th))))
    case Unlock(_) =>
      if s.lk.thr[t].pc.Held? then Both(s, Some(s.cr), TL.Step(s.lk, TL.Unlock(t)))
      else Both(s, CR.Step(w, s.cr, CR.Go(t)), TL.Step(s.lk, TL.Go(t)))
    case _ => Both(s, CR.Step(w, s.cr, CR.Go(t)), Some(s.lk))
  }

  function Step(w: Workload, s: State, act: CR.Act): Option<State> {
    var t := act.tid;
    if !(t < |s.cr.thr| == |s.lk.thr| == |s.seen|) then None else
    match act
    case Abort(_) => Both(s, CR.Step(w, s.cr, act), Some(s.lk))
    case Drain(_) =>
      var buf := s.cr.thr[t].buf;
      if buf == [] then None
      else Both(s, CR.Step(w, s.cr, act), if buf[0].Free? then TL.Step(s.lk, TL.Drain(t)) else Some(s.lk))
    case Go(_) => GoStep(w, s, t)
  }

  function StepOf(w: Workload): (State, CR.Act) -> Option<State> {
    (s, act) => Step(w, s, act)
  }

  function Exec(w: Workload, sched: seq<CR.Act>): State {
    Run(StepOf(w), Init(w), sched)
  }

  predicate Finished(s: State) {
    CR.Finished(s.cr)
  }
}
