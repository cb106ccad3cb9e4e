/** The ticket lock of ticket-spinlock.h, with its 16-bit counters packed in one 32-bit word, as a
    transition system over x86 store buffers.  The store that releases the lock may stay in the thread's
    buffer; the locked instructions of ticket_lock and ticket_trylock wait until it has reached memory. */
module TicketLock {
  import opened Mem
  import opened Schedules

  const WRAP: nat := 0x1_0000

  /** union ticketlock: `ticket` is the low half of `u`, `users` the high half. */
  function Ticket(u: nat): nat {
    u % WRAP
  }

  function Users(u: nat): nat {
    u / WRAP
  }

  function Pack(ticket: nat, users: nat): nat {
    users * WRAP + ticket
  }

  /** unsigned short arithmetic */
  function Succ(x: nat): nat {
    (x + 1) % WRAP
  }

  datatype PC =
    | Out
    | Spin(me: nat)         // ticket_lock: while (t->s.ticket != me)
    | Held
    | Unlocking(x: nat)     // ticket_unlock: t->s.ticket++, loaded but not stored
    | Trying(me: nat)       // ticket_trylock: before the cmpxchg

  datatype Thread = Thread(pc: PC, pending: Option<nat>)

  /** `taken`, `entered` and `left` are auxiliary: the threads in the order in which they took a ticket, those
      that have been let in, and how many releases have reached memory. */
  datatype State = State(u: nat, thr: seq<Thread>, taken: seq<Tid>, entered: seq<Tid>, left: nat)

  datatype Act = Lock(tid: Tid) | Try(tid: Tid) | Unlock(tid: Tid) | Go(tid: Tid) | Drain(tid: Tid)

  function Init(n: nat): State {
    State(0, seq(n, t => Thread(Out, None)), [], [], 0)
  }

  function With(s: State, t: Tid, pc: PC): State
    requires t < |s.thr|
  {
    s.(thr := s.thr[t := s.thr[t].(pc := pc)])
  }

  /** ticket_lockable */
  predicate Lockable(u: nat) {
    Ticket(u) == Users(u)
  }

  /** cmpxchg(&t->u, cmp, cmpnew) of ticket_trylock: the new word, if it succeeds. */
  function TryWord(u: nat, me: nat): Option<nat> {
    var cmp, cmpnew := me * WRAP + me, Succ(me) * WRAP + me;
    if u == cmp then Some(cmpnew) else None
  }

  function Step(s: State, act: Act): Option<State> {
    var t := act.tid;
    if t >= |s.thr| then None else
    var th := s.thr[t];
    match act
    case Lock(_) =>
      if th.pc != Out || th.pending.Some? then None
      else Some(With(s, t, Spin(Users(s.u))).(u := Pack(Ticket(s.u), Succ(Users(s.u))), taken := s.taken + [t]))
    case Try(_) => if th.pc != Out then None else Some(With(s, t, Trying(Users(s.u))))
    case Unlock(_) => if th.pc != Held then None else Some(With(s, t, Unlocking(Ticket(s.u))))
    case Drain(_) =>
      if th.pending.None? then None
      else Some(s.(u := Pack(th.pending.value, Users(s.u)), left := s.left + 1,
          thr := s.thr[t := th.(pending := None)]))
    case Go(_) =>
      match th.pc
      case Spin(me) => if Ticket(s.u) != me then None else Some(With(s, t, Held).(entered := s.entered + [t]))
      case Unlocking(x) => Some(s.(thr := s.thr[t := Thread(Out, Some(Succ(x)))]))
      case Trying(me) =>
        if th.pending.Some? then None else
        (match TryWord(s.u, me)
         case Some(u) => Some(With(s, t, Held).(u := u, taken := s.taken + [t], entered := s.entered + [t]))
         case None => Some(With(s, t, Out)))
      case _ => None
  }

  function StepOf(): (State, Act) -> Option<State> {
    (s, act) => Step(s, act)
  }

  function Exec(n: nat, sched: seq<Act>): State {
    Run(StepOf(), Init(n), sched)
  }

  // ---------------------------------------------------------------- the invariant

  /** Has a ticket that is not used up. */
  predicate Active(th: Thread) {
    th.pc.Spin? || Inside(th)
  }

  /** Was let in and its release has not reached memory. */
  predicate Inside(th: Thread) {
    th.pc.Held? || th.pc.Unlocking? || th.pending.Some?
  }

  /** The thread with the i-th ticket. */
  predicate SlotOk(s: State, i: nat)
    requires i < |s.taken|
  {
    var t := s.taken[i];
    && t < |s.thr|
    && if i < |s.entered| then Inside(s.thr[t]) else s.thr[t].pc == Spin(i % WRAP) && s.thr[t].pending.None?
  }

  predicate ThreadOk(s: State, t: Tid)
    requires t < |s.thr|
  {
    var th := s.thr[t];
    && (Active(th) ==> exists i :: s.left <= i < |s.taken| && s.taken[i] == t)
    && (th.pc.Unlocking? ==> th.pc.x == Ticket(s.u) && th.pending.None?)
    && (th.pending.Some? ==> th.pending.value == Succ(Ticket(s.u)) && (th.pc.Out? || th.pc.Trying?))
    && (th.pc.Trying? ==> th.pc.me < WRAP)
  }

  ghost predicate Distinct(s: State) {
    forall i, j | s.left <= i < j < |s.taken| :: s.taken[i] != s.taken[j]
  }

  ghost predicate Inv(s: State) {
    && s.left <= |s.entered| <= s.left + 1 && s.entered <= s.taken
    && s.u == Pack(s.left % WRAP, |s.taken| % WRAP)
    && (forall i | s.left <= i < |s.taken| :: SlotOk(s, i))
    && (forall t | 0 <= t < |s.thr| :: ThreadOk(s, t))
    && Distinct(s)
  }

  lemma Packed(ticket: nat, users: nat)
    requires ticket < WRAP
    ensures Ticket(Pack(ticket, users)) == ticket && Users(Pack(ticket, users)) == users
  {
  }

  /** Packing is injective, so the cmpxchg sees both halves. */
  lemma PackedSame(ticket: nat, users: nat, me: nat)
    requires ticket < WRAP && me < WRAP && Pack(ticket, users) == me * WRAP + me
    ensures ticket == me && users == me
  {
    Packed(ticket, users);
    Packed(me, me);
  }

  lemma SuccMod(i: nat)
    ensures Succ(i % WRAP) == (i + 1) % WRAP
  {
  }

  /** Counters that are less than a wrap apart and agree modulo the wrap are equal. */
  lemma SameMod(a: nat, b: nat)
    requires a <= b < a + WRAP && a % WRAP == b % WRAP
    ensures a == b
  {
  }

  /** No more tickets are out than there are threads. */
  lemma ActiveBound(s: State)
    requires Inv(s)
    ensures |s.taken| - s.left <= |s.thr|
  {
    var q := s.taken[s.left..];
    forall i | 0 <= i < |q| ensures q[i] < |s.thr| {
      assert SlotOk(s, s.left + i);
    }
    Pigeonhole(q, |s.thr|);
  }

  /** Nor more than there are other threads, if some thread has none. */
  lemma IdleBound(s: State, t: Tid)
    requires Inv(s) && t < |s.thr| && !Active(s.thr[t])
    ensures |s.taken| - s.left < |s.thr|
  {
    var q := s.taken[s.left..] + [t];
    forall i | 0 <= i < |q| - 1 ensures q[i] < |s.thr| && q[i] != t {
      assert SlotOk(s, s.left + i);
    }
    Pigeonhole(q, |s.thr|);
  }

  lemma {:induction false} Pigeonhole(q: seq<nat>, n: nat)
    requires (forall i | 0 <= i < |q| :: q[i] < n) && forall i, j | 0 <= i < j < |q| :: q[i] != q[j]
    ensures |q| <= n
    decreases n
  {
    assert q != [] ==> q[0] < n;
    if n > 0 {
      if i :| 0 <= i < |q| && q[i] == n - 1 {
        Pigeonhole(q[..i] + q[i + 1..], n - 1);
      } else {
        Pigeonhole(q, n - 1);
      }
    }
  }

  /** Where a thread's ticket is. */
  lemma SlotOf(s: State, t: Tid) returns (i: nat)
    requires Inv(s) && t < |s.thr| && Active(s.thr[t])
    ensures s.left <= i < |s.taken| && s.taken[i] == t
    ensures Inside(s.thr[t]) ==> i == s.left && |s.entered| == s.left + 1
    ensures s.thr[t].pc.Spin? ==> |s.entered| <= i && s.thr[t].pc.me == i % WRAP
  {
    assert ThreadOk(s, t);
    i :| s.left <= i < |s.taken| && s.taken[i] == t;
    assert SlotOk(s, i);
  }

  lemma Halves(s: State)
    requires Inv(s)
    ensures Ticket(s.u) == s.left % WRAP && Users(s.u) == |s.taken| % WRAP
  {
    Packed(s.left % WRAP, |s.taken| % WRAP);
  }

  // ---------------------------------------------------------------- steps

  lemma LockKeeps(s: State, t: Tid)
    requires Inv(s) && t < |s.thr| && s.thr[t] == Thread(Out, None)
    ensures Inv(Step(s, Lock(t)).value)
  {
    var s' := Step(s, Lock(t)).value;
    Halves(s);
    SuccMod(|s.taken|);
    Packed(s.left % WRAP, |s'.taken| % WRAP);
    hide Ticket, Users, Pack, Succ;
    forall i | s'.left <= i < |s'.taken| ensures SlotOk(s', i) && (i < |s.taken| ==> s.taken[i] != t) {
      if i < |s.taken| { assert SlotOk(s, i); }
    }
    forall u | 0 <= u < |s'.thr| ensures ThreadOk(s', u) {
      assert ThreadOk(s, u);
      if u == t {
        assert s'.taken[|s.taken|] == t;
      } else if Active(s.thr[u]) {
        var i := SlotOf(s, u);
        assert s'.taken[i] == u;
      }
    }
  }

  /** Going on inside or outside the lock takes no ticket and lets nobody in. */
  lemma PrivateKeeps(s: State, t: Tid, th': Thread)
    requires Inv(s) && t < |s.thr| && !s.thr[t].pc.Spin? && !th'.pc.Spin? && (Inside(th') <==> Inside(s.thr[t]))
    requires ThreadOk(s.(thr := s.thr[t := th']), t)
    ensures Inv(s.(thr := s.thr[t := th']))
  {
    var s' := s.(thr := s.thr[t := th']);
    hide Pack;
    forall i | s'.left <= i < |s'.taken| ensures SlotOk(s', i) {
      assert SlotOk(s, i);
    }
    forall u | 0 <= u < |s'.thr| ensures ThreadOk(s', u) {
      assert ThreadOk(s, u);
    }
  }

  /** Only the oldest ticket is let in. */
  lemma EnterKeeps(s: State, t: Tid)
    requires Inv(s) && |s.thr| <= WRAP && t < |s.thr| && s.thr[t] == Thread(Spin(Ticket(s.u)), None)
    ensures Inv(Step(s, Go(t)).value)
  {
    var s' := Step(s, Go(t)).value;
    var k := SlotOf(s, t);
    Halves(s);
    ActiveBound(s);
    SameMod(s.left, k);
    hide Ticket, Users, Pack;
    forall i | s'.left <= i < |s'.taken| ensures SlotOk(s', i) {
      assert SlotOk(s, i);
    }
    forall u | 0 <= u < |s'.thr| ensures ThreadOk(s', u) {
      assert ThreadOk(s, u);
      if u == t { assert s'.taken[k] == u; }
    }
  }

  /** The release reaches memory: the next ticket is served. */
  lemma DrainKeeps(s: State, t: Tid)
    requires Inv(s) && t < |s.thr| && s.thr[t].pending.Some?
    ensures Inv(Step(s, Drain(t)).value)
    ensures s.left < |s.taken| && s.taken[s.left] == t
  {
    var s' := Step(s, Drain(t)).value;
    var k := SlotOf(s, t);
    assert ThreadOk(s, t);
    Halves(s);
    SuccMod(s.left);
    Packed(s'.left % WRAP, |s.taken| % WRAP);
    hide Ticket, Users, Pack, Succ;
    forall i | s'.left <= i < |s'.taken| ensures SlotOk(s', i) {
      assert SlotOk(s, i);
    }
    forall u | 0 <= u < |s'.thr| ensures ThreadOk(s', u) {
      assert ThreadOk(s, u);
      if u != t && Active(s.thr[u]) {
        var i := SlotOf(s, u);
        assert s'.taken[i] == u;
      }
    }
  }

  /** The cmpxchg only succeeds when every ticket is used up. */
  lemma TryKeeps(s: State, t: Tid)
    requires Inv(s) && |s.thr| <= WRAP && t < |s.thr| && s.thr[t].pc.Trying? && s.thr[t].pending.None?
    requires TryWord(s.u, s.thr[t].pc.me).Some?
    ensures Inv(Step(s, Go(t)).value) && s.left == |s.taken|
  {
    var s', me := Step(s, Go(t)).value, s.thr[t].pc.me;
    assert ThreadOk(s, t);
    PackedSame(s.left % WRAP, |s.taken| % WRAP, me);
    IdleBound(s, t);
    SameMod(s.left, |s.taken|);
    SuccMod(|s.taken|);
    Packed(s.left % WRAP, |s'.taken| % WRAP);
    Halves(s);
    hide Ticket, Users, Succ;
    forall u | 0 <= u < |s'.thr| ensures ThreadOk(s', u) {
      assert ThreadOk(s, u);
      if u == t { assert s'.taken[|s.taken|] == u; }
    }
  }

  lemma StepKeeps(s: State, act: Act)
    requires Inv(s) && |s.thr| <= WRAP && Step(s, act).Some?
    ensures Inv(Step(s, act).value) && |Step(s, act).value.thr| == |s.thr|
  {
    var t := act.tid;
    var th := s.thr[t];
    assert ThreadOk(s, t);
    assert Users(s.u) < WRAP by { Halves(s); }
    hide Ticket, Users, Pack, Succ, TryWord;
    match act
    case Lock(_) => LockKeeps(s, t);
    case Try(_) => PrivateKeeps(s, t, th.(pc := Trying(Users(s.u))));
    case Unlock(_) => PrivateKeeps(s, t, th.(pc := Unlocking(Ticket(s.u))));
    case Drain(_) => DrainKeeps(s, t);
    case Go(_) =>
      match th.pc
      case Spin(me) => EnterKeeps(s, t);
      case Unlocking(x) => PrivateKeeps(s, t, Thread(Out, Some(Succ(x))));
      case Trying(me) =>
        if TryWord(s.u, me).Some? { TryKeeps(s, t); } else { PrivateKeeps(s, t, th.(pc := Out)); }
      case _ =>
  }

  lemma {:induction false} ExecInv(n: nat, sched: seq<Act>)
    requires n <= WRAP
    ensures Inv(Exec(n, sched)) && |Exec(n, sched).thr| == n
  {
    if sched != [] {
      ExecInv(n, Front(sched));
      hide Inv;
      if Step(Exec(n, Front(sched)), Last(sched)).Some? { StepKeeps(Exec(n, Front(sched)), Last(sched)); }
    }
  }

  // ---------------------------------------------------------------- what the lock guarantees

  /** First come, first served, across any number of wraps: threads are let in in the order of their tickets,
      one at a time, each only after its predecessor's release has reached memory. */
  lemma FirstComeFirstServed(n: nat, sched: seq<Act>)
    requires n <= WRAP
    ensures var s := Exec(n, sched); s.entered <= s.taken && s.left <= |s.entered| <= s.left + 1
  {
    ExecInv(n, sched);
  }

  predicate Overlap(s: State, t: Tid, u: Tid) {
    t < |s.thr| && u < |s.thr| && t != u && Inside(s.thr[t]) && Inside(s.thr[u])
  }

  ghost predicate Excludes(n: nat) {
    forall sched, t, u :: !Overlap(Exec(n, sched), t, u)
  }

  predicate Idle(s: State) {
    forall t | 0 <= t < |s.thr| :: !Active(s.thr[t])
  }

  ghost predicate TellsFree(n: nat) {
    forall sched :: Lockable(Exec(n, sched).u) <==> Idle(Exec(n, sched))
  }

  lemma MutualExclusion(n: nat, sched: seq<Act>, t: Tid, u: Tid)
    requires n <= WRAP
    ensures !Overlap(Exec(n, sched), t, u)
  {
    var s := Exec(n, sched);
    ExecInv(n, sched);
    if Overlap(s, t, u) {
      var i := SlotOf(s, t);
      var j := SlotOf(s, u);
    }
  }

  /** The queue of threads that have a ticket, the holder first. */
  function Queue(s: State): seq<Tid>
    requires s.left <= |s.taken|
  {
    s.taken[s.left..]
  }

  lemma QueueEmpty(s: State)
    requires Inv(s) && |s.thr| < WRAP
    ensures Lockable(s.u) <==> Queue(s) == []
    ensures Idle(s) <==> Queue(s) == []
  {
    Halves(s);
    ActiveBound(s);
    if Lockable(s.u) { SameMod(s.left, |s.taken|); }
    if Queue(s) != [] { assert SlotOk(s, s.left); }
    if t :| 0 <= t < |s.thr| && Active(s.thr[t]) { var i := SlotOf(s, t); }
  }

  /** The lock word as a thread sees it, with its own buffered release. */
  function Seen(s: State, t: Tid): nat
    requires t < |s.thr|
  {
    if s.thr[t].pending.Some? then Pack(s.thr[t].pending.value, Users(s.u)) else s.u
  }

  /** The queue as it will be when the thread's own release is out. */
  function SeenQueue(s: State, t: Tid): seq<Tid>
    requires t < |s.thr| && s.left <= |s.taken|
  {
    if s.thr[t].pending.Some? && Queue(s) != [] then Queue(s)[1..] else Queue(s)
  }

  /** A thread that has not seen its own release arrive still judges the lock rightly. */
  lemma SeenLockable(s: State, t: Tid)
    requires Inv(s) && |s.thr| < WRAP && t < |s.thr|
    ensures Lockable(Seen(s, t)) <==> SeenQueue(s, t) == []
  {
    if s.thr[t].pending.None? {
      QueueEmpty(s);
    } else {
      var i := SlotOf(s, t);
      assert ThreadOk(s, t);
      Halves(s);
      SuccMod(s.left);
      ActiveBound(s);
      Packed((s.left + 1) % WRAP, |s.taken| % WRAP);
      assert |SeenQueue(s, t)| == |s.taken| - (s.left + 1);
      if Lockable(Seen(s, t)) { SameMod(s.left + 1, |s.taken|); }
    }
  }

  /** ticket_lockable is true exactly when nobody holds the lock or waits for it, and a ticket_trylock
      succeeds exactly when this is so and no ticket was taken since it looked. */
  lemma LockableExact(n: nat, sched: seq<Act>, me: nat)
    requires n < WRAP && me < WRAP
    ensures var s := Exec(n, sched);
            && (Lockable(s.u) <==> Idle(s))
            && (TryWord(s.u, me).Some? <==> Idle(s) && Users(s.u) == me)
  {
    var s := Exec(n, sched);
    ExecInv(n, sched);
    QueueEmpty(s);
    Halves(s);
    if TryWord(s.u, me).Some? { PackedSame(s.left % WRAP, |s.taken| % WRAP, me); }
  }

  /** Nothing the other threads do changes where a thread is. */
  lemma {:induction false} OthersOnly(s: State, t: Tid, mid: seq<Act>)
    requires t < |s.thr| && forall act | act in mid :: act.tid != t
    ensures var s' := Run(StepOf(), s, mid); |s'.thr| == |s.thr| && s'.thr[t] == s.thr[t]
  {
    hide Pack, Succ, Ticket, Users, TryWord;
    if mid != [] {
      assert Last(mid) in mid;
      OthersOnly(s, t, Front(mid));
    }
  }

  /** A whole ticket_trylock, whatever the other threads do between its load of `users` and its exchange: it takes the
      lock exactly when nobody holds it or waits for it and the users half is what it was; on an idle lock without
      interference it always does. */
  lemma TryExact(n: nat, sched: seq<Act>, t: Tid, mid: seq<Act>)
    requires n < WRAP && t < |Exec(n, sched).thr| && Exec(n, sched).thr[t] == Thread(Out, None)
    requires forall act | act in mid :: act.tid != t
    ensures var s, s1 := Exec(n, sched), Exec(n, sched + [Try(t)] + mid);
            && Step(s1, Go(t)).Some? && t < |Step(s1, Go(t)).value.thr|
            && var s2 := Step(s1, Go(t)).value;
            && s2.thr[t].pc == (if Idle(s1) && Users(s1.u) == Users(s.u) then Held else Out)
            && (mid == [] && Idle(s) ==> s2.thr[t].pc == Held)
  {
    var s := Exec(n, sched);
    ExecInv(n, sched);
    Halves(s);
    OneMoreStep(n, sched, Try(t));
    var s0 := Exec(n, sched + [Try(t)]);
    RunAppend(StepOf(), Init(n), sched + [Try(t)], mid);
    OthersOnly(s0, t, mid);
    LockableExact(n, sched + [Try(t)] + mid, Users(s.u));
    hide Exec, TryWord, Users, Run;
    if mid == [] { assert sched + [Try(t)] + mid == sched + [Try(t)]; }
  }

  /** What a step does to the queue. */
  function NextQueue(q: seq<Tid>, s: State, act: Act): seq<Tid>
    requires act.tid < |s.thr|
  {
    if act.Lock? then q + [act.tid]
    else if act.Drain? && q != [] then q[1..]
    else if act.Go? && s.thr[act.tid].pc.Trying? && TryWord(s.u, s.thr[act.tid].pc.me).Some? then q + [act.tid]
    else q
  }

  /** The ticket lock implements a queue: taking a ticket appends, a release removes the first, a waiting thread
      is let in exactly when it is the first, and ticket_lockable tells whether the queue is empty, for a thread whose
      own release is still buffered whether it will be empty then. */
  lemma TicketIsQueue(n: nat, sched: seq<Act>, act: Act)
    requires n < WRAP
    ensures var s := Exec(n, sched);
            && |s.thr| == n && s.left <= |s.taken| && (Lockable(s.u) <==> Queue(s) == [])
            && (act.tid < n ==> (Lockable(Seen(s, act.tid)) <==> SeenQueue(s, act.tid) == []))
            && (Step(s, act).Some? ==>
                  && act.tid < n && Step(s, act).value.left <= |Step(s, act).value.taken|
                  && Queue(Step(s, act).value) == NextQueue(Queue(s), s, act)
                  && (act.Drain? ==> Queue(s) != [] && Queue(s)[0] == act.tid)
                  && (act.Go? && s.thr[act.tid].pc.Trying? && Step(s, act).value.thr[act.tid].pc.Held? ==>
                      Queue(s) == []))
            && (act.Go? && act.tid < n && s.thr[act.tid].pc.Spin? ==>
                  (Step(s, act).Some? <==> Queue(s) != [] && Queue(s)[0] == act.tid))
  {
    var s, t := Exec(n, sched), act.tid;
    ExecInv(n, sched);
    QueueEmpty(s);
    if t < n { SeenLockable(s, t); }
    hide Exec, Seen, SeenQueue;
    if Step(s, act).Some? { StepQueue(s, act); }
    if act.Go? && t < n && s.thr[t].pc.Spin? { HeadEnters(s, t); }
  }

  lemma HeadEnters(s: State, t: Tid)
    requires Inv(s) && |s.thr| < WRAP && t < |s.thr| && s.thr[t].pc.Spin?
    ensures Step(s, Go(t)).Some? <==> s.taken[s.left..] != [] && s.taken[s.left] == t
  {
    Halves(s);
    ActiveBound(s);
    var i := SlotOf(s, t);
    if Step(s, Go(t)).Some? { SameMod(s.left, i); }
  }

  lemma StepQueue(s: State, act: Act)
    requires Inv(s) && |s.thr| < WRAP && Step(s, act).Some?
    ensures var s' := Step(s, act).value;
            && s'.left <= |s'.taken| && Queue(s') == NextQueue(Queue(s), s, act)
            && (act.Drain? ==> Queue(s) != [] && Queue(s)[0] == act.tid)
            && (act.Go? && s.thr[act.tid].pc.Trying? && s'.thr[act.tid].pc.Held? ==> Queue(s) == [])
  {
    var t := act.tid;
    hide Pack, Ticket, Users, Succ;
    if act.Drain? { DrainKeeps(s, t); }
    if act.Go? && s.thr[t].pc.Trying? && TryWord(s.u, s.thr[t].pc.me).Some? { TryKeeps(s, t); }
  }

  // ---------------------------------------------------------------- with more threads than tickets

  lemma OneMoreStep(n: nat, sched: seq<Act>, act: Act)
    ensures var s := Exec(n, sched);
            Exec(n, sched + [act]) == if Step(s, act).Some? then Step(s, act).value else s
  {
    assert Front(sched + [act]) == sched;
  }

  /** The first k threads take a ticket. */
  lemma {:induction false} TicketsTaken(n: nat, k: nat) returns (sched: seq<Act>)
    requires k <= n
    ensures var s := Exec(n, sched);
            && |s.thr| == n && s.u == Pack(0, k % WRAP)
            && (forall t | 0 <= t < k :: s.thr[t] == Thread(Spin(t % WRAP), None))
            && (forall t | k <= t < n :: s.thr[t] == Thread(Out, None))
  {
    if k == 0 {
      sched := [];
    } else {
      var before := TicketsTaken(n, k - 1);
      sched := before + [Lock(k - 1)];
      OneMoreStep(n, before, Lock(k - 1));
      SuccMod(k - 1);
      Packed(0, (k - 1) % WRAP);
      hide Exec, Pack, Succ, Ticket, Users;
    }
  }

  /** With WRAP threads waiting, the lock looks free although it is held. */
  lemma LooksFree(n: nat) returns (sched: seq<Act>)
    requires WRAP <= n
    ensures Lockable(Exec(n, sched).u) && !Idle(Exec(n, sched))
  {
    var before := TicketsTaken(n, WRAP);
    sched := before + [Go(0)];
    OneMoreStep(n, before, Go(0));
    Packed(0, 0);
    var s := Exec(n, sched);
    assert Active(s.thr[0]);
  }

  /** With one more, two threads are let in. */
  lemma LetsTwoIn(n: nat) returns (sched: seq<Act>)
    requires WRAP < n
    ensures Overlap(Exec(n, sched), 0, WRAP)
  {
    var s0 := TicketsTaken(n, WRAP + 1);
    Packed(0, 1);
    OneMoreStep(n, s0, Go(0));
    OneMoreStep(n, s0 + [Go(0)], Go(WRAP));
    sched := s0 + [Go(0)] + [Go(WRAP)];
  }

  /** Mutual exclusion holds of all runs exactly for up to 65536 threads, and ticket_lockable can be trusted exactly
      for fewer than that. */
  lemma ThreadLimit(n: nat)
    ensures Excludes(n) <==> n <= 65536
    ensures TellsFree(n) <==> n < 65536
  {
    hide Overlap, Lockable, Idle, Exec;
    if n <= WRAP {
      forall sched, t, u ensures !Overlap(Exec(n, sched), t, u) { MutualExclusion(n, sched, t, u); }
    } else {
      var sched := LetsTwoIn(n);
    }
    if n < WRAP {
      forall sched ensures Lockable(Exec(n, sched).u) <==> Idle(Exec(n, sched)) { LockableExact(n, sched, 0); }
    } else {
      var sched := LooksFree(n);
    }
  }
}
