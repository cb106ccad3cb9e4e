/** The recorder never gets stuck, and for programs that end it ends under every fair schedule: a reader only retries
    when a version has changed, and writers change versions only so often. */
module RecordProgress {
  import opened Mem
  import opened History
  import opened RecordLog
  import opened RecordModel
  import opened RecordProof
  import opened Schedules

  // ---------------------------------------------------------------- no deadlock

  /** Inside its critical section a writer whose stores are out is never stuck. */
  lemma WriterCanStep(c: Config, s: State, t: Tid)
    requires t < |s.thr| && Locked(s.thr[t].pc) && CurrentOp(c, s, t).Write? && s.thr[t].buf == []
    ensures Step(c, s, Go(t)).Some?
  {
    hide Load, Results;
  }

  /** With all stores out, an access waits for the holder of its object's lock only. */
  lemma OnlyLocksBlock(c: Config, s: State, t: Tid)
    requires t < |s.thr| && Local(c, s, t) && s.thr[t].buf == [] && !CurrentOp(c, s, t).Stop?
    requires CurrentOp(c, s, t).addr.obj < c.nobj && ObjectInv(c, s, CurrentOp(c, s, t).addr.obj)
    ensures Step(c, s, Go(t)).Some? || CurrentOp(c, s, t).addr.obj in s.owner
  {
    hide Ver, Val, Own, Results, WriterOk, TailOk, Snapshot;
    var th := s.thr[t];
    assert |th.log.last| == c.nobj;
    assert Load(s, th.buf, VersionOf(CurrentOp(c, s, t).addr.obj)) == Num(s.ver, CurrentOp(c, s, t).addr.obj);
    EvenNow(s.hist, CurrentOp(c, s, t).addr.obj);
  }

  /** No deadlock: while a program is not at its end or a store is not in memory, some thread can take its next step
      without a transaction, or some buffer can drain. */
  lemma RecorderProgress(c: Config, sched: seq<Act>) returns (act: Act)
    requires c.fenced && InBounds(c) && !Finished(c, Exec(c, sched))
    ensures act.tid < c.w.nthr && (act.Go? || act.Drain?) && Step(c, Exec(c, sched), act).Some?
  {
    hide Exec, Step, Local, ObjectInv, WordInv, Legal, Results;
    ExecInv(c, sched);
    act := StateProgress(c, Exec(c, sched));
  }

  lemma StateProgress(c: Config, s: State) returns (act: Act)
    requires Inv(c, s) && InBounds(c) && !Finished(c, s)
    ensures act.tid < c.w.nthr && (act.Go? || act.Drain?) && Step(c, s, act).Some?
  {
    hide Local, ObjectInv, WordInv, Legal, Results, ReadStep, WriteStep;
    if t :| 0 <= t < |s.thr| && s.thr[t].buf != [] {
      act := Drain(t);
    } else {
      var t: Tid :| t < |s.thr| && !CurrentOp(c, s, t).Stop?;
      var u := NextToGo(c, s, t);
      act := Go(u);
    }
  }

  /** With all stores out: the thread itself or the holder of the lock it needs. */
  lemma NextToGo(c: Config, s: State, t: Tid) returns (u: Tid)
    requires Inv(c, s) && InBounds(c) && (forall x | 0 <= x < |s.thr| :: s.thr[x].buf == [])
    requires t < |s.thr| && !CurrentOp(c, s, t).Stop?
    ensures Step(c, s, Go(u)).Some? && u < |s.thr| && !CurrentOp(c, s, u).Stop? && (u != t ==> Locked(s.thr[u].pc))
  {
    hide Local, WordInv, Legal, Results, Step;
    var o := CurrentOp(c, s, t).addr.obj;
    assert ObjectInv(c, s, o);
    OnlyLocksBlock(c, s, t);
    u := t;
    if Step(c, s, Go(t)).None? {
      u := s.owner[o];
      assert s.thr[u].buf == [];
      WriterCanStep(c, s, u);
    }
  }

  // ---------------------------------------------------------------- the work left

  /** A store buffer's share: a version that reaches memory may send every reader back by three steps. */
  function Weight(d: nat, p: Pending): nat {
    if p.loc.VersionOf? then d else 1
  }

  function BufWeight(d: nat, buf: seq<Pending>): nat {
    if buf == [] then 0 else BufWeight(d, Front(buf)) + Weight(d, Last(buf))
  }

  /** The reader has a version in hand that is no longer the one it sees. */
  predicate Stale(c: Config, s: State, t: Tid)
    requires t < |s.thr|
  {
    var th, op := s.thr[t], CurrentOp(c, s, t);
    (th.pc.ReadWord? || th.pc.Recheck?) && !op.Stop? && th.pc.v != Load(s, th.buf, VersionOf(op.addr.obj))
  }

  /** Steps to the end of the access, at most, counting stores with their weight. */
  function PcRank(d: nat, pc: PC, stale: bool): nat {
    match pc
    case LogRead(_, _) => 1
    case Recheck(_, _) => if stale then 5 else 2
    case ReadWord(_) => if stale then 6 else 3
    case ReadVersion => 4
    case LogWrite(_) => 1
    case Release(_) => 3
    case SecondStore(_, _) => d + 4
    case SecondLoad(_) => d + 5
    case Fence(_) => d + 6
    case StoreWord(_) => d + 8
    case FirstStore(_, _) => 2 * d + 9
    case FirstLoad(_) => 2 * d + 10
    case WriteVersion => 2 * d + 11
    case Acquire => 2 * d + 12
    case TxReadEnd(_, _) => 2 * d + 13
    case TxWriteEnd(_, _) => 2 * d + 13
    case TxReadWord(_) => 2 * d + 14
    case TxWriteLock(_) => 2 * d + 14
    case TxReadVersion => 2 * d + 15
    case TxWriteVersion => 2 * d + 15
    case Start => 2 * d + 16
  }

  /** Any number of accesses. */
  function Accesses(d: nat, k: int): int {
    k * (2 * d + 20)
  }

  function Left(c: Config, n: nat, d: nat, s: State, t: Tid): int
    requires t < |s.thr|
  {
    Accesses(d, n - |s.thr[t].trace|) + PcRank(d, s.thr[t].pc, Stale(c, s, t)) + BufWeight(d, s.thr[t].buf)
  }

  function WorkBelow(c: Config, n: nat, d: nat, s: State, k: nat): int
    requires k <= |s.thr|
  {
    if k == 0 then 0 else WorkBelow(c, n, d, s, k - 1) + Left(c, n, d, s, k - 1)
  }

  /** The work left when every thread makes at most n accesses. */
  function Work(c: Config, n: nat, s: State): int {
    WorkBelow(c, n, 3 * |s.thr| + 4, s, |s.thr|)
  }

  // ---------------------------------------------------------------- every step does some of it

  lemma {:induction false} WeightDrained(d: nat, buf: seq<Pending>)
    requires buf != []
    ensures BufWeight(d, buf) == Weight(d, buf[0]) + BufWeight(d, buf[1..])
  {
    if |buf| == 1 {
      assert Front(buf) == [] && buf[1..] == [];
    } else {
      WeightDrained(d, Front(buf));
      assert Front(buf)[1..] == Front(buf[1..]) && Last(buf[1..]) == Last(buf);
    }
  }

  lemma WeightPushed(d: nat, buf: seq<Pending>, p: Pending)
    ensures BufWeight(d, buf + [p]) == BufWeight(d, buf) + Weight(d, p)
  {
    assert Front(buf + [p]) == buf;
  }

  /** Draining does not change what the thread itself sees. */
  lemma {:induction false} LoadDrained(s: State, buf: seq<Pending>, l: Loc)
    requires buf != []
    ensures Load(ToMemory(s, buf[0].loc, buf[0].val), buf[1..], l) == Load(s, buf, l)
  {
    var s' := ToMemory(s, buf[0].loc, buf[0].val);
    if |buf| == 1 {
      assert Front(buf) == [] && buf[1..] == [];
      assert Load(s, Front(buf), l) == InMemory(s, l);
    } else {
      assert Front(buf)[1..] == Front(buf[1..]) && Last(buf[1..]) == Last(buf);
      LoadDrained(s, Front(buf), l);
    }
  }

  /** Loads depend on memory only. */
  lemma {:induction false} LoadSame(s: State, s': State, buf: seq<Pending>, l: Loc)
    requires InMemory(s, l) == InMemory(s', l)
    ensures Load(s, buf, l) == Load(s', buf, l)
  {
    if buf != [] { LoadSame(s, s', Front(buf), l); }
  }

  /** The step changes some version in memory. */
  predicate Bumps(s: State, s': State) {
    s'.ver != s.ver
  }

  lemma OthersLeft(c: Config, n: nat, d: nat, s: State, s': State, u: Tid)
    requires u < |s.thr| == |s'.thr| && s'.thr[u] == s.thr[u]
    ensures Left(c, n, d, s', u) <= Left(c, n, d, s, u) + if Bumps(s, s') then 3 else 0
  {
    hide Load, Results, BufWeight;
    if !CurrentOp(c, s, u).Stop? && !Bumps(s, s') {
      LoadSame(s, s', s.thr[u].buf, VersionOf(CurrentOp(c, s, u).addr.obj));
    }
  }

  lemma OneAccess(d: nat, k: int)
    ensures Accesses(d, k) == Accesses(d, k - 1) + 2 * d + 20
    ensures 0 <= k ==> 0 <= Accesses(d, k)
  {
    assert k * (2 * d + 20) == (k - 1) * (2 * d + 20) + (2 * d + 20);
  }

  /** The work a step of thread t does is worth what it costs the others. */
  ghost predicate Pays(c: Config, n: nat, d: nat, s: State, s': State, t: Tid) {
    && t < |s.thr| == |s'.thr| && s'.thr == s.thr[t := s'.thr[t]]
    && Left(c, n, d, s', t) + 1 + (if Bumps(s, s') then 3 * |s.thr| else 0) <= Left(c, n, d, s, t)
  }

  lemma DrainPays(c: Config, n: nat, s: State, t: Tid)
    requires Step(c, s, Drain(t)).Some?
    ensures Pays(c, n, 3 * |s.thr| + 4, s, Step(c, s, Drain(t)).value, t)
  {
    var d, th, s' := 3 * |s.thr| + 4, s.thr[t], Step(c, s, Drain(t)).value;
    WeightDrained(d, th.buf);
    var s1 := s.(thr := s'.thr);
    assert s' == ToMemory(s1, th.buf[0].loc, th.buf[0].val);
    assert Bumps(s, s') ==> th.buf[0].loc.VersionOf?;
    assert s'.thr == s.thr[t := th.(buf := th.buf[1..])];
    hide Load, Results, BufWeight, Accesses, PcRank, ToMemory, Step;
    if !CurrentOp(c, s, t).Stop? {
      LoadDrained(s1, th.buf, VersionOf(CurrentOp(c, s, t).addr.obj));
      LoadSame(s, s1, th.buf, VersionOf(CurrentOp(c, s, t).addr.obj));
    }
  }

  lemma TxPays(c: Config, n: nat, s: State, act: Act)
    requires (act.Begin? || act.Abort?) && Step(c, s, act).Some?
    ensures Pays(c, n, 3 * |s.thr| + 4, s, Step(c, s, act).value, act.tid)
  {
    hide Load, Results, BufWeight, Accesses;
  }

  /** A thread that changes only its program counter. */
  lemma GotoPays(c: Config, n: nat, d: nat, s: State, t: Tid, s': State, pc: PC)
    requires t < |s.thr| && s' == Goto(s, t, pc).(lock := s'.lock, owner := s'.owner, hist := s'.hist)
    requires PcRank(d, pc, Stale(c, s', t)) < PcRank(d, s.thr[t].pc, Stale(c, s, t))
    ensures Pays(c, n, d, s, s', t)
  {
    hide Load, Results, BufWeight, Accesses, PcRank, Stale;
  }

  lemma StaleSame(c: Config, s: State, t: Tid, s': State, pc: PC)
    requires t < |s.thr| && s' == Goto(s, t, pc).(lock := s'.lock, owner := s'.owner, hist := s'.hist)
    requires !CurrentOp(c, s, t).Stop?
    ensures var o := CurrentOp(c, s, t).addr.obj;
            && CurrentOp(c, s', t) == CurrentOp(c, s, t)
            && Load(s', s'.thr[t].buf, VersionOf(o)) == Load(s, s.thr[t].buf, VersionOf(o))
  {
    hide Load, Results;
    LoadSame(s, s', s.thr[t].buf, VersionOf(CurrentOp(c, s, t).addr.obj));
  }

  /** Logging ends an access. */
  lemma LoggedPays(c: Config, n: nat, d: nat, s: State, t: Tid, e: Event)
    requires t < |s.thr| && e.addr.obj < |s.thr[t].log.last| && (s.thr[t].pc.LogRead? || s.thr[t].pc.LogWrite?)
    ensures Pays(c, n, d, s, Logged(s, t, e), t)
  {
    OneAccess(d, n - |s.thr[t].trace|);
    hide Load, Results, BufWeight, Accesses, LogEvent;
  }

  /** A reader's program counter with whether its version is the one it sees. */
  function ReadRank(d: nat, pc: PC, now: Version): nat {
    PcRank(d, pc, (pc.ReadWord? || pc.Recheck?) && pc.v != now)
  }

  lemma ReadTxGoto(d: nat, s: State, t: Tid, a: Addr, now: Version)
    requires t < |s.thr| && ReadStep(s, t, a).Some?
    requires s.thr[t].pc.TxReadVersion? || s.thr[t].pc.TxReadWord? || s.thr[t].pc.TxReadEnd?
    ensures var s' := ReadStep(s, t, a).value;
            && |s'.thr| == |s.thr| && s' == Goto(s, t, s'.thr[t].pc).(hist := s'.hist)
            && ReadRank(d, s'.thr[t].pc, now) < ReadRank(d, s.thr[t].pc, now)
  {
    hide Load, Get, Num;
  }

  /** What the steps of a read before its logging do. */
  lemma ReadGoto(d: nat, s: State, t: Tid, a: Addr)
    requires t < |s.thr| && !s.thr[t].pc.LogRead? && ReadStep(s, t, a).Some?
    ensures var s', now := ReadStep(s, t, a).value, Load(s, s.thr[t].buf, VersionOf(a.obj));
            && |s'.thr| == |s.thr| && s' == Goto(s, t, s'.thr[t].pc).(hist := s'.hist)
            && ReadRank(d, s'.thr[t].pc, now) < ReadRank(d, s.thr[t].pc, now)
  {
    hide Load, Get, Num;
    var th, now := s.thr[t], Load(s, s.thr[t].buf, VersionOf(a.obj));
    if th.pc.TxReadVersion? || th.pc.TxReadWord? || th.pc.TxReadEnd? {
      hide ReadStep;
      ReadTxGoto(d, s, t, a, now);
    } else {
      match th.pc
      case Start => assert ReadStep(s, t, a) == Some(Goto(s, t, ReadVersion));
      case ReadVersion => assert ReadStep(s, t, a) == Some(Goto(s, t, ReadWord(now)));
      case ReadWord(v) => assert ReadStep(s, t, a) == Some(Goto(s, t, Recheck(v, Load(s, th.buf, Word(a)))));
      case Recheck(v, val) =>
        assert ReadStep(s, t, a) == Some(if v != now then Goto(s, t, ReadVersion)
                                         else Commit(s, t, Event(t, false, a, v, val), LogRead(v, val)));
      case _ =>
    }
  }

  lemma ReadPays(c: Config, n: nat, s: State, t: Tid)
    requires t < |s.thr| && CurrentOp(c, s, t).Read? && Step(c, s, Go(t)).Some?
    ensures Pays(c, n, 3 * |s.thr| + 4, s, Step(c, s, Go(t)).value, t)
  {
    var d, th, a := 3 * |s.thr| + 4, s.thr[t], CurrentOp(c, s, t).addr;
    var s' := ReadStep(s, t, a).value;
    assert Step(c, s, Go(t)) == ReadStep(s, t, a);
    if th.pc.LogRead? {
      hide Load, Results, Pays, Step;
      LoggedPays(c, n, d, s, t, Event(t, false, a, th.pc.v, th.pc.val));
    } else {
      ReadGoto(d, s, t, a);
      hide Load, Results, ReadStep, PcRank, Pays, Step;
      StaleSame(c, s, t, s', s'.thr[t].pc);
      GotoPays(c, n, d, s, t, s', s'.thr[t].pc);
    }
  }

  lemma PushPays(c: Config, n: nat, d: nat, s: State, t: Tid, l: Loc, x: int, pc: PC)
    requires t < |s.thr| && !pc.ReadWord? && !pc.Recheck?
    requires PcRank(d, pc, false) + Weight(d, Pending(l, x)) < PcRank(d, s.thr[t].pc, Stale(c, s, t))
    ensures Pays(c, n, d, s, Push(s, t, l, x, pc), t)
  {
    hide Load, Results, BufWeight, Accesses, PcRank, Weight;
    WeightPushed(d, s.thr[t].buf, Pending(l, x));
    assert Push(s, t, l, x, pc).thr[t].trace == s.thr[t].trace;
    assert !Stale(c, Push(s, t, l, x, pc), t);
    hide Stale;
  }

  predicate Pushing(pc: PC) {
    pc.FirstStore? || pc.StoreWord? || pc.SecondStore? || pc.Release?
  }

  /** What the storing steps of a write do. */
  lemma WritePush(c: Config, d: nat, s: State, t: Tid, a: Addr, x: Value) returns (l: Loc, y: int, pc: PC)
    requires t < |s.thr| && Pushing(s.thr[t].pc)
    ensures WriteStep(c, s, t, a, x) == Some(Push(s, t, l, y, pc)) && !pc.ReadWord? && !pc.Recheck?
    ensures PcRank(d, pc, false) + Weight(d, Pending(l, y)) < PcRank(d, s.thr[t].pc, false)
  {
    hide Load;
    var th := s.thr[t];
    match th.pc
    case FirstStore(v, z) => l, y, pc := VersionOf(a.obj), z + 1, StoreWord(v);
    case StoreWord(v) => l, y, pc := Word(a), x, Fence(v);
    case SecondStore(v, z) => l, y, pc := VersionOf(a.obj), z + 1, Release(v);
    case Release(v) => l, y, pc := LockOf(a.obj), 0, LogWrite(v);
    case _ =>
  }

  predicate InWriteTx(pc: PC) {
    pc.Start? || pc.TxWriteVersion? || pc.TxWriteLock?
  }

  /** What its other steps before the logging do. */
  predicate Advances(d: nat, s: State, s': State, t: Tid)
    requires t < |s.thr|
  {
    && |s'.thr| == |s.thr| && s' == Goto(s, t, s'.thr[t].pc).(lock := s'.lock, owner := s'.owner, hist := s'.hist)
    && !s'.thr[t].pc.ReadWord? && !s'.thr[t].pc.Recheck? && !s.thr[t].pc.ReadWord? && !s.thr[t].pc.Recheck?
    && PcRank(d, s'.thr[t].pc, false) < PcRank(d, s.thr[t].pc, false)
  }

  lemma WriteTxGoto(c: Config, d: nat, s: State, t: Tid, a: Addr, x: Value)
    requires t < |s.thr| && WriteStep(c, s, t, a, x).Some? && InWriteTx(s.thr[t].pc)
    ensures Advances(d, s, WriteStep(c, s, t, a, x).value, t)
  {
    hide Load;
  }

  lemma WriteGoto(c: Config, d: nat, s: State, t: Tid, a: Addr, x: Value)
    requires t < |s.thr| && WriteStep(c, s, t, a, x).Some?
    requires !Pushing(s.thr[t].pc) && !s.thr[t].pc.TxWriteEnd? && !s.thr[t].pc.LogWrite?
    ensures Advances(d, s, WriteStep(c, s, t, a, x).value, t)
  {
    hide Load;
    var th, o := s.thr[t], a.obj;
    if InWriteTx(th.pc) {
      WriteTxGoto(c, d, s, t, a, x);
    } else {
      match th.pc
      case Acquire => assert WriteStep(c, s, t, a, x).value
                          == Goto(s, t, WriteVersion).(lock := s.lock[o := 1], owner := s.owner[o := t]);
      case WriteVersion =>
        assert WriteStep(c, s, t, a, x) == Some(Goto(s, t, FirstLoad(Load(s, th.buf, VersionOf(o)))));
      case FirstLoad(v) =>
        assert WriteStep(c, s, t, a, x) == Some(Goto(s, t, FirstStore(v, Load(s, th.buf, VersionOf(o)))));
      case Fence(v) =>
        assert WriteStep(c, s, t, a, x) == Some(Commit(s, t, Event(t, true, a, v, x), SecondLoad(v)));
      case SecondLoad(v) =>
        assert WriteStep(c, s, t, a, x) == Some(Goto(s, t, SecondStore(v, Load(s, th.buf, VersionOf(o)))));
      case _ =>
    }
    hide WriteStep;
  }

  lemma WritePays(c: Config, n: nat, s: State, t: Tid)
    requires t < |s.thr| && CurrentOp(c, s, t).Write? && Step(c, s, Go(t)).Some?
    ensures Pays(c, n, 3 * |s.thr| + 4, s, Step(c, s, Go(t)).value, t)
  {
    var d, th, op := 3 * |s.thr| + 4, s.thr[t], CurrentOp(c, s, t);
    var a, x := op.addr, op.val;
    assert Step(c, s, Go(t)) == WriteStep(c, s, t, a, x);
    if th.pc.LogWrite? {
      hide Load, Results, Pays, Step;
      LoggedPays(c, n, d, s, t, Event(t, true, a, th.pc.v, x));
    } else if th.pc.TxWriteEnd? {
      TxWritePays(c, n, s, t);
    } else if Pushing(th.pc) {
      hide Load, Results, WriteStep, PcRank, Pays, Step;
      var l, y, pc := WritePush(c, d, s, t, a, x);
      PushPays(c, n, d, s, t, l, y, pc);
    } else {
      hide Load, Results, WriteStep, PcRank, Pays, Step;
      WriteGoto(c, d, s, t, a, x);
      var s' := WriteStep(c, s, t, a, x).value;
      GotoPays(c, n, d, s, t, s', s'.thr[t].pc);
    }
  }

  lemma TxWritePays(c: Config, n: nat, s: State, t: Tid)
    requires t < |s.thr| && CurrentOp(c, s, t).Write? && s.thr[t].pc.TxWriteEnd? && Step(c, s, Go(t)).Some?
    ensures Pays(c, n, 3 * |s.thr| + 4, s, Step(c, s, Go(t)).value, t)
  {
    hide Load, Results, BufWeight, Accesses;
  }

  lemma StepPays(c: Config, n: nat, s: State, act: Act)
    requires Step(c, s, act).Some?
    ensures Pays(c, n, 3 * |s.thr| + 4, s, Step(c, s, act).value, act.tid)
  {
    hide Load, Results, Pays, ReadStep, WriteStep;
    match act
    case Drain(_) => DrainPays(c, n, s, act.tid);
    case Begin(_) => TxPays(c, n, s, act);
    case Abort(_) => TxPays(c, n, s, act);
    case Go(_) =>
      if CurrentOp(c, s, act.tid).Read? {
        ReadPays(c, n, s, act.tid);
      } else if CurrentOp(c, s, act.tid).Write? {
        WritePays(c, n, s, act.tid);
      }
  }

  lemma {:induction false} SumPaid(c: Config, n: nat, d: nat, s: State, s': State, t: Tid, k: nat)
    requires Pays(c, n, d, s, s', t) && k <= |s.thr|
    ensures WorkBelow(c, n, d, s', k)
         <= WorkBelow(c, n, d, s, k) + (if Bumps(s, s') then 3 * k else 0)
            - (if t < k then 1 + (if Bumps(s, s') then 3 * |s.thr| else 0) else 0)
  {
    hide Left;
    if k > 0 {
      SumPaid(c, n, d, s, s', t, k - 1);
      if k - 1 != t { OthersLeft(c, n, d, s, s', k - 1); }
    }
  }

  /** Every step does some of the work. */
  lemma StepWorks(c: Config, n: nat, s: State, act: Act)
    requires Step(c, s, act).Some?
    ensures Work(c, n, Step(c, s, act).value) < Work(c, n, s)
  {
    hide Step, Left;
    StepPays(c, n, s, act);
    SumPaid(c, n, 3 * |s.thr| + 4, s, Step(c, s, act).value, act.tid, |s.thr|);
  }

  // ---------------------------------------------------------------- and there is only so much

  /** A thread has made no more accesses than its program has. */
  lemma TraceBounded(c: Config, n: nat, s: State, t: Tid)
    requires Inv(c, s) && Bounded(c.w, n) && t < |s.thr|
    ensures |s.thr[t].trace| <= n
  {
    assert Local(c, s, t);
    var own, k := Own(s.hist, t), |s.thr[t].trace|;
    hide Own, Legal, LogAll;
    if k > 0 {
      OwnOp(c.w, s.hist, t, k - 1);
      assert |Results(own[..k - 1])| == k - 1;
    }
  }

  lemma {:induction false} WorkNonNegative(c: Config, n: nat, s: State, k: nat)
    requires Inv(c, s) && Bounded(c.w, n) && k <= |s.thr|
    ensures 0 <= WorkBelow(c, n, 3 * |s.thr| + 4, s, k)
  {
    hide Inv;
    if k > 0 {
      WorkNonNegative(c, n, s, k - 1);
      TraceBounded(c, n, s, k - 1);
      OneAccess(3 * |s.thr| + 4, n - |s.thr[k - 1].trace|);
      hide Accesses, BufWeight, PcRank;
    }
  }

  // ---------------------------------------------------------------- fair schedules

  /** Every thread's next instruction and every thread's oldest buffered store; transactions may start and abort, but
      need not. */
  ghost function Acts(n: nat): iset<Act> {
    iset act: Act | act.tid < n && (act.Go? || act.Drain?)
  }

  function DoneOf(c: Config): State -> bool {
    s => Finished(c, s)
  }

  function WorkOf(c: Config, n: nat): State -> int {
    s => Work(c, n, s)
  }

  lemma NothingLeft(c: Config, s: State, act: Act)
    requires Finished(c, s)
    ensures Step(c, s, act).None?
  {
    hide Results, ReadStep, WriteStep;
    if act.tid < |s.thr| { assert CurrentOp(c, s, act.tid).Stop?; }
  }

  /** Recording always can go on, and only so often. */
  lemma RecordingGoesOn(c: Config, n: nat)
    requires c.fenced && InBounds(c) && Bounded(c.w, n)
    ensures Progresses(StepOf(c), Init(c), DoneOf(c), WorkOf(c, n), Acts(c.w.nthr))
  {
    hide Inv, Step, Work, Finished, Init, Run;
    forall sched: seq<Act>
      ensures CanGoOn(StepOf(c), DoneOf(c), WorkOf(c, n), Acts(c.w.nthr), Run(StepOf(c), Init(c), sched))
    {
      var s := Exec(c, sched);
      assert s == Run(StepOf(c), Init(c), sched);
      ExecInv(c, sched);
      StateWork(c, n, s);
      forall act | Step(c, s, act).Some? ensures Work(c, n, Step(c, s, act).value) < Work(c, n, s) {
        StepWorks(c, n, s, act);
      }
      if Finished(c, s) {
        forall act ensures Step(c, s, act).None? { NothingLeft(c, s, act); }
      } else {
        var act := RecorderProgress(c, sched);
        assert act in Acts(c.w.nthr) && StepOf(c)(s, act).Some?;
      }
    }
  }

  lemma StateWork(c: Config, n: nat, s: State)
    requires Inv(c, s) && Bounded(c.w, n)
    ensures 0 <= Work(c, n, s)
  {
    hide Inv;
    WorkNonNegative(c, n, s, |s.thr|);
  }

  /** For programs that end, fair recording ends: from wherever a schedule has led, every continuation in which all
      threads and all buffers get more turns than there is work left completes the recording, whatever transactions it
      starts and aborts. */
  lemma RecorderFairlyFinishes(c: Config, n: nat, sched: seq<Act>, rest: seq<Act>, k: nat)
    requires c.fenced && InBounds(c) && Bounded(c.w, n)
    requires Rounds(Acts(c.w.nthr), rest, k) && Work(c, n, Exec(c, sched)) < k
    ensures Finished(c, Exec(c, sched + rest))
  {
    hide Work, Rounds, Finished, Step, Progresses, InBounds, Bounded, Run, Init;
    RecordingGoesOn(c, n);
    FairlyDone(StepOf(c), Init(c), DoneOf(c), WorkOf(c, n), Acts(c.w.nthr), sched, rest, k);
  }
}
