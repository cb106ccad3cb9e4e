/** Without __sync_synchronize the recorder breaks: the two-thread run of the comment in mem_read, where
    each thread's read overtakes its own buffered write, leaves logs that no order of the accesses
    explains. */
module NoFence {
  import opened Mem
  import opened History
  import opened RecordModel

  const A := Addr(0, 0)
  const B := Addr(1, 0)

  function Mine(t: Tid): Addr {
    if t == 0 then A else B
  }

  function Theirs(t: Tid): Addr {
    if t == 0 then B else A
  }

  /** T0 writes A and reads B; T1 writes B and reads A. */
  function Prog(t: Tid, results: seq<Value>): Op {
    if |results| == 0 then Write(Mine(t), 1) else if |results| == 1 then Read(Theirs(t)) else Stop
  }

  const UNFENCED := Config(Workload(Prog, map[], 2), 2, false)

  // ---------------------------------------------------------------- the run

  /** The stores of a write, oldest first. */
  function Stores(t: Tid): seq<Pending> {
    var o := Mine(t).obj;
    [Pending(VersionOf(o), 1), Pending(Word(Mine(t)), 1), Pending(VersionOf(o), 2), Pending(LockOf(o), 0)]
  }

  function WriteEvent(t: Tid): Event {
    Event(t, true, Mine(t), 0, 1)
  }

  function ReadEvent(t: Tid): Event {
    Event(t, false, Theirs(t), 0, 0)
  }

  /** Where thread t is; no version and no word has reached memory. */
  ghost predicate At(s: State, t: Tid, pc: PC, buf: seq<Pending>, trace: seq<Event>) {
    && |s.thr| == 2 && t < 2 && (forall o :: Num(s.ver, o) == 0) && (forall a :: Get(s.data, a) == 0)
    && s.thr[t].pc == pc && s.thr[t].buf == buf && s.thr[t].trace == trace && |s.thr[t].log.last| == 2
  }

  /** Thread t moved: the other thread and the lock it will need are as before. */
  predicate Moved(s: State, s': State, t: Tid) {
    && |s.thr| == |s'.thr| == 2 && t < 2 && s'.thr[1 - t] == s.thr[1 - t]
    && Num(s'.lock, Theirs(t).obj) == Num(s.lock, Theirs(t).obj)
  }

  lemma OpsOf(t: Tid)
    requires t < 2
    ensures Prog(t, Results([])) == Write(Mine(t), 1)
    ensures Prog(t, Results([WriteEvent(t)])) == Read(Theirs(t))
    ensures Prog(t, Results([WriteEvent(t), ReadEvent(t)])) == Stop
  {
  }

  lemma One(sched: seq<Act>, act: Act, s': State)
    requires Step(UNFENCED, Exec(UNFENCED, sched), act) == Some(s')
    ensures Exec(UNFENCED, sched + [act]) == s'
  {
    hide Step;
    assert Front(sched + [act]) == sched;
  }

  lemma Three(sched: seq<Act>, t: Tid, s1: State, s2: State, s3: State) returns (sched': seq<Act>)
    requires Step(UNFENCED, Exec(UNFENCED, sched), Go(t)) == Some(s1)
    requires Step(UNFENCED, s1, Go(t)) == Some(s2) && Step(UNFENCED, s2, Go(t)) == Some(s3)
    ensures Exec(UNFENCED, sched') == s3
  {
    hide *;
    One(sched, Go(t), s1);
    One(sched + [Go(t)], Go(t), s2);
    One(sched + [Go(t)] + [Go(t)], Go(t), s3);
    sched' := sched + [Go(t)] + [Go(t)] + [Go(t)];
  }

  lemma LockTaken(sched: seq<Act>, t: Tid) returns (sched': seq<Act>)
    requires var s := Exec(UNFENCED, sched); At(s, t, Start, [], []) && Num(s.lock, Mine(t).obj) == 0
    ensures At(Exec(UNFENCED, sched'), t, FirstLoad(0), [], [])
    ensures Moved(Exec(UNFENCED, sched), Exec(UNFENCED, sched'), t)
  {
    hide Exec, Results;
    OpsOf(t);
    var s, o := Exec(UNFENCED, sched), Mine(t).obj;
    var s1 := Goto(s, t, Acquire);
    var s2 := Goto(s1, t, WriteVersion).(lock := s1.lock[o := 1], owner := s1.owner[o := t]);
    sched' := Three(sched, t, s1, s2, Goto(s2, t, FirstLoad(0)));
  }

  lemma WordBuffered(sched: seq<Act>, t: Tid) returns (sched': seq<Act>)
    requires At(Exec(UNFENCED, sched), t, FirstLoad(0), [], [])
    ensures At(Exec(UNFENCED, sched'), t, Fence(0), Stores(t)[..2], [])
    ensures Moved(Exec(UNFENCED, sched), Exec(UNFENCED, sched'), t)
  {
    hide Exec, Results;
    OpsOf(t);
    var s, o := Exec(UNFENCED, sched), Mine(t).obj;
    var s1 := Goto(s, t, FirstStore(0, 0));
    var s2 := Push(s1, t, VersionOf(o), 1, StoreWord(0));
    sched' := Three(sched, t, s1, s2, Push(s2, t, Word(Mine(t)), 1, Fence(0)));
  }

  /** The second increment reads the first one back from the buffer. */
  lemma Forwarded(s: State, t: Tid)
    ensures Load(s, Stores(t)[..2], VersionOf(Mine(t).obj)) == 1
  {
    var buf := Stores(t)[..2];
    assert Front(buf) == [buf[0]];
  }

  lemma FencePassed(sched: seq<Act>, t: Tid) returns (sched': seq<Act>)
    requires At(Exec(UNFENCED, sched), t, Fence(0), Stores(t)[..2], [])
    ensures At(Exec(UNFENCED, sched'), t, Release(0), Stores(t)[..3], [])
    ensures Moved(Exec(UNFENCED, sched), Exec(UNFENCED, sched'), t)
  {
    hide Exec, Results, Load;
    OpsOf(t);
    var s, o := Exec(UNFENCED, sched), Mine(t).obj;
    var s1 := Commit(s, t, WriteEvent(t), SecondLoad(0));
    var s2 := Goto(s1, t, SecondStore(0, 1));
    Forwarded(s1, t);
    sched' := Three(sched, t, s1, s2, Push(s2, t, VersionOf(o), 2, Release(0)));
  }

  lemma WriteLogged(sched: seq<Act>, t: Tid) returns (sched': seq<Act>)
    requires At(Exec(UNFENCED, sched), t, Release(0), Stores(t)[..3], [])
    ensures At(Exec(UNFENCED, sched'), t, ReadVersion, Stores(t), [WriteEvent(t)])
    ensures Moved(Exec(UNFENCED, sched), Exec(UNFENCED, sched'), t)
  {
    hide Exec, Results;
    OpsOf(t);
    var s, o := Exec(UNFENCED, sched), Mine(t).obj;
    var s1 := Push(s, t, LockOf(o), 0, LogWrite(0));
    var s2 := Logged(s1, t, WriteEvent(t));
    assert s2.thr[t].trace == [WriteEvent(t)] && s2.thr[t].pc == Start;
    sched' := Three(sched, t, s1, s2, Goto(s2, t, ReadVersion));
  }

  lemma {:induction false} LoadPast(s: State, buf: seq<Pending>, l: Loc)
    requires forall i | 0 <= i < |buf| :: buf[i].loc != l
    ensures Load(s, buf, l) == InMemory(s, l)
  {
    if buf != [] { LoadPast(s, Front(buf), l); }
  }

  /** The read overtakes the buffered write. */
  lemma ReadOvertakes(sched: seq<Act>, t: Tid) returns (sched': seq<Act>)
    requires At(Exec(UNFENCED, sched), t, ReadVersion, Stores(t), [WriteEvent(t)])
    ensures At(Exec(UNFENCED, sched'), t, LogRead(0, 0), Stores(t), [WriteEvent(t)])
    ensures Moved(Exec(UNFENCED, sched), Exec(UNFENCED, sched'), t)
  {
    hide Exec, Results, Load;
    OpsOf(t);
    var s, a := Exec(UNFENCED, sched), Theirs(t);
    var s1 := Goto(s, t, ReadWord(0));
    var s2 := Goto(s1, t, Recheck(0, 0));
    LoadPast(s, Stores(t), VersionOf(a.obj));
    LoadPast(s1, Stores(t), Word(a));
    LoadPast(s2, Stores(t), VersionOf(a.obj));
    sched' := Three(sched, t, s1, s2, Commit(s2, t, ReadEvent(t), LogRead(0, 0)));
  }

  lemma ReadLogged(sched: seq<Act>, t: Tid) returns (sched': seq<Act>)
    requires At(Exec(UNFENCED, sched), t, LogRead(0, 0), Stores(t), [WriteEvent(t)])
    ensures At(Exec(UNFENCED, sched'), t, Start, Stores(t), [WriteEvent(t), ReadEvent(t)])
    ensures Moved(Exec(UNFENCED, sched), Exec(UNFENCED, sched'), t)
  {
    hide Exec, Results;
    OpsOf(t);
    One(sched, Go(t), Logged(Exec(UNFENCED, sched), t, ReadEvent(t)));
    sched' := sched + [Go(t)];
  }

  lemma BothAccesses(sched: seq<Act>, t: Tid) returns (sched': seq<Act>)
    requires var s := Exec(UNFENCED, sched); At(s, t, Start, [], []) && Num(s.lock, Mine(t).obj) == 0
    ensures At(Exec(UNFENCED, sched'), t, Start, Stores(t), [WriteEvent(t), ReadEvent(t)])
    ensures Moved(Exec(UNFENCED, sched), Exec(UNFENCED, sched'), t)
  {
    hide Exec, At, Step;
    var s1 := LockTaken(sched, t);
    var s2 := WordBuffered(s1, t);
    var s3 := FencePassed(s2, t);
    var s4 := WriteLogged(s3, t);
    var s5 := ReadOvertakes(s4, t);
    sched' := ReadLogged(s5, t);
  }

  /** Draining a buffer changes no trace. */
  lemma {:induction false} Drained(sched: seq<Act>, t: Tid) returns (sched': seq<Act>)
    requires t < |Exec(UNFENCED, sched).thr|
    ensures var s, s' := Exec(UNFENCED, sched), Exec(UNFENCED, sched');
            && |s'.thr| == |s.thr| && s'.thr[t].buf == [] && s'.thr[t].trace == s.thr[t].trace
            && forall u | 0 <= u < |s.thr| && u != t :: s'.thr[u] == s.thr[u]
    decreases |Exec(UNFENCED, sched).thr[t].buf|
  {
    hide Exec, Results;
    var s := Exec(UNFENCED, sched);
    var th := s.thr[t];
    if th.buf == [] {
      sched' := sched;
    } else {
      One(sched, Drain(t), ToMemory(s.(thr := s.thr[t := th.(buf := th.buf[1..])]), th.buf[0].loc, th.buf[0].val));
      sched' := Drained(sched + [Drain(t)], t);
    }
  }

  // ---------------------------------------------------------------- no order explains it

  function TraceOf(t: Tid): seq<Event> {
    [WriteEvent(t), ReadEvent(t)]
  }

  /** Program order puts each write before the same thread's read, versions put each read before the
      other thread's write: a cycle. */
  lemma NoLinearization(w: Workload, h: seq<Event>)
    requires Legal(w, h)
    ensures !(Own(h, 0) == TraceOf(0) && Own(h, 1) == TraceOf(1))
  {
    if Own(h, 0) == TraceOf(0) && Own(h, 1) == TraceOf(1) {
      hide *;
      PosMono(h, 0, 0, 1);
      Overwriter(w, h, 1, 0, 0, 1);
      PosMono(h, 1, 0, 1);
      Overwriter(w, h, 0, 0, 1, 1);
    }
  }

  /** Dropping the fence lets a run finish with logs that no legal history explains. */
  lemma UnfencedBreaks() returns (sched: seq<Act>)
    ensures var s := Exec(UNFENCED, sched);
            && Finished(UNFENCED, s) && |s.thr| == 2
            && (forall w, h | Legal(w, h) :: exists t :: 0 <= t < 2 && Own(h, t) != s.thr[t].trace)
  {
    hide Step, Legal, Own;
    assert At(Exec(UNFENCED, []), 0, Start, [], []) && At(Exec(UNFENCED, []), 1, Start, [], []);
    var s1 := BothAccesses([], 0);
    var s2 := BothAccesses(s1, 1);
    var s3 := Drained(s2, 0);
    sched := Drained(s3, 1);
    var s := Exec(UNFENCED, sched);
    hide Exec;
    assert s.thr[0].trace == TraceOf(0) && s.thr[1].trace == TraceOf(1);
    OpsOf(0);
    OpsOf(1);
    hide At, Moved, Legal, Own, Results;
    forall w, h | Legal(w, h) ensures exists t :: 0 <= t < 2 && Own(h, t) != s.thr[t].trace {
      NoLinearization(w, h);
    }
  }
}
