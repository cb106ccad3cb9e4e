/** What replay guarantees under store buffers. */
module ReplayTsoTheorems {
  import opened Mem
  import opened History
  import opened ReplaySafety
  import opened ReplayTso
  import opened ReplayTsoProof
  import opened Schedules
  import R = Replay
  import ReplayInvariant
  import ReplayProgress
  import ReplaySteps

  lemma InitBuf(w: Workload, logs: R.Logs, h: seq<Event>)
    requires LogsOk(w, h, logs)
    ensures BufInv(h, Init(w, logs), w.nthr)
  {
    var s, n := Init(w, logs), w.nthr;
    assert |logs.version| == n;
    hide LogsOk;
    forall t | 0 <= t < n ensures BufOk(h, s, t) && SeenOk(h, s, t) {
      assert View(s.sh, t, s.buf[t]) == s.sh;
    }
    forall t, o: ObjId | 0 <= t < n ensures PairInv(h, s, t, o) {
      assert View(s.sh, t, s.buf[t]) == s.sh;
    }
  }

  /** Refinement: with its buffers emptied, the state after any schedule is one that Replay reaches. */
  lemma {:induction false} TsoRefinesReplay(w: Workload, logs: R.Logs, h: seq<Event>,
                                            sched: seq<Act>) returns (rsched: seq<Tid>)
    requires LogsOk(w, h, logs)
    ensures BufInv(h, Exec(w, logs, sched), w.nthr) && R.Exec(w, logs, rsched) == Exec(w, logs, sched).flat
    ensures ReplaySafety.Inv(w, logs, h, Exec(w, logs, sched).flat)
  {
    hide LogsOk, BufInv, Step, R.Step, ReplaySafety.Inv;
    if sched == [] {
      rsched := [];
      InitBuf(w, logs, h);
      ReplayInvariant.ExecInv(w, logs, h, []);
    } else {
      var s, act := Exec(w, logs, Front(sched)), Last(sched);
      rsched := TsoRefinesReplay(w, logs, h, Front(sched));
      if Step(w, logs, s, act).Some? {
        rsched := OneStep(w, logs, h, s, act, rsched);
      }
    }
  }

  lemma OneStep(w: Workload, logs: R.Logs, h: seq<Event>, s: State, act: Act,
                rsched: seq<Tid>) returns (rsched': seq<Tid>)
    requires LogsOk(w, h, logs) && ReplaySafety.Inv(w, logs, h, s.flat) && BufInv(h, s, w.nthr)
    requires Step(w, logs, s, act).Some? && R.Exec(w, logs, rsched) == s.flat
    ensures var s' := Step(w, logs, s, act).value;
            && BufInv(h, s', w.nthr) && ReplaySafety.Inv(w, logs, h, s'.flat) && R.Exec(w, logs, rsched') == s'.flat
  {
    var t := act.tid;
    assert |s.buf| == w.nthr;
    hide LogsOk, BufInv, ReplaySafety.Inv, R.Step, SeenBy, Merged, Pushed;
    if act.Drain? {
      DrainKeeps(h, s, w.nthr, t);
      rsched' := rsched;
    } else {
      GoKeeps(w, logs, h, s, t);
      rsched' := rsched + [t];
      assert Front(rsched') == rsched && Last(rsched') == t;
    }
  }

  /** Determinism under store buffers: no assertion fires, every thread repeats its recorded accesses in order with
      the same object, version and value, and once all threads are done and all stores are in memory, memory is
      the recorded memory. */
  lemma {:induction false} TsoDeterminism(w: Workload, logs: R.Logs, h: seq<Event>, sched: seq<Act>)
    requires LogsOk(w, h, logs)
    ensures var s := Exec(w, logs, sched);
            && |s.flat.thr| == w.nthr
            && (forall t | 0 <= t < w.nthr :: !s.flat.thr[t].pc.Failed? && s.flat.thr[t].trace <= Own(h, t))
            && (Finished(w, s) ==>
                  && (forall t | 0 <= t < w.nthr :: s.flat.thr[t].trace == Own(h, t))
                  && (forall a :: Get(s.sh.mem, a) == Val(w.init, h, a)))
  {
    var rsched := TsoRefinesReplay(w, logs, h, sched);
    ReplayInvariant.ReplayDeterminism(w, logs, h, rsched);
    if w.nthr == 0 { NoThreads(w, logs, sched); }
    var s := Exec(w, logs, sched);
    hide Exec, R.Exec, LogsOk;
    if Finished(w, s) {
      forall a ensures Get(s.sh.mem, a) == Val(w.init, h, a) {
        AllDrained(w, logs, h, s, a);
      }
    }
  }

  /** What the source asserts, as the thread sees memory: where wait_object_version asserts it, the object has the
      awaited version; the trylock finds the mutex free; the next reader entry is not of a version that is over; and
      entries name existing threads. */
  lemma TsoAssertions(w: Workload, logs: R.Logs, h: seq<Event>, sched: seq<Act>, t: Tid)
    requires LogsOk(w, h, logs) && t < w.nthr
    ensures var s := Exec(w, logs, sched);
            && Sized(s, w.nthr)
            && var th, op, seen := s.flat.thr[t], R.CurrentOp(w, s.flat, t), SeenBy(s, t);
            && (!th.pc.Start? ==> !op.Stop?)
            && (th.pc.CheckVersion? ==> Num(seen.ver, op.addr.obj) == th.wait.version)
            && (th.pc.TryLock? ==> op.addr.obj !in seen.mutex)
            && (th.pc.Peek? ==>
                  var n, log := Num(seen.cursor, op.addr.obj), R.ReaderLog(logs, op.addr.obj);
                  0 <= n <= |log| && (n < |log| ==> Num(seen.ver, op.addr.obj) <= log[n].version))
            && (th.pc.SpinReader? ==> th.pc.entry.tid < w.nthr)
  {
    hide Exec, R.Exec, BufInv;
    var rsched := TsoRefinesReplay(w, logs, h, sched);
    var s := Exec(w, logs, sched);
    FlatAssertions(w, logs, h, s.flat, t);
    SizedBy(h, s, w.nthr);
    hide LogsOk, ReplaySafety.Inv, View, R.ReaderLog;
    if Using(s.flat.thr[t].pc) { UsesFlat(w, logs, h, s, t); }
  }

  lemma SizedBy(h: seq<Event>, s: State, n: nat)
    requires BufInv(h, s, n)
    ensures Sized(s, n)
  {
    hide BufOk, SeenOk, PairInv;
  }

  /** The same on the flat memory. */
  lemma FlatAssertions(w: Workload, logs: R.Logs, h: seq<Event>, s: R.State, t: Tid)
    requires LogsOk(w, h, logs) && ReplaySafety.Inv(w, logs, h, s) && t < w.nthr
    ensures t < |s.thr|
    ensures !s.thr[t].pc.Start? ==> s.thr[t].memop < |Own(h, t)| && !R.CurrentOp(w, s, t).Stop?
                                    && R.CurrentOp(w, s, t).addr.obj == Cur(h, s, t).addr.obj
    ensures var th, op := s.thr[t], R.CurrentOp(w, s, t);
            && (th.pc.CheckVersion? ==> Num(s.ver, op.addr.obj) == th.wait.version)
            && (th.pc.TryLock? ==> op.addr.obj !in s.mutex)
            && (th.pc.Peek? ==>
                  var n, log := Num(s.cursor, op.addr.obj), R.ReaderLog(logs, op.addr.obj);
                  0 <= n <= |log| && (n < |log| ==> Num(s.ver, op.addr.obj) <= log[n].version))
            && (th.pc.SpinReader? ==> th.pc.entry.tid < w.nthr)
  {
    hide Own, MemInv;
    assert ThreadInv(logs, h, s, t);
    CurrentAccess(w, logs, h, s, t);
    if !s.thr[t].pc.Start? {
      var o := Cur(h, s, t).addr.obj;
      assert VersionInv(h, s, o) && CursorInv(logs, h, s, o) && ReaderLogOk(h, o, R.ReaderLog(logs, o));
      if s.thr[t].pc.CheckVersion? { ReplaySteps.VersionAssert(w, logs, h, s, t); }
      if s.thr[t].pc.TryLock? { ReplaySteps.MutexFree(w, logs, h, s, t); }
      if s.thr[t].pc.SpinReader? { ReplaySteps.EntryThread(w, h, o, R.ReaderLog(logs, o), s.thr[t].pc.entry); }
    }
  }

  lemma AllDrained(w: Workload, logs: R.Logs, h: seq<Event>, s: State, a: Addr)
    requires BufInv(h, s, w.nthr) && (forall t | 0 <= t < |s.buf| :: s.buf[t] == []) && |logs.version| == w.nthr
    requires ReplaySafety.Inv(w, logs, h, s.flat) && (w.nthr == 0 ==> Get(s.sh.mem, a) == Get(s.flat.mem, a))
    ensures Get(s.sh.mem, a) == Get(s.flat.mem, a)
  {
    if w.nthr > 0 {
      assert PairInv(h, s, 0, a.obj);
      assert Alone(s, 0, a.obj);
      assert View(s.sh, 0, s.buf[0]) == s.sh;
    }
  }

  lemma {:induction false} NoThreads(w: Workload, logs: R.Logs, sched: seq<Act>)
    requires |logs.version| == 0
    ensures Exec(w, logs, sched) == Init(w, logs)
  {
    if sched != [] { NoThreads(w, logs, Front(sched)); }
  }

  // ---------------------------------------------------------------- progress

  lemma SeenSame(w: Workload, logs: R.Logs, h: seq<Event>, s: State, t: Tid)
    requires BufInv(h, s, w.nthr) && t < w.nthr && forall u | 0 <= u < w.nthr :: s.buf[u] == []
    ensures SeenBy(s, t).thr == s.flat.thr && forall o: ObjId :: Num(SeenBy(s, t).ver, o) == Num(s.flat.ver, o)
  {
    forall u | 0 <= u < w.nthr ensures s.sh.count[u] == s.flat.thr[u].memop {
      assert BufOk(h, s, u);
      assert View(s.sh, u, s.buf[u]) == s.sh;
    }
    forall o: ObjId ensures Num(SeenBy(s, t).ver, o) == Num(s.flat.ver, o) {
      assert PairInv(h, s, t, o);
      assert Alone(s, t, o);
    }
  }

  /** Whether a thread has to spin depends on versions and counters only. */
  lemma SameEnabled(w: Workload, logs: R.Logs, flat: R.State, seen: R.State, t: Tid)
    requires t < |flat.thr| == |logs.version| && seen.thr == flat.thr && forall o: ObjId ::
             Num(seen.ver, o) == Num(flat.ver, o)
    requires R.Step(w, logs, flat, t).Some?
    ensures R.Step(w, logs, seen, t).Some?
  {
    assert R.CurrentOp(w, seen, t) == R.CurrentOp(w, flat, t);
  }

  /** No deadlock under store buffers: until all is done and stored, a buffer can drain or a thread can step. */
  lemma {:induction false} TsoProgress(w: Workload, logs: R.Logs, h: seq<Event>, sched: seq<Act>) returns (act: Act)
    requires LogsOk(w, h, logs) && !Finished(w, Exec(w, logs, sched))
    ensures act.tid < w.nthr && Step(w, logs, Exec(w, logs, sched), act).Some?
  {
    var rsched := TsoRefinesReplay(w, logs, h, sched);
    var s := Exec(w, logs, sched);
    assert |s.flat.thr| == |s.buf| == |s.sh.count| == |logs.version| == w.nthr;
    hide Exec, R.Exec, LogsOk, ReplaySafety.Inv;
    if t :| 0 <= t < |s.buf| && s.buf[t] != [] {
      act := Drain(t);
    } else {
      var t := ReplayProgress.ReplayProgress(w, logs, h, rsched);
      SeenSame(w, logs, h, s, t);
      hide R.Step, SeenBy, BufInv;
      SameEnabled(w, logs, s.flat, SeenBy(s, t), t);
      act := Go(t);
    }
  }

  /** The work left: every replay step may add a store that has to drain. */
  function Work(logs: R.Logs, h: seq<Event>, b: nat, s: State): int {
    2 * ReplayProgress.Measure(logs, h, b, s.flat) + Total(s.buf)
  }

  lemma StepWorks(w: Workload, logs: R.Logs, h: seq<Event>, b: nat, s: State, act: Act)
    requires LogsOk(w, h, logs) && ReplaySafety.Inv(w, logs, h, s.flat) && BufInv(h, s, w.nthr)
    requires ReplayProgress.Bounds(logs, b) && Step(w, logs, s, act).Some?
    ensures Work(logs, h, b, Step(w, logs, s, act).value) < Work(logs, h, b, s)
  {
    var t, s' := act.tid, Step(w, logs, s, act).value;
    assert |s.buf| == w.nthr;
    hide LogsOk, ReplaySafety.Inv, BufInv, R.Step, SeenBy, Merged, ReplayProgress.Measure, Total;
    if act.Drain? {
      TotalUpdate(s.buf, t, s.buf[t][1..]);
    } else {
      GoKeeps(w, logs, h, s, t);
      ReplayProgress.StepDrops(w, logs, h, b, s.flat, t);
      var st := Pushed(s.flat.thr[t], R.CurrentOp(w, s.flat, t));
      TotalUpdate(s.buf, t, s.buf[t] + st);
      assert |st| <= 1;
    }
  }

  lemma WorkNonNegative(w: Workload, logs: R.Logs, h: seq<Event>, b: nat, s: State)
    requires ReplaySafety.Inv(w, logs, h, s.flat)
    ensures 0 <= Work(logs, h, b, s)
  {
    ReplayProgress.MeasureNonNegative(w, logs, h, b, s.flat, |s.flat.thr|);
  }

  /** How many entries of a schedule were real steps and not spins. */
  function Effective(w: Workload, logs: R.Logs, sched: seq<Act>): nat {
    if sched == [] then 0
    else Effective(w, logs, Front(sched)) + if Step(w, logs, Exec(w, logs, Front(sched)),
        Last(sched)).Some? then 1 else 0
  }

  /** Termination: no schedule takes more real steps than a bound fixed by the recording. */
  lemma {:induction false} TsoTerminates(w: Workload, logs: R.Logs, h: seq<Event>, b: nat, sched: seq<Act>)
    requires LogsOk(w, h, logs) && ReplayProgress.Bounds(logs, b)
    ensures 0 <= Work(logs, h, b, Exec(w, logs, sched)) <= Work(logs, h, b, Init(w, logs)) - Effective(w, logs, sched)
  {
    hide LogsOk, ReplaySafety.Inv, BufInv, Step, Work, R.Exec;
    var rsched := TsoRefinesReplay(w, logs, h, sched);
    WorkNonNegative(w, logs, h, b, Exec(w, logs, sched));
    if sched != [] {
      TsoTerminates(w, logs, h, b, Front(sched));
      var s, act := Exec(w, logs, Front(sched)), Last(sched);
      var rsched' := TsoRefinesReplay(w, logs, h, Front(sched));
      if Step(w, logs, s, act).Some? { StepWorks(w, logs, h, b, s, act); }
    }
  }

  // ---------------------------------------------------------------- fair schedules

  /** Every thread's next step and every thread's oldest buffered store. */
  ghost function Acts(n: nat): iset<Act> {
    iset act: Act | act.tid < n
  }

  function DoneOf(w: Workload): State -> bool {
    s => Finished(w, s)
  }

  function WorkOf(logs: R.Logs, h: seq<Event>, b: nat): State -> int {
    s => Work(logs, h, b, s)
  }

  lemma NothingLeft(w: Workload, logs: R.Logs, s: State, act: Act)
    requires Finished(w, s)
    ensures Step(w, logs, s, act).None?
  {
    var t := act.tid;
    if t < |s.flat.thr| == |s.buf| == |s.sh.count| == |logs.version| {
      assert R.CurrentOp(w, s.flat, t).Stop?;
      assert R.CurrentOp(w, SeenBy(s, t), t) == R.CurrentOp(w, s.flat, t);
    }
  }

  /** Replay always can go on, and only so often. */
  lemma ReplayGoesOn(w: Workload, logs: R.Logs, h: seq<Event>, b: nat)
    requires LogsOk(w, h, logs) && ReplayProgress.Bounds(logs, b)
    ensures Progresses(StepOf(w, logs), Init(w, logs), DoneOf(w), WorkOf(logs, h, b), Acts(w.nthr))
  {
    hide LogsOk, ReplaySafety.Inv, BufInv, Step, Work, R.Exec, Finished, Init, Run;
    forall sched: seq<Act>
      ensures CanGoOn(StepOf(w, logs), DoneOf(w), WorkOf(logs, h, b), Acts(w.nthr),
                      Run(StepOf(w, logs), Init(w, logs), sched))
    {
      var s := Exec(w, logs, sched);
      assert s == Run(StepOf(w, logs), Init(w, logs), sched);
      var rsched := TsoRefinesReplay(w, logs, h, sched);
      WorkNonNegative(w, logs, h, b, s);
      forall act | Step(w, logs, s, act).Some?
        ensures Work(logs, h, b, Step(w, logs, s, act).value) < Work(logs, h, b, s)
      {
        StepWorks(w, logs, h, b, s, act);
      }
      if Finished(w, s) {
        forall act ensures Step(w, logs, s, act).None? { NothingLeft(w, logs, s, act); }
      } else {
        var act := TsoProgress(w, logs, h, sched);
        assert act in Acts(w.nthr) && StepOf(w, logs)(s, act).Some?;
      }
    }
  }

  /** Fair schedules finish: from wherever a schedule has led, every continuation in which all threads and all buffers
      get more turns than there is work left completes the replay. */
  lemma TsoFairlyCompletes(w: Workload, logs: R.Logs, h: seq<Event>, b: nat, sched: seq<Act>, rest: seq<Act>, k: nat)
    requires LogsOk(w, h, logs) && ReplayProgress.Bounds(logs, b)
    requires Rounds(Acts(w.nthr), rest, k) && Work(logs, h, b, Exec(w, logs, sched)) < k
    ensures Finished(w, Exec(w, logs, sched + rest))
  {
    hide LogsOk, Work, Rounds, Finished, Step, Progresses, Init, Run;
    ReplayGoesOn(w, logs, h, b);
    FairlyDone(StepOf(w, logs), Init(w, logs), DoneOf(w), WorkOf(logs, h, b), Acts(w.nthr), sched, rest, k);
  }

  lemma TsoFairBound(w: Workload, logs: R.Logs, h: seq<Event>, sched: seq<Act>) returns (k: nat)
    requires LogsOk(w, h, logs)
    ensures forall rest | Rounds(Acts(w.nthr), rest, k) :: Finished(w, Exec(w, logs, sched + rest))
  {
    hide LogsOk, Work, Exec, Finished, ReplaySafety.Inv, BufInv;
    var b := ReplayProgress.SomeBound(logs.reader);
    var rsched := TsoRefinesReplay(w, logs, h, sched);
    WorkNonNegative(w, logs, h, b, Exec(w, logs, sched));
    k := Work(logs, h, b, Exec(w, logs, sched)) + 1;
    forall rest | Rounds(Acts(w.nthr), rest, k) ensures Finished(w, Exec(w, logs, sched + rest)) {
      TsoFairlyCompletes(w, logs, h, b, sched, rest, k);
    }
  }

  /** One turn for every thread and every buffer. */
  function Turns(n: nat): seq<Act> {
    if n == 0 then [] else Turns(n - 1) + [Go(n - 1), Drain(n - 1)]
  }

  lemma {:induction false} TurnsCover(n: nat)
    ensures Covers(Acts(n), Turns(n))
  {
    if n > 0 { TurnsCover(n - 1); }
  }

  /** From wherever a schedule has led, some continuation completes the replay. */
  lemma TsoCompletes(w: Workload, logs: R.Logs, h: seq<Event>, sched: seq<Act>) returns (rest: seq<Act>)
    requires LogsOk(w, h, logs)
    ensures Finished(w, Exec(w, logs, sched + rest))
  {
    hide *;
    var k := TsoFairBound(w, logs, h, sched);
    rest := Repeat(Turns(w.nthr), k);
    TurnsCover(w.nthr);
    RepeatRounds(Acts(w.nthr), [], Turns(w.nthr), k);
    assert [] + rest == rest;
  }
}
