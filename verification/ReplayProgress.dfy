/** Replay never gets stuck and always ends: the earliest recorded access that is still missing can
    always take a step, and the number of steps of any schedule is bounded. */
module ReplayProgress {
  import opened Mem
  import opened History
  import opened Replay
  import opened ReplaySafety
  import opened ReplaySteps
  import opened ReplayInvariant

  // ---------------------------------------------------------------- deadlock freedom

  /** The access at position i of the history has been replayed. */
  predicate DoneAt(h: seq<Event>, s: State, i: nat)
    requires i < |h|
  {
    h[i].tid < |s.thr| && |Own(h[..i], h[i].tid)| < s.thr[h[i].tid].memop
  }

  /** Position i holds the earliest access, in recorded order, that has not been replayed. */
  predicate Earliest(h: seq<Event>, s: State, i: nat) {
    i < |h| && !DoneAt(h, s, i) && forall j | 0 <= j < i :: DoneAt(h, s, j)
  }

  lemma DonePos(h: seq<Event>, s: State, t: Tid, k: nat)
    requires k < |Own(h, t)|
    ensures DoneAt(h, s, Pos(h, t, k)) <==> t < |s.thr| && k < s.thr[t].memop
  {
    OwnBefore(h, t, k);
  }

  lemma {:induction false} FindEarliest(h: seq<Event>, s: State, n: nat) returns (i: nat)
    requires n < |h| && !DoneAt(h, s, n)
    ensures Earliest(h, s, i)
  {
    if j :| 0 <= j < n && !DoneAt(h, s, j) {
      i := FindEarliest(h, s, j);
    } else {
      i := n;
    }
  }

  lemma EarliestIsCurrent(w: Workload, h: seq<Event>, s: State, i: nat)
    requires Legal(w, h) && |s.thr| == w.nthr && Earliest(h, s, i)
    ensures h[i].tid < |s.thr| && s.thr[h[i].tid].memop < |Own(h, h[i].tid)|
    ensures Pos(h, h[i].tid, s.thr[h[i].tid].memop) == i && Cur(h, s, h[i].tid) == h[i]
  {
    var t := h[i].tid;
    var k := OwnIndex(h, i);
    OwnVersionEven(w, h, t, k);
    DonePos(h, s, t, k);
    var m := s.thr[t].memop;
    if m < k {
      PosMono(h, t, m, k);
      DonePos(h, s, t, m);
    }
  }

  lemma EarliestVersion(w: Workload, logs: Logs, h: seq<Event>, s: State, i: nat)
    requires LogsOk(w, h, logs) && Inv(w, logs, h, s) && Earliest(h, s, i)
    ensures h[i].version <= Num(s.ver, h[i].addr.obj)
  {
    var o, v := h[i].addr.obj, Num(s.ver, h[i].addr.obj);
    assert VersionInv(h, s, o);
    LegalAt(w, h, i);
    if v < h[i].version {
      WritesMono(h, o, i);
      var j := WriteOf(w, h, o, v / 2);
      if i < j { VersionOrder(w, h, i, j); }
      var k := OwnIndex(h, j);
      DonePos(h, s, h[j].tid, k);
      assert WriteAt(h, h[j].tid, k, o, v);
    }
  }

  lemma EarliestReader(w: Workload, logs: Logs, h: seq<Event>, s: State, i: nat, entry: ReaderEntry)
    requires LogsOk(w, h, logs) && Inv(w, logs, h, s) && Earliest(h, s, i)
    requires h[i].tid < |s.thr| && s.thr[h[i].tid].pc == SpinReader(entry)
    ensures EntryDone(s, entry)
  {
    var t := h[i].tid;
    EarliestIsCurrent(w, h, s, i);
    assert ThreadInv(logs, h, s, t);
    assert ReaderLogOk(h, h[i].addr.obj, ReaderLog(logs, h[i].addr.obj));
    EntryThread(w, h, h[i].addr.obj, ReaderLog(logs, h[i].addr.obj), entry);
    Overwriter(w, h, t, s.thr[t].memop, entry.tid, entry.memop);
    DonePos(h, s, entry.tid, entry.memop);
  }

  /** The earliest missing access finds its version wait and its reader wait satisfied. */
  lemma EarliestCanStep(w: Workload, logs: Logs, h: seq<Event>, sched: seq<Tid>, i: nat)
    requires LogsOk(w, h, logs) && Earliest(h, Exec(w, logs, sched), i)
    ensures h[i].tid < w.nthr
    ensures |Exec(w, logs, sched).thr| == w.nthr
    ensures Step(w, logs, Exec(w, logs, sched), h[i].tid).Some?
  {
    ExecInv(w, logs, h, sched);
    var s, t := Exec(w, logs, sched), h[i].tid;
    EarliestIsCurrent(w, h, s, i);
    assert ThreadInv(logs, h, s, t);
    CurrentAccess(w, logs, h, s, t);
    hide VersionInv, CursorInv, MutexInv, MemInv, VersionLogOk, ReaderLogOk, Legal, Complete;
    if s.thr[t].pc.SpinVersion? {
      EarliestVersion(w, logs, h, s, i);
    } else if s.thr[t].pc.SpinReader? {
      EarliestReader(w, logs, h, s, i, s.thr[t].pc.entry);
    }
  }

  /** Deadlock freedom: in every state some schedule reaches, either all threads are done or one can step. */
  lemma ReplayProgress(w: Workload, logs: Logs, h: seq<Event>, sched: seq<Tid>) returns (t: Tid)
    requires LogsOk(w, h, logs) && !Finished(w, Exec(w, logs, sched))
    ensures t < w.nthr == |Exec(w, logs, sched).thr| && Step(w, logs, Exec(w, logs, sched), t).Some?
  {
    ExecInv(w, logs, h, sched);
    var s := Exec(w, logs, sched);
    var u :| 0 <= u < |s.thr| && !CurrentOp(w, s, u).Stop?;
    assert ThreadInv(logs, h, s, u);
    CurrentAccess(w, logs, h, s, u);
    DonePos(h, s, u, s.thr[u].memop);
    var i := FindEarliest(h, s, Pos(h, u, s.thr[u].memop));
    EarliestCanStep(w, logs, h, sched, i);
    t := h[i].tid;
  }

  // ---------------------------------------------------------------- termination

  predicate Bounds(logs: Logs, b: nat) {
    forall o | o in logs.reader :: |logs.reader[o]| <= b
  }

  function Unconsumed(logs: Logs, s: State, o: ObjId): int {
    |ReaderLog(logs, o)| - Num(s.cursor, o)
  }

  /** A bound on the steps of n whole accesses. */
  function Accesses(n: int, b: nat): int {
    n * (4 * b + 20)
  }

  /** The steps thread t still has to take, at most. */
  function Left(logs: Logs, h: seq<Event>, b: nat, s: State, t: Tid): int
    requires t < |s.thr|
  {
    var th := s.thr[t];
    var x := if th.memop < |Own(h, t)| then 4 * Unconsumed(logs, s, Cur(h, s, t).addr.obj) else 0;
    Accesses(|Own(h, t)| - th.memop, b) +
    match th.pc
    case Start => 15 + 4 * b
    case SpinVersion => 14 + 4 * b
    case CheckVersion => 13 + 4 * b
    case UnlockSome(_) => 12 + x
    case SpinReader(_) => 11 + x
    case TryLock => 10 + x
    case Peek => 9 + x
    case UnlockNone => 8
    case SeenWrite => 7
    case Store(_) => 6
    case LoadVersion(_) => 5
    case StoreVersion(_, _) => 4
    case Load => 4
    case SeenRead(_) => 3
    case DoneRead(_, _) => 2
    case DoneWrite(_) => 2
    case Failed => 0
  }

  function LeftBelow(logs: Logs, h: seq<Event>, b: nat, s: State, n: nat): int
    requires n <= |s.thr|
  {
    if n == 0 then 0 else LeftBelow(logs, h, b, s, n - 1) + Left(logs, h, b, s, n - 1)
  }

  /** The work left over all threads. */
  function Measure(logs: Logs, h: seq<Event>, b: nat, s: State): int {
    LeftBelow(logs, h, b, s, |s.thr|)
  }

  lemma LeftNonNegative(w: Workload, logs: Logs, h: seq<Event>, b: nat, s: State, t: Tid)
    requires Inv(w, logs, h, s) && t < |s.thr|
    ensures 0 <= Left(logs, h, b, s, t)
  {
    assert ThreadInv(logs, h, s, t);
    assert 0 <= Accesses(|Own(h, t)| - s.thr[t].memop, b);
    if s.thr[t].memop < |Own(h, t)| { assert CursorInv(logs, h, s, Cur(h, s, t).addr.obj); }
  }

  lemma {:induction false} MeasureNonNegative(w: Workload, logs: Logs, h: seq<Event>, b: nat, s: State, n: nat)
    requires Inv(w, logs, h, s) && n <= |s.thr|
    ensures 0 <= LeftBelow(logs, h, b, s, n)
  {
    if n > 0 {
      MeasureNonNegative(w, logs, h, b, s, n - 1);
      LeftNonNegative(w, logs, h, b, s, n - 1);
    }
  }

  lemma CompletedDrops(x: int, b: nat)
    requires x > 0
    ensures Accesses(x - 1, b) == Accesses(x, b) - (4 * b + 20)
  {
  }

  ghost predicate AtAccess(w: Workload, logs: Logs, h: seq<Event>, s: State, t: Tid) {
    && t < |s.thr| == |logs.version| && s.thr[t].memop < |Own(h, t)|
    && SameOp(Cur(h, s, t), CurrentOp(w, s, t)) && !s.thr[t].pc.Failed?
    && (s.thr[t].pc.CheckVersion? ==> Num(s.ver, Cur(h, s, t).addr.obj) == s.thr[t].wait.version)
    && 0 <= Num(s.cursor, Cur(h, s, t).addr.obj) <= |ReaderLog(logs, Cur(h, s, t).addr.obj)|
    && Step(w, logs, s, t).Some?
  }

  lemma FinishDrops(w: Workload, logs: Logs, h: seq<Event>, b: nat, s: State, t: Tid)
    requires AtAccess(w, logs, h, s, t) && (s.thr[t].pc.DoneRead? || s.thr[t].pc.DoneWrite?)
    ensures Left(logs, h, b, Step(w, logs, s, t).value, t) < Left(logs, h, b, s, t)
  {
    CompletedDrops(|Own(h, t)| - s.thr[t].memop, b);
  }

  lemma ReaderDrops(w: Workload, logs: Logs, h: seq<Event>, b: nat, s: State, t: Tid)
    requires AtAccess(w, logs, h, s, t)
    requires AtReader(s.thr[t].pc) && !s.thr[t].pc.Peek?
    ensures Left(logs, h, b, Step(w, logs, s, t).value, t) < Left(logs, h, b, s, t)
  {
    hide Accesses;
  }

  lemma PeekDrops(w: Workload, logs: Logs, h: seq<Event>, b: nat, s: State, t: Tid)
    requires AtAccess(w, logs, h, s, t)
    requires s.thr[t].pc.Peek?
    ensures Left(logs, h, b, Step(w, logs, s, t).value, t) < Left(logs, h, b, s, t)
  {
    hide Accesses;
  }

  lemma VersionDrops(w: Workload, logs: Logs, h: seq<Event>, b: nat, s: State, t: Tid)
    requires AtAccess(w, logs, h, s, t) && Bounds(logs, b)
    requires AtVersion(s.thr[t].pc)
    ensures Left(logs, h, b, Step(w, logs, s, t).value, t) < Left(logs, h, b, s, t)
  {
    hide Accesses;
  }

  lemma AccessDrops(w: Workload, logs: Logs, h: seq<Event>, b: nat, s: State, t: Tid)
    requires AtAccess(w, logs, h, s, t)
    requires !AtReader(s.thr[t].pc) && !AtVersion(s.thr[t].pc) && !s.thr[t].pc.DoneRead? && !s.thr[t].pc.DoneWrite?
    ensures Left(logs, h, b, Step(w, logs, s, t).value, t) < Left(logs, h, b, s, t)
  {
    hide Accesses;
  }

  lemma StepDropsOwn(w: Workload, logs: Logs, h: seq<Event>, b: nat, s: State, t: Tid)
    requires Steps(w, logs, h, s, t) && Bounds(logs, b)
    ensures Left(logs, h, b, Step(w, logs, s, t).value, t) < Left(logs, h, b, s, t)
  {
    assert AtAccess(w, logs, h, s, t) by {
      StepAccess(w, logs, h, s, t);
      var o := Cur(h, s, t).addr.obj;
      assert CursorInv(logs, h, s, o) && VersionInv(h, s, o);
      if s.thr[t].pc.CheckVersion? { VersionAssert(w, logs, h, s, t); }
    }
    if s.thr[t].pc.DoneRead? || s.thr[t].pc.DoneWrite? {
      FinishDrops(w, logs, h, b, s, t);
    } else if s.thr[t].pc.Peek? {
      PeekDrops(w, logs, h, b, s, t);
    } else if AtReader(s.thr[t].pc) {
      ReaderDrops(w, logs, h, b, s, t);
    } else if AtVersion(s.thr[t].pc) {
      VersionDrops(w, logs, h, b, s, t);
    } else {
      AccessDrops(w, logs, h, b, s, t);
    }
  }

  /** A step changes no other thread. */
  lemma StepFrame(w: Workload, logs: Logs, s: State, t: Tid)
    requires t < |s.thr| == |logs.version| && Step(w, logs, s, t).Some?
    ensures |Step(w, logs, s, t).value.thr| == |s.thr|
    ensures forall t' | 0 <= t' < |s.thr| && t' != t :: Step(w, logs, s, t).value.thr[t'] == s.thr[t']
  {
  }

  /** Outside the reader log a step moves no cursor. */
  lemma StepCursor(w: Workload, logs: Logs, s: State, t: Tid)
    requires t < |s.thr| == |logs.version| && Step(w, logs, s, t).Some?
    ensures !s.thr[t].pc.Peek? ==> Step(w, logs, s, t).value.cursor == s.cursor
    ensures s.thr[t].pc.Peek? ==>
              Step(w, logs, s, t).value == PeekStep(logs, s, t, CurrentOp(w, s, t).addr.obj)
  {
  }

  lemma CursorGrows(w: Workload, logs: Logs, s: State, t: Tid)
    requires t < |s.thr| == |logs.version| && Step(w, logs, s, t).Some?
    ensures forall o :: Num(s.cursor, o) <= Num(Step(w, logs, s, t).value.cursor, o)
  {
    StepCursor(w, logs, s, t);
    if s.thr[t].pc.Peek? { PeekGrows(logs, s, t, CurrentOp(w, s, t).addr.obj); }
  }

  lemma PeekGrows(logs: Logs, s: State, t: Tid, o: ObjId)
    requires t < |s.thr|
    ensures forall o' :: Num(s.cursor, o') <= Num(PeekStep(logs, s, t, o).cursor, o')
  {
  }

  lemma OthersDoNotGrow(logs: Logs, h: seq<Event>, b: nat, s: State, s': State, t': Tid)
    requires t' < |s.thr| == |s'.thr| && s'.thr[t'] == s.thr[t']
    requires forall o :: Num(s.cursor, o) <= Num(s'.cursor, o)
    ensures Left(logs, h, b, s', t') <= Left(logs, h, b, s, t')
  {
  }

  lemma {:induction false} SumDrops(logs: Logs, h: seq<Event>, b: nat, s: State, s': State, t: Tid, n: nat)
    requires n <= |s.thr| == |s'.thr| && t < |s.thr|
    requires Left(logs, h, b, s', t) < Left(logs, h, b, s, t)
    requires forall t' | 0 <= t' < |s.thr| && t' != t :: Left(logs, h, b, s', t') <= Left(logs, h, b, s, t')
    ensures LeftBelow(logs, h, b, s', n) <= LeftBelow(logs, h, b, s, n)
    ensures t < n ==> LeftBelow(logs, h, b, s', n) < LeftBelow(logs, h, b, s, n)
  {
    if n > 0 { SumDrops(logs, h, b, s, s', t, n - 1); }
  }

  lemma StepDrops(w: Workload, logs: Logs, h: seq<Event>, b: nat, s: State, t: Tid)
    requires Steps(w, logs, h, s, t) && Bounds(logs, b)
    ensures Measure(logs, h, b, Step(w, logs, s, t).value) < Measure(logs, h, b, s)
  {
    StepDropsOwn(w, logs, h, b, s, t);
    StepFrame(w, logs, s, t);
    CursorGrows(w, logs, s, t);
    StatesDrop(logs, h, b, s, Step(w, logs, s, t).value, t);
  }

  lemma StatesDrop(logs: Logs, h: seq<Event>, b: nat, s: State, s': State, t: Tid)
    requires t < |s.thr| == |s'.thr| && Left(logs, h, b, s', t) < Left(logs, h, b, s, t)
    requires forall t' | 0 <= t' < |s.thr| && t' != t :: s'.thr[t'] == s.thr[t']
    requires forall o :: Num(s.cursor, o) <= Num(s'.cursor, o)
    ensures Measure(logs, h, b, s') < Measure(logs, h, b, s)
  {
    forall t' | 0 <= t' < |s.thr| && t' != t ensures Left(logs, h, b, s', t') <= Left(logs, h, b, s, t') {
      OthersDoNotGrow(logs, h, b, s, s', t');
    }
    SumDrops(logs, h, b, s, s', t, |s.thr|);
  }

  lemma {:induction false} SomeBound(m: map<ObjId, seq<ReaderEntry>>) returns (b: nat)
    ensures forall o | o in m :: |m[o]| <= b
    decreases |m|
  {
    if o :| o in m {
      var rest := m - {o};
      assert rest.Keys == m.Keys - {o};
      b := SomeBound(rest);
      assert forall o' | o' in m && o' != o :: o' in rest && rest[o'] == m[o'];
      if b < |m[o]| { b := |m[o]|; }
    } else {
      b := 0;
    }
  }
}
