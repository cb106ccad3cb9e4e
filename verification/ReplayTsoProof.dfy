/** Store buffers do not change what replay does: every run under store buffers is, with its buffers emptied, a run
    of Replay. */
module ReplayTsoProof {
  import opened Mem
  import opened StoreBuffer
  import opened History
  import opened ReplaySafety
  import opened ReplayTso
  import R = Replay
  import ReplaySteps

  // ---------------------------------------------------------------- views

  /** The store is to the object's version or one of its words. */
  predicate On(st: Store, o: ObjId) {
    (st.Word? && st.addr.obj == o) || (st.Bump? && st.obj == o)
  }

  predicate Touches(buf: seq<Store>, o: ObjId) {
    exists i :: 0 <= i < |buf| && On(buf[i], o)
  }

  ghost predicate SameOn(sh: Shared, sh': Shared, o: ObjId) {
    Num(sh.ver, o) == Num(sh'.ver, o) && forall a: Addr | a.obj == o :: Get(sh.mem, a) == Get(sh'.mem, a)
  }

  lemma ViewPush(sh: Shared, t: Tid, buf: seq<Store>, st: Store)
    ensures View(sh, t, buf + [st]) == Reach(View(sh, t, buf), t, st)
  {
    SeenPush(ReachBy(t), sh, buf, st);
  }

  lemma {:induction false} ViewFrame(sh: Shared, sh': Shared, t: Tid, buf: seq<Store>, o: ObjId)
    requires SameOn(sh, sh', o)
    ensures SameOn(View(sh, t, buf), View(sh', t, buf), o)
    decreases |buf|
  {
    if buf != [] { ViewFrame(Reach(sh, t, buf[0]), Reach(sh', t, buf[0]), t, buf[1..], o); }
  }

  lemma {:induction false} ViewUntouched(sh: Shared, t: Tid, buf: seq<Store>, o: ObjId)
    requires !Touches(buf, o)
    ensures SameOn(View(sh, t, buf), sh, o)
    decreases |buf|
  {
    if buf != [] {
      assert !On(buf[0], o);
      assert forall i | 0 <= i < |buf[1..]| :: buf[1..][i] == buf[i + 1];
      ViewUntouched(Reach(sh, t, buf[0]), t, buf[1..], o);
    }
  }

  /** Buffered versions are ahead of memory, and there is at most one. */
  predicate Ahead(sh: Shared, buf: seq<Store>) {
    && (forall i | 0 <= i < |buf| && buf[i].Bump? :: Num(sh.ver, buf[i].obj) < buf[i].version)
    && (forall i, j | 0 <= i < j < |buf| :: !(buf[i].Bump? && buf[j].Bump?))
  }

  lemma {:induction false} ViewNoBump(sh: Shared, t: Tid, buf: seq<Store>)
    requires forall i | 0 <= i < |buf| :: !buf[i].Bump?
    ensures View(sh, t, buf).ver == sh.ver
    decreases |buf|
  {
    if buf != [] { ViewNoBump(Reach(sh, t, buf[0]), t, buf[1..]); }
  }

  lemma {:induction false} ViewAhead(sh: Shared, t: Tid, buf: seq<Store>, o: ObjId)
    requires Ahead(sh, buf)
    ensures Num(sh.ver, o) <= Num(View(sh, t, buf).ver, o)
    ensures forall i | 0 <= i < |buf| && buf[i].Bump? && buf[i].obj == o ::
            Num(View(sh, t, buf).ver, o) == buf[i].version
    decreases |buf|
  {
    if buf != [] {
      var rest := buf[1..];
      assert forall i | 0 <= i < |rest| :: rest[i] == buf[i + 1];
      if buf[0].Bump? {
        ViewNoBump(Reach(sh, t, buf[0]), t, rest);
      } else {
        ViewAhead(Reach(sh, t, buf[0]), t, rest, o);
      }
    }
  }

  // ---------------------------------------------------------------- the same step

  /** What thread t sees, as far as a step of an access to o depends on it. */
  ghost predicate Sees(flat: R.State, seen: R.State, t: Tid) {
    && t < |flat.thr| == |seen.thr| && seen.thr[t] == flat.thr[t] && seen.cursor == flat.cursor
        && seen.mutex == flat.mutex
    && (forall u | 0 <= u < |flat.thr| :: seen.thr[u].memop <= flat.thr[u].memop)
  }

  /** The access takes part in versions and values of its object now. */
  predicate Using(pc: R.PC) {
    pc.CheckVersion? || (Passed(pc) && !pc.DoneWrite?)
  }

  ghost predicate AgreeOn(flat: R.State, seen: R.State, o: ObjId) {
    Num(seen.ver, o) == Num(flat.ver, o) && forall a: Addr | a.obj == o :: Get(seen.mem, a) == Get(flat.mem, a)
  }

  lemma SameVersionStep(log: seq<WaitVersion>, flat: R.State, seen: R.State, t: Tid, op: Op)
    requires Sees(flat, seen, t) && !op.Stop? && R.AtVersion(flat.thr[t].pc)
    requires if Using(flat.thr[t].pc) then AgreeOn(flat, seen, op.addr.obj)
             else Num(seen.ver, op.addr.obj) <= Num(flat.ver, op.addr.obj)
    requires R.VersionStep(log, seen, t, op).Some?
    ensures Pushed(flat.thr[t], op) == []
    ensures R.VersionStep(log, flat, t, op) == Some(Merged(flat, t, R.VersionStep(log, seen, t, op).value, []))
  {
  }

  lemma SameReadStep(flat: R.State, seen: R.State, t: Tid, a: Addr)
    requires Sees(flat, seen, t) && (Using(flat.thr[t].pc) ==> AgreeOn(flat, seen, a.obj))
             && R.ReadStep(seen, t, a).Some?
    ensures R.ReadStep(flat, t, a) == Some(Merged(flat, t, R.ReadStep(seen, t, a).value, Pushed(flat.thr[t], Read(a))))
  {
  }

  lemma MergedGoto(flat: R.State, seen: R.State, t: Tid, pc: R.PC, cursor: map<ObjId, int>, mutex: map<ObjId, Tid>)
    requires Sees(flat, seen, t)
    ensures Merged(flat, t, R.Goto(seen, t, pc).(cursor := cursor, mutex := mutex), [])
         == R.Goto(flat, t, pc).(cursor := cursor, mutex := mutex)
  {
  }

  lemma SamePeek(logs: R.Logs, flat: R.State, seen: R.State, t: Tid, o: ObjId)
    requires Sees(flat, seen, t) && Num(seen.ver, o) == Num(flat.ver, o)
    ensures R.PeekStep(logs, flat, t, o) == Merged(flat, t, R.PeekStep(logs, seen, t, o), [])
  {
    hide Merged;
    var n, log, v := Num(flat.cursor, o), R.ReaderLog(logs, o), Num(flat.ver, o);
    MergedGoto(flat, seen, t, R.UnlockNone, flat.cursor, flat.mutex);
    MergedGoto(flat, seen, t, R.Failed, flat.cursor, flat.mutex);
    if 0 <= n < |log| { MergedGoto(flat, seen, t, R.UnlockSome(log[n]), flat.cursor[o := n + 1], flat.mutex); }
  }

  lemma SameReaderStep(logs: R.Logs, flat: R.State, seen: R.State, t: Tid, op: Op)
    requires Sees(flat, seen, t) && op.Write?
             && (Using(flat.thr[t].pc) ==> Num(seen.ver, op.addr.obj) == Num(flat.ver, op.addr.obj))
    requires R.AtReader(flat.thr[t].pc) && R.ReaderStep(logs, seen, t, op.addr.obj).Some?
    ensures Pushed(flat.thr[t], op) == []
    ensures R.ReaderStep(logs, flat, t, op.addr.obj)
         == Some(Merged(flat, t, R.ReaderStep(logs, seen, t, op.addr.obj).value, []))
  {
    hide Merged, R.PeekStep;
    var o := op.addr.obj;
    match flat.thr[t].pc
    case Peek => SamePeek(logs, flat, seen, t, o);
    case TryLock =>
      MergedGoto(flat, seen, t, R.Failed, flat.cursor, flat.mutex);
      MergedGoto(flat, seen, t, R.Peek, flat.cursor, flat.mutex[o := t]);
    case UnlockNone => MergedGoto(flat, seen, t, R.SeenWrite, flat.cursor, flat.mutex - {o});
    case UnlockSome(entry) => MergedGoto(flat, seen, t, R.SpinReader(entry), flat.cursor, flat.mutex - {o});
    case SpinReader(entry) =>
      MergedGoto(flat, seen, t, R.Failed, flat.cursor, flat.mutex);
      MergedGoto(flat, seen, t, R.TryLock, flat.cursor, flat.mutex);
    case _ =>
  }

  lemma SameWriteStep(flat: R.State, seen: R.State, t: Tid, a: Addr, x: Value)
    requires Sees(flat, seen, t) && (Using(flat.thr[t].pc) ==> Num(seen.ver, a.obj) == Num(flat.ver, a.obj))
    requires R.WriteStep(seen, t, a, x).Some?
    ensures R.WriteStep(flat, t, a, x)
         == Some(Merged(flat, t, R.WriteStep(seen, t, a, x).value, Pushed(flat.thr[t], Write(a, x))))
  {
    var th := flat.thr[t];
    match th.pc
    case SeenWrite =>
    case Store(seen') =>
    case LoadVersion(seen') =>
    case StoreVersion(seen', loaded) =>
    case DoneWrite(seen') =>
    case _ =>
  }

  lemma SameStep(w: Workload, logs: R.Logs, flat: R.State, seen: R.State, t: Tid)
    requires Sees(flat, seen, t) && |flat.thr| == |logs.version| && R.Step(w, logs, seen, t).Some?
    requires var op := R.CurrentOp(w, flat, t);
             !op.Stop? ==>
               && (Using(flat.thr[t].pc) ==> AgreeOn(flat, seen, op.addr.obj))
               && Num(seen.ver, op.addr.obj) <= Num(flat.ver, op.addr.obj)
    ensures R.Step(w, logs, flat, t)
         == Some(Merged(flat, t, R.Step(w, logs, seen, t).value, Pushed(flat.thr[t], R.CurrentOp(w, flat, t))))
  {
    var op := R.CurrentOp(w, flat, t);
    assert R.CurrentOp(w, seen, t) == op;
    hide R.VersionStep, R.ReadStep, R.ReaderStep, R.WriteStep, Merged, Pushed;
    if R.AtVersion(flat.thr[t].pc) {
      SameVersionStep(logs.version[t], flat, seen, t, op);
    } else if op.Read? {
      SameReadStep(flat, seen, t, op.addr);
    } else if R.AtReader(flat.thr[t].pc) {
      SameReaderStep(logs, flat, seen, t, op);
    } else {
      SameWriteStep(flat, seen, t, op.addr, op.val);
    }
  }

  // ---------------------------------------------------------------- the invariant

  /** From the mutex to the version bump of a write. */
  predicate InWrite(pc: R.PC) {
    InMutex(pc) || pc.SpinReader? || pc.SeenWrite? || pc.Store? || pc.LoadVersion? || pc.StoreVersion?
  }

  predicate BumpFollows(buf: seq<Store>, i: nat, o: ObjId) {
    exists j :: i < j < |buf| && buf[j].Bump? && buf[j].obj == o
  }

  /** A thread's buffered stores: a word is followed by the bump of its object's version unless the write is still
      under way; counters are its own past values. */
  predicate BufOk(h: seq<Event>, s: State, t: Tid)
    requires t < |s.flat.thr| == |s.buf| == |s.sh.count|
  {
    var th, buf := s.flat.thr[t], s.buf[t];
    && Ahead(s.sh, buf)
    && (InWrite(th.pc) ==> forall i | 0 <= i < |buf| :: !buf[i].Bump?)
    && (forall i | 0 <= i < |buf| && buf[i].Word? ::
          BumpFollows(buf, i, buf[i].addr.obj) || Storing(h, s.flat, t, buf[i].addr.obj))
    && (forall i | 0 <= i < |buf| && buf[i].Count? :: buf[i].n <= th.memop)
    && s.sh.count[t] <= th.memop
    && |View(s.sh, t, buf).count| == |s.sh.count| && View(s.sh, t, buf).count[t] == th.memop
  }

  /** The word is stored and the version is not. */
  predicate Storing(h: seq<Event>, flat: R.State, t: Tid, o: ObjId) {
    t < |flat.thr| && flat.thr[t].memop < |Own(h, t)| && Stored(flat.thr[t].pc) && Cur(h, flat, t).addr.obj == o
  }

  /** The thread sees at least the versions of the accesses whose version wait it has passed. */
  ghost predicate SeenOk(h: seq<Event>, s: State, t: Tid)
    requires t < |s.flat.thr| == |s.buf|
  {
    var v := View(s.sh, t, s.buf[t]);
    && (forall o: ObjId :: 0 <= Num(v.ver, o))
    && (forall j | 0 <= j < Waiting(s.flat.thr[t]) && j < |Own(h, t)| ::
        Own(h, t)[j].version <= Num(v.ver, Own(h, t)[j].addr.obj))
  }

  ghost predicate Alone(s: State, t: Tid, o: ObjId) {
    forall u | 0 <= u < |s.buf| && u != t :: !Touches(s.buf[u], o)
  }

  predicate Engaged(h: seq<Event>, flat: R.State, t: Tid, o: ObjId) {
    t < |flat.thr| && flat.thr[t].memop < |Own(h, t)| && Using(flat.thr[t].pc) && Cur(h, flat, t).addr.obj == o
  }

  /** A thread that nobody else has buffered stores to the object of sees the flat object. */
  ghost predicate ViewOk(s: State, t: Tid, o: ObjId)
    requires t < |s.buf|
  {
    var v := View(s.sh, t, s.buf[t]);
    Num(v.ver, o) == Num(s.flat.ver, o) && forall a: Addr | a.obj == o :: Get(v.mem, a) == Get(s.flat.mem, a)
  }

  /** Who uses an object or has buffered stores to it is the only one that has. */
  ghost predicate PairInv(h: seq<Event>, s: State, t: Tid, o: ObjId)
    requires t < |s.buf|
  {
    && (Touches(s.buf[t], o) || Engaged(h, s.flat, t, o) ==> Alone(s, t, o))
    && (Alone(s, t, o) ==> ViewOk(s, t, o))
  }

  predicate Sized(s: State, n: nat) {
    |s.flat.thr| == |s.buf| == |s.sh.count| == n
  }

  ghost predicate BufInv(h: seq<Event>, s: State, n: nat) {
    && Sized(s, n)
    && (forall t | 0 <= t < n :: BufOk(h, s, t) && SeenOk(h, s, t))
    && (forall t, o: ObjId | 0 <= t < n :: PairInv(h, s, t, o))
  }

  // ---------------------------------------------------------------- what a thread sees

  /** Nobody sees a version that is ahead of the flat one. */
  lemma NeverAhead(h: seq<Event>, s: State, n: nat, t: Tid, o: ObjId)
    requires BufInv(h, s, n) && t < n
    ensures Num(View(s.sh, t, s.buf[t]).ver, o) <= Num(s.flat.ver, o)
    ensures !Alone(s, t, o) ==> Num(View(s.sh, t, s.buf[t]).ver, o) == Num(s.sh.ver, o)
  {
    hide View;
    assert PairInv(h, s, t, o);
    if !Alone(s, t, o) {
      var u :| 0 <= u < |s.buf| && u != t && Touches(s.buf[u], o);
      assert PairInv(h, s, u, o);
      assert !Touches(s.buf[t], o);
      ViewUntouched(s.sh, t, s.buf[t], o);
      assert BufOk(h, s, u);
      ViewAhead(s.sh, u, s.buf[u], o);
    }
  }

  /** If memory has the object's latest version, a buffered store to it belongs to a write under way. */
  lemma OnlyWord(h: seq<Event>, s: State, n: nat, u: Tid, o: ObjId)
    requires Sized(s, n) && u < n && BufOk(h, s, u) && ViewOk(s, u, o) && Touches(s.buf[u], o)
    requires Num(s.sh.ver, o) == Num(s.flat.ver, o)
    ensures Storing(h, s.flat, u, o)
  {
    hide View;
    ViewAhead(s.sh, u, s.buf[u], o);
    var i :| 0 <= i < |s.buf[u]| && On(s.buf[u][i], o);
    assert s.buf[u][i].Word?;
    assert !BumpFollows(s.buf[u], i, o);
  }

  /** Nobody else is about to use an object while its writer stores to it. */
  lemma Excluded(w: Workload, logs: R.Logs, h: seq<Event>, flat: R.State, t: Tid, u: Tid, o: ObjId)
    requires LogsOk(w, h, logs) && ReplaySafety.Inv(w, logs, h, flat) && u != t && t < |flat.thr| && u < |flat.thr|
    requires flat.thr[u].memop < |Own(h, u)| && Cleared(flat.thr[u].pc) && Cur(h, flat, u).addr.obj == o
    requires flat.thr[t].memop < |Own(h, t)| && !flat.thr[t].pc.DoneWrite?
    requires Num(flat.ver, Cur(h, flat, t).addr.obj) == Cur(h, flat, t).version
    ensures Cur(h, flat, t).addr.obj != o
  {
    hide Own, Legal;
    var e, f := Cur(h, flat, t), Cur(h, flat, u);
    assert ThreadInv(logs, h, flat, u);
    var k, j := flat.thr[u].memop, flat.thr[t].memop;
    assert !e.write ==> ReadAt(h, t, j, e.addr.obj, e.version);
    if e.addr.obj == o && e.write { Overwriter(w, h, u, k, t, j); }
  }

  /** A thread that sees the version its access needs has the object to itself. */
  lemma SeesNeeded(w: Workload, logs: R.Logs, h: seq<Event>, s: State, t: Tid, o: ObjId)
    requires LogsOk(w, h, logs) && ReplaySafety.Inv(w, logs, h, s.flat) && BufInv(h, s, w.nthr)
    requires t < w.nthr && s.flat.thr[t].memop < |Own(h, t)| && !s.flat.thr[t].pc.DoneWrite?
    requires Cur(h, s.flat, t).addr.obj == o
    requires Cur(h, s.flat, t).version <= Num(View(s.sh, t, s.buf[t]).ver, o)
    ensures Alone(s, t, o) && Num(s.flat.ver, o) == Cur(h, s.flat, t).version
  {
    hide View, Own, Legal, BufOk;
    NeverAhead(h, s, w.nthr, t, o);
    assert VersionInv(h, s.flat, o);
    NotPast(h, s.flat, t);
    if !Alone(s, t, o) {
      var u :| 0 <= u < |s.buf| && u != t && Touches(s.buf[u], o);
      assert PairInv(h, s, u, o);
      OnlyWord(h, s, w.nthr, u, o);
      Excluded(w, logs, h, s.flat, t, u, o);
    }
  }

  /** What a thread uses it sees as it is. */
  lemma UsesFlat(w: Workload, logs: R.Logs, h: seq<Event>, s: State, t: Tid)
    requires LogsOk(w, h, logs) && ReplaySafety.Inv(w, logs, h, s.flat) && BufInv(h, s, w.nthr)
    requires t < w.nthr && s.flat.thr[t].memop < |Own(h, t)| && Using(s.flat.thr[t].pc)
    ensures ViewOk(s, t, Cur(h, s.flat, t).addr.obj) && Alone(s, t, Cur(h, s.flat, t).addr.obj)
  {
    assert PairInv(h, s, t, Cur(h, s.flat, t).addr.obj);
  }

  /** An access without a wait entry finds its version in what the thread has seen before. */
  lemma SeenBefore(w: Workload, logs: R.Logs, h: seq<Event>, s: State, t: Tid)
    requires LogsOk(w, h, logs) && ReplaySafety.Inv(w, logs, h, s.flat) && BufInv(h, s, w.nthr)
    requires t < w.nthr && s.flat.thr[t].memop < |Own(h, t)| && s.flat.thr[t].pc.Start?
    requires s.flat.thr[t].memop != s.flat.thr[t].wait.memop
    ensures Cur(h, s.flat, t).version <= Num(View(s.sh, t, s.buf[t]).ver, Cur(h, s.flat, t).addr.obj)
  {
    hide View, Own, Legal, BufOk, PairInv, PcOk, VersionInv, CursorInv, MutexInv, MemInv, ReaderLogOk;
    var th, own, log := s.flat.thr[t], Own(h, t), logs.version[t];
    assert ThreadInv(logs, h, s.flat, t) && SeenOk(h, s, t);
    var k := th.memop;
    assert VersionLogOk(own, log);
    NoEntry(log, th.wait, th.pos, k);
    if own[k].version != 0 {
      assert SameVersionBefore(own, k);
      var j :| 0 <= j < k && own[j].addr.obj == own[k].addr.obj && own[j].version == own[k].version;
    }
  }

  /** The cursor of a version log stands past the thread's access: the access has no entry. */
  lemma NoEntry(log: seq<WaitVersion>, wait: WaitVersion, pos: nat, k: nat)
    requires WaitOk(log, wait, pos, k) && wait.memop != k
    requires forall i, j | 0 <= i < j < |log| - 1 :: log[i].memop < log[j].memop
    ensures forall i | 0 <= i < |log| - 1 :: log[i].memop != k
  {
  }

  // ---------------------------------------------------------------- draining

  lemma {:induction false} ViewCount(sh: Shared, sh': Shared, u: Tid, buf: seq<Store>)
    requires |sh.count| == |sh'.count| && u < |sh.count| && sh.count[u] == sh'.count[u]
    ensures |View(sh, u, buf).count| == |View(sh', u, buf).count| == |sh.count|
    ensures View(sh, u, buf).count[u] == View(sh', u, buf).count[u]
    decreases |buf|
  {
    if buf != [] { ViewCount(Reach(sh, u, buf[0]), Reach(sh', u, buf[0]), u, buf[1..]); }
  }

  lemma TouchesRest(buf: seq<Store>, o: ObjId)
    requires buf != []
    ensures Touches(buf, o) <==> On(buf[0], o) || Touches(buf[1..], o)
  {
    var rest := buf[1..];
    assert forall i | 0 <= i < |rest| :: rest[i] == buf[i + 1];
    if Touches(rest, o) {
      var i :| 0 <= i < |rest| && On(rest[i], o);
      assert On(buf[i + 1], o);
    }
    if Touches(buf, o) && !On(buf[0], o) {
      var i :| 0 <= i < |buf| && On(buf[i], o);
      assert rest[i - 1] == buf[i];
    }
  }

  /** A store that is not to the object leaves it alone. */
  lemma ReachOther(sh: Shared, t: Tid, st: Store, o: ObjId)
    requires !On(st, o)
    ensures SameOn(Reach(sh, t, st), sh, o)
  {
  }

  function Drained(s: State, t: Tid): State
    requires t < |s.buf| && s.buf[t] != []
  {
    s.(sh := Reach(s.sh, t, s.buf[t][0]), buf := s.buf[t := s.buf[t][1..]])
  }

  lemma DrainOwn(h: seq<Event>, s: State, n: nat, t: Tid)
    requires Sized(s, n) && t < n && s.buf[t] != [] && BufOk(h, s, t) && SeenOk(h, s, t)
    ensures Sized(Drained(s, t), n) && BufOk(h, Drained(s, t), t) && SeenOk(h, Drained(s, t), t)
    ensures View(Drained(s, t).sh, t, Drained(s, t).buf[t]) == View(s.sh, t, s.buf[t])
  {
    var s', buf := Drained(s, t), s.buf[t];
    var rest := buf[1..];
    assert s'.buf[t] == rest && View(s'.sh, t, rest) == View(s.sh, t, buf);
    hide View;
    assert forall i | 0 <= i < |rest| :: rest[i] == buf[i + 1];
    forall i | 0 <= i < |rest| && rest[i].Word?
      ensures BumpFollows(rest, i, rest[i].addr.obj) || Storing(h, s.flat, t, rest[i].addr.obj)
    {
      assert buf[i + 1].Word?;
      if BumpFollows(buf, i + 1, buf[i + 1].addr.obj) {
        var j :| i + 1 < j < |buf| && buf[j].Bump? && buf[j].obj == buf[i + 1].addr.obj;
        assert rest[j - 1] == buf[j];
      }
    }
    assert Ahead(s'.sh, rest);
  }

  lemma DrainOther(h: seq<Event>, s: State, n: nat, t: Tid, u: Tid)
    requires Sized(s, n) && t < n && u < n && u != t && s.buf[t] != [] && BufOk(h, s, u) && SeenOk(h, s, u)
    requires BufOk(h, s, t)
    requires s.buf[t][0].Bump? ==> Alone(s, t, s.buf[t][0].obj)
    ensures BufOk(h, Drained(s, t), u) && SeenOk(h, Drained(s, t), u)
  {
    var s', st := Drained(s, t), s.buf[t][0];
    ViewCount(s.sh, s'.sh, u, s.buf[u]);
    hide View, Own;
    assert st.Bump? ==> !Touches(s.buf[u], st.obj);
    assert forall i | 0 <= i < |s.buf[u]| && s.buf[u][i].Bump? && st.Bump? && s.buf[u][i].obj == st.obj ::
        On(s.buf[u][i], st.obj);
    assert Ahead(s'.sh, s.buf[u]);
    forall o: ObjId ensures Num(View(s.sh, u, s.buf[u]).ver, o) <= Num(View(s'.sh, u, s.buf[u]).ver, o) {
      if st.Bump? && st.obj == o {
        ViewUntouched(s.sh, u, s.buf[u], o);
        ViewUntouched(s'.sh, u, s.buf[u], o);
      } else {
        VersionFrame(s.sh, s'.sh, u, s.buf[u], o);
      }
    }
  }

  lemma {:induction false} VersionFrame(sh: Shared, sh': Shared, u: Tid, buf: seq<Store>, o: ObjId)
    requires Num(sh.ver, o) == Num(sh'.ver, o)
    ensures Num(View(sh, u, buf).ver, o) == Num(View(sh', u, buf).ver, o)
    decreases |buf|
  {
    if buf != [] { VersionFrame(Reach(sh, u, buf[0]), Reach(sh', u, buf[0]), u, buf[1..], o); }
  }

  lemma DrainAlone(s: State, t: Tid, u: Tid, o: ObjId)
    requires t < |s.buf| && s.buf[t] != [] && u < |s.buf|
    ensures Alone(s, u, o) ==> Alone(Drained(s, t), u, o)
    ensures u == t || !Touches(s.buf[t], o) || Touches(s.buf[t][1..], o) ==>
            (Alone(Drained(s, t), u, o) ==> Alone(s, u, o))
  {
    TouchesRest(s.buf[t], o);
    hide Touches;
    var s' := Drained(s, t);
    if u != t && Alone(s', u, o) { assert !Touches(s'.buf[t], o); }
    forall x | 0 <= x < |s.buf| && x != u && x != t && Alone(s', u, o) ensures !Touches(s.buf[x], o) {
      assert !Touches(s'.buf[x], o);
    }
    forall x | 0 <= x < |s.buf| && x != u && Alone(s, u, o) ensures !Touches(s'.buf[x], o) {
      assert !Touches(s.buf[x], o);
    }
  }

  lemma DrainPair(h: seq<Event>, s: State, n: nat, t: Tid, u: Tid, o: ObjId)
    requires Sized(s, n) && t < n && u < n && s.buf[t] != []
    requires PairInv(h, s, t, o) && PairInv(h, s, u, o)
    ensures PairInv(h, Drained(s, t), u, o)
  {
    var s', st := Drained(s, t), s.buf[t][0];
    TouchesRest(s.buf[t], o);
    DrainAlone(s, t, u, o);
    assert View(s'.sh, t, s'.buf[t]) == View(s.sh, t, s.buf[t]);
    hide View, Touches, Alone;
    if u != t && Alone(s', u, o) {
      if !On(st, o) {
        ReachOther(s.sh, t, st, o);
        ViewFrame(s'.sh, s.sh, u, s.buf[u], o);
        StillAlone(s, t, u, o);
      } else {
        LastStoreOut(s, t, u, o);
      }
    }
  }

  lemma StillAlone(s: State, t: Tid, u: Tid, o: ObjId)
    requires t < |s.buf| && s.buf[t] != [] && u < |s.buf| && u != t && !On(s.buf[t][0], o) && Alone(Drained(s, t), u, o)
    ensures Alone(s, u, o)
  {
    TouchesRest(s.buf[t], o);
    DrainAlone(s, t, u, o);
    assert !Touches(Drained(s, t).buf[t], o);
  }

  /** The last buffered store to an object is out: what was seen by its writer is now seen by all. */
  lemma LastStoreOut(s: State, t: Tid, u: Tid, o: ObjId)
    requires t < |s.buf| && s.buf[t] != [] && u < |s.buf| && u != t && On(s.buf[t][0], o)
    requires Alone(s, t, o) && ViewOk(s, t, o) && Alone(Drained(s, t), u, o)
    ensures ViewOk(Drained(s, t), u, o)
  {
    var s' := Drained(s, t);
    assert View(s'.sh, t, s'.buf[t]) == View(s.sh, t, s.buf[t]);
    hide View;
    assert !Touches(s'.buf[t], o) && !Touches(s'.buf[u], o);
    ViewUntouched(s'.sh, t, s'.buf[t], o);
    ViewUntouched(s'.sh, u, s'.buf[u], o);
  }

  lemma DrainKeeps(h: seq<Event>, s: State, n: nat, t: Tid)
    requires BufInv(h, s, n) && t < n && s.buf[t] != []
    ensures BufInv(h, Drained(s, t), n)
  {
    hide BufOk, SeenOk, PairInv, Drained;
    assert BufOk(h, s, t) && SeenOk(h, s, t);
    DrainOwn(h, s, n, t);
    DrainedBump(h, s, n, t);
    forall u | 0 <= u < n ensures BufOk(h, Drained(s, t), u) && SeenOk(h, Drained(s, t), u) {
      if u != t { DrainOther(h, s, n, t, u); }
    }
    forall u, o: ObjId | 0 <= u < n ensures PairInv(h, Drained(s, t), u, o) {
      DrainPair(h, s, n, t, u, o);
    }
  }

  lemma DrainedBump(h: seq<Event>, s: State, n: nat, t: Tid)
    requires BufInv(h, s, n) && t < n && s.buf[t] != []
    ensures s.buf[t][0].Bump? ==> Alone(s, t, s.buf[t][0].obj)
  {
    hide BufOk, SeenOk;
    if s.buf[t][0].Bump? {
      assert On(s.buf[t][0], s.buf[t][0].obj);
      assert PairInv(h, s, t, s.buf[t][0].obj);
    }
  }

  // ---------------------------------------------------------------- a thread's own steps

  /** What a step does to the thread's program counter, by the store it makes. */
  predicate Transition(th: R.Thread, th': R.Thread, st: seq<Store>, a: Addr) {
    if st == [] then
      && th'.memop == th.memop && (Stored(th'.pc) <==> Stored(th.pc)) && !th.pc.DoneWrite? && !th'.pc.DoneWrite?
      && (InWrite(th'.pc) ==> InWrite(th.pc) || th.pc.TryLock?)
      && (Using(th'.pc) ==> Using(th.pc) || th.pc.SpinVersion? || (th.pc.Start? && th.memop != th.wait.memop))
      && (Passed(th'.pc) ==> Using(th'.pc))
    else
      |st| == 1 &&
      match st[0]
      case Word(a', _) => a' == a && th.pc.Store? && th' == th.(pc := th'.pc) && th'.pc.LoadVersion?
      case Bump(o, v) => o == a.obj && th.pc.StoreVersion? && v == th.pc.loaded + 2 && th' == th.(pc := th'.pc)
          && th'.pc.DoneWrite?
      case Count(n) => n == th.memop + 1 == th'.memop && Passed(th.pc) && !Stored(th.pc) && th'.pc.Start?
  }

  /** One step of thread t, its store put into the flat memory. */
  ghost predicate GoEffect(flat: R.State, flat': R.State, t: Tid, st: seq<Store>, a: Addr) {
    && t < |flat.thr| == |flat'.thr| && flat'.thr == flat.thr[t := flat'.thr[t]]
    && Transition(flat.thr[t], flat'.thr[t], st, a)
    && flat'.mem == (if st != [] && st[0].Word? then flat.mem[st[0].addr := st[0].val] else flat.mem)
    && flat'.ver == (if st != [] && st[0].Bump? then flat.ver[st[0].obj := st[0].version] else flat.ver)
  }

  lemma VersionEffect(log: seq<WaitVersion>, flat: R.State, t: Tid, op: Op)
    requires t < |flat.thr| && !op.Stop? && R.AtVersion(flat.thr[t].pc) && R.VersionStep(log, flat, t, op).Some?
    requires !R.VersionStep(log, flat, t, op).value.thr[t].pc.Failed?
    ensures GoEffect(flat, R.VersionStep(log, flat, t, op).value, t, Pushed(flat.thr[t], op), op.addr)
  {
  }

  lemma ReadEffect(flat: R.State, t: Tid, a: Addr)
    requires t < |flat.thr| && R.ReadStep(flat, t, a).Some?
    ensures GoEffect(flat, R.ReadStep(flat, t, a).value, t, Pushed(flat.thr[t], Read(a)), a)
  {
  }

  lemma ReaderEffect(logs: R.Logs, flat: R.State, t: Tid, op: Op)
    requires t < |flat.thr| && op.Write? && R.AtReader(flat.thr[t].pc) && R.ReaderStep(logs, flat, t, op.addr.obj).Some?
    requires !R.ReaderStep(logs, flat, t, op.addr.obj).value.thr[t].pc.Failed?
    ensures GoEffect(flat, R.ReaderStep(logs, flat, t, op.addr.obj).value, t, Pushed(flat.thr[t], op), op.addr)
  {
  }

  lemma WriteEffect(flat: R.State, t: Tid, a: Addr, x: Value)
    requires t < |flat.thr| && R.WriteStep(flat, t, a, x).Some?
    ensures GoEffect(flat, R.WriteStep(flat, t, a, x).value, t, Pushed(flat.thr[t], Write(a, x)), a)
  {
    var th := flat.thr[t];
    match th.pc
    case SeenWrite =>
    case Store(_) =>
    case LoadVersion(_) =>
    case StoreVersion(_, _) =>
    case DoneWrite(_) =>
    case _ =>
  }

  lemma StepEffect(w: Workload, logs: R.Logs, flat: R.State, t: Tid)
    requires t < |flat.thr| == |logs.version| && R.Step(w, logs, flat, t).Some?
    requires !R.Step(w, logs, flat, t).value.thr[t].pc.Failed?
    ensures var op := R.CurrentOp(w, flat, t);
            !op.Stop? && GoEffect(flat, R.Step(w, logs, flat, t).value, t, Pushed(flat.thr[t], op), op.addr)
  {
    hide GoEffect, Pushed, R.VersionStep, R.ReadStep, R.ReaderStep, R.WriteStep;
    var op := R.CurrentOp(w, flat, t);
    if R.AtVersion(flat.thr[t].pc) {
      VersionEffect(logs.version[t], flat, t, op);
    } else if op.Read? {
      ReadEffect(flat, t, op.addr);
    } else if R.AtReader(flat.thr[t].pc) {
      ReaderEffect(logs, flat, t, op);
    } else {
      WriteEffect(flat, t, op.addr, op.val);
    }
  }

  /** The state after thread t's step. */
  function Gone(s: State, flat': R.State, t: Tid, st: seq<Store>): State
    requires t < |s.buf|
  {
    State(flat', s.sh, s.buf[t := s.buf[t] + st])
  }

  lemma GoWord(h: seq<Event>, s: State, n: nat, t: Tid, flat': R.State, st: seq<Store>, a: Addr, i: nat)
    requires Sized(s, n) && t < n && GoEffect(s.flat, flat', t, st, a) && BufOk(h, s, t)
    requires s.flat.thr[t].memop < |Own(h, t)| && Cur(h, s.flat, t).addr == a
    requires var buf' := s.buf[t] + st; i < |buf'| && buf'[i].Word?
    ensures var buf' := s.buf[t] + st;
            BumpFollows(buf', i, buf'[i].addr.obj) || Storing(h, flat', t, buf'[i].addr.obj)
  {
    hide View, Own;
    var buf := s.buf[t];
    var buf' := buf + st;
    if i < |buf| {
      assert buf[i].Word? && buf'[i] == buf[i];
      if BumpFollows(buf, i, buf[i].addr.obj) {
        var j :| i < j < |buf| && buf[j].Bump? && buf[j].obj == buf[i].addr.obj;
        assert buf'[j] == buf[j];
      } else if st != [] && st[0].Bump? {
        assert buf'[|buf|] == st[0];
      }
    }
  }

  lemma GoAhead(sh: Shared, buf: seq<Store>, st: seq<Store>)
    requires Ahead(sh, buf) && |st| <= 1
    requires st != [] && st[0].Bump? ==> Num(sh.ver, st[0].obj) < st[0].version && forall i | 0 <= i < |buf| ::
             !buf[i].Bump?
    ensures Ahead(sh, buf + st)
  {
  }

  lemma GoBuf(h: seq<Event>, s: State, n: nat, t: Tid, flat': R.State, st: seq<Store>, a: Addr)
    requires Sized(s, n) && t < n && GoEffect(s.flat, flat', t, st, a) && BufOk(h, s, t)
    requires s.flat.thr[t].memop < |Own(h, t)| && Cur(h, s.flat, t).addr == a
    requires NeedsEmpty(s.flat.thr[t].pc) ==> s.buf[t] == []
    requires st != [] && st[0].Bump? ==> Num(View(s.sh, t, s.buf[t]).ver, a.obj) < st[0].version
    ensures BufOk(h, Gone(s, flat', t, st), t)
  {
    var s', buf := Gone(s, flat', t, st), s.buf[t];
    var buf' := buf + st;
    assert s'.buf[t] == buf';
    hide View, Own, BumpFollows, Storing;
    if st != [] {
      assert st == [st[0]];
      ViewPush(s.sh, t, buf, st[0]);
      ViewNoBumpIf(s.sh, t, buf);
    } else {
      assert buf' == buf;
    }
    forall i | 0 <= i < |buf'| && buf'[i].Word?
      ensures BumpFollows(buf', i, buf'[i].addr.obj) || Storing(h, flat', t, buf'[i].addr.obj)
    {
      GoWord(h, s, n, t, flat', st, a, i);
    }
    GoAhead(s.sh, buf, st);
    hide Ahead;
  }

  lemma ViewNoBumpIf(sh: Shared, t: Tid, buf: seq<Store>)
    ensures (forall i | 0 <= i < |buf| :: !buf[i].Bump?) ==> View(sh, t, buf).ver == sh.ver
  {
    if forall i | 0 <= i < |buf| :: !buf[i].Bump? { ViewNoBump(sh, t, buf); }
  }

  lemma GoSeen(h: seq<Event>, s: State, n: nat, t: Tid, flat': R.State, st: seq<Store>, a: Addr)
    requires Sized(s, n) && t < n && GoEffect(s.flat, flat', t, st, a) && SeenOk(h, s, t)
    requires s.flat.thr[t].memop < |Own(h, t)| && Cur(h, s.flat, t).addr == a
    requires Passed(flat'.thr[t].pc) || st != [] ==>
             Cur(h, s.flat, t).version <= Num(View(s.sh, t, s.buf[t]).ver, a.obj)
    requires st != [] && st[0].Bump? ==> Num(View(s.sh, t, s.buf[t]).ver, a.obj) < st[0].version
    ensures SeenOk(h, Gone(s, flat', t, st), t)
  {
    hide View, Own;
    var s' := Gone(s, flat', t, st);
    if st == [] {
      assert s'.buf[t] == s.buf[t];
    } else {
      assert st == [st[0]] && s'.buf[t] == s.buf[t] + [st[0]];
      ViewPush(s.sh, t, s.buf[t], st[0]);
    }
    forall o: ObjId ensures Num(View(s.sh, t, s.buf[t]).ver, o) <= Num(View(s'.sh, t, s'.buf[t]).ver, o) {
    }
  }

  lemma TouchesPush(buf: seq<Store>, st: seq<Store>, o: ObjId)
    requires |st| <= 1
    ensures Touches(buf + st, o) <==> Touches(buf, o) || (st != [] && On(st[0], o))
  {
    var buf' := buf + st;
    if Touches(buf, o) {
      var i :| 0 <= i < |buf| && On(buf[i], o);
      assert On(buf'[i], o);
    }
    if st != [] && On(st[0], o) { assert On(buf'[|buf|], o); }
  }

  lemma AlonePush(s: State, flat': R.State, t: Tid, st: seq<Store>, u: Tid, o: ObjId)
    requires t < |s.buf| && u < |s.buf| && |st| <= 1
    ensures Alone(Gone(s, flat', t, st), u, o) <==> Alone(s, u, o) && (u == t || st == [] || !On(st[0], o))
  {
    TouchesPush(s.buf[t], st, o);
    hide Touches;
    var s' := Gone(s, flat', t, st);
    assert s'.buf[t] == s.buf[t] + st;
    if Alone(s', u, o) {
      forall x | 0 <= x < |s.buf| && x != u ensures !Touches(s.buf[x], o) { assert !Touches(s'.buf[x], o); }
      if u != t { assert !Touches(s'.buf[t], o); }
    }
  }

  lemma GoPair(h: seq<Event>, s: State, n: nat, t: Tid, flat': R.State, st: seq<Store>, a: Addr, o: ObjId)
    requires Sized(s, n) && t < n && GoEffect(s.flat, flat', t, st, a) && PairInv(h, s, t, o)
    requires Engaged(h, flat', t, o) || (st != [] && On(st[0], o)) ==> Alone(s, t, o)
    ensures PairInv(h, Gone(s, flat', t, st), t, o)
  {
    var s' := Gone(s, flat', t, st);
    TouchesPush(s.buf[t], st, o);
    AlonePush(s, flat', t, st, t, o);
    hide View, Touches, Alone, Own;
    if st == [] {
      assert s'.buf[t] == s.buf[t];
    } else {
      assert st == [st[0]] && s'.buf[t] == s.buf[t] + [st[0]];
      ViewPush(s.sh, t, s.buf[t], st[0]);
    }
  }

  lemma GoPairOther(h: seq<Event>, s: State, n: nat, t: Tid, flat': R.State, st: seq<Store>, a: Addr, u: Tid, o: ObjId)
    requires Sized(s, n) && t < n && u < n && u != t && GoEffect(s.flat, flat', t, st, a) && PairInv(h, s, u, o)
    requires st != [] && On(st[0], o) ==> !Touches(s.buf[u], o) && !Engaged(h, s.flat, u, o)
    ensures PairInv(h, Gone(s, flat', t, st), u, o)
  {
    AlonePush(s, flat', t, st, u, o);
    hide View, Touches, Alone, Own, Transition;
  }

  lemma GoOther(h: seq<Event>, s: State, n: nat, t: Tid, flat': R.State, st: seq<Store>, a: Addr, u: Tid)
    requires Sized(s, n) && t < n && u < n && u != t && GoEffect(s.flat, flat', t, st, a) && BufOk(h, s, u)
    requires SeenOk(h, s, u)
    ensures BufOk(h, Gone(s, flat', t, st), u) && SeenOk(h, Gone(s, flat', t, st), u)
  {
    hide View, Own, Transition, BumpFollows, Ahead;
    assert forall o :: Storing(h, s.flat, u, o) ==> Storing(h, flat', u, o);
  }

  // ---------------------------------------------------------------- simulation

  /** A thread that uses an object is at the object's version. */
  lemma EngagedVersion(w: Workload, logs: R.Logs, h: seq<Event>, flat: R.State, u: Tid, o: ObjId)
    requires LogsOk(w, h, logs) && ReplaySafety.Inv(w, logs, h, flat) && u < |flat.thr| && Engaged(h, flat, u, o)
    ensures Num(flat.ver, o) == Cur(h, flat, u).version && !flat.thr[u].pc.DoneWrite?
  {
    hide Own, Legal, CursorInv, MutexInv, MemInv, ReaderLogOk;
    assert ThreadInv(logs, h, flat, u) && VersionInv(h, flat, o);
    NotPast(h, flat, u);
    assert VersionLogOk(Own(h, u), logs.version[u]);
  }

  /** While a thread stores to an object nobody else uses it. */
  lemma NobodyEngaged(w: Workload, logs: R.Logs, h: seq<Event>, flat: R.State, t: Tid, u: Tid, o: ObjId)
    requires LogsOk(w, h, logs) && ReplaySafety.Inv(w, logs, h, flat) && u != t && t < |flat.thr| && u < |flat.thr|
    requires flat.thr[t].memop < |Own(h, t)| && Cleared(flat.thr[t].pc) && Cur(h, flat, t).addr.obj == o
    ensures !Engaged(h, flat, u, o)
  {
    hide ReplaySafety.Inv, LogsOk, Own;
    if Engaged(h, flat, u, o) {
      EngagedVersion(w, logs, h, flat, u, o);
      Excluded(w, logs, h, flat, u, t, o);
    }
  }

  /** The step a thread takes is one it could take on the flat memory. */
  lemma FlatStep(w: Workload, logs: R.Logs, h: seq<Event>, s: State, t: Tid)
    requires LogsOk(w, h, logs) && ReplaySafety.Inv(w, logs, h, s.flat) && BufInv(h, s, w.nthr) && t < w.nthr
    requires |logs.version| == w.nthr && R.Step(w, logs, SeenBy(s, t), t).Some?
    ensures R.Step(w, logs, s.flat, t)
         == Some(Merged(s.flat, t, R.Step(w, logs, SeenBy(s, t), t).value,
             Pushed(s.flat.thr[t], R.CurrentOp(w, s.flat, t))))
    ensures s.flat.thr[t].memop < |Own(h, t)| && SameOp(Cur(h, s.flat, t), R.CurrentOp(w, s.flat, t))
  {
    var seen, th := SeenBy(s, t), s.flat.thr[t];
    assert ThreadInv(logs, h, s.flat, t);
    CurrentAccess(w, logs, h, s.flat, t);
    assert R.CurrentOp(w, seen, t) == R.CurrentOp(w, s.flat, t);
    assert !R.CurrentOp(w, s.flat, t).Stop?;
    var o := Cur(h, s.flat, t).addr.obj;
    NeverAhead(h, s, w.nthr, t, o);
    forall u | 0 <= u < |s.flat.thr| ensures seen.thr[u].memop <= s.flat.thr[u].memop {
      assert BufOk(h, s, u);
    }
    if Using(th.pc) { UsesFlat(w, logs, h, s, t); }
    hide View, R.Step, Merged, Pushed, ReplaySafety.Inv, LogsOk, BufInv, Own, ThreadInv, Alone;
    SameStep(w, logs, s.flat, seen, t);
  }

  /** A spinning thread that goes on has seen its version. */
  lemma SpinSees(w: Workload, logs: R.Logs, h: seq<Event>, s: State, t: Tid)
    requires LogsOk(w, h, logs) && ReplaySafety.Inv(w, logs, h, s.flat) && Sized(s, w.nthr) && t < w.nthr
    requires |logs.version| == w.nthr && s.flat.thr[t].pc.SpinVersion? && R.Step(w, logs, SeenBy(s, t), t).Some?
    ensures s.flat.thr[t].memop < |Own(h, t)|
    ensures Cur(h, s.flat, t).version <= Num(View(s.sh, t, s.buf[t]).ver, Cur(h, s.flat, t).addr.obj)
  {
    hide View, Own, Legal, CursorInv, MutexInv, MemInv, VersionInv, ReaderLogOk;
    var th := s.flat.thr[t];
    assert ThreadInv(logs, h, s.flat, t);
    CurrentAccess(w, logs, h, s.flat, t);
    assert R.CurrentOp(w, SeenBy(s, t), t) == R.CurrentOp(w, s.flat, t);
    assert VersionLogOk(Own(h, t), logs.version[t]);
  }

  /** Whoever gets past its version wait, or is past it, sees at least the version of its access. */
  lemma NeedSeen(w: Workload, logs: R.Logs, h: seq<Event>, s: State, t: Tid, th': R.Thread, st: seq<Store>, a: Addr)
    requires LogsOk(w, h, logs) && ReplaySafety.Inv(w, logs, h, s.flat) && BufInv(h, s, w.nthr) && t < w.nthr
    requires |logs.version| == w.nthr && R.Step(w, logs, SeenBy(s, t), t).Some?
    requires s.flat.thr[t].memop < |Own(h, t)| && Transition(s.flat.thr[t], th', st, a) && (Using(th'.pc) || st != [])
    ensures Cur(h, s.flat, t).version <= Num(View(s.sh, t, s.buf[t]).ver, Cur(h, s.flat, t).addr.obj)
  {
    var th, o := s.flat.thr[t], Cur(h, s.flat, t).addr.obj;
    assert SeenOk(h, s, t);
    hide View, Own, ReplaySafety.Inv, LogsOk, BufInv, R.Step, SeenBy;
    if Using(th.pc) {
      UsesFlat(w, logs, h, s, t);
      EngagedVersion(w, logs, h, s.flat, t, o);
    } else if th.pc.SpinVersion? {
      SpinSees(w, logs, h, s, t);
    } else if th.pc.Start? {
      SeenBefore(w, logs, h, s, t);
    }
  }

  /** A bumped version is the one seen plus two. */
  lemma BumpAhead(w: Workload, logs: R.Logs, h: seq<Event>, s: State, t: Tid, th': R.Thread, st: seq<Store>, a: Addr)
    requires LogsOk(w, h, logs) && ReplaySafety.Inv(w, logs, h, s.flat) && BufInv(h, s, w.nthr) && t < w.nthr
    requires s.flat.thr[t].memop < |Own(h, t)| && Transition(s.flat.thr[t], th', st, a) && Cur(h, s.flat, t).addr == a
    requires st != [] && st[0].Bump?
    ensures Num(View(s.sh, t, s.buf[t]).ver, a.obj) < st[0].version
  {
    assert ThreadInv(logs, h, s.flat, t);
    UsesFlat(w, logs, h, s, t);
    hide View, Own, ReplaySafety.Inv, LogsOk, BufInv;
  }

  lemma GoKeeps(w: Workload, logs: R.Logs, h: seq<Event>, s: State, t: Tid)
    requires LogsOk(w, h, logs) && ReplaySafety.Inv(w, logs, h, s.flat) && BufInv(h, s, w.nthr)
    requires Step(w, logs, s, Go(t)).Some?
    ensures t < w.nthr == |s.flat.thr| == |logs.version|
    ensures var s' := Step(w, logs, s, Go(t)).value;
            && R.Step(w, logs, s.flat, t) == Some(s'.flat)
            && ReplaySafety.Inv(w, logs, h, s'.flat) && BufInv(h, s', w.nthr)
  {
    assert t < w.nthr == |s.flat.thr| == |logs.version|;
    var st, op := Pushed(s.flat.thr[t], R.CurrentOp(w, s.flat, t)), R.CurrentOp(w, s.flat, t);
    var s' := Step(w, logs, s, Go(t)).value;
    hide View, Own, SeenBy, Merged, Pushed, R.Step, LogsOk, ReplaySafety.Inv, BufInv, GoEffect;
    FlatStep(w, logs, h, s, t);
    ReplaySteps.StepKeepsInv(w, logs, h, s.flat, t);
    NotFailed(w, logs, h, s'.flat, t);
    StepEffect(w, logs, s.flat, t);
    assert s' == Gone(s, s'.flat, t, st);
    GoneKeeps(w, logs, h, s, t, s'.flat, st, op.addr);
  }

  lemma NotFailed(w: Workload, logs: R.Logs, h: seq<Event>, flat: R.State, t: Tid)
    requires ReplaySafety.Inv(w, logs, h, flat) && t < w.nthr
    ensures t < |flat.thr| && !flat.thr[t].pc.Failed?
  {
    assert ThreadInv(logs, h, flat, t);
  }

  lemma GoneKeeps(w: Workload, logs: R.Logs, h: seq<Event>, s: State, t: Tid, flat': R.State, st: seq<Store>, a: Addr)
    requires LogsOk(w, h, logs) && ReplaySafety.Inv(w, logs, h, s.flat) && BufInv(h, s, w.nthr) && t < w.nthr
    requires |logs.version| == w.nthr && R.Step(w, logs, SeenBy(s, t), t).Some?
    requires GoEffect(s.flat, flat', t, st, a) && s.flat.thr[t].memop < |Own(h, t)| && Cur(h, s.flat, t).addr == a
    requires NeedsEmpty(s.flat.thr[t].pc) ==> s.buf[t] == []
    ensures BufInv(h, Gone(s, flat', t, st), w.nthr)
  {
    hide View, Own, SeenBy, R.Step, LogsOk, ReplaySafety.Inv, BufOk, SeenOk, PairInv, Alone, Touches, Gone;
    var n, th, th', o := w.nthr, s.flat.thr[t], flat'.thr[t], a.obj;
    assert BufOk(h, s, t) && SeenOk(h, s, t);
    if Using(th'.pc) || st != [] {
      NeedSeen(w, logs, h, s, t, th', st, a);
      if !th.pc.DoneWrite? { SeesNeeded(w, logs, h, s, t, o); }
    }
    if st != [] && st[0].Bump? { BumpAhead(w, logs, h, s, t, th', st, a); }
    GoBuf(h, s, n, t, flat', st, a);
    GoSeen(h, s, n, t, flat', st, a);
    SizedGone(s, n, flat', t, st, a);
    forall u | 0 <= u < n ensures BufOk(h, Gone(s, flat', t, st), u) && SeenOk(h, Gone(s, flat', t, st), u) {
      if u != t { GoOther(h, s, n, t, flat', st, a, u); }
    }
    forall u, o': ObjId | 0 <= u < n ensures PairInv(h, Gone(s, flat', t, st), u, o') {
      GonePair(w, logs, h, s, t, flat', st, a, u, o');
    }
  }

  lemma SizedGone(s: State, n: nat, flat': R.State, t: Tid, st: seq<Store>, a: Addr)
    requires Sized(s, n) && t < n && GoEffect(s.flat, flat', t, st, a)
    ensures Sized(Gone(s, flat', t, st), n)
  {
  }

  lemma GonePair(w: Workload, logs: R.Logs, h: seq<Event>, s: State, t: Tid, flat': R.State, st: seq<Store>, a: Addr,
                 u: Tid, o: ObjId)
    requires LogsOk(w, h, logs) && ReplaySafety.Inv(w, logs, h, s.flat) && BufInv(h, s, w.nthr) && t < w.nthr
    requires u < w.nthr
    requires GoEffect(s.flat, flat', t, st, a) && s.flat.thr[t].memop < |Own(h, t)| && Cur(h, s.flat, t).addr == a
    requires (Using(flat'.thr[t].pc) || st != []) && !s.flat.thr[t].pc.DoneWrite? ==> Alone(s, t, a.obj)
    ensures PairInv(h, Gone(s, flat', t, st), u, o)
  {
    hide Own, LogsOk, ReplaySafety.Inv, BufOk, SeenOk, PairInv, Touches, Gone;
    assert PairInv(h, s, u, o) && PairInv(h, s, t, o);
    if u == t {
      EngagedHere(h, s, flat', t, st, a, o);
      GoPair(h, s, w.nthr, t, flat', st, a, o);
    } else {
      if st != [] && On(st[0], o) { NobodyEngaged(w, logs, h, s.flat, t, u, o); }
      GoPairOther(h, s, w.nthr, t, flat', st, a, u, o);
    }
  }

  lemma EngagedHere(h: seq<Event>, s: State, flat': R.State, t: Tid, st: seq<Store>, a: Addr, o: ObjId)
    requires GoEffect(s.flat, flat', t, st, a) && s.flat.thr[t].memop < |Own(h, t)| && Cur(h, s.flat, t).addr == a
    ensures Engaged(h, flat', t, o) || (st != [] && On(st[0], o)) ==>
            o == a.obj && !s.flat.thr[t].pc.DoneWrite? && (Using(flat'.thr[t].pc) || st != [])
  {
  }
}
