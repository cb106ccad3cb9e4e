/** Every step of the replayer keeps the replay invariant. */
module ReplaySteps {
  import opened Mem
  import opened History
  import opened Replay
  import opened ReplaySafety

  ghost predicate Steps(w: Workload, logs: Logs, h: seq<Event>, s: State, t: Tid) {
    LogsOk(w, h, logs) && Inv(w, logs, h, s) && t < |s.thr| && Step(w, logs, s, t).Some?
  }

  // ---------------------------------------------------------------- wait_object_version

  /** An access without a version-log entry finds its object at its recorded version already. */
  lemma VersionReached(w: Workload, logs: Logs, h: seq<Event>, s: State, t: Tid)
    requires Accessing(w, logs, h, s, t) && VersionLogOk(Own(h, t), logs.version[t])
    requires VersionInv(h, s, Cur(h, s, t).addr.obj)
    requires s.thr[t].pc.Start? && s.thr[t].memop != s.thr[t].wait.memop
    ensures Num(s.ver, Cur(h, s, t).addr.obj) == Cur(h, s, t).version
  {
    var own, k, e := Own(h, t), s.thr[t].memop, Cur(h, s, t);
    NotPast(h, s, t);
    if e.version != 0 && SameVersionBefore(own, k) {
      var j :| 0 <= j < k && own[j].addr.obj == e.addr.obj && own[j].version == e.version;
      assert WriteAt(h, t, j, e.addr.obj, e.version) || ReadAt(h, t, j, e.addr.obj, e.version);
    }
  }

  /** assert(obj_version[objid] == wait_version.version) holds wherever it is reached. */
  lemma VersionAssert(w: Workload, logs: Logs, h: seq<Event>, s: State, t: Tid)
    requires Accessing(w, logs, h, s, t) && VersionLogOk(Own(h, t), logs.version[t])
    requires VersionInv(h, s, Cur(h, s, t).addr.obj) && s.thr[t].pc.CheckVersion?
    ensures Num(s.ver, Cur(h, s, t).addr.obj) == s.thr[t].wait.version == Cur(h, s, t).version
  {
    NotPast(h, s, t);
  }

  /** An access without an entry leaves the cursor where it is; one with an entry moves it by one. */
  lemma WaitPassed(own: seq<Event>, log: seq<WaitVersion>, wait: WaitVersion, pos: nat, k: nat)
    requires VersionLogOk(own, log) && WaitOk(log, wait, pos, k)
    ensures wait.memop != k ==> WaitOk(log, wait, pos, k + 1)
    ensures wait.memop == k ==> WaitOk(log, NextWait(log, pos, wait).0, NextWait(log, pos, wait).1, k + 1)
  {
    hide SameVersionBefore;
    if wait.memop == k {
      assert 0 <= log[pos - 1].memop == k;
      assert pos < |log| - 1 ==> log[pos].memop != -1;
    }
  }

  lemma VersionThread(w: Workload, logs: Logs, h: seq<Event>, s: State, t: Tid)
    requires Accessing(w, logs, h, s, t) && VersionLogOk(Own(h, t), logs.version[t])
    requires AtVersion(s.thr[t].pc) && Step(w, logs, s, t).Some?
    requires !s.thr[t].pc.SpinVersion? && (s.thr[t].pc.Start? ==> s.thr[t].memop != s.thr[t].wait.memop) ==>
               Num(s.ver, Cur(h, s, t).addr.obj) == Cur(h, s, t).version
    requires s.thr[t].pc.CheckVersion? ==> s.thr[t].wait.version == Cur(h, s, t).version
    ensures var s' := Step(w, logs, s, t).value;
            ThreadInv(logs, h, s', t) && Quiet(s.thr[t], s'.thr[t]) && s' == s.(thr := s'.thr)
  {
    hide WaitOk, VersionLogOk;
    WaitPassed(Own(h, t), logs.version[t], s.thr[t].wait, s.thr[t].pos, s.thr[t].memop);
  }

  lemma VersionStepKeeps(w: Workload, logs: Logs, h: seq<Event>, s: State, t: Tid)
    requires Steps(w, logs, h, s, t) && AtVersion(s.thr[t].pc)
    ensures Inv(w, logs, h, Step(w, logs, s, t).value)
  {
    hide VersionInv, CursorInv, MutexInv, MemInv, VersionLogOk, ReaderSorted, ReaderNames, ReaderCovers;
    StepAccess(w, logs, h, s, t);
    if s.thr[t].pc.CheckVersion? {
      VersionAssert(w, logs, h, s, t);
    } else if s.thr[t].pc.Start? && s.thr[t].memop != s.thr[t].wait.memop {
      VersionReached(w, logs, h, s, t);
    }
    VersionThread(w, logs, h, s, t);
    hide ThreadInv, Step;
    QuietStep(w, logs, h, s, Step(w, logs, s, t).value, t);
  }

  // ---------------------------------------------------------------- mem_read

  /** A reader past its version wait sees the value recorded for that version. */
  lemma LoadsRecorded(w: Workload, logs: Logs, h: seq<Event>, s: State, t: Tid)
    requires Legal(w, h) && Inv(w, logs, h, s) && Accessing(w, logs, h, s, t) && s.thr[t].pc.Load?
    ensures Get(s.mem, Cur(h, s, t).addr) == Cur(h, s, t).val
  {
    var e := Cur(h, s, t);
    forall t': Tid ensures !StoredTo(h, s, t', e.addr) {
      if StoredTo(h, s, t', e.addr) { NoReader(logs, h, s, t', t, e.addr.obj); }
    }
    assert MemInv(w, h, s, e.addr);
    ValAtRead(w, h, t, s.thr[t].memop);
  }

  lemma ReadThread(w: Workload, logs: Logs, h: seq<Event>, s: State, t: Tid)
    requires Accessing(w, logs, h, s, t) && Step(w, logs, s, t).Some?
    requires s.thr[t].pc.Load? || s.thr[t].pc.SeenRead?
    requires s.thr[t].pc.Load? ==> Get(s.mem, Cur(h, s, t).addr) == Cur(h, s, t).val
    ensures var s' := Step(w, logs, s, t).value;
            ThreadInv(logs, h, s', t) && Quiet(s.thr[t], s'.thr[t]) && s' == s.(thr := s'.thr)
  {
    hide WaitOk;
  }

  lemma ReadStepKeeps(w: Workload, logs: Logs, h: seq<Event>, s: State, t: Tid)
    requires Steps(w, logs, h, s, t) && (s.thr[t].pc.Load? || s.thr[t].pc.SeenRead?)
    ensures Inv(w, logs, h, Step(w, logs, s, t).value)
  {
    hide VersionInv, CursorInv, MutexInv, MemInv, VersionLogOk, ReaderSorted, ReaderNames, ReaderCovers;
    StepAccess(w, logs, h, s, t);
    if s.thr[t].pc.Load? { LoadsRecorded(w, logs, h, s, t); }
    ReadThread(w, logs, h, s, t);
    hide ThreadInv, Step;
    QuietStep(w, logs, h, s, Step(w, logs, s, t).value, t);
  }

  // ---------------------------------------------------------------- completing an access

  lemma FinishThread(w: Workload, logs: Logs, h: seq<Event>, s: State, t: Tid)
    requires Accessing(w, logs, h, s, t) && Step(w, logs, s, t).Some?
    requires s.thr[t].pc.DoneRead? || s.thr[t].pc.DoneWrite?
    ensures Step(w, logs, s, t).value == Finish(s, t, Cur(h, s, t))
    ensures ThreadInv(logs, h, Finish(s, t, Cur(h, s, t)), t)
  {
    hide WaitOk;
    var k := s.thr[t].memop;
    assert Own(h, t)[..k] + [Cur(h, s, t)] == Own(h, t)[..k + 1];
  }

  lemma FinishObject(w: Workload, logs: Logs, h: seq<Event>, s: State, t: Tid, o: ObjId)
    requires Accessing(w, logs, h, s, t) && (s.thr[t].pc.DoneRead? || s.thr[t].pc.DoneWrite?)
    requires VersionInv(h, s, o) && CursorInv(logs, h, s, o) && MutexInv(h, s, o)
    ensures var s' := Finish(s, t, Cur(h, s, t));
            VersionInv(h, s', o) && CursorInv(logs, h, s', o) && MutexInv(h, s', o)
  {
    AwaitsKept(logs, h, s, Finish(s, t, Cur(h, s, t)), t, o);
  }

  lemma FinishStepKeeps(w: Workload, logs: Logs, h: seq<Event>, s: State, t: Tid)
    requires Steps(w, logs, h, s, t) && (s.thr[t].pc.DoneRead? || s.thr[t].pc.DoneWrite?)
    ensures Inv(w, logs, h, Step(w, logs, s, t).value)
  {
    hide VersionInv, CursorInv, MutexInv, MemInv, ThreadInv, VersionLogOk, ReaderSorted, ReaderNames, ReaderCovers;
    StepAccess(w, logs, h, s, t);
    FinishThread(w, logs, h, s, t);
    var s' := Finish(s, t, Cur(h, s, t));
    forall t' | 0 <= t' < |s.thr| && t' != t ensures ThreadInv(logs, h, s', t') {
      OthersKept(logs, h, s, s', t, t');
    }
    forall o ensures VersionInv(h, s', o) && CursorInv(logs, h, s', o) && MutexInv(h, s', o) {
      FinishObject(w, logs, h, s, t, o);
    }
    forall a ensures MemInv(w, h, s', a) {
      MemKept(w, h, s, s', t, a);
    }
  }

  // ---------------------------------------------------------------- wait_reader

  /** trylock never finds the mutex taken: only one thread at a time consumes an object's reader log. */
  lemma MutexFree(w: Workload, logs: Logs, h: seq<Event>, s: State, t: Tid)
    requires Legal(w, h) && Inv(w, logs, h, s) && Accessing(w, logs, h, s, t) && s.thr[t].pc.TryLock?
    ensures Cur(h, s, t).addr.obj !in s.mutex
  {
    var o := Cur(h, s, t).addr.obj;
    assert MutexInv(h, s, o);
    if o in s.mutex { SoleWriter(w, logs, h, s, t, s.mutex[o], o); }
  }

  /** Steps inside wait_reader change only the thread's position, the mutex and the cursor of its object. */
  ghost predicate ReaderEffect(s: State, s': State, t: Tid, o: ObjId) {
    && Moves(s, s', t) && s'.thr[t] == s.thr[t].(pc := s'.thr[t].pc)
    && s' == s.(thr := s'.thr, mutex := s'.mutex, cursor := s'.cursor)
    && s'.mutex - {o} == s.mutex - {o} && s'.cursor - {o} == s.cursor - {o}
    && !s'.thr[t].pc.DoneWrite? && !Stored(s.thr[t].pc) && !Stored(s'.thr[t].pc)
  }

  lemma EffectElsewhere(s: State, s': State, t: Tid, o: ObjId, o': ObjId)
    requires ReaderEffect(s, s', t, o) && o' != o
    ensures o' in s'.mutex <==> o' in s.mutex
    ensures o' in s.mutex ==> s'.mutex[o'] == s.mutex[o']
    ensures Num(s'.cursor, o') == Num(s.cursor, o')
  {
    assert o' in s.mutex - {o} <==> o' in s.mutex;
    assert o' in s'.mutex - {o} <==> o' in s'.mutex;
    assert o' in s.cursor - {o} <==> o' in s.cursor;
    assert o' in s'.cursor - {o} <==> o' in s'.cursor;
    if o' in s.mutex { assert (s.mutex - {o})[o'] == (s'.mutex - {o})[o']; }
    if o' in s.cursor { assert (s.cursor - {o})[o'] == (s'.cursor - {o})[o']; }
  }

  lemma ReaderOthers(w: Workload, logs: Logs, h: seq<Event>, s: State, s': State, t: Tid, o: ObjId, t': Tid)
    requires Legal(w, h) && |s.thr| == |logs.version|
    requires Writing(h, s, t, o) && ReaderEffect(s, s', t, o) && t' < |s.thr| && t' != t
    requires ThreadInv(logs, h, s, t) && ThreadInv(logs, h, s, t')
    ensures ThreadInv(logs, h, s', t')
  {
    if Writing(h, s, t', o) { SoleWriter(w, logs, h, s, t, t', o); }
    if s.thr[t'].memop < |Own(h, t')| && Cur(h, s, t').addr.obj != o {
      EffectElsewhere(s, s', t, o, Cur(h, s, t').addr.obj);
    }
    OthersKept(logs, h, s, s', t, t');
  }

  lemma ReaderElsewhere(logs: Logs, h: seq<Event>, s: State, s': State, t: Tid, o: ObjId, o': ObjId)
    requires Writing(h, s, t, o) && ReaderEffect(s, s', t, o) && o' != o
    requires VersionInv(h, s, o') && CursorInv(logs, h, s, o') && MutexInv(h, s, o')
    ensures VersionInv(h, s', o') && CursorInv(logs, h, s', o') && MutexInv(h, s', o')
  {
    EffectElsewhere(s, s', t, o, o');
    AwaitsKept(logs, h, s, s', t, o');
  }

  lemma ReaderKeeps(w: Workload, logs: Logs, h: seq<Event>, s: State, s': State, t: Tid, o: ObjId)
    requires Legal(w, h) && Inv(w, logs, h, s) && Writing(h, s, t, o) && ReaderEffect(s, s', t, o)
    requires ThreadInv(logs, h, s', t) && MutexInv(h, s', o) && CursorInv(logs, h, s', o)
    ensures Inv(w, logs, h, s')
  {
    hide CursorInv, MutexInv, MemInv, ThreadInv;
    forall t' | 0 <= t' < |s.thr| && t' != t ensures ThreadInv(logs, h, s', t') {
      ReaderOthers(w, logs, h, s, s', t, o, t');
    }
    assert VersionInv(h, s, o);
    assert VersionInv(h, s', o);
    hide VersionInv;
    forall o' | o' != o ensures VersionInv(h, s', o') && CursorInv(logs, h, s', o') && MutexInv(h, s', o') {
      ReaderElsewhere(logs, h, s, s', t, o, o');
    }
    forall a ensures MemInv(w, h, s', a) {
      MemKept(w, h, s, s', t, a);
    }
  }

  /** The reader log of the object itself, when nothing is consumed. */
  lemma CursorHere(logs: Logs, h: seq<Event>, s: State, s': State, t: Tid, o: ObjId)
    requires Writing(h, s, t, o) && ReaderEffect(s, s', t, o) && CursorInv(logs, h, s, o)
    requires Num(s'.cursor, o) == Num(s.cursor, o)
    requires s.thr[t].pc.UnlockSome? ==> s'.thr[t].pc == SpinReader(s.thr[t].pc.entry)
    requires s.thr[t].pc.SpinReader? ==> EntryDone(s, s.thr[t].pc.entry)
    ensures CursorInv(logs, h, s', o)
  {
    AwaitsKept(logs, h, s, s', t, o);
  }

  lemma MutexThread(w: Workload, logs: Logs, h: seq<Event>, s: State, t: Tid)
    requires Accessing(w, logs, h, s, t) && Step(w, logs, s, t).Some?
    requires s.thr[t].pc.TryLock? || s.thr[t].pc.UnlockNone? || s.thr[t].pc.UnlockSome?
    requires s.thr[t].pc.TryLock? ==> Cur(h, s, t).addr.obj !in s.mutex
    ensures var s', o := Step(w, logs, s, t).value, Cur(h, s, t).addr.obj;
            && ThreadInv(logs, h, s', t) && MutexInv(h, s', o)
            && ReaderEffect(s, s', t, o) && s'.cursor == s.cursor
            && (s.thr[t].pc.UnlockSome? ==> s'.thr[t].pc == SpinReader(s.thr[t].pc.entry))
  {
    hide WaitOk;
  }

  lemma MutexStepKeeps(w: Workload, logs: Logs, h: seq<Event>, s: State, t: Tid)
    requires Steps(w, logs, h, s, t)
    requires s.thr[t].pc.TryLock? || s.thr[t].pc.UnlockNone? || s.thr[t].pc.UnlockSome?
    ensures Inv(w, logs, h, Step(w, logs, s, t).value)
  {
    hide VersionInv, CursorInv, MutexInv, MemInv, VersionLogOk, ReaderSorted, ReaderNames, ReaderCovers, ReaderEffect;
    StepAccess(w, logs, h, s, t);
    if s.thr[t].pc.TryLock? { MutexFree(w, logs, h, s, t); }
    MutexThread(w, logs, h, s, t);
    var s', o := Step(w, logs, s, t).value, Cur(h, s, t).addr.obj;
    CursorHere(logs, h, s, s', t, o);
    ReaderKeeps(w, logs, h, s, s', t, o);
  }

  /** A reader-log entry names a recorded read. */
  lemma EntryThread(w: Workload, h: seq<Event>, o: ObjId, log: seq<ReaderEntry>, entry: ReaderEntry)
    requires Legal(w, h) && ReaderNames(h, o, log) && entry in log
    ensures entry.tid < w.nthr && ReadAt(h, entry.tid, entry.memop, o, entry.version)
    ensures 0 <= entry.version && entry.version % 2 == 0
  {
    OwnVersionEven(w, h, entry.tid, entry.memop);
  }

  lemma SpinThread(w: Workload, logs: Logs, h: seq<Event>, s: State, t: Tid)
    requires Accessing(w, logs, h, s, t) && Step(w, logs, s, t).Some? && s.thr[t].pc.SpinReader?
    requires s.thr[t].pc.entry.tid < |s.thr| && MutexInv(h, s, Cur(h, s, t).addr.obj)
    ensures var s', o := Step(w, logs, s, t).value, Cur(h, s, t).addr.obj;
            && ThreadInv(logs, h, s', t) && MutexInv(h, s', o) && EntryDone(s, s.thr[t].pc.entry)
            && ReaderEffect(s, s', t, o) && s'.cursor == s.cursor
  {
    hide WaitOk;
  }

  lemma SpinStepKeeps(w: Workload, logs: Logs, h: seq<Event>, s: State, t: Tid)
    requires Steps(w, logs, h, s, t) && s.thr[t].pc.SpinReader?
    ensures Inv(w, logs, h, Step(w, logs, s, t).value)
  {
    hide VersionInv, CursorInv, MutexInv, MemInv, VersionLogOk, ReaderSorted, ReaderNames, ReaderCovers, ReaderEffect;
    StepAccess(w, logs, h, s, t);
    var s', o := Step(w, logs, s, t).value, Cur(h, s, t).addr.obj;
    EntryThread(w, h, o, ReaderLog(logs, o), s.thr[t].pc.entry);
    SpinThread(w, logs, h, s, t);
    CursorHere(logs, h, s, s', t, o);
    ReaderKeeps(w, logs, h, s, s', t, o);
  }

  /** A consumed entry that is not awaited by anyone names a read that has been replayed. */
  lemma EntryClear(w: Workload, logs: Logs, h: seq<Event>, s: State, t: Tid, o: ObjId, i: nat)
    requires Legal(w, h) && |s.thr| == |logs.version| && CursorInv(logs, h, s, o) && i < Num(s.cursor, o)
    requires Writing(h, s, t, o) && s.thr[t].pc.Peek?
    requires forall t' | 0 <= t' < |s.thr| :: ThreadInv(logs, h, s, t')
    ensures EntryDone(s, ReaderLog(logs, o)[i])
  {
    hide Legal, Own, ThreadInv;
    var entry := ReaderLog(logs, o)[i];
    if !EntryDone(s, entry) {
      var t': Tid :| AwaitsEntry(h, s, t', o, entry);
      SoleWriter(w, logs, h, s, t, t', o);
    }
  }

  /** In a sorted reader log whose current entries are consumed, entries of the current version are consumed. */
  lemma BeforeCursor(logs: Logs, s: State, o: ObjId, i: nat)
    requires ReaderSorted(ReaderLog(logs, o)) && ConsumedAll(logs, s, o) && i < |ReaderLog(logs, o)|
    requires ReaderLog(logs, o)[i].version <= Num(s.ver, o)
    ensures i < Num(s.cursor, o)
  {
  }

  /** A reader that later overwrites the version itself is the writer, and has read before. */
  lemma OwnReadDone(w: Workload, h: seq<Event>, t: Tid, j: nat, t': Tid, k: nat, k': nat, o: ObjId)
    requires Legal(w, h) && j < |Own(h, t)| && Own(h, t)[j].write && Own(h, t)[j].addr.obj == o
    requires ReadAt(h, t', k, o, Own(h, t)[j].version) && WriteAt(h, t', k', o, Own(h, t)[j].version)
    ensures t' == t && k < j
  {
    hide Legal, Own;
    Overwriter(w, h, t, j, t', k');
    Overwriter(w, h, t, j, t', k);
  }

  lemma WriterVersion(logs: Logs, h: seq<Event>, s: State, t: Tid, o: ObjId)
    requires |s.thr| == |logs.version| && Writing(h, s, t, o) && ThreadInv(logs, h, s, t)
    ensures Num(s.ver, o) == Cur(h, s, t).version && Cur(h, s, t).write
  {
    hide Own, WaitOk;
  }

  lemma ReadClear(w: Workload, logs: Logs, h: seq<Event>, s: State, t: Tid, o: ObjId, t': Tid, k: nat)
    requires Legal(w, h) && |s.thr| == |logs.version| == w.nthr && Writing(h, s, t, o) && s.thr[t].pc.Peek?
    requires forall t' | 0 <= t' < |s.thr| :: ThreadInv(logs, h, s, t')
    requires ReaderLogOk(h, o, ReaderLog(logs, o)) && CursorInv(logs, h, s, o) && ConsumedAll(logs, s, o)
    requires ReadAt(h, t', k, o, Cur(h, s, t).version)
    ensures t' < |s.thr| && k < s.thr[t'].memop
  {
    hide Legal, Own, ThreadInv, CursorInv, ReaderSorted, ReaderNames, ConsumedAll;
    var v, log := Cur(h, s, t).version, ReaderLog(logs, o);
    WriterVersion(logs, h, s, t, o);
    OwnVersionEven(w, h, t', k);
    if Covered(log, t', k, v) {
      var i :| 0 <= i < |log| && log[i].tid == t' && log[i].version == v && k <= log[i].memop;
      BeforeCursor(logs, s, o, i);
      EntryClear(w, logs, h, s, t, o, i);
    } else {
      var k' :| WriteAt(h, t', k', o, v);
      OwnReadDone(w, h, t, s.thr[t].memop, t', k, k', o);
    }
  }

  /** When no entry of the current version is left, every read of that version has been replayed. */
  lemma ReadersClear(w: Workload, logs: Logs, h: seq<Event>, s: State, t: Tid, o: ObjId)
    requires Legal(w, h) && |s.thr| == |logs.version| == w.nthr && Writing(h, s, t, o) && s.thr[t].pc.Peek?
    requires forall t' | 0 <= t' < |s.thr| :: ThreadInv(logs, h, s, t')
    requires ReaderLogOk(h, o, ReaderLog(logs, o)) && CursorInv(logs, h, s, o) && ConsumedAll(logs, s, o)
    ensures ReadsDone(h, s, o, Cur(h, s, t).version)
  {
    hide ThreadInv, ReaderSorted, ReaderNames, ReaderCovers, CursorInv;
    forall t': Tid, k | ReadAt(h, t', k, o, Cur(h, s, t).version) ensures t' < |s.thr| && k < s.thr[t'].memop {
      ReadClear(w, logs, h, s, t, o, t', k);
    }
  }

  lemma PeekThread(w: Workload, logs: Logs, h: seq<Event>, s: State, t: Tid)
    requires Accessing(w, logs, h, s, t) && s.thr[t].pc.Peek?
    requires CursorInv(logs, h, s, Cur(h, s, t).addr.obj)
    requires ConsumedAll(logs, s, Cur(h, s, t).addr.obj) ==>
               ReadsDone(h, s, Cur(h, s, t).addr.obj, Cur(h, s, t).version)
    ensures var o := Cur(h, s, t).addr.obj;
            var s' := PeekStep(logs, s, t, o);
            ThreadInv(logs, h, s', t) && MutexInv(h, s', o) && ReaderEffect(s, s', t, o)
  {
    hide WaitOk;
  }

  lemma PeekCursor(logs: Logs, h: seq<Event>, s: State, t: Tid, o: ObjId)
    requires Writing(h, s, t, o) && s.thr[t].pc.Peek? && CursorInv(logs, h, s, o)
    requires ReaderSorted(ReaderLog(logs, o))
    ensures CursorInv(logs, h, PeekStep(logs, s, t, o), o)
  {
    var s', n, log := PeekStep(logs, s, t, o), Num(s.cursor, o), ReaderLog(logs, o);
    assert forall e :: !AwaitsEntry(h, s, t, o, e);
    AwaitsKept(logs, h, s, s', t, o);
    if n < Num(s'.cursor, o) { assert AwaitsEntry(h, s', t, o, log[n]); }
  }

  lemma PeekStepKeeps(w: Workload, logs: Logs, h: seq<Event>, s: State, t: Tid)
    requires Steps(w, logs, h, s, t) && s.thr[t].pc.Peek?
    ensures Inv(w, logs, h, Step(w, logs, s, t).value)
  {
    hide VersionInv, CursorInv, MutexInv, MemInv, VersionLogOk, ReaderSorted, ReaderNames, ReaderCovers, ReaderEffect,
         ReadsDone;
    StepAccess(w, logs, h, s, t);
    var o := Cur(h, s, t).addr.obj;
    if ConsumedAll(logs, s, o) { ReadersClear(w, logs, h, s, t, o); }
    PeekThread(w, logs, h, s, t);
    PeekCursor(logs, h, s, t, o);
    ReaderKeeps(w, logs, h, s, PeekStep(logs, s, t, o), t, o);
  }

  // ---------------------------------------------------------------- storing the value

  lemma WriteThread(w: Workload, logs: Logs, h: seq<Event>, s: State, t: Tid)
    requires Accessing(w, logs, h, s, t) && Step(w, logs, s, t).Some?
    requires s.thr[t].pc.SeenWrite? || s.thr[t].pc.LoadVersion?
    ensures var s' := Step(w, logs, s, t).value;
            ThreadInv(logs, h, s', t) && Quiet(s.thr[t], s'.thr[t]) && s' == s.(thr := s'.thr)
  {
    hide WaitOk;
  }

  lemma WriteStepKeeps(w: Workload, logs: Logs, h: seq<Event>, s: State, t: Tid)
    requires Steps(w, logs, h, s, t) && (s.thr[t].pc.SeenWrite? || s.thr[t].pc.LoadVersion?)
    ensures Inv(w, logs, h, Step(w, logs, s, t).value)
  {
    hide VersionInv, CursorInv, MutexInv, MemInv, VersionLogOk, ReaderSorted, ReaderNames, ReaderCovers;
    StepAccess(w, logs, h, s, t);
    WriteThread(w, logs, h, s, t);
    hide ThreadInv, Step;
    QuietStep(w, logs, h, s, Step(w, logs, s, t).value, t);
  }

  function StoreState(h: seq<Event>, s: State, t: Tid): State
    requires t < |s.thr| && s.thr[t].memop < |Own(h, t)|
  {
    var e := Cur(h, s, t);
    Goto(s, t, LoadVersion(e.version)).(mem := s.mem[e.addr := e.val])
  }

  lemma StoreThread(w: Workload, logs: Logs, h: seq<Event>, s: State, t: Tid)
    requires Accessing(w, logs, h, s, t) && Step(w, logs, s, t).Some? && s.thr[t].pc.Store?
    ensures Step(w, logs, s, t).value == StoreState(h, s, t)
    ensures ThreadInv(logs, h, StoreState(h, s, t), t)
  {
    hide WaitOk;
  }

  lemma StoreOthers(w: Workload, logs: Logs, h: seq<Event>, s: State, t: Tid, t': Tid)
    requires Legal(w, h) && Accessing(w, logs, h, s, t) && s.thr[t].pc.Store?
    requires t' < |s.thr| && t' != t && ThreadInv(logs, h, s, t')
    ensures ThreadInv(logs, h, StoreState(h, s, t), t')
  {
    var o := Cur(h, s, t).addr.obj;
    if Writing(h, s, t', o) { SoleWriter(w, logs, h, s, t, t', o); }
    OthersKept(logs, h, s, StoreState(h, s, t), t, t');
  }

  lemma StoreObject(w: Workload, logs: Logs, h: seq<Event>, s: State, t: Tid, o: ObjId)
    requires Accessing(w, logs, h, s, t) && s.thr[t].pc.Store?
    requires VersionInv(h, s, o) && CursorInv(logs, h, s, o) && MutexInv(h, s, o)
    ensures var s' := StoreState(h, s, t);
            VersionInv(h, s', o) && CursorInv(logs, h, s', o) && MutexInv(h, s', o)
  {
    AwaitsKept(logs, h, s, StoreState(h, s, t), t, o);
  }

  lemma StoreMem(w: Workload, logs: Logs, h: seq<Event>, s: State, t: Tid, a: Addr)
    requires Accessing(w, logs, h, s, t) && s.thr[t].pc.Store? && MemInv(w, h, s, a)
    ensures MemInv(w, h, StoreState(h, s, t), a)
  {
    var s', e := StoreState(h, s, t), Cur(h, s, t);
    if a == e.addr {
      assert StoredTo(h, s', t, a);
    } else {
      MemKept(w, h, s, s', t, a);
    }
  }

  lemma StoreStepKeeps(w: Workload, logs: Logs, h: seq<Event>, s: State, t: Tid)
    requires Steps(w, logs, h, s, t) && s.thr[t].pc.Store?
    ensures Inv(w, logs, h, Step(w, logs, s, t).value)
  {
    hide VersionInv, CursorInv, MutexInv, MemInv, ThreadInv, VersionLogOk, ReaderSorted, ReaderNames, ReaderCovers;
    StepAccess(w, logs, h, s, t);
    StoreThread(w, logs, h, s, t);
    var s' := StoreState(h, s, t);
    forall t' | 0 <= t' < |s.thr| && t' != t ensures ThreadInv(logs, h, s', t') {
      StoreOthers(w, logs, h, s, t, t');
    }
    forall o ensures VersionInv(h, s', o) && CursorInv(logs, h, s', o) && MutexInv(h, s', o) {
      StoreObject(w, logs, h, s, t, o);
    }
    forall a ensures MemInv(w, h, s', a) {
      StoreMem(w, logs, h, s, t, a);
    }
  }

  // ---------------------------------------------------------------- bumping the version

  /** The state after `obj_version[objid] += 2` by the writer of the object's current version. */
  function BumpState(h: seq<Event>, s: State, t: Tid): State
    requires t < |s.thr| && s.thr[t].memop < |Own(h, t)|
  {
    var e := Cur(h, s, t);
    Goto(s, t, DoneWrite(e.version)).(ver := s.ver[e.addr.obj := e.version + 2])
  }

  lemma BumpThread(w: Workload, logs: Logs, h: seq<Event>, s: State, t: Tid)
    requires Accessing(w, logs, h, s, t) && Step(w, logs, s, t).Some? && s.thr[t].pc.StoreVersion?
    ensures Step(w, logs, s, t).value == BumpState(h, s, t)
    ensures ThreadInv(logs, h, BumpState(h, s, t), t)
  {
    hide WaitOk;
  }

  lemma BumpOthers(w: Workload, logs: Logs, h: seq<Event>, s: State, t: Tid, t': Tid)
    requires Legal(w, h) && Accessing(w, logs, h, s, t) && s.thr[t].pc.StoreVersion?
    requires t' < |s.thr| && t' != t && ThreadInv(logs, h, s, t')
    ensures ThreadInv(logs, h, BumpState(h, s, t), t')
  {
    var o := Cur(h, s, t).addr.obj;
    if Writing(h, s, t', o) { SoleWriter(w, logs, h, s, t, t', o); }
    if Reading(s.thr[t'].pc) { NoReader(logs, h, s, t, t', o); }
    OthersKept(logs, h, s, BumpState(h, s, t), t, t');
  }

  lemma BumpVersion(w: Workload, logs: Logs, h: seq<Event>, s: State, t: Tid, o: ObjId)
    requires Legal(w, h) && Accessing(w, logs, h, s, t) && s.thr[t].pc.StoreVersion? && VersionInv(h, s, o)
    ensures VersionInv(h, BumpState(h, s, t), o)
  {
    hide Legal, Own;
    var e, s', k := Cur(h, s, t), BumpState(h, s, t), s.thr[t].memop;
    if o == e.addr.obj {
      OwnVersionEven(w, h, t, k);
      forall t': Tid, k', x | WriteAt(h, t', k', o, x) ensures Bumped(h, s', t', k') <==> x < e.version + 2 {
        OwnVersionEven(w, h, t', k');
        if x == e.version { Overwriter(w, h, t, k, t', k'); }
      }
      forall t': Tid, k', x | ReadAt(h, t', k', o, x) && x < e.version + 2
        ensures t' < |s'.thr| && k' < s'.thr[t'].memop
      {
        OwnVersionEven(w, h, t', k');
      }
    }
  }

  /** What is left of the reader log belongs to later versions. */
  lemma LeftAfterBump(w: Workload, h: seq<Event>, log: seq<ReaderEntry>, o: ObjId, n: nat, v: Version)
    requires Legal(w, h) && ReaderSorted(log) && ReaderNames(h, o, log) && v % 2 == 0
    requires n >= |log| || log[n].version > v
    ensures forall i | n <= i < |log| :: v + 2 <= log[i].version
  {
    forall i | n <= i < |log| ensures v + 2 <= log[i].version {
      EntryThread(w, h, o, log, log[i]);
      assert log[n].version <= log[i].version;
    }
  }

  lemma BumpCursor(w: Workload, logs: Logs, h: seq<Event>, s: State, t: Tid, o: ObjId)
    requires Legal(w, h) && Accessing(w, logs, h, s, t) && s.thr[t].pc.StoreVersion?
    requires CursorInv(logs, h, s, o) && MutexInv(h, s, o) && ReaderSorted(ReaderLog(logs, o))
    requires ReaderNames(h, o, ReaderLog(logs, o))
    ensures CursorInv(logs, h, BumpState(h, s, t), o) && MutexInv(h, BumpState(h, s, t), o)
  {
    AwaitsKept(logs, h, s, BumpState(h, s, t), t, o);
    if o == Cur(h, s, t).addr.obj {
      OwnVersionEven(w, h, t, s.thr[t].memop);
      LeftAfterBump(w, h, ReaderLog(logs, o), o, Num(s.cursor, o), Cur(h, s, t).version);
    }
  }

  lemma BumpMem(w: Workload, logs: Logs, h: seq<Event>, s: State, t: Tid, a: Addr)
    requires Legal(w, h) && Accessing(w, logs, h, s, t) && s.thr[t].pc.StoreVersion? && MemInv(w, h, s, a)
    ensures MemInv(w, h, BumpState(h, s, t), a)
  {
    var e, s' := Cur(h, s, t), BumpState(h, s, t);
    if a != e.addr {
      assert forall t': Tid :: StoredTo(h, s, t', a) ==> StoredTo(h, s', t', a);
    }
    if a.obj == e.addr.obj { ValAtWrite(w, h, t, s.thr[t].memop, a); }
  }

  lemma BumpStepKeeps(w: Workload, logs: Logs, h: seq<Event>, s: State, t: Tid)
    requires Steps(w, logs, h, s, t) && s.thr[t].pc.StoreVersion?
    ensures Inv(w, logs, h, Step(w, logs, s, t).value)
  {
    hide VersionInv, CursorInv, MutexInv, MemInv, ThreadInv, VersionLogOk, ReaderSorted, ReaderNames, ReaderCovers;
    StepAccess(w, logs, h, s, t);
    BumpThread(w, logs, h, s, t);
    var s' := BumpState(h, s, t);
    forall t' | 0 <= t' < |s.thr| && t' != t ensures ThreadInv(logs, h, s', t') {
      BumpOthers(w, logs, h, s, t, t');
    }
    forall o ensures VersionInv(h, s', o) && CursorInv(logs, h, s', o) && MutexInv(h, s', o) {
      BumpVersion(w, logs, h, s, t, o);
      BumpCursor(w, logs, h, s, t, o);
    }
    forall a ensures MemInv(w, h, s', a) {
      BumpMem(w, logs, h, s, t, a);
    }
  }

  // ---------------------------------------------------------------- any step

  lemma StepKeepsInv(w: Workload, logs: Logs, h: seq<Event>, s: State, t: Tid)
    requires Steps(w, logs, h, s, t)
    ensures Inv(w, logs, h, Step(w, logs, s, t).value)
  {
    hide VersionInv, CursorInv, MutexInv, MemInv, ThreadInv, VersionLogOk, ReaderSorted, ReaderNames, ReaderCovers;
    match s.thr[t].pc
    case Start => VersionStepKeeps(w, logs, h, s, t);
    case SpinVersion => VersionStepKeeps(w, logs, h, s, t);
    case CheckVersion => VersionStepKeeps(w, logs, h, s, t);
    case Load => ReadStepKeeps(w, logs, h, s, t);
    case SeenRead(_) => ReadStepKeeps(w, logs, h, s, t);
    case DoneRead(_, _) => FinishStepKeeps(w, logs, h, s, t);
    case TryLock => MutexStepKeeps(w, logs, h, s, t);
    case Peek => PeekStepKeeps(w, logs, h, s, t);
    case UnlockNone => MutexStepKeeps(w, logs, h, s, t);
    case UnlockSome(_) => MutexStepKeeps(w, logs, h, s, t);
    case SpinReader(_) => SpinStepKeeps(w, logs, h, s, t);
    case SeenWrite => WriteStepKeeps(w, logs, h, s, t);
    case Store(_) => StoreStepKeeps(w, logs, h, s, t);
    case LoadVersion(_) => WriteStepKeeps(w, logs, h, s, t);
    case StoreVersion(_, _) => BumpStepKeeps(w, logs, h, s, t);
    case DoneWrite(_) => FinishStepKeeps(w, logs, h, s, t);
    case Failed =>
  }
}
