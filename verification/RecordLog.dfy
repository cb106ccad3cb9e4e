/** The log-taking of mem-record.c, mem-record-seqlock.c and mem-record-seqbatch.c on one thread, as
    functions of the thread's accesses, and what the two logs of a thread contain. */
module RecordLog {
  import opened Mem

  /** struct last_objinfo: the version last seen and the memop of the last read, -1 if there is none. */
  datatype LastObj = LastObj(version: Version, memop: Memop)

  /** struct wait_memop */
  datatype MemopEntry = MemopEntry(objid: int, version: Version, memop: Memop)

  /** A thread's recording state: memop, g_last and the two logs written so far. */
  datatype LogState = LogState(memop: nat, last: seq<LastObj>, versions: seq<WaitVersion>, memops: seq<MemopEntry>)

  /** mem_init_thr */
  function NewLog(nobj: nat): LogState {
    LogState(0, seq(nobj, i => LastObj(0, -1)), [], [])
  }

  /** log_order */
  function LogOrder(st: LogState, o: ObjId, v: Version): LogState
    requires o < |st.last|
  {
    st.(versions := st.versions + [WaitVersion(st.memop, v)],
        memops := st.memops + if st.last[o].memop >= 0 then [MemopEntry(o, st.last[o].version,
            st.last[o].memop)] else [])
  }

  /** The log-taking at the end of the seqlock mem_read. */
  function LogRead(st: LogState, o: ObjId, v: Version): LogState
    requires o < |st.last|
  {
    var st1 := if st.last[o].version != v then LogOrder(st, o, v) else st;
    st1.(last := st.last[o := LastObj(v, st.memop)], memop := st.memop + 1)
  }

  /** The log-taking at the end of the seqlock mem_write; it leaves last->version alone. */
  function LogWrite(st: LogState, o: ObjId, v: Version): LogState
    requires o < |st.last|
  {
    var st1 := if st.last[o].version != v then LogOrder(st, o, v) else st;
    st1.(last := st.last[o := st.last[o].(memop := -1)], memop := st.memop + 1)
  }

  /** process_1log of the batching recorders; it updates last->version on writes as well. */
  function LogBatched(st: LogState, write: bool, o: ObjId, v: Version): LogState
    requires o < |st.last|
  {
    var st1 := if st.last[o].version != v then LogOrder(st, o, v) else st;
    st1.(last := st.last[o := LastObj(v, if write then -1 else st.memop)], memop := st.memop + 1)
  }

  function LogEvent(st: LogState, e: Event): LogState
    requires e.addr.obj < |st.last|
  {
    if e.write then LogWrite(st, e.addr.obj, e.version) else LogRead(st, e.addr.obj, e.version)
  }

  predicate InRange(nobj: nat, es: seq<Event>) {
    forall i | 0 <= i < |es| :: es[i].addr.obj < nobj
  }

  /** The state after a thread's accesses, logged one by one. */
  function LogAll(nobj: nat, es: seq<Event>): (st: LogState)
    requires InRange(nobj, es)
    ensures |st.last| == nobj
  {
    if es == [] then NewLog(nobj) else LogEvent(LogAll(nobj, Front(es)), Last(es))
  }

  /** The same through the batching recorders. */
  function BatchAll(nobj: nat, es: seq<Event>): (st: LogState)
    requires InRange(nobj, es)
    ensures |st.last| == nobj
  {
    if es == [] then NewLog(nobj)
    else LogBatched(BatchAll(nobj, Front(es)), Last(es).write, Last(es).addr.obj, Last(es).version)
  }

  /** The final reads that mem_finish_thr logs, for objects from i on. */
  function Pending(last: seq<LastObj>, i: nat): seq<MemopEntry>
    requires i <= |last|
    decreases |last| - i
  {
    if i == |last| then []
    else (if last[i].memop >= 0 then [MemopEntry(i, last[i].version, last[i].memop)] else []) + Pending(last, i + 1)
  }

  /** mem_finish_thr: the finished version log and memop log, with their end marks. */
  function FinishVersions(st: LogState): seq<WaitVersion> {
    st.versions + [WaitVersion(-1, -1)]
  }

  function FinishMemops(st: LogState): seq<MemopEntry> {
    st.memops + Pending(st.last, 0) + [MemopEntry(-1, -1, -1)]
  }

  /** Both logs end with their end mark, and no earlier entry looks like one. */
  predicate Terminated(versions: seq<WaitVersion>, memops: seq<MemopEntry>) {
    && versions != [] && Last(versions) == WaitVersion(-1, -1)
    && (forall i | 0 <= i < |versions| - 1 :: versions[i].memop != -1)
    && memops != [] && Last(memops) == MemopEntry(-1, -1, -1)
    && (forall i | 0 <= i < |memops| - 1 :: memops[i].objid != -1 && memops[i].memop != -1)
  }

  predicate NoMarks(st: LogState) {
    && (forall i | 0 <= i < |st.versions| :: 0 <= st.versions[i].memop)
    && (forall i | 0 <= i < |st.memops| :: 0 <= st.memops[i].objid && 0 <= st.memops[i].memop)
  }

  lemma {:induction false} LoggedEntries(nobj: nat, es: seq<Event>)
    requires InRange(nobj, es)
    ensures NoMarks(LogAll(nobj, es))
  {
    if es != [] {
      LoggedEntries(nobj, Front(es));
      var st := LogAll(nobj, Front(es));
      assert NoMarks(LogOrder(st, Last(es).addr.obj, Last(es).version));
    }
  }

  lemma {:induction false} PendingEntries(last: seq<LastObj>, i: nat)
    requires i <= |last|
    ensures forall k | 0 <= k < |Pending(last, i)| :: 0 <= Pending(last, i)[k].objid && 0 <= Pending(last, i)[k].memop
    decreases |last| - i
  {
    if i < |last| { PendingEntries(last, i + 1); }
  }

  /** The end marks of a finished thread are (-1, -1) and (-1, -1, -1), whatever its accesses were. */
  lemma FinishedMarks(nobj: nat, es: seq<Event>)
    requires InRange(nobj, es)
    ensures Terminated(FinishVersions(LogAll(nobj, es)), FinishMemops(LogAll(nobj, es)))
  {
    LoggedEntries(nobj, es);
    PendingEntries(LogAll(nobj, es).last, 0);
    hide LogAll, Pending;
  }

  // ---------------------------------------------------------------- what the logs say about the accesses

  /** The last access to an object, -1 if there is none. */
  function LastIdx(es: seq<Event>, o: ObjId): (j: int)
    ensures -1 <= j < |es|
    ensures 0 <= j ==> es[j].addr.obj == o
    ensures forall i | j < i < |es| :: es[i].addr.obj != o
  {
    if es == [] then -1 else if Last(es).addr.obj == o then |es| - 1 else LastIdx(Front(es), o)
  }

  /** The versions one thread can observe: per object they never decrease, and grow after its own writes. */
  ghost predicate Monotone(es: seq<Event>) {
    && (forall i | 0 <= i < |es| :: 0 <= es[i].version)
    && (forall i, j | 0 <= i < j < |es| && es[i].addr.obj == es[j].addr.obj ::
          es[i].version <= es[j].version && (es[i].write ==> es[i].version < es[j].version))
  }

  /** The k-th access must wait for its version unless it repeats what the thread's previous access to
      the object read. */
  predicate Waits(es: seq<Event>, k: nat)
    requires k < |es|
  {
    var j := LastIdx(es[..k], es[k].addr.obj);
    if j < 0 then es[k].version != 0 else es[j].write || es[j].version != es[k].version
  }

  /** The k-th access ends the thread's reads of an older version of the object. */
  predicate EndsReads(es: seq<Event>, k: nat)
    requires k < |es|
  {
    var j := LastIdx(es[..k], es[k].addr.obj);
    0 <= j && !es[j].write && es[j].version != es[k].version
  }

  function VersionSpec(es: seq<Event>): seq<WaitVersion> {
    if es == [] then []
    else VersionSpec(Front(es)) + if Waits(es, |es| - 1) then [WaitVersion(|es| - 1, Last(es).version)] else []
  }

  function ReadEntry(es: seq<Event>, j: int): MemopEntry
    requires 0 <= j < |es|
  {
    MemopEntry(es[j].addr.obj, es[j].version, j)
  }

  function MemopSpec(es: seq<Event>): seq<MemopEntry> {
    if es == [] then []
    else MemopSpec(Front(es)) +
         if EndsReads(es, |es| - 1) then [ReadEntry(es, LastIdx(Front(es), Last(es).addr.obj))] else []
  }

  /** What g_last remembers of the accesses so far; `tight` when writes update the version as well. */
  ghost predicate LastOk(es: seq<Event>, last: seq<LastObj>, tight: bool) {
    forall o | 0 <= o < |last| ::
      var j := LastIdx(es, o);
      if j < 0 then last[o] == LastObj(0, -1)
      else if !es[j].write then last[o] == LastObj(es[j].version, j)
      else last[o].memop == -1 && last[o].version <= es[j].version && (tight ==> last[o].version == es[j].version)
  }

  lemma MonotoneFront(es: seq<Event>)
    requires Monotone(es) && es != []
    ensures Monotone(Front(es))
  {
  }

  /** One access is logged as the specification says, whichever of the two ways writes are remembered. */
  lemma LogsAsSpecified(es: seq<Event>, last: seq<LastObj>, tight: bool)
    requires es != [] && Monotone(es) && Last(es).addr.obj < |last| && LastOk(Front(es), last, tight)
    ensures var e, l := Last(es), last[Last(es).addr.obj];
            && (l.version != e.version <==> Waits(es, |es| - 1))
            && (l.version != e.version && l.memop >= 0 <==> EndsReads(es, |es| - 1))
            && (EndsReads(es, |es| - 1) ==>
                  MemopEntry(e.addr.obj, l.version, l.memop) == ReadEntry(es, LastIdx(Front(es), e.addr.obj)))
  {
    var o := Last(es).addr.obj;
    assert es[..|es| - 1] == Front(es);
    var j := LastIdx(Front(es), o);
    if 0 <= j { assert Front(es)[j] == es[j]; }
  }

  lemma LastExtended(es: seq<Event>, last: seq<LastObj>, tight: bool, l: LastObj)
    requires es != [] && Last(es).addr.obj < |last| && LastOk(Front(es), last, tight)
    requires if Last(es).write then l.memop == -1 && l.version <= Last(es).version
             && (tight ==> l.version == Last(es).version)
             else l == LastObj(Last(es).version, |es| - 1)
    ensures LastOk(es, last[Last(es).addr.obj := l], tight)
  {
    var last' := last[Last(es).addr.obj := l];
    forall o | 0 <= o < |last'| && o != Last(es).addr.obj ensures LastIdx(es, o) == LastIdx(Front(es), o) {
    }
  }

  /** The seqlock recorder writes exactly the specified logs. */
  lemma {:induction false} DirectLogs(nobj: nat, es: seq<Event>)
    requires Monotone(es) && InRange(nobj, es)
    ensures var st := LogAll(nobj, es);
            && st.memop == |es| && st.versions == VersionSpec(es) && st.memops == MemopSpec(es)
            && LastOk(es, st.last, false)
  {
    if es != [] {
      MonotoneFront(es);
      DirectLogs(nobj, Front(es));
      var st := LogAll(nobj, Front(es));
      LogsAsSpecified(es, st.last, false);
      var o := Last(es).addr.obj;
      var j := LastIdx(Front(es), o);
      assert 0 <= j ==> Front(es)[j] == es[j];
      LastExtended(es, st.last, false, LogAll(nobj, es).last[o]);
      hide LastOk, Waits, EndsReads, Monotone;
    }
  }

  /** The batching recorders write exactly the specified logs. */
  lemma {:induction false} BatchedLogs(nobj: nat, es: seq<Event>)
    requires Monotone(es) && InRange(nobj, es)
    ensures var st := BatchAll(nobj, es);
            && st.memop == |es| && st.versions == VersionSpec(es) && st.memops == MemopSpec(es)
            && LastOk(es, st.last, true)
  {
    if es != [] {
      MonotoneFront(es);
      BatchedLogs(nobj, Front(es));
      var st := BatchAll(nobj, Front(es));
      LogsAsSpecified(es, st.last, true);
      LastExtended(es, st.last, true, BatchAll(nobj, es).last[Last(es).addr.obj]);
      hide LastOk, Waits, EndsReads, Monotone;
    }
  }

  lemma {:induction false} PendingSame(l1: seq<LastObj>, l2: seq<LastObj>, i: nat)
    requires |l1| == |l2| && i <= |l1|
    requires forall o | 0 <= o < |l1| :: l1[o].memop == l2[o].memop && (l1[o].memop >= 0 ==> l1[o] == l2[o])
    ensures Pending(l1, i) == Pending(l2, i)
    decreases |l1| - i
  {
    if i < |l1| {
      PendingNext(l1, i);
      PendingNext(l2, i);
      hide Pending;
      PendingSame(l1, l2, i + 1);
    }
  }

  lemma PendingNext(last: seq<LastObj>, i: nat)
    requires i < |last|
    ensures Pending(last, i)
         == (if last[i].memop >= 0 then [MemopEntry(i, last[i].version, last[i].memop)] else []) + Pending(last, i + 1)
  {
  }

  /** Batching refines direct logging: the finished logs are the same, byte for byte. */
  lemma BatchRefinesDirect(nobj: nat, es: seq<Event>)
    requires Monotone(es) && InRange(nobj, es)
    ensures FinishVersions(BatchAll(nobj, es)) == FinishVersions(LogAll(nobj, es))
    ensures FinishMemops(BatchAll(nobj, es)) == FinishMemops(LogAll(nobj, es))
  {
    DirectLogs(nobj, es);
    BatchedLogs(nobj, es);
    PendingSame(BatchAll(nobj, es).last, LogAll(nobj, es).last, 0);
  }
}
