/** The recorders' thread-local log-taking as it is written: objects that update g_last, memop, the
    logs and the batch queue in place. */
module Recorder {
  import opened Mem
  import opened RecordLog

  /** g_last, memop and the logs of one thread (mem-record.c). */
  class ThreadLog {
    var memop: nat
    const last: array<LastObj>
    var versions: seq<WaitVersion>
    var memops: seq<MemopEntry>

    ghost function View(): LogState
      reads this, last
    {
      LogState(memop, last[..], versions, memops)
    }

    /** mem_init_thr */
    constructor (nobj: nat)
      ensures View() == NewLog(nobj) && fresh(last)
    {
      last := new LastObj[nobj](i => LastObj(0, -1));
      memop, versions, memops := 0, [], [];
      new;
      assert last[..] == NewLog(nobj).last;
    }

    /** log_order, with log_wait_version and log_other_wait_memop. */
    method Order(o: ObjId, v: Version)
      requires o < last.Length
      modifies this
      ensures View() == LogOrder(old(View()), o, v)
    {
      versions := versions + [WaitVersion(memop, v)];
      if last[o].memop >= 0 {
        memops := memops + [MemopEntry(o, last[o].version, last[o].memop)];
      }
    }

    /** The tail of the seqlock mem_read. */
    method Read(o: ObjId, v: Version)
      requires o < last.Length
      modifies this, last
      ensures View() == LogRead(old(View()), o, v) && last[o] == LastObj(v, old(memop))
    {
      if last[o].version != v {
        Order(o, v);
        last[o] := last[o].(version := v);
      }
      last[o] := last[o].(memop := memop);
      memop := memop + 1;
    }

    /** The tail of the seqlock mem_write. */
    method Write(o: ObjId, v: Version)
      requires o < last.Length
      modifies this, last
      ensures View() == LogWrite(old(View()), o, v) && last[o] == LastObj(old(last[o].version), -1)
    {
      if last[o].version != v {
        Order(o, v);
      }
      last[o] := last[o].(memop := -1);
      memop := memop + 1;
    }

    /** process_1log */
    method Process(write: bool, o: ObjId, v: Version)
      requires o < last.Length
      modifies this, last
      ensures View() == LogBatched(old(View()), write, o, v)
      ensures last[o] == LastObj(v, if write then -1 else old(memop))
    {
      if last[o].version != v {
        Order(o, v);
        last[o] := last[o].(version := v);
      }
      if write {
        last[o] := last[o].(memop := -1);
      } else {
        last[o] := last[o].(memop := memop);
      }
      memop := memop + 1;
    }

    /** mem_finish_thr: one entry for each object whose last access was a read, then the end marks. */
    method Finish()
      modifies this
      ensures versions == FinishVersions(old(View())) && memops == FinishMemops(old(View()))
      ensures versions == old(versions) + [WaitVersion(-1, -1)]
      ensures memops == old(memops + Pending(last[..], 0)) + [MemopEntry(-1, -1, -1)]
      ensures memop == old(memop) && last[..] == old(last[..])
    {
      for i := 0 to last.Length
        invariant versions == old(versions) && memop == old(memop) && last[..] == old(last[..])
        invariant memops + Pending(last[..], i) == old(memops) + Pending(last[..], 0)
      {
        if last[i].memop >= 0 {
          memops := memops + [MemopEntry(i, last[i].version, last[i].memop)];
        }
      }
      versions := versions + [WaitVersion(-1, -1)];
      memops := memops + [MemopEntry(-1, -1, -1)];
    }
  }

  // ---------------------------------------------------------------- batching

  /** struct batmem_acc: a negative objid marks a write. */
  datatype BatchEntry = BatchEntry(objid: int, version: Version)

  /** The C operator `~` on a two's complement integer. */
  function Complement(x: int): int {
    -x - 1
  }

  function Encode(write: bool, o: ObjId, v: Version): BatchEntry {
    BatchEntry(if write then Complement(o) else o, v)
  }

  predicate IsWrite(e: BatchEntry) {
    e.objid < 0
  }

  function ObjectOf(e: BatchEntry): (o: ObjId) {
    if e.objid < 0 then Complement(e.objid) else e.objid
  }

  lemma EncodeDecode(write: bool, o: ObjId, v: Version)
    ensures var e := Encode(write, o, v); IsWrite(e) == write && ObjectOf(e) == o && e.version == v
  {
  }

  predicate Fits(nobj: nat, q: seq<BatchEntry>) {
    forall i | 0 <= i < |q| :: ObjectOf(q[i]) < nobj
  }

  /** The effect of processing a queue, oldest entry first. */
  function Drain(st: LogState, q: seq<BatchEntry>): (r: LogState)
    requires Fits(|st.last|, q)
    ensures |r.last| == |st.last|
  {
    if q == [] then st
    else LogBatched(Drain(st, Front(q)), IsWrite(Last(q)), ObjectOf(Last(q)), Last(q).version)
  }

  lemma DrainOneMore(st: LogState, q: seq<BatchEntry>, write: bool, o: ObjId, v: Version)
    requires Fits(|st.last|, q) && o < |st.last|
    ensures Fits(|st.last|, q + [Encode(write, o, v)])
    ensures Drain(st, q + [Encode(write, o, v)]) == LogBatched(Drain(st, q), write, o, v)
  {
    EncodeDecode(write, o, v);
    assert Front(q + [Encode(write, o, v)]) == q;
  }

  /** g_batch_q and g_batch_idx on top of a thread's logs; the queue is flushed when it is full. */
  class BatchLog {
    const log: ThreadLog
    const queue: array<BatchEntry>
    var idx: nat

    ghost predicate Valid()
      reads this, queue, log, log.last
    {
      idx < queue.Length && Fits(log.last.Length, queue[..idx])
    }

    /** The logs as they will be once the queue is processed. */
    ghost function All(): LogState
      reads this, queue, log, log.last
      requires Valid()
    {
      Drain(log.View(), queue[..idx])
    }

    constructor (nobj: nat, size: nat)
      requires 0 < size
      ensures Valid() && All() == NewLog(nobj) && queue.Length == size && log.last.Length == nobj
      ensures fresh(queue) && fresh(log) && fresh(log.last)
    {
      log := new ThreadLog(nobj);
      queue := new BatchEntry[size](i => BatchEntry(0, 0));
      idx := 0;
    }

    /** batch_process_log */
    method Flush()
      requires idx <= queue.Length && Fits(log.last.Length, queue[..idx])
      requires 0 < queue.Length
      modifies this, log, log.last
      ensures Valid() && idx == 0
      ensures log.View() == Drain(old(log.View()), old(queue[..idx]))
    {
      ghost var start := log.View();
      for i := 0 to idx
        invariant idx == old(idx) && Fits(log.last.Length, queue[..idx])
        invariant log.View() == Drain(start, queue[..i])
      {
        assert Front(queue[..i + 1]) == queue[..i] && Last(queue[..i + 1]) == queue[i];
        assert queue[..idx][i] == queue[i];
        log.Process(IsWrite(queue[i]), ObjectOf(queue[i]), queue[i].version);
      }
      idx := 0;
    }

    /** The queueing part of batch_add_log. */
    method Put(e: BatchEntry)
      requires Valid() && ObjectOf(e) < log.last.Length
      modifies this, queue
      ensures idx == old(idx) + 1 && queue[..idx] == old(queue[..idx]) + [e]
    {
      queue[idx] := e;
      idx := idx + 1;
    }

    /** batch_read_log and batch_write_log, with batch_add_log. */
    method Add(write: bool, o: ObjId, v: Version)
      requires Valid() && o < log.last.Length
      modifies this, queue, log, log.last
      ensures Valid() && All() == LogBatched(old(All()), write, o, v)
      ensures idx == if old(idx) + 1 == queue.Length then 0 else old(idx) + 1
    {
      ghost var start, q := log.View(), queue[..idx];
      EncodeDecode(write, o, v);
      Put(Encode(write, o, v));
      DrainOneMore(start, q, write, o, v);
      if idx == queue.Length {
        Flush();
      }
    }

    /** before_finish_thr, then mem_finish_thr. */
    method Finish()
      requires Valid()
      modifies this, log, log.last
      ensures log.versions == FinishVersions(old(All())) && log.memops == FinishMemops(old(All()))
    {
      Flush();
      log.Finish();
    }
  }

  /** A whole thread under the seqlock recorder. */
  method RecordDirect(nobj: nat, es: seq<Event>) returns (versions: seq<WaitVersion>, memops: seq<MemopEntry>)
    requires InRange(nobj, es)
    ensures versions == FinishVersions(LogAll(nobj, es)) && memops == FinishMemops(LogAll(nobj, es))
    ensures Terminated(versions, memops)
  {
    var log := new ThreadLog(nobj);
    for i := 0 to |es|
      invariant fresh(log) && fresh(log.last)
      invariant log.View() == LogAll(nobj, es[..i])
    {
      assert Front(es[..i + 1]) == es[..i] && Last(es[..i + 1]) == es[i];
      if es[i].write {
        log.Write(es[i].addr.obj, es[i].version);
      } else {
        log.Read(es[i].addr.obj, es[i].version);
      }
    }
    assert es[..|es|] == es;
    log.Finish();
    versions, memops := log.versions, log.memops;
    FinishedMarks(nobj, es);
  }

  /** A whole thread under a batching recorder leaves the same logs as under the direct one, for every queue
      size and every sequence of accesses a recorder can produce. */
  method RecordBatched(nobj: nat, size: nat, es: seq<Event>) returns (versions: seq<WaitVersion>,
                       memops: seq<MemopEntry>)
    requires InRange(nobj, es) && Monotone(es) && 0 < size
    ensures versions == FinishVersions(LogAll(nobj, es)) && memops == FinishMemops(LogAll(nobj, es))
    ensures Terminated(versions, memops)
  {
    var batch := new BatchLog(nobj, size);
    for i := 0 to |es|
      invariant fresh(batch) && fresh(batch.queue) && fresh(batch.log) && fresh(batch.log.last)
      invariant batch.Valid() && batch.log.last.Length == nobj
      invariant batch.All() == BatchAll(nobj, es[..i])
    {
      assert Front(es[..i + 1]) == es[..i] && Last(es[..i + 1]) == es[i];
      batch.Add(es[i].write, es[i].addr.obj, es[i].version);
    }
    assert es[..|es|] == es;
    batch.Finish();
    versions, memops := batch.log.versions, batch.log.memops;
    BatchRefinesDirect(nobj, es);
    FinishedMarks(nobj, es);
  }
}
