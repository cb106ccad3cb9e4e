/** Record, process the logs, replay: every replay of every recorded run makes the same accesses. */
module EndToEnd {
  import opened Mem
  import opened History
  import opened RecordLog
  import opened LogExact
  import opened Reorder
  import opened Pipeline
  import opened ReplaySafety
  import opened Schedules
  import Replay
  import ReplayTso
  import ReplayTsoTheorems
  import RecordModel
  import RecordTheorems

  // ---------------------------------------------------------------- the logs of a finished recording

  /** The memop log files the threads leave behind. */
  function MemopFiles(s: RecordModel.State): seq<seq<MemopEntry>> {
    seq(|s.thr|, t requires 0 <= t < |s.thr| => FinishMemops(s.thr[t].log))
  }

  /** What the replayer loads: the version logs as they are, the reader logs from the tools. */
  function ReplayLogs(s: RecordModel.State, reader: seq<seq<Replay.ReaderEntry>>): Replay.Logs {
    Replay.Logs(seq(|s.thr|, t requires 0 <= t < |s.thr| => FinishVersions(s.thr[t].log)),
                map o: ObjId | 0 <= o < |reader| :: reader[o])
  }

  ghost predicate Recorded(c: RecordModel.Config, s: RecordModel.State) {
    && Legal(c.w, s.hist) && Complete(c.w, s.hist) && |s.thr| == c.w.nthr
    && forall t | 0 <= t < c.w.nthr ::
         InRange(c.nobj, Own(s.hist, t)) && s.thr[t].log == LogAll(c.nobj, Own(s.hist, t))
  }

  lemma OwnMonotone(w: Workload, h: seq<Event>, t: Tid)
    requires Legal(w, h)
    ensures Monotone(Own(h, t))
  {
    var es := Own(h, t);
    forall i | 0 <= i < |es| ensures 0 <= es[i].version {
      OwnVersionEven(w, h, t, i);
    }
    forall i, j | 0 <= i < j < |es| && es[i].addr.obj == es[j].addr.obj
      ensures es[i].version <= es[j].version && (es[i].write ==> es[i].version < es[j].version)
    {
      OwnVersionOrder(w, h, t, i, j);
    }
  }

  /** The tools' precondition holds of what the recorder leaves. */
  lemma FilesRecorded(c: RecordModel.Config, s: RecordModel.State, t: Tid)
    requires Recorded(c, s) && t < c.w.nthr
    ensures RecordedFile(MemopFiles(s)[t], c.nobj)
    ensures Exact(Own(s.hist, t), Front(MemopFiles(s)[t]))
  {
    var es := Own(s.hist, t);
    OwnMonotone(c.w, s.hist, t);
    MemopLogExact(c.nobj, es);
    var file := FinishMemops(LogAll(c.nobj, es));
    assert MemopFiles(s)[t] == file;
    forall i | 0 <= i < |file| - 1 ensures 0 <= file[i].objid < c.nobj && file[i].memop != -1 {
      assert file[i] == Front(file)[i] && file[i] in Front(file);
      assert Names(es, file[i]);
    }
  }

  // ---------------------------------------------------------------- the reader logs are what replay expects

  lemma {:induction false} OfThreadMembers(log: seq<Replay.ReaderEntry>, t: Tid, o: ObjId, e: MemopEntry)
    ensures e in OfThread(log, t, o) <==> e.objid == o && Replay.ReaderEntry(e.version, e.memop, t) in log
  {
    if log != [] {
      OfThreadMembers(Front(log), t, o, e);
      assert log == Front(log) + [Last(log)];
    }
  }

  /** Entries of the reader log are exactly the threads' last reads of versions they do not overwrite. */
  lemma ReaderEntries(c: RecordModel.Config, s: RecordModel.State, log: seq<Replay.ReaderEntry>, o: ObjId,
                      t: Tid, v: Version, m: Memop)
    requires Recorded(c, s) && ReaderLogFrom(MemopFiles(s), o, log) && t < c.w.nthr
    ensures Replay.ReaderEntry(v, m, t) in log <==> LastReadOf(Own(s.hist, t), o, v, m)
  {
    var e, file := MemopEntry(o, v, m), MemopFiles(s)[t];
    FilesRecorded(c, s, t);
    OfThreadMembers(log, t, o, e);
    OfMembers(Front(file), o, e);
    assert e in Front(file) <==> Names(Own(s.hist, t), e);
  }

  lemma {:induction false} LastReadExists(es: seq<Event>, o: ObjId, v: Version, k: nat) returns (m: nat)
    requires At(es, k, o, v) && forall i | 0 <= i < |es| && At(es, i, o, v) :: !es[i].write
    ensures k <= m && LastReadOf(es, o, v, m)
    decreases |es| - k
  {
    if i :| k < i < |es| && At(es, i, o, v) {
      m := LastReadExists(es, o, v, i);
    } else {
      m := k;
    }
  }

  lemma ReaderLogSuffices(c: RecordModel.Config, s: RecordModel.State, log: seq<Replay.ReaderEntry>, o: ObjId)
    requires Recorded(c, s) && ReaderLogFrom(MemopFiles(s), o, log)
    ensures ReaderLogOk(s.hist, o, log)
  {
    var h := s.hist;
    forall i | 0 <= i < |log| ensures ReadAt(h, log[i].tid, log[i].memop, o, log[i].version) {
      ReaderEntries(c, s, log, o, log[i].tid, log[i].version, log[i].memop);
      assert log[i] in log;
    }
    forall t: Tid, k, v | ReadAt(h, t, k, o, v) ensures (exists k' :: WriteAt(h, t, k', o, v))
        || Covered(log, t, k, v) {
      OwnVersionEven(c.w, h, t, k);
      if forall k' :: !WriteAt(h, t, k', o, v) {
        var es := Own(h, t);
        forall i | 0 <= i < |es| && At(es, i, o, v) ensures !es[i].write {
          assert !WriteAt(h, t, i, o, v);
        }
        var m := LastReadExists(es, o, v, k);
        ReaderEntries(c, s, log, o, t, v, m);
        var i :| 0 <= i < |log| && log[i] == Replay.ReaderEntry(v, m, t);
      }
    }
  }

  lemma NoReadsBeyond(c: RecordModel.Config, s: RecordModel.State, o: ObjId)
    requires Recorded(c, s) && c.nobj <= o
    ensures ReaderLogOk(s.hist, o, [])
  {
    forall t: Tid, k, v ensures !ReadAt(s.hist, t, k, o, v) {
      if ReadAt(s.hist, t, k, o, v) { OwnVersionEven(c.w, s.hist, t, k); }
    }
  }

  /** The logs of a finished recording, processed by the tools, are what the replayer needs. */
  lemma RecordedLogsOk(c: RecordModel.Config, s: RecordModel.State, reader: seq<seq<Replay.ReaderEntry>>)
    requires Recorded(c, s) && |reader| == c.nobj
    requires forall o | 0 <= o < c.nobj :: ReaderLogFrom(MemopFiles(s), o, reader[o])
    ensures LogsOk(c.w, s.hist, ReplayLogs(s, reader))
  {
    var logs := ReplayLogs(s, reader);
    forall t | 0 <= t < c.w.nthr ensures VersionLogOk(Own(s.hist, t), logs.version[t]) {
      OwnMonotone(c.w, s.hist, t);
      VersionLogSuffices(c.nobj, Own(s.hist, t));
    }
    forall o: ObjId ensures ReaderLogOk(s.hist, o, Replay.ReaderLog(logs, o)) {
      if o < c.nobj {
        ReaderLogSuffices(c, s, reader[o], o);
      } else {
        NoReadsBeyond(c, s, o);
      }
    }
  }

  lemma FinishedRecording(c: RecordModel.Config, sched: seq<RecordModel.Act>)
    requires c.fenced && RecordModel.Finished(c, RecordModel.Exec(c, sched))
    ensures Recorded(c, RecordModel.Exec(c, sched))
  {
    RecordTheorems.RecorderLinearizes(c, sched);
    RecordTheorems.RecorderFinishes(c, sched);
  }

  // ---------------------------------------------------------------- the theorem

  /** What a replay of a recorded run is supposed to be, at any time. */
  ghost predicate Repeats(w: Workload, logs: Replay.Logs, replaying: seq<ReplayTso.Act>,
                          traces: seq<seq<Event>>, mem: map<Addr, Value>)
  {
    var r := ReplayTso.Exec(w, logs, replaying);
    && |r.flat.thr| == |traces| == w.nthr
    && (forall t | 0 <= t < w.nthr :: !r.flat.thr[t].pc.Failed? && r.flat.thr[t].trace <= traces[t])
    && (ReplayTso.Finished(w, r) || exists act :: ReplayTso.Step(w, logs, r, act).Some?)
    && (ReplayTso.Finished(w, r) ==>
          && (forall t | 0 <= t < w.nthr :: r.flat.thr[t].trace == traces[t])
          && (forall a :: Get(r.sh.mem, a) == Get(mem, a)))
  }

  function Traces(s: RecordModel.State): seq<seq<Event>> {
    seq(|s.thr|, t requires 0 <= t < |s.thr| => s.thr[t].trace)
  }

  /** For every finished recorder run, every outcome of the log tools on its logs and every interleaving of
      replay steps and draining store buffers: no assertion fires; each thread repeats its recorded accesses in
      order with the same object, version and value; if not all is done and stored some thread can step or
      some buffer can drain; and when all is done all recorded accesses were made and memory is the
      recorded memory. */
  lemma RecordThenReplay(c: RecordModel.Config, recording: seq<RecordModel.Act>,
                         reader: seq<seq<Replay.ReaderEntry>>, replaying: seq<ReplayTso.Act>)
    requires c.fenced && RecordModel.Finished(c, RecordModel.Exec(c, recording))
    requires |reader| == c.nobj
    requires forall o | 0 <= o < c.nobj :: ReaderLogFrom(MemopFiles(RecordModel.Exec(c, recording)), o, reader[o])
    ensures var s := RecordModel.Exec(c, recording);
            Repeats(c.w, ReplayLogs(s, reader), replaying, Traces(s), s.data)
  {
    var s := RecordModel.Exec(c, recording);
    FinishedRecording(c, recording);
    RecordTheorems.RecorderFinishes(c, recording);
    RecordedLogsOk(c, s, reader);
    var logs := ReplayLogs(s, reader);
    hide RecordModel.Exec, ReplayTso.Exec, LogsOk, ReplayLogs, Recorded, RecordModel.Finished, ReplayTso.Finished,
         ReplayTso.Step, Own, Val;
    ReplayTsoTheorems.TsoDeterminism(c.w, logs, s.hist, replaying);
    if !ReplayTso.Finished(c.w, ReplayTso.Exec(c.w, logs, replaying)) {
      var act := ReplayTsoTheorems.TsoProgress(c.w, logs, s.hist, replaying);
    }
  }

  /** Every replay of a recorded run completes if scheduled fairly: whatever has been scheduled before, there is a
      number of rounds after which it is complete, a round being any stretch of the schedule in which every thread and
      every store buffer gets a turn. */
  lemma RecordedReplayFairlyCompletes(c: RecordModel.Config, recording: seq<RecordModel.Act>,
                                      reader: seq<seq<Replay.ReaderEntry>>,
                                          replaying: seq<ReplayTso.Act>) returns (k: nat)
    requires c.fenced && RecordModel.Finished(c, RecordModel.Exec(c, recording))
    requires |reader| == c.nobj
    requires forall o | 0 <= o < c.nobj :: ReaderLogFrom(MemopFiles(RecordModel.Exec(c, recording)), o, reader[o])
    ensures var logs := ReplayLogs(RecordModel.Exec(c, recording), reader);
            forall rest | Rounds(ReplayTsoTheorems.Acts(c.w.nthr), rest, k) ::
              ReplayTso.Finished(c.w, ReplayTso.Exec(c.w, logs, replaying + rest))
  {
    var s := RecordModel.Exec(c, recording);
    var logs := ReplayLogs(s, reader);
    FinishedRecording(c, recording);
    RecordedLogsOk(c, s, reader);
    hide *;
    k := ReplayTsoTheorems.TsoFairBound(c.w, logs, s.hist, replaying);
  }

  /** Some continuation of every replay schedule completes the replay. */
  lemma RecordedReplayCompletes(c: RecordModel.Config, recording: seq<RecordModel.Act>,
                                reader: seq<seq<Replay.ReaderEntry>>,
                                    replaying: seq<ReplayTso.Act>) returns (rest: seq<ReplayTso.Act>)
    requires c.fenced && RecordModel.Finished(c, RecordModel.Exec(c, recording))
    requires |reader| == c.nobj
    requires forall o | 0 <= o < c.nobj :: ReaderLogFrom(MemopFiles(RecordModel.Exec(c, recording)), o, reader[o])
    ensures var logs := ReplayLogs(RecordModel.Exec(c, recording), reader);
            ReplayTso.Finished(c.w, ReplayTso.Exec(c.w, logs, replaying + rest))
  {
    var s := RecordModel.Exec(c, recording);
    FinishedRecording(c, recording);
    RecordedLogsOk(c, s, reader);
    hide *;
    rest := ReplayTsoTheorems.TsoCompletes(c.w, ReplayLogs(s, reader), s.hist, replaying);
  }

  // ---------------------------------------------------------------- the batching recorder

  /** The log taking of mem-record-seqbatch.c, whose accesses are those of mem-record-seqlock.c. */
  function BatchLog(c: RecordModel.Config, es: seq<Event>): LogState {
    if InRange(c.nobj, es) then BatchAll(c.nobj, es) else NewLog(c.nobj)
  }

  function BatchMemopFiles(c: RecordModel.Config, s: RecordModel.State): seq<seq<MemopEntry>> {
    seq(|s.thr|, t requires 0 <= t < |s.thr| => FinishMemops(BatchLog(c, s.thr[t].trace)))
  }

  function BatchReplayLogs(c: RecordModel.Config, s: RecordModel.State,
                           reader: seq<seq<Replay.ReaderEntry>>): Replay.Logs {
    Replay.Logs(seq(|s.thr|, t requires 0 <= t < |s.thr| => FinishVersions(BatchLog(c, s.thr[t].trace))),
                map o: ObjId | 0 <= o < |reader| :: reader[o])
  }

  lemma BatchFiles(c: RecordModel.Config, recording: seq<RecordModel.Act>, reader: seq<seq<Replay.ReaderEntry>>)
    requires c.fenced && RecordModel.Finished(c, RecordModel.Exec(c, recording))
    ensures var s := RecordModel.Exec(c, recording);
            BatchMemopFiles(c, s) == MemopFiles(s) && BatchReplayLogs(c, s, reader) == ReplayLogs(s, reader)
  {
    var s := RecordModel.Exec(c, recording);
    FinishedRecording(c, recording);
    RecordTheorems.RecorderFinishes(c, recording);
    hide RecordModel.Exec, BatchAll, LogAll, FinishVersions, FinishMemops, Own, Legal, Complete, Val,
         RecordModel.Finished;
    forall t | 0 <= t < |s.thr|
      ensures FinishVersions(BatchLog(c, s.thr[t].trace)) == FinishVersions(s.thr[t].log)
      ensures FinishMemops(BatchLog(c, s.thr[t].trace)) == FinishMemops(s.thr[t].log)
    {
      OwnMonotone(c.w, s.hist, t);
      BatchRefinesDirect(c.nobj, s.thr[t].trace);
    }
    assert BatchMemopFiles(c, s) == MemopFiles(s);
    assert BatchReplayLogs(c, s, reader).version == ReplayLogs(s, reader).version;
  }

  /** Record with batched log taking, process the logs, replay: every replay repeats the recording. */
  lemma BatchRecordThenReplay(c: RecordModel.Config, recording: seq<RecordModel.Act>,
                              reader: seq<seq<Replay.ReaderEntry>>, replaying: seq<ReplayTso.Act>)
    requires c.fenced && RecordModel.Finished(c, RecordModel.Exec(c, recording)) && |reader| == c.nobj
    requires forall o | 0 <= o < c.nobj ::
               ReaderLogFrom(BatchMemopFiles(c, RecordModel.Exec(c, recording)), o, reader[o])
    ensures var s := RecordModel.Exec(c, recording);
            Repeats(c.w, BatchReplayLogs(c, s, reader), replaying, Traces(s), s.data)
  {
    hide *;
    BatchFiles(c, recording, reader);
    RecordThenReplay(c, recording, reader, replaying);
  }
}
