/** What the cluster recorder guarantees about every run. */
module ClusterTheorems {
  import opened Mem
  import opened History
  import opened RecordLog
  import opened ClusterRecord
  import opened ClusterProof
  import opened Pipeline
  import EndToEnd
  import Replay
  import ReplayTso
  import RM = RecordModel
  import RecordTheorems

  /** Lockstep: in every run, whatever was rolled back, between accesses the queue index is the access count modulo
      seven; no assertion fires and no log is ever taken inside a transaction. */
  lemma QueueLockstep(c: Config, sched: seq<Act>, t: Tid)
    requires c.fenced && t < |Exec(c, sched).thr|
    ensures var th := Exec(c, sched).thr[t];
            && th.pc != Failed
            && (th.pc.Idle? ==> |th.regs.queue| == |th.regs.trace| % 7 && th.regs.bbcnt == |th.regs.trace|)
            && (th.pc.Idle? && th.mode.Tx? ==> |th.regs.trace| % 7 != 0)
            && (th.mode.Tx? ==> th.regs.log == th.saved.log)
  {
    var rsched := ClusterRefinesHybrid(c, sched);
    assert ThreadInv(c, Exec(c, sched), t);
    if Exec(c, sched).thr[t].pc.Idle? { IdleInTx(c, t, Exec(c, sched).thr[t]); }
  }

  lemma ThreadLogs(c: Config, s: State, rsched: seq<RM.Act>, t: Tid)
    requires c.fenced && Finished(s) && Inv(c, s) && RM.Exec(c, rsched) == s.rm && t < |s.thr|
    ensures && t < |s.rm.thr| && RM.CurrentOp(c, s.rm, t).Stop?
            && s.thr[t].regs.trace == s.rm.thr[t].trace
            && FinishVersions(s.thr[t].regs.log) == FinishVersions(s.rm.thr[t].log)
            && FinishMemops(s.thr[t].regs.log) == FinishMemops(s.rm.thr[t].log)
  {
    assert ThreadInv(c, s, t);
    assert s.thr[t].pc == Done;
    RecordTheorems.RecorderLinearizes(c, rsched);
    hide RM.Exec;
    assert s.rm.thr[t].trace <= Own(s.rm.hist, t);
    OwnPrefixMonotone(c, s.rm.hist, t, s.rm.thr[t].trace);
    BatchRefinesDirect(c.nobj, s.rm.thr[t].trace);
  }

  /** The accesses of every finished run, logged through the queue, leave the logs that direct logging of the thread's
      accesses leaves, and these accesses are the thread's part of a legal order of all accesses. */
  lemma ClusterLogs(c: Config, sched: seq<Act>, t: Tid)
    requires c.fenced && Finished(Exec(c, sched)) && t < |Exec(c, sched).thr|
    ensures var s := Exec(c, sched);
            var es := s.thr[t].regs.trace;
            && Legal(c.w, s.rm.hist) && es == Own(s.rm.hist, t) && InRange(c.nobj, es)
            && FinishVersions(s.thr[t].regs.log) == FinishVersions(LogAll(c.nobj, es))
            && FinishMemops(s.thr[t].regs.log) == FinishMemops(LogAll(c.nobj, es))
  {
    var rsched := ClusterRefinesHybrid(c, sched);
    var s := Exec(c, sched);
    SameFiles(c, sched, rsched, []);
    ThreadLogs(c, s, rsched, t);
    RecordTheorems.RecorderLinearizes(c, rsched);
    RecordTheorems.RecorderFinishes(c, rsched);
    hide *;
  }

  lemma OwnPrefixMonotone(c: Config, h: seq<Event>, t: Tid, es: seq<Event>)
    requires Legal(c.w, h) && es <= Own(h, t)
    ensures Monotone(es)
  {
    EndToEnd.OwnMonotone(c.w, h, t);
    hide Legal, Own;
  }

  /** The files the threads leave behind. */
  function ClusterMemopFiles(s: State): seq<seq<MemopEntry>> {
    seq(|s.thr|, t requires 0 <= t < |s.thr| => FinishMemops(s.thr[t].regs.log))
  }

  function ClusterReplayLogs(s: State, reader: seq<seq<Replay.ReaderEntry>>): Replay.Logs {
    Replay.Logs(seq(|s.thr|, t requires 0 <= t < |s.thr| => FinishVersions(s.thr[t].regs.log)),
                map o: ObjId | 0 <= o < |reader| :: reader[o])
  }

  lemma SameFiles(c: Config, sched: seq<Act>, rsched: seq<RM.Act>, reader: seq<seq<Replay.ReaderEntry>>)
    requires c.fenced && Finished(Exec(c, sched)) && Inv(c, Exec(c, sched)) && RM.Exec(c, rsched) == Exec(c, sched).rm
    ensures var s := Exec(c, sched);
            && RM.Finished(c, s.rm)
            && ClusterMemopFiles(s) == EndToEnd.MemopFiles(s.rm)
            && ClusterReplayLogs(s, reader) == EndToEnd.ReplayLogs(s.rm, reader)
  {
    var s := Exec(c, sched);
    assert |s.thr| == |s.rm.thr| == c.w.nthr;
    forall t | 0 <= t < |s.thr|
      ensures && RM.CurrentOp(c, s.rm, t).Stop? && s.rm.thr[t].buf == []
              && FinishVersions(s.thr[t].regs.log) == FinishVersions(s.rm.thr[t].log)
              && FinishMemops(s.thr[t].regs.log) == FinishMemops(s.rm.thr[t].log)
    {
      ThreadLogs(c, s, rsched, t);
    }
    hide Exec, RM.Exec, Inv, FinishVersions, FinishMemops;
    assert ClusterMemopFiles(s) == EndToEnd.MemopFiles(s.rm);
    assert ClusterReplayLogs(s, reader).version == EndToEnd.ReplayLogs(s.rm, reader).version;
  }

  function ClusterTraces(s: State): seq<seq<Event>> {
    seq(|s.thr|, t requires 0 <= t < |s.thr| => s.thr[t].regs.trace)
  }

  /** Record with the cluster recorder, process the logs, replay: no assertion fires, every thread repeats its
      recorded accesses, the replay can always go on, and in the end memory is the recorded memory. */
  lemma ClusterRecordThenReplay(c: Config, recording: seq<Act>, reader: seq<seq<Replay.ReaderEntry>>,
                                replaying: seq<ReplayTso.Act>)
    requires c.fenced && Finished(Exec(c, recording)) && |reader| == c.nobj
    requires forall o | 0 <= o < c.nobj :: ReaderLogFrom(ClusterMemopFiles(Exec(c, recording)), o, reader[o])
    ensures var s := Exec(c, recording);
            EndToEnd.Repeats(c.w, ClusterReplayLogs(s, reader), replaying, ClusterTraces(s), s.rm.data)
  {
    var rsched := ClusterRefinesHybrid(c, recording);
    var s := Exec(c, recording);
    assert |s.thr| == |s.rm.thr| == c.w.nthr;
    hide EndToEnd.Repeats, Exec, RM.Exec, Inv, ReaderLogFrom, ClusterMemopFiles, ClusterReplayLogs,
         EndToEnd.MemopFiles, EndToEnd.ReplayLogs;
    SameFiles(c, recording, rsched, reader);
    forall t | 0 <= t < c.w.nthr ensures s.thr[t].regs.trace == s.rm.thr[t].trace {
      ThreadLogs(c, s, rsched, t);
    }
    assert ClusterTraces(s) == EndToEnd.Traces(s.rm);
    EndToEnd.RecordThenReplay(c, rsched, reader, replaying);
  }
}
