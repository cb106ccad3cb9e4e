/** Record commit order, merge the logs, replay: every replay of every recorded run repeats it. */
module CommitEndToEnd {
  import opened Mem
  import opened Blocks
  import opened KWay
  import opened Schedules
  import opened MergeCommit
  import CR = CommitRecord
  import CommitTheorems
  import CommitReplayProof
  import Replay = CommitReplayTso
  import CommitReplayTsoProof

  /** The commit log files the threads leave behind. */
  function CommitFiles(s: CR.State): seq<seq<nat>> {
    seq(|s.thr|, t requires 0 <= t < |s.thr| => s.thr[t].log)
  }

  /** The merge tool accepts them. */
  lemma FilesSorted(w: Workload, sched: seq<CR.Act>, t: Tid)
    requires CR.Finished(CR.Exec(w, sched)) && t < |CR.Exec(w, sched).thr|
    ensures SortedBy(NotAfter, CommitFiles(CR.Exec(w, sched))[t])
  {
    CommitTheorems.CommitFinishes(w, sched);
    TimesIncrease(CR.Exec(w, sched).hist, t);
  }

  /** The merged log lists the threads in the order in which their blocks committed. */
  lemma MergedLogOk(w: Workload, sched: seq<CR.Act>, out: seq<Tagged<nat>>)
    requires CR.Finished(CR.Exec(w, sched)) && Merged(NotAfter, CommitFiles(CR.Exec(w, sched)), out)
    ensures CommitReplayProof.LogOk(w, CR.Exec(w, sched).hist, Tids(out))
  {
    CommitTheorems.CommitFinishes(w, sched);
    var s := CR.Exec(w, sched);
    forall i | 0 <= i < |s.hist| ensures s.hist[i].tid < |s.thr| {
      SerialAt(w, s.hist, i);
    }
    MergedCommitOrder(s.hist, CommitFiles(s), out);
  }

  /** What a replay of a recorded run is supposed to be, at any time. */
  ghost predicate Repeats(w: Workload, s: CR.State, log: seq<Tid>, replaying: seq<Replay.Act>) {
    var r := Replay.Exec(w, log, replaying);
    && |r.flat.thr| == |s.thr| == w.nthr
    && (forall t | 0 <= t < w.nthr :: !r.flat.thr[t].pc.Failed? && r.flat.thr[t].trace <= s.thr[t].regs.trace)
    && (Replay.Finished(r) || exists act :: Replay.Step(w, log, r, act).Some?)
    && (Replay.Finished(r) ==>
          && (forall t | 0 <= t < w.nthr :: r.flat.thr[t].trace == s.thr[t].regs.trace)
          && r.sh.mem == s.sh.mem)
  }

  /** For every finished run of the recorder, every outcome of merge-commit on its logs and every interleaving of
      replay steps and draining store buffers: g_next_thr == g_tid holds wherever it is asserted; the replayed
      accesses of every thread are the recorded ones in order, with the same values; if not all is done and
      stored some thread can step or some buffer can drain; and when all is done all recorded accesses have been
      made and memory is the recorded memory. */
  lemma CommitRecordThenReplay(w: Workload, recording: seq<CR.Act>, out: seq<Tagged<nat>>, replaying: seq<Replay.Act>)
    requires CR.Finished(CR.Exec(w, recording)) && Merged(NotAfter, CommitFiles(CR.Exec(w, recording)), out)
    ensures Repeats(w, CR.Exec(w, recording), Tids(out), replaying)
  {
    var s, r := CR.Exec(w, recording), Replay.Exec(w, Tids(out), replaying);
    CommitTheorems.CommitFinishes(w, recording);
    MergedLogOk(w, recording, out);
    hide CR.Exec, Replay.Exec, Replay.Step, Replay.Finished, CommitReplayProof.LogOk, Committed, MemOf, Times, Tids,
    Serial,
         Complete;
    var n := CommitReplayTsoProof.TsoCommitDeterminism(w, s.hist, Tids(out), replaying);
    forall t | 0 <= t < w.nthr ensures r.flat.thr[t].trace <= s.thr[t].regs.trace {
      PrefixOfAll(s.hist, n, t, r.flat.thr[t].trace);
    }
    if !Replay.Finished(r) {
      var act := CommitReplayTsoProof.TsoCommitProgress(w, s.hist, Tids(out), replaying);
    }
  }

  lemma {:induction false} PrefixOfAll(h: seq<Block>, n: nat, t: Tid, trace: seq<Access>)
    requires n <= |h| && trace <= Committed(h[..n], t) + CommitReplayProof.Current(h, n, t)
    ensures trace <= Committed(h, t)
  {
    if n == |h| {
      assert h[..n] == h;
    } else if n < |h| - 1 {
      assert Front(h)[..n] == h[..n];
      PrefixOfAll(Front(h), n, t, trace);
    }
  }

  /** Every replay of a recorded run completes if scheduled fairly: whatever has been scheduled before, there is a
      number of rounds after which it is complete, a round being any stretch of the schedule in which every thread and
      every store buffer gets a turn. */
  lemma RecordedCommitReplayFairlyCompletes(w: Workload, recording: seq<CR.Act>, out: seq<Tagged<nat>>,
                                            replaying: seq<Replay.Act>) returns (k: nat)
    requires CR.Finished(CR.Exec(w, recording)) && Merged(NotAfter, CommitFiles(CR.Exec(w, recording)), out)
    ensures forall rest | Rounds(CommitReplayTsoProof.Acts(w.nthr), rest, k) ::
              Replay.Finished(Replay.Exec(w, Tids(out), replaying + rest))
  {
    MergedLogOk(w, recording, out);
    hide *;
    k := CommitReplayTsoProof.TsoCommitFairBound(w, CR.Exec(w, recording).hist, Tids(out), replaying);
  }

  /** Some continuation of every replay schedule completes the replay. */
  lemma RecordedCommitReplayCompletes(w: Workload, recording: seq<CR.Act>, out: seq<Tagged<nat>>,
                                      replaying: seq<Replay.Act>)
    returns (rest: seq<Replay.Act>)
    requires CR.Finished(CR.Exec(w, recording)) && Merged(NotAfter, CommitFiles(CR.Exec(w, recording)), out)
    ensures Replay.Finished(Replay.Exec(w, Tids(out), replaying + rest))
  {
    MergedLogOk(w, recording, out);
    hide *;
    rest := CommitReplayTsoProof.TsoCommitCompletes(w, CR.Exec(w, recording).hist, Tids(out), replaying);
  }
}
