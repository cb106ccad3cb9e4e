/** What the replay invariant means for whole schedules: replay repeats the recording. */
module ReplayInvariant {
  import opened Mem
  import opened History
  import opened Replay
  import opened ReplaySafety
  import opened ReplaySteps

  lemma {:induction false} ValAtZero(w: Workload, h: seq<Event>, a: Addr)
    requires Legal(w, h)
    ensures ValAt(w.init, h, a, 0) == Get(w.init, a)
  {
    if h != [] { ValAtZero(w, Front(h), a); }
  }

  lemma InitInv(w: Workload, logs: Logs, h: seq<Event>)
    requires LogsOk(w, h, logs)
    ensures Inv(w, logs, h, Init(w, logs))
  {
    var s := Init(w, logs);
    forall o ensures VersionInv(h, s, o) && CursorInv(logs, h, s, o) {
      forall t: Tid, k, x | WriteAt(h, t, k, o, x) || ReadAt(h, t, k, o, x) ensures 0 <= x {
        OwnVersionEven(w, h, t, k);
      }
      assert ReaderLogOk(h, o, ReaderLog(logs, o));
    }
    forall a ensures MemInv(w, h, s, a) {
      ValAtZero(w, h, a);
    }
  }

  lemma {:induction false} ExecInv(w: Workload, logs: Logs, h: seq<Event>, sched: seq<Tid>)
    requires LogsOk(w, h, logs)
    ensures Inv(w, logs, h, Exec(w, logs, sched))
  {
    if sched == [] {
      InitInv(w, logs, h);
    } else {
      ExecInv(w, logs, h, Front(sched));
      var s, t := Exec(w, logs, Front(sched)), Last(sched);
      if t < |s.thr| && Step(w, logs, s, t).Some? { StepKeepsInv(w, logs, h, s, t); }
    }
  }

  lemma FinishedThread(w: Workload, logs: Logs, h: seq<Event>, s: State, t: Tid)
    requires LogsOk(w, h, logs) && |s.thr| == w.nthr && t < |s.thr| && ThreadInv(logs, h, s, t)
    requires CurrentOp(w, s, t).Stop?
    ensures s.thr[t].memop == |Own(h, t)| && s.thr[t].trace == Own(h, t) && s.thr[t].pc.Start?
  {
    CurrentAccess(w, logs, h, s, t);
  }

  /** Replay determinism: in every interleaving each thread's accesses so far are exactly the first
      recorded ones (object, version and value), no assertion or abort has fired, and once all threads
      are done they have repeated the whole recording and memory is what it was. */
  lemma ReplayDeterminism(w: Workload, logs: Logs, h: seq<Event>, sched: seq<Tid>)
    requires LogsOk(w, h, logs)
    ensures var s := Exec(w, logs, sched);
            && (forall t | 0 <= t < w.nthr :: !s.thr[t].pc.Failed? && s.thr[t].trace <= Own(h, t))
            && (Finished(w, s) ==>
                  && (forall t | 0 <= t < w.nthr :: s.thr[t].trace == Own(h, t))
                  && (forall a :: Get(s.mem, a) == Val(w.init, h, a)))
  {
    ExecInv(w, logs, h, sched);
    DeterminismOf(w, logs, h, Exec(w, logs, sched));
  }

  lemma DeterminismOf(w: Workload, logs: Logs, h: seq<Event>, s: State)
    requires LogsOk(w, h, logs) && Inv(w, logs, h, s)
    ensures forall t | 0 <= t < w.nthr :: !s.thr[t].pc.Failed? && s.thr[t].trace <= Own(h, t)
    ensures Finished(w, s) ==> forall t | 0 <= t < w.nthr :: s.thr[t].trace == Own(h, t)
    ensures Finished(w, s) ==> forall a :: Get(s.mem, a) == Val(w.init, h, a)
  {
    forall t | 0 <= t < w.nthr ensures !s.thr[t].pc.Failed? && s.thr[t].trace <= Own(h, t) {
      assert ThreadInv(logs, h, s, t);
    }
    if Finished(w, s) {
      forall t | 0 <= t < w.nthr
        ensures s.thr[t].memop == |Own(h, t)| && s.thr[t].trace == Own(h, t) && s.thr[t].pc.Start?
      {
        assert CurrentOp(w, s, t).Stop?;
        FinishedThread(w, logs, h, s, t);
      }
      forall a ensures Get(s.mem, a) == Val(w.init, h, a) {
        FinalMem(w, logs, h, s, a);
      }
    }
  }

  lemma FinalMem(w: Workload, logs: Logs, h: seq<Event>, s: State, a: Addr)
    requires LogsOk(w, h, logs) && Inv(w, logs, h, s)
    requires forall t | 0 <= t < w.nthr :: s.thr[t].memop == |Own(h, t)| && s.thr[t].pc.Start?
    ensures Get(s.mem, a) == Val(w.init, h, a)
  {
    var o, v := a.obj, Num(s.ver, a.obj);
    assert MemInv(w, h, s, a) && VersionInv(h, s, o);
    if v < Ver(h, o) {
      var i := WriteOf(w, h, o, v / 2);
      var k := OwnIndex(h, i);
      OwnVersionEven(w, h, h[i].tid, k);
      assert WriteAt(h, h[i].tid, k, o, v);
    }
    ValAtAll(w, h, a, v);
  }

  /** Single consumer: no two threads are ever in the reader log of one object. */
  lemma SingleConsumer(w: Workload, logs: Logs, h: seq<Event>, sched: seq<Tid>, t: Tid, t': Tid)
    requires LogsOk(w, h, logs) && t < w.nthr && t' < w.nthr
    requires var s := Exec(w, logs, sched);
             && InMutex(s.thr[t].pc) && InMutex(s.thr[t'].pc)
             && CurrentOp(w, s, t).Write? && CurrentOp(w, s, t').Write?
             && CurrentOp(w, s, t).addr.obj == CurrentOp(w, s, t').addr.obj
    ensures t == t'
  {
    ExecInv(w, logs, h, sched);
    var s := Exec(w, logs, sched);
    assert ThreadInv(logs, h, s, t) && ThreadInv(logs, h, s, t');
    CurrentAccess(w, logs, h, s, t);
    CurrentAccess(w, logs, h, s, t');
    SoleWriter(w, logs, h, s, t, t', Cur(h, s, t).addr.obj);
  }
}
