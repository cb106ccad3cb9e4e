/** What the recorder guarantees about every run. */
module RecordTheorems {
  import opened Mem
  import opened History
  import opened RecordLog
  import opened RecordModel
  import opened RecordProof

  /** Under store buffers the fence makes one order of all accesses respect both every thread's program
      order and every object's versions: in every reachable state `hist` is legal, each thread has logged
      exactly its accesses in `hist` but perhaps the one in progress, and its logs are those of
      these accesses. */
  lemma RecorderLinearizes(c: Config, sched: seq<Act>)
    requires c.fenced
    ensures var s := Exec(c, sched);
            && |s.thr| == c.w.nthr && Legal(c.w, s.hist)
            && forall t | 0 <= t < c.w.nthr ::
                 && s.thr[t].trace <= Own(s.hist, t) && |Own(s.hist, t)| <= |s.thr[t].trace| + 1
                 && InRange(c.nobj, s.thr[t].trace) && s.thr[t].log == LogAll(c.nobj, s.thr[t].trace)
  {
    ExecInv(c, sched);
    var s := Exec(c, sched);
    forall t | 0 <= t < c.w.nthr
      ensures s.thr[t].trace <= Own(s.hist, t) && |Own(s.hist, t)| <= |s.thr[t].trace| + 1
              && InRange(c.nobj, s.thr[t].trace) && s.thr[t].log == LogAll(c.nobj, s.thr[t].trace)
    {
      assert Local(c, s, t);
    }
  }

  /** At the end every thread has logged all its accesses and memory holds what the history says. */
  lemma RecorderFinishes(c: Config, sched: seq<Act>)
    requires c.fenced && Finished(c, Exec(c, sched))
    ensures var s := Exec(c, sched);
            && |s.thr| == c.w.nthr && Complete(c.w, s.hist)
            && (forall t | 0 <= t < c.w.nthr :: s.thr[t].trace == Own(s.hist, t))
            && (forall a :: Get(s.data, a) == Val(c.w.init, s.hist, a))
  {
    ExecInv(c, sched);
    var s := Exec(c, sched);
    forall t | 0 <= t < c.w.nthr ensures s.thr[t].trace == Own(s.hist, t) && s.thr[t].pc == Start {
      assert Local(c, s, t);
      assert CurrentOp(c, s, t).Stop?;
    }
    forall t | 0 <= t < c.w.nthr ensures c.w.prog(t, Results(Own(s.hist, t))) == Stop {
      assert CurrentOp(c, s, t).Stop?;
    }
    forall a ensures Get(s.data, a) == Val(c.w.init, s.hist, a) {
      assert WordInv(c, s, a);
    }
  }

  /** Hybrid atomicity: whatever mix of transactions and fallbacks ran, an access carries an even version,
      and a read returns the value the object's writes below that version left. */
  lemma HybridSnapshot(c: Config, sched: seq<Act>, t: Tid, k: nat)
    requires c.fenced && t < |Exec(c, sched).thr| && k < |Exec(c, sched).thr[t].trace|
    ensures var s := Exec(c, sched);
            var e := s.thr[t].trace[k];
            && e.version % 2 == 0
            && (!e.write ==> e.val == ValAt(c.w.init, s.hist, e.addr, e.version))
  {
    RecorderLinearizes(c, sched);
    var s := Exec(c, sched);
    OwnVersionEven(c.w, s.hist, t, k);
    if !s.thr[t].trace[k].write { ValAtRead(c.w, s.hist, t, k); }
  }

  predicate OverwritesAt(h: seq<Event>, i: nat, o: ObjId, n: nat) {
    i < |h| && h[i].write && h[i].addr.obj == o && h[i].version == 2 * n
  }

  /** Writers obtain versions 0, 2, 4, ... of an object, each exactly once, in this order. */
  lemma WriterVersions(c: Config, sched: seq<Act>, o: ObjId, n: nat) returns (i: nat)
    requires c.fenced && n < Writes(Exec(c, sched).hist, o)
    ensures var h := Exec(c, sched).hist;
            && OverwritesAt(h, i, o, n)
            && (forall j | 0 <= j < |h| && OverwritesAt(h, j, o, n) :: j == i)
            && (forall j | 0 <= j < |h| && h[j].write && h[j].addr.obj == o :: j < i <==> h[j].version < 2 * n)
  {
    RecorderLinearizes(c, sched);
    var h := Exec(c, sched).hist;
    i := WriteOf(c.w, h, o, n);
    forall j | 0 <= j < |h| && h[j].write && h[j].addr.obj == o
      ensures (j < i <==> h[j].version < 2 * n) && (OverwritesAt(h, j, o, n) ==> j == i)
    {
      if j < i { VersionOrder(c.w, h, j, i); }
      if i < j { VersionOrder(c.w, h, i, j); }
    }
  }
}
