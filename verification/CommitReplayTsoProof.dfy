/** Store buffers do not change what token-passing replay does. */
module CommitReplayTsoProof {
  import opened Mem
  import opened StoreBuffer
  import opened Blocks
  import opened CommitReplayTso
  import opened Schedules
  import R = CommitReplay
  import P = CommitReplayProof

  lemma ViewPush(sh: Shared, buf: seq<Store>, st: Store)
    ensures View(sh, buf + [st]) == Reach(View(sh, buf), st)
  {
    SeenPush(Reach, sh, buf, st);
  }

  /** The thread is inside its block. */
  predicate InBlock(th: R.Thread) {
    th.pc.Check? || th.pc.Body? || th.pc.ReadNext? || th.pc.SetNext? || (th.pc.Idle? && Phase(th.bbcnt) != 0)
  }

  /** Giving the token away is the last thing a thread does. */
  predicate TokenLast(t: Tid, buf: seq<Store>) {
    forall i | 0 <= i < |buf| - 1 :: buf[i].Token? ==> buf[i].tid == t
  }

  predicate ThreadOk(s: State, t: Tid)
    requires t < |s.flat.thr| == |s.buf|
  {
    && (s.buf[t] != [] ==> s.sh.token == t)
    && TokenLast(t, s.buf[t])
    && (InBlock(s.flat.thr[t]) ==> s.sh.token == t)
  }

  /** Only the thread that memory says has the token has buffered stores, and it sees the flat memory. */
  ghost predicate TokenInv(s: State) {
    && |s.flat.thr| == |s.buf|
    && (forall t | 0 <= t < |s.buf| :: ThreadOk(s, t))
    && View(s.sh, if s.sh.token < |s.buf| then s.buf[s.sh.token] else []) == Flat(s.flat)
  }

  /** A thread that sees the token, or is inside its block, sees the flat memory. */
  lemma HolderSees(s: State, t: Tid)
    requires TokenInv(s) && t < |s.buf|
    ensures s.sh.token == t ==> SeenBy(s, t) == s.flat
    ensures SeenBy(s, t).token == t ==> s.sh.token == t
    ensures InBlock(s.flat.thr[t]) ==> s.sh.token == t
  {
    assert ThreadOk(s, t);
    assert s.buf[t] == [] ==> View(s.sh, s.buf[t]) == s.sh;
    hide View;
  }

  /** Steps that look at no shared variable. */
  predicate Private(w: Workload, t: Tid, th: R.Thread) {
    th.pc.Return? || (th.pc.Idle? && (R.CurrentOp(w, t, th).Stop? || Phase(th.bbcnt) != 0))
  }

  /** The step a thread takes is one it could take on the flat memory. */
  lemma FlatStep(w: Workload, log: seq<Tid>, s: State, t: Tid)
    requires TokenInv(s) && t < |s.buf| && R.Step(w, log, SeenBy(s, t), t).Some?
    ensures var r := R.Step(w, log, SeenBy(s, t), t).value;
            var st := Pushed(log, SeenBy(s, t), t, R.CurrentOp(w, t, s.flat.thr[t]));
            && |r.thr| == |s.buf| && R.Step(w, log, s.flat, t) == Some(Merged(s.flat, t, r.thr[t], st))
            && (Private(w, t, s.flat.thr[t]) || s.sh.token == t) && |st| <= 1
                && (st != [] ==> s.sh.token == t && InBlock(s.flat.thr[t]))
  {
    hide View, Returned, Phase;
    HolderSees(s, t);
    var th, seen := s.flat.thr[t], SeenBy(s, t);
    var st := Pushed(log, seen, t, R.CurrentOp(w, t, th));
    hide TokenInv;
    ViewShort(Flat(s.flat), st);
    if s.sh.token == t {
      HolderStep(w, log, s.flat, t);
    } else {
      PrivateStep(w, log, s.flat, seen, t);
    }
  }

  lemma ViewShort(sh: Shared, st: seq<Store>)
    requires |st| <= 1
    ensures View(sh, st) == if st == [] then sh else Reach(sh, st[0])
  {
    if st != [] { assert st[1..] == [] && View(Reach(sh, st[0]), []) == Reach(sh, st[0]); }
  }

  lemma HolderStep(w: Workload, log: seq<Tid>, flat: R.State, t: Tid)
    requires t < |flat.thr| && R.Step(w, log, flat, t).Some?
    ensures var r := R.Step(w, log, flat, t).value;
            var st := Pushed(log, flat, t, R.CurrentOp(w, t, flat.thr[t]));
            |r.thr| == |flat.thr| && |st| <= 1 && r == Merged(flat, t, r.thr[t], st)
                && (st != [] ==> InBlock(flat.thr[t]))
  {
    hide Returned, Phase;
    ViewShort(Flat(flat), Pushed(log, flat, t, R.CurrentOp(w, t, flat.thr[t])));
    hide View;
  }

  lemma PrivateStep(w: Workload, log: seq<Tid>, flat: R.State, seen: R.State, t: Tid)
    requires t < |flat.thr| && seen == With(flat, Flat(seen)) && R.Step(w, log, seen, t).Some?
    requires seen.token != t && !InBlock(flat.thr[t])
    ensures var r := R.Step(w, log, seen, t).value;
            && |r.thr| == |flat.thr| && Private(w, t, flat.thr[t])
                && Pushed(log, seen, t, R.CurrentOp(w, t, flat.thr[t])) == []
            && R.Step(w, log, flat, t) == Some(Merged(flat, t, r.thr[t], []))
  {
    hide Returned, Phase;
    ViewShort(Flat(flat), []);
    hide View;
  }

  // ---------------------------------------------------------------- steps

  /** Inside its block a thread has the token. */
  lemma BlockToken(w: Workload, h: seq<Block>, flat: R.State, n: nat, t: Tid)
    requires P.Inv(w, h, flat, n) && t < |flat.thr|
    ensures InBlock(flat.thr[t]) ==> flat.token == t
    ensures flat.thr[t].pc.Return? && !flat.thr[t].ending ==> Phase(flat.thr[t].bbcnt + 1) == 0
  {
    assert P.ThreadInv(w, h, n, t, flat.thr[t]);
    hide Committed, MemOf, After, Returned, Phase, P.Progress;
    if InBlock(flat.thr[t]) { P.SharedToken(w, h, flat, n); }
  }

  lemma PushLast(sh: Shared, t: Tid, buf: seq<Store>, st: seq<Store>)
    requires TokenLast(t, buf) && |st| <= 1 && (st != [] ==> View(sh, buf).token == t)
    ensures TokenLast(t, buf + st)
  {
    if st != [] && buf != [] && Last(buf).Token? {
      assert buf == Front(buf) + [Last(buf)];
      ViewPush(sh, Front(buf), Last(buf));
    }
    hide View;
    var buf' := buf + st;
    forall i | 0 <= i < |buf'| - 1 && buf'[i].Token? ensures buf'[i].tid == t {
      assert buf'[i] == buf[i];
      if i == |buf| - 1 { assert buf[i] == Last(buf); }
    }
  }

  lemma StaysInBlock(w: Workload, log: seq<Tid>, flat: R.State, t: Tid, token: Tid)
    requires t < |flat.thr| && R.Step(w, log, flat, t).Some? && |R.Step(w, log, flat, t).value.thr| == |flat.thr|
    requires (InBlock(flat.thr[t]) ==> token == t) && (Private(w, t, flat.thr[t]) || token == t)
    requires flat.thr[t].pc.Return? && !flat.thr[t].ending ==> Phase(flat.thr[t].bbcnt + 1) == 0
    ensures InBlock(R.Step(w, log, flat, t).value.thr[t]) ==> token == t
  {
    hide Returned, Phase;
  }

  /** The state after thread t's step. */
  function Gone(s: State, t: Tid, th: R.Thread, st: seq<Store>): State
    requires t < |s.flat.thr| == |s.buf|
  {
    State(Merged(s.flat, t, th, st), s.sh, s.buf[t := s.buf[t] + st])
  }

  lemma GoneView(sh: Shared, buf: seq<Store>, st: seq<Store>)
    requires |st| <= 1
    ensures View(sh, buf + st) == View(View(sh, buf), st)
  {
    ViewShort(View(sh, buf), st);
    if st == [] {
      assert buf + st == buf;
    } else {
      assert st == [st[0]];
      ViewPush(sh, buf, st[0]);
    }
  }

  lemma GoneKeeps(s: State, t: Tid, th': R.Thread, st: seq<Store>)
    requires TokenInv(s) && t < |s.buf| && |st| <= 1 && (st != [] ==> s.sh.token == t && s.flat.token == t)
    requires InBlock(th') ==> s.sh.token == t
    ensures TokenInv(Gone(s, t, th', st))
  {
    var s' := Gone(s, t, th', st);
    assert ThreadOk(s, t);
    PushLast(s.sh, t, s.buf[t], st);
    GoneView(s.sh, s.buf[t], st);
    ViewShort(Flat(s.flat), []);
    hide View, TokenLast;
    assert st == [] ==> s.buf[t] + st == s.buf[t];
    assert st == [] ==> s'.buf == s.buf;
    forall u | 0 <= u < |s'.buf| ensures ThreadOk(s', u) {
      assert ThreadOk(s, u);
    }
  }

  lemma GoKeeps(w: Workload, h: seq<Block>, log: seq<Tid>, s: State, n: nat, t: Tid)
    requires P.Inv(w, h, s.flat, n) && TokenInv(s) && Step(w, log, s, Go(t)).Some?
    ensures var s' := Step(w, log, s, Go(t)).value;
            && t < |s.flat.thr| && R.Step(w, log, s.flat, t) == Some(s'.flat) && TokenInv(s')
            && |s'.buf| == |s.buf| && s'.buf == s.buf[t := s'.buf[t]] && |s'.buf[t]| <= |s.buf[t]| + 1
  {
    hide View, R.Step, Pushed, P.Inv, R.CurrentOp, TokenInv, InBlock, Private, Merged;
    assert SeenBy(s, t).thr == s.flat.thr;
    hide SeenBy;
    var th := s.flat.thr[t];
    var st := Pushed(log, SeenBy(s, t), t, R.CurrentOp(w, t, th));
    var th' := R.Step(w, log, SeenBy(s, t), t).value.thr[t];
    FlatStep(w, log, s, t);
    BlockToken(w, h, s.flat, n, t);
    HolderSees(s, t);
    MergedThread(s.flat, t, th', st);
    StaysInBlock(w, log, s.flat, t, s.sh.token);
    GoneKeeps(s, t, th', st);
  }

  lemma MergedThread(flat: R.State, t: Tid, th: R.Thread, st: seq<Store>)
    requires t < |flat.thr|
    ensures |Merged(flat, t, th, st).thr| == |flat.thr| && Merged(flat, t, th, st).thr[t] == th
  {
    hide View;
  }

  function Drained(s: State, t: Tid): State
    requires t < |s.buf| && s.buf[t] != []
  {
    s.(sh := Reach(s.sh, s.buf[t][0]), buf := s.buf[t := s.buf[t][1..]])
  }

  /** Draining keeps the token where it is until the thread that gave it away has nothing left to store. */
  lemma DrainToken(s: State, t: Tid)
    requires TokenInv(s) && t < |s.buf| && s.buf[t] != []
    ensures s.sh.token == t && View(s.sh, s.buf[t]) == Flat(s.flat)
    ensures Drained(s, t).sh.token != t ==> s.buf[t] == [Token(Drained(s, t).sh.token)] && s.flat.token != t
  {
    assert ThreadOk(s, t);
    var buf := s.buf[t];
    if buf[0].Token? && buf[0].tid != t {
      assert |buf| == 1;
      assert buf[1..] == [];
      assert View(Reach(s.sh, buf[0]), []) == Reach(s.sh, buf[0]);
    }
  }

  lemma RestLast(t: Tid, buf: seq<Store>)
    requires buf != [] && TokenLast(t, buf)
    ensures TokenLast(t, buf[1..])
  {
    var rest := buf[1..];
    forall i | 0 <= i < |rest| - 1 && rest[i].Token? ensures rest[i].tid == t {
      assert rest[i] == buf[i + 1];
    }
  }

  lemma DrainKeeps(w: Workload, h: seq<Block>, s: State, n: nat, t: Tid)
    requires P.Inv(w, h, s.flat, n) && TokenInv(s) && t < |s.buf| && s.buf[t] != []
    ensures TokenInv(Drained(s, t))
  {
    var s', buf := Drained(s, t), s.buf[t];
    DrainToken(s, t);
    BlockToken(w, h, s.flat, n, t);
    assert ThreadOk(s, t);
    RestLast(t, buf);
    assert View(s'.sh, buf[1..]) == View(s.sh, buf);
    assert View(s'.sh, []) == s'.sh;
    hide View, TokenLast, P.Inv, InBlock;
    forall u | 0 <= u < |s'.buf| ensures ThreadOk(s', u) && (u != t ==> s'.buf[u] == []) {
      assert ThreadOk(s, u);
    }
  }

  // ---------------------------------------------------------------- all runs

  lemma InitToken(w: Workload, log: seq<Tid>)
    ensures TokenInv(Init(w, log))
  {
    var s := Init(w, log);
    forall t | 0 <= t < |s.buf| ensures ThreadOk(s, t) {
    }
    assert View(s.sh, []) == s.sh;
  }

  /** Refinement: with its buffers emptied, the state after any schedule is one that CommitReplay reaches. */
  lemma {:induction false} TsoRefinesCommitReplay(w: Workload, h: seq<Block>, log: seq<Tid>, sched: seq<Act>)
    returns (rsched: seq<Tid>, n: nat)
    requires P.LogOk(w, h, log)
    ensures var s := Exec(w, log, sched); TokenInv(s) && P.Inv(w, h, s.flat, n) && R.Exec(w, log, rsched) == s.flat
  {
    hide P.LogOk, TokenInv, P.Inv, Step, R.Step;
    if sched == [] {
      rsched := [];
      InitToken(w, log);
      n := P.ExecInv(w, h, log, rsched);
    } else {
      var s, act := Exec(w, log, Front(sched)), Last(sched);
      rsched, n := TsoRefinesCommitReplay(w, h, log, Front(sched));
      if Step(w, log, s, act).Some? {
        rsched := OneStep(w, h, log, s, n, act, rsched);
        n := P.ExecInv(w, h, log, rsched);
      }
    }
  }

  lemma OneStep(w: Workload, h: seq<Block>, log: seq<Tid>, s: State, n: nat, act: Act,
                rsched: seq<Tid>) returns (rsched': seq<Tid>)
    requires P.Inv(w, h, s.flat, n) && TokenInv(s) && Step(w, log, s, act).Some? && R.Exec(w, log, rsched) == s.flat
    ensures TokenInv(Step(w, log, s, act).value) && R.Exec(w, log, rsched') == Step(w, log, s, act).value.flat
  {
    var t := act.tid;
    hide P.Inv, TokenInv, R.Step, Pushed, SeenBy, Merged;
    if act.Drain? {
      DrainKeeps(w, h, s, n, t);
      rsched' := rsched;
    } else {
      GoKeeps(w, h, log, s, n, t);
      rsched' := rsched + [t];
      assert Front(rsched') == rsched && Last(rsched') == t;
    }
  }

  /** Token-passing replay under store buffers: the assertion holds, every thread repeats its recorded accesses,
      and once all threads are done and all stores are in memory, memory is the recorded memory. */
  lemma {:induction false} TsoCommitDeterminism(w: Workload, h: seq<Block>, log: seq<Tid>,
                                                sched: seq<Act>) returns (n: nat)
    requires P.LogOk(w, h, log)
    ensures var s := Exec(w, log, sched);
            && n <= |h| && |s.flat.thr| == w.nthr
            && (forall t | 0 <= t < w.nthr ::
                  && s.flat.thr[t].pc != R.Failed && Committed(h[..n], t) <= s.flat.thr[t].trace
                  && s.flat.thr[t].trace <= Committed(h[..n], t) + P.Current(h, n, t))
            && (Finished(s) ==>
                  && n == |h| && s.sh.mem == MemOf(w.init, h)
                  && forall t | 0 <= t < w.nthr :: s.flat.thr[t].trace == Committed(h, t))
  {
    var rsched, n' := TsoRefinesCommitReplay(w, h, log, sched);
    var s := Exec(w, log, sched);
    if Finished(s) { AllDrained(s); }
    hide Exec, TokenInv, P.LogOk, P.Inv;
    n := P.CommitReplayDeterminism(w, h, log, rsched);
  }

  /** assert(g_next_thr == g_tid): where it is evaluated, the thread sees the token. */
  lemma TsoCommitAssertion(w: Workload, h: seq<Block>, log: seq<Tid>, sched: seq<Act>, t: Tid)
    requires P.LogOk(w, h, log) && t < |Exec(w, log, sched).flat.thr| && Exec(w, log, sched).flat.thr[t].pc.Check?
    ensures t < |Exec(w, log, sched).buf| && SeenBy(Exec(w, log, sched), t).token == t
  {
    hide Exec, R.Exec, P.LogOk, P.Inv, SeenBy;
    var s := Exec(w, log, sched);
    var rsched, n := TsoRefinesCommitReplay(w, h, log, sched);
    BlockToken(w, h, s.flat, n, t);
    HolderSees(s, t);
  }

  lemma AllDrained(s: State)
    requires TokenInv(s) && forall t | 0 <= t < |s.buf| :: s.buf[t] == []
    ensures s.sh == Flat(s.flat)
  {
    assert View(s.sh, []) == s.sh;
  }

  /** No deadlock: until all is done and stored, a buffer can drain or a thread can step. */
  lemma {:induction false} TsoCommitProgress(w: Workload, h: seq<Block>, log: seq<Tid>,
                                             sched: seq<Act>) returns (act: Act)
    requires P.LogOk(w, h, log) && !Finished(Exec(w, log, sched))
    ensures act.tid < w.nthr && Step(w, log, Exec(w, log, sched), act).Some?
  {
    hide Exec, P.LogOk, P.Inv, R.Step, View, Pushed, Merged;
    var rsched, n := TsoRefinesCommitReplay(w, h, log, sched);
    var s := Exec(w, log, sched);
    assert |s.flat.thr| == w.nthr by { P.Sized(w, h, s.flat, n); }
    if t :| 0 <= t < |s.buf| && s.buf[t] != [] {
      act := Drain(t);
    } else {
      var t := P.CommitReplayProgress(w, h, log, rsched);
      SeesAll(s, t);
      HolderStep(w, log, s.flat, t);
      act := Go(t);
    }
  }

  lemma SeesAll(s: State, t: Tid)
    requires TokenInv(s) && t < |s.buf| && forall u | 0 <= u < |s.buf| :: s.buf[u] == []
    ensures SeenBy(s, t) == s.flat
  {
    AllDrained(s);
    assert View(s.sh, s.buf[t]) == s.sh;
    hide View;
  }

  // ---------------------------------------------------------------- termination

  /** The work left: every replay step may add a store that has to drain. */
  function Work(h: seq<Block>, s: State): int {
    2 * P.Measure(h, s.flat.thr, |s.flat.thr|) + Total(s.buf)
  }

  lemma StepWorks(w: Workload, h: seq<Block>, log: seq<Tid>, s: State, n: nat, act: Act)
    requires P.Inv(w, h, s.flat, n) && TokenInv(s) && Step(w, log, s, act).Some?
    ensures Work(h, Step(w, log, s, act).value) < Work(h, s)
  {
    var t, s' := act.tid, Step(w, log, s, act).value;
    hide P.Inv, TokenInv, R.Step, Pushed, SeenBy, Merged, P.Measure, Total;
    if act.Drain? {
      TotalUpdate(s.buf, t, s.buf[t][1..]);
    } else {
      GoKeeps(w, h, log, s, n, t);
      P.NotEnding(w, h, log, s.flat, n, t);
      P.StepDrops(w, h, log, s.flat, t);
      TotalUpdate(s.buf, t, s'.buf[t]);
    }
  }

  lemma WorkNonNegative(w: Workload, h: seq<Block>, s: State, n: nat)
    requires P.Inv(w, h, s.flat, n)
    ensures 0 <= Work(h, s)
  {
    P.MeasureNonNegative(w, h, s.flat, n, |s.flat.thr|);
  }

  /** How many entries of a schedule were real steps and not spins. */
  function Effective(w: Workload, log: seq<Tid>, sched: seq<Act>): nat {
    if sched == [] then 0
    else Effective(w, log, Front(sched)) + if Step(w, log, Exec(w, log, Front(sched)), Last(sched)).Some? then 1 else 0
  }

  /** Termination: no schedule takes more real steps than a bound fixed by the recording. */
  lemma {:induction false} TsoCommitTerminates(w: Workload, h: seq<Block>, log: seq<Tid>, sched: seq<Act>)
    requires P.LogOk(w, h, log)
    ensures 0 <= Work(h, Exec(w, log, sched)) <= Work(h, Init(w, log)) - Effective(w, log, sched)
  {
    hide P.LogOk, P.Inv, TokenInv, Step, Work, R.Exec;
    var rsched, n := TsoRefinesCommitReplay(w, h, log, sched);
    WorkNonNegative(w, h, Exec(w, log, sched), n);
    if sched != [] {
      TsoCommitTerminates(w, h, log, Front(sched));
      var s, act := Exec(w, log, Front(sched)), Last(sched);
      var rsched', n' := TsoRefinesCommitReplay(w, h, log, Front(sched));
      if Step(w, log, s, act).Some? { StepWorks(w, h, log, s, n', act); }
    }
  }

  // ---------------------------------------------------------------- fair schedules

  /** Every thread's next step and every thread's oldest buffered store. */
  ghost function Acts(n: nat): iset<Act> {
    iset act: Act | act.tid < n
  }

  function DoneOf(): State -> bool {
    s => Finished(s)
  }

  function WorkOf(h: seq<Block>): State -> int {
    s => Work(h, s)
  }

  lemma NothingLeft(w: Workload, log: seq<Tid>, s: State, act: Act)
    requires Finished(s)
    ensures Step(w, log, s, act).None?
  {
    var t := act.tid;
    if t < |s.flat.thr| == |s.buf| { assert s.flat.thr[t].pc == R.Done; }
  }

  /** Replay always can go on, and only so often. */
  lemma ReplayGoesOn(w: Workload, h: seq<Block>, log: seq<Tid>)
    requires P.LogOk(w, h, log)
    ensures Progresses(StepOf(w, log), Init(w, log), DoneOf(), WorkOf(h), Acts(w.nthr))
  {
    hide P.LogOk, P.Inv, TokenInv, Step, Work, R.Exec, Finished, Init, Run;
    forall sched: seq<Act>
      ensures CanGoOn(StepOf(w, log), DoneOf(), WorkOf(h), Acts(w.nthr), Run(StepOf(w, log), Init(w, log), sched))
    {
      var s := Exec(w, log, sched);
      assert s == Run(StepOf(w, log), Init(w, log), sched);
      var rsched, n := TsoRefinesCommitReplay(w, h, log, sched);
      WorkNonNegative(w, h, s, n);
      forall act | Step(w, log, s, act).Some? ensures Work(h, Step(w, log, s, act).value) < Work(h, s) {
        StepWorks(w, h, log, s, n, act);
      }
      if Finished(s) {
        forall act ensures Step(w, log, s, act).None? { NothingLeft(w, log, s, act); }
      } else {
        var act := TsoCommitProgress(w, h, log, sched);
        assert act in Acts(w.nthr) && StepOf(w, log)(s, act).Some?;
      }
    }
  }

  /** Fair schedules finish: from wherever a schedule has led, every continuation in which all threads and all buffers
      get more turns than there is work left completes the replay. */
  lemma TsoCommitFairlyCompletes(w: Workload, h: seq<Block>, log: seq<Tid>, sched: seq<Act>, rest: seq<Act>, k: nat)
    requires P.LogOk(w, h, log) && Rounds(Acts(w.nthr), rest, k) && Work(h, Exec(w, log, sched)) < k
    ensures Finished(Exec(w, log, sched + rest))
  {
    hide P.LogOk, Work, Rounds, Finished, Step, Progresses, Init, Run;
    ReplayGoesOn(w, h, log);
    FairlyDone(StepOf(w, log), Init(w, log), DoneOf(), WorkOf(h), Acts(w.nthr), sched, rest, k);
  }

  lemma TsoCommitFairBound(w: Workload, h: seq<Block>, log: seq<Tid>, sched: seq<Act>) returns (k: nat)
    requires P.LogOk(w, h, log)
    ensures forall rest | Rounds(Acts(w.nthr), rest, k) :: Finished(Exec(w, log, sched + rest))
  {
    hide P.LogOk, P.Inv, Work, Exec, Finished, TokenInv;
    var rsched, n := TsoRefinesCommitReplay(w, h, log, sched);
    WorkNonNegative(w, h, Exec(w, log, sched), n);
    k := Work(h, Exec(w, log, sched)) + 1;
    forall rest | Rounds(Acts(w.nthr), rest, k) ensures Finished(Exec(w, log, sched + rest)) {
      TsoCommitFairlyCompletes(w, h, log, sched, rest, k);
    }
  }

  /** One turn for every thread and every buffer. */
  function Turns(n: nat): seq<Act> {
    if n == 0 then [] else Turns(n - 1) + [Go(n - 1), Drain(n - 1)]
  }

  lemma {:induction false} TurnsCover(n: nat)
    ensures Covers(Acts(n), Turns(n))
  {
    if n > 0 { TurnsCover(n - 1); }
  }

  /** From wherever a schedule has led, some continuation completes the replay. */
  lemma TsoCommitCompletes(w: Workload, h: seq<Block>, log: seq<Tid>, sched: seq<Act>) returns (rest: seq<Act>)
    requires P.LogOk(w, h, log)
    ensures Finished(Exec(w, log, sched + rest))
  {
    hide *;
    var k := TsoCommitFairBound(w, h, log, sched);
    rest := Repeat(Turns(w.nthr), k);
    TurnsCover(w.nthr);
    RepeatRounds(Acts(w.nthr), [], Turns(w.nthr), k);
    assert [] + rest == rest;
  }
}
