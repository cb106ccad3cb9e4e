/** What a replaying thread does alone with its stores buffered: it goes on, and nobody else notices. */
module ReplayPaths {
  import opened Mem
  import opened History
  import opened Schedules
  import opened ReplaySafety
  import opened ReplayTso
  import opened ReplayTsoProof
  import R = Replay
  import ReplayTsoTheorems

  /** What every schedule keeps. */
  ghost predicate Ok(w: Workload, logs: R.Logs, h: seq<Event>, s: State) {
    LogsOk(w, h, logs) && |logs.version| == w.nthr && ReplaySafety.Inv(w, logs, h, s.flat) && BufInv(h, s, w.nthr)
  }

  /** The version of an object as thread t sees it. */
  function SeenVersion(s: State, t: Tid, o: ObjId): Version
    requires t < |s.buf|
  {
    Num(View(s.sh, t, s.buf[t]).ver, o)
  }

  /** Since s0 only thread t has moved, it has added these stores to its buffer, and memory is as it was. */
  predicate Added(s0: State, s: State, t: Tid, st: seq<Store>) {
    && t < |s0.buf| == |s.buf| && s.sh == s0.sh && s.buf == s0.buf[t := s0.buf[t] + st]
    && t < |s0.flat.thr| == |s.flat.thr| && s.flat.thr == s0.flat.thr[t := s.flat.thr[t]]
  }

  lemma OkFacts(w: Workload, logs: R.Logs, h: seq<Event>, s: State, t: Tid)
    requires Ok(w, logs, h, s) && t < w.nthr
    ensures Sized(s, w.nthr) && t < |s.flat.thr| == |logs.version| && ThreadInv(logs, h, s.flat, t)
    ensures s.flat.thr[t].memop < |Own(h, t)| ==> SameOp(Cur(h, s.flat, t), R.CurrentOp(w, s.flat, t))
  {
    hide LogsOk, BufOk, SeenOk, PairInv, Own;
    assert ThreadInv(logs, h, s.flat, t);
    CurrentAccess(w, logs, h, s.flat, t);
  }

  /** The version a spinning thread waits for is the recorded one. */
  lemma SpinsForRecorded(w: Workload, logs: R.Logs, h: seq<Event>, s: State, t: Tid)
    requires Ok(w, logs, h, s) && t < w.nthr && s.flat.thr[t].pc.SpinVersion?
    ensures s.flat.thr[t].memop < |Own(h, t)| && s.flat.thr[t].wait.version == Cur(h, s.flat, t).version
  {
    hide Own, Legal, CursorInv, MutexInv, MemInv, VersionInv, ReaderLogOk, BufInv;
    assert ThreadInv(logs, h, s.flat, t);
    assert VersionLogOk(Own(h, t), logs.version[t]);
  }

  // ---------------------------------------------------------------- reads

  /** Steps to the end of a read. */
  function ReadRank(pc: R.PC): int {
    match pc
    case Start => 6
    case SpinVersion => 5
    case CheckVersion => 4
    case Load => 3
    case SeenRead(_) => 2
    case DoneRead(_, _) => 1
    case _ => 0
  }

  /** Nothing stops a read whose version the thread sees. */
  lemma ReadEnabled(w: Workload, logs: R.Logs, h: seq<Event>, s: State, t: Tid)
    requires Ok(w, logs, h, s) && t < w.nthr && s.flat.thr[t].memop < |Own(h, t)| && !Cur(h, s.flat, t).write
    requires ReadRank(s.flat.thr[t].pc) > 0
    requires Cur(h, s.flat, t).version <= SeenVersion(s, t, Cur(h, s.flat, t).addr.obj)
    ensures Sized(s, w.nthr) && |logs.version| == w.nthr && R.CurrentOp(w, s.flat, t) == Read(Cur(h, s.flat, t).addr)
    ensures R.Step(w, logs, SeenBy(s, t), t).Some?
  {
    hide Ok, View, Own, ThreadInv, Cur;
    OkFacts(w, logs, h, s, t);
    if s.flat.thr[t].pc.SpinVersion? { SpinsForRecorded(w, logs, h, s, t); }
    assert R.CurrentOp(w, SeenBy(s, t), t) == R.CurrentOp(w, s.flat, t);
  }

  /** One step of a read on the flat memory. */
  lemma ReadResult(w: Workload, logs: R.Logs, flat: R.State, t: Tid, a: Addr)
    requires t < |flat.thr| == |logs.version| && R.CurrentOp(w, flat, t) == Read(a) && ReadRank(flat.thr[t].pc) > 0
    requires R.Step(w, logs, flat, t).Some?
    ensures var th, th' := flat.thr[t], R.Step(w, logs, flat, t).value.thr[t];
            if th.pc.DoneRead? then th'.pc == R.Start && th'.memop == th.memop + 1 && |th'.trace| == |th.trace| + 1
            else th'.memop == th.memop && (th'.pc.Failed? || 0 < ReadRank(th'.pc) < ReadRank(th.pc))
    ensures Pushed(flat.thr[t], Read(a)) == if flat.thr[t].pc.DoneRead? then [Count(flat.thr[t].memop + 1)] else []
  {
  }

  lemma OkStep(w: Workload, logs: R.Logs, h: seq<Event>, s: State, t: Tid)
    requires Ok(w, logs, h, s) && Step(w, logs, s, Go(t)).Some?
    ensures t < w.nthr == |s.flat.thr| == |logs.version| && Ok(w, logs, h, Step(w, logs, s, Go(t)).value)
    ensures R.Step(w, logs, s.flat, t) == Some(Step(w, logs, s, Go(t)).value.flat)
    ensures Added(s, Step(w, logs, s, Go(t)).value, t, Pushed(s.flat.thr[t], R.CurrentOp(w, s.flat, t)))
  {
    hide LogsOk, ReplaySafety.Inv, BufInv, R.Step, SeenBy, Merged, Pushed;
    GoKeeps(w, logs, h, s, t);
  }

  lemma Traces(w: Workload, logs: R.Logs, h: seq<Event>, s: State, t: Tid)
    requires Ok(w, logs, h, s) && t < w.nthr
    ensures t < |s.flat.thr| && s.flat.thr[t].memop <= |Own(h, t)| && !s.flat.thr[t].pc.Failed?
    ensures s.flat.thr[t].trace == Own(h, t)[..s.flat.thr[t].memop]
  {
    hide Ok, Own;
    OkFacts(w, logs, h, s, t);
  }

  /** One step of a read under store buffers, whatever is buffered. */
  lemma ReadGoesOn(w: Workload, logs: R.Logs, h: seq<Event>, s: State, t: Tid)
    requires Ok(w, logs, h, s) && t < w.nthr && s.flat.thr[t].memop < |Own(h, t)| && !Cur(h, s.flat, t).write
    requires ReadRank(s.flat.thr[t].pc) > 0
    requires Cur(h, s.flat, t).version <= SeenVersion(s, t, Cur(h, s.flat, t).addr.obj)
    ensures Step(w, logs, s, Go(t)).Some? && Ok(w, logs, h, Step(w, logs, s, Go(t)).value)
    ensures var s' := Step(w, logs, s, Go(t)).value;
            && t < |s'.flat.thr|
            && var th, th' := s.flat.thr[t], s'.flat.thr[t];
            if th.pc.DoneRead? then
              && Added(s, s', t, [Count(th.memop + 1)]) && th'.pc == R.Start && th'.memop == th.memop + 1
              && th'.trace == th.trace + [Cur(h, s.flat, t)]
            else
              Added(s, s', t, []) && th'.memop == th.memop && th'.trace == th.trace
              && 0 < ReadRank(th'.pc) < ReadRank(th.pc)
  {
    hide Ok, R.Step, SeenBy, Merged, Pushed, Own, SeenVersion;
    ReadEnabled(w, logs, h, s, t);
    var a := Cur(h, s.flat, t).addr;
    OkStep(w, logs, h, s, t);
    ReadResult(w, logs, s.flat, t, a);
    Traces(w, logs, h, s, t);
    Traces(w, logs, h, Step(w, logs, s, Go(t)).value, t);
  }

  lemma AddedMore(s0: State, s: State, s': State, t: Tid, a: seq<Store>, b: seq<Store>)
    requires Added(s0, s, t, a) && Added(s, s', t, b)
    ensures Added(s0, s', t, a + b)
  {
    assert s0.buf[t] + (a + b) == s0.buf[t] + a + b;
  }

  lemma AddedNone(s: State, t: Tid)
    requires t < |s.buf| && t < |s.flat.thr|
    ensures Added(s, s, t, [])
  {
    assert s.buf[t] + [] == s.buf[t];
  }

  /** In the read that began in s0; the buffer and memory are as then. */
  ghost predicate ReadWay(w: Workload, logs: R.Logs, h: seq<Event>, s0: State, t: Tid, s: State) {
    && Ok(w, logs, h, s) && t < w.nthr && Added(s0, s, t, []) && ReadRank(s.flat.thr[t].pc) > 0
    && s.flat.thr[t].memop == s0.flat.thr[t].memop && s.flat.thr[t].trace == s0.flat.thr[t].trace
  }

  /** The read that began in s0 is done: its access is in the trace and the new memop is in the buffer, behind whatever
      was there. */
  ghost predicate ReadDone(w: Workload, logs: R.Logs, h: seq<Event>, s0: State, t: Tid, s: State) {
    && Ok(w, logs, h, s) && t < |s0.flat.thr| && s0.flat.thr[t].memop < |Own(h, t)|
    && Added(s0, s, t, [Count(s0.flat.thr[t].memop + 1)])
    && s.flat.thr[t].pc == R.Start && s.flat.thr[t].memop == s0.flat.thr[t].memop + 1
    && s.flat.thr[t].trace == s0.flat.thr[t].trace + [Cur(h, s0.flat, t)]
  }

  /** Thread t is in a read, or before it, and sees the version the recording says it read. */
  ghost predicate CanRead(h: seq<Event>, s: State, t: Tid) {
    && t < |s.flat.thr| == |s.buf| && s.flat.thr[t].memop < |Own(h, t)| && !Cur(h, s.flat, t).write
    && ReadRank(s.flat.thr[t].pc) > 0
    && Cur(h, s.flat, t).version <= SeenVersion(s, t, Cur(h, s.flat, t).addr.obj)
  }

  ghost function ReadWayOf(w: Workload, logs: R.Logs, h: seq<Event>, s0: State, t: Tid): State -> bool {
    (s: State) => ReadWay(w, logs, h, s0, t, s)
  }

  ghost function ReadDoneOf(w: Workload, logs: R.Logs, h: seq<Event>, s0: State, t: Tid): State -> bool {
    (s: State) => ReadDone(w, logs, h, s0, t, s)
  }

  function ReadRankOf(t: Tid): State -> int {
    (s: State) => if t < |s.flat.thr| then ReadRank(s.flat.thr[t].pc) else 0
  }

  lemma SameView(s0: State, s: State, t: Tid, o: ObjId)
    requires Added(s0, s, t, [])
    ensures SeenVersion(s, t, o) == SeenVersion(s0, t, o)
  {
    assert s0.buf[t] + [] == s0.buf[t];
  }

  lemma ReadWayAdvances(w: Workload, logs: R.Logs, h: seq<Event>, s0: State, t: Tid, s: State)
    requires CanRead(h, s0, t) && ReadWay(w, logs, h, s0, t, s)
    ensures Advances(StepOf(w, logs), Go(t), ReadWayOf(w, logs, h, s0, t), ReadDoneOf(w, logs, h, s0, t),
                     ReadRankOf(t), s)
  {
    hide Ok, Step, Own, SeenVersion, ReadRank, Added;
    assert t < |s.flat.thr| && t < |s.buf| by { AddedSizes(s0, s, t, []); }
    SameView(s0, s, t, Cur(h, s0.flat, t).addr.obj);
    ReadGoesOn(w, logs, h, s, t);
    var s' := Step(w, logs, s, Go(t)).value;
    if s.flat.thr[t].pc.DoneRead? {
      AddedMore(s0, s, s', t, [], [Count(s0.flat.thr[t].memop + 1)]);
      assert [] + [Count(s0.flat.thr[t].memop + 1)] == [Count(s0.flat.thr[t].memop + 1)];
    } else {
      var none: seq<Store> := [];
      AddedMore(s0, s, s', t, none, none);
      assert none + none == none;
    }
  }

  lemma AddedSizes(s0: State, s: State, t: Tid, st: seq<Store>)
    requires Added(s0, s, t, st)
    ensures t < |s0.buf| == |s.buf| && t < |s0.flat.thr| == |s.flat.thr|
  {
  }

  lemma ReadAdvances(w: Workload, logs: R.Logs, h: seq<Event>, s: State, t: Tid)
    requires CanRead(h, s, t)
    ensures AlwaysAdvances(StepOf(w, logs), Go(t), ReadWayOf(w, logs, h, s, t), ReadDoneOf(w, logs, h, s, t),
                           ReadRankOf(t))
  {
    hide Advances, ReadWay, CanRead;
    forall s1: State | ReadWayOf(w, logs, h, s, t)(s1)
      ensures Advances(StepOf(w, logs), Go(t), ReadWayOf(w, logs, h, s, t), ReadDoneOf(w, logs, h, s, t),
                       ReadRankOf(t), s1)
    {
      ReadWayAdvances(w, logs, h, s, t, s1);
    }
  }

  /** A whole read. */
  lemma ReadRun(w: Workload, logs: R.Logs, h: seq<Event>, s: State, t: Tid) returns (k: nat)
    requires Ok(w, logs, h, s) && t < w.nthr && CanRead(h, s, t)
    ensures 0 < k && ReadDone(w, logs, h, s, t, Only(StepOf(w, logs), s, Go(t), k))
  {
    hide Ok, CanRead, ReadDone, AlwaysAdvances, Only, Step, Own;
    ReadAdvances(w, logs, h, s, t);
    CanReadFacts(h, s, t);
    AddedNone(s, t);
    k := ArrivesOn(StepOf(w, logs), Go(t), ReadWayOf(w, logs, h, s, t), ReadDoneOf(w, logs, h, s, t), ReadRankOf(t), s);
  }

  lemma CanReadFacts(h: seq<Event>, s: State, t: Tid)
    requires CanRead(h, s, t)
    ensures t < |s.flat.thr| == |s.buf| && ReadRank(s.flat.thr[t].pc) > 0
  {
  }

  // ---------------------------------------------------------------- writes

  /** Steps to the end of a write, from check_access on. */
  function WriteRank(pc: R.PC): int {
    match pc
    case SeenWrite => 5
    case Store(_) => 4
    case LoadVersion(_) => 3
    case StoreVersion(_, _) => 2
    case DoneWrite(_) => 1
    case _ => 0
  }

  /** What the write e has stored when it is at this point. */
  function StoresSoFar(e: Event, pc: R.PC): seq<Store> {
    match pc
    case LoadVersion(_) => [Word(e.addr, e.val)]
    case StoreVersion(_, _) => [Word(e.addr, e.val)]
    case DoneWrite(_) => [Word(e.addr, e.val), Bump(e.addr.obj, e.version + 2)]
    case _ => []
  }

  /** One step of a write. */
  lemma WriteResult(w: Workload, logs: R.Logs, flat: R.State, t: Tid, e: Event)
    requires t < |flat.thr| == |logs.version| && R.CurrentOp(w, flat, t) == Write(e.addr, e.val)
    requires WriteRank(flat.thr[t].pc) > 0
    requires flat.thr[t].pc.StoreVersion? ==> flat.thr[t].pc.loaded == e.version
    ensures R.Step(w, logs, flat, t).Some?
    ensures var th, th', st := flat.thr[t], R.Step(w, logs, flat, t).value.thr[t], Pushed(flat.thr[t],
                               Write(e.addr, e.val));
            if th.pc.DoneWrite? then
              th'.pc == R.Start && th'.memop == th.memop + 1 && st == [Count(th.memop + 1)]
            else
              && th'.memop == th.memop && 0 < WriteRank(th'.pc) < WriteRank(th.pc)
              && StoresSoFar(e, th.pc) + st == StoresSoFar(e, th'.pc)
  {
  }

  lemma WriteFacts(w: Workload, logs: R.Logs, h: seq<Event>, s: State, t: Tid)
    requires Ok(w, logs, h, s) && t < w.nthr && WriteRank(s.flat.thr[t].pc) > 0
    ensures Sized(s, w.nthr) && |logs.version| == w.nthr && s.flat.thr[t].memop < |Own(h, t)|
    ensures var e := Cur(h, s.flat, t);
            && R.CurrentOp(w, s.flat, t) == Write(e.addr, e.val)
            && R.CurrentOp(w, SeenBy(s, t), t) == Write(e.addr, e.val)
            && (s.flat.thr[t].pc.StoreVersion? ==> s.flat.thr[t].pc.loaded == e.version)
  {
    hide Ok, View, Own;
    OkFacts(w, logs, h, s, t);
    assert R.CurrentOp(w, SeenBy(s, t), t) == R.CurrentOp(w, s.flat, t);
  }

  lemma WriteGoesOn(w: Workload, logs: R.Logs, h: seq<Event>, s: State, t: Tid)
    requires Ok(w, logs, h, s) && t < w.nthr && WriteRank(s.flat.thr[t].pc) > 0
    ensures s.flat.thr[t].memop < |Own(h, t)|
    ensures Step(w, logs, s, Go(t)).Some? && Ok(w, logs, h, Step(w, logs, s, Go(t)).value)
    ensures var s', e := Step(w, logs, s, Go(t)).value, Cur(h, s.flat, t);
            && t < |s'.flat.thr|
            && var th, th' := s.flat.thr[t], s'.flat.thr[t];
            if th.pc.DoneWrite? then
              && Added(s, s', t, [Count(th.memop + 1)]) && th'.pc == R.Start && th'.memop == th.memop + 1
              && th'.trace == th.trace + [e]
            else
              && th'.memop == th.memop && th'.trace == th.trace && 0 < WriteRank(th'.pc) < WriteRank(th.pc)
              && exists st :: Added(s, s', t, st) && StoresSoFar(e, th.pc) + st == StoresSoFar(e, th'.pc)
  {
    hide Ok, R.Step, SeenBy, Merged, Pushed, Own, StoresSoFar, Added;
    WriteFacts(w, logs, h, s, t);
    var e := Cur(h, s.flat, t);
    WriteResult(w, logs, s.flat, t, e);
    SeenThread(s, t);
    WriteResult(w, logs, SeenBy(s, t), t, e);
    OkStep(w, logs, h, s, t);
    Traces(w, logs, h, s, t);
    Traces(w, logs, h, Step(w, logs, s, Go(t)).value, t);
  }

  lemma SeenThread(s: State, t: Tid)
    requires t < |s.flat.thr| == |s.buf| == |s.sh.count|
    ensures |SeenBy(s, t).thr| == |s.flat.thr| && SeenBy(s, t).thr[t] == s.flat.thr[t]
  {
    hide View;
  }

  /** In the write whose check_access began in s0, with its stores so far at the end of the buffer. */
  ghost predicate WriteWay(w: Workload, logs: R.Logs, h: seq<Event>, s0: State, t: Tid, s: State) {
    && Ok(w, logs, h, s) && t < w.nthr && t < |s0.flat.thr| && s0.flat.thr[t].memop < |Own(h, t)|
    && t < |s.flat.thr| && WriteRank(s.flat.thr[t].pc) > 0
    && s.flat.thr[t].memop == s0.flat.thr[t].memop && s.flat.thr[t].trace == s0.flat.thr[t].trace
    && Added(s0, s, t, StoresSoFar(Cur(h, s0.flat, t), s.flat.thr[t].pc))
  }

  /** The three stores of a write: the word, the version and the thread's memop. */
  function WriteStores(e: Event, n: nat): seq<Store> {
    [Word(e.addr, e.val), Bump(e.addr.obj, e.version + 2), Count(n + 1)]
  }

  /** The write that began in s0 is done, and its stores are in the buffer, behind whatever was there. */
  ghost predicate WriteDone(w: Workload, logs: R.Logs, h: seq<Event>, s0: State, t: Tid, s: State) {
    && Ok(w, logs, h, s) && t < |s0.flat.thr| && s0.flat.thr[t].memop < |Own(h, t)|
    && Added(s0, s, t, WriteStores(Cur(h, s0.flat, t), s0.flat.thr[t].memop))
    && s.flat.thr[t].pc == R.Start && s.flat.thr[t].memop == s0.flat.thr[t].memop + 1
    && s.flat.thr[t].trace == s0.flat.thr[t].trace + [Cur(h, s0.flat, t)]
  }

  ghost function WriteWayOf(w: Workload, logs: R.Logs, h: seq<Event>, s0: State, t: Tid): State -> bool {
    (s: State) => WriteWay(w, logs, h, s0, t, s)
  }

  ghost function WriteDoneOf(w: Workload, logs: R.Logs, h: seq<Event>, s0: State, t: Tid): State -> bool {
    (s: State) => WriteDone(w, logs, h, s0, t, s)
  }

  function WriteRankOf(t: Tid): State -> int {
    (s: State) => if t < |s.flat.thr| then WriteRank(s.flat.thr[t].pc) else 0
  }

  lemma WriteWayAdvances(w: Workload, logs: R.Logs, h: seq<Event>, s0: State, t: Tid, s: State)
    requires WriteWay(w, logs, h, s0, t, s)
    ensures Advances(StepOf(w, logs), Go(t), WriteWayOf(w, logs, h, s0, t), WriteDoneOf(w, logs, h, s0, t),
                     WriteRankOf(t), s)
  {
    hide Ok, Step, Own, WriteRank, Added, StoresSoFar, WriteStores;
    WriteGoesOn(w, logs, h, s, t);
    var s', e, th := Step(w, logs, s, Go(t)).value, Cur(h, s0.flat, t), s.flat.thr[t];
    if th.pc.DoneWrite? {
      AddedMore(s0, s, s', t, StoresSoFar(e, th.pc), [Count(th.memop + 1)]);
      AllStores(e, th.pc, th.memop);
    } else {
      var st :| Added(s, s', t, st) && StoresSoFar(e, th.pc) + st == StoresSoFar(e, s'.flat.thr[t].pc);
      AddedMore(s0, s, s', t, StoresSoFar(e, th.pc), st);
    }
  }

  lemma AllStores(e: Event, pc: R.PC, n: nat)
    requires pc.DoneWrite?
    ensures StoresSoFar(e, pc) + [Count(n + 1)] == WriteStores(e, n)
  {
  }

  lemma WriteAdvances(w: Workload, logs: R.Logs, h: seq<Event>, s: State, t: Tid)
    ensures AlwaysAdvances(StepOf(w, logs), Go(t), WriteWayOf(w, logs, h, s, t), WriteDoneOf(w, logs, h, s, t),
                           WriteRankOf(t))
  {
    hide Advances, WriteWay;
    forall s1: State | WriteWayOf(w, logs, h, s, t)(s1)
      ensures Advances(StepOf(w, logs), Go(t), WriteWayOf(w, logs, h, s, t), WriteDoneOf(w, logs, h, s, t),
                       WriteRankOf(t), s1)
    {
      WriteWayAdvances(w, logs, h, s, t, s1);
    }
  }

  /** A whole write, once the readers of the old version are done. */
  lemma WriteRun(w: Workload, logs: R.Logs, h: seq<Event>, s: State, t: Tid) returns (k: nat)
    requires Ok(w, logs, h, s) && t < w.nthr && s.flat.thr[t].pc.SeenWrite?
    ensures 0 < k && WriteDone(w, logs, h, s, t, Only(StepOf(w, logs), s, Go(t), k))
  {
    hide Ok, WriteDone, AlwaysAdvances, Only, Step, Own, Added;
    WriteAdvances(w, logs, h, s, t);
    WriteFacts(w, logs, h, s, t);
    AddedNone(s, t);
    k := ArrivesOn(StepOf(w, logs), Go(t), WriteWayOf(w, logs, h, s, t), WriteDoneOf(w, logs, h, s, t),
                   WriteRankOf(t), s);
  }

  /** What a thread sees behind the stores of its write. */
  lemma SeenBehind(s0: State, s: State, t: Tid, e: Event, n: nat, o: ObjId)
    requires Added(s0, s, t, WriteStores(e, n))
    ensures SeenVersion(s, t, o) == if o == e.addr.obj then e.version + 2 else SeenVersion(s0, t, o)
  {
    hide View;
    var buf := s0.buf[t];
    ViewPush(s.sh, t, buf, Word(e.addr, e.val));
    ViewPush(s.sh, t, buf + [Word(e.addr, e.val)], Bump(e.addr.obj, e.version + 2));
    ViewPush(s.sh, t, buf + [Word(e.addr, e.val)] + [Bump(e.addr.obj, e.version + 2)], Count(n + 1));
    assert s.buf[t] == buf + [Word(e.addr, e.val)] + [Bump(e.addr.obj, e.version + 2)] + [Count(n + 1)];
  }

  // ---------------------------------------------------------------- what follows

  lemma Reached(w: Workload, logs: R.Logs, h: seq<Event>, sched: seq<Act>)
    requires LogsOk(w, h, logs)
    ensures Ok(w, logs, h, Exec(w, logs, sched))
  {
    hide ReplaySafety.Inv, BufInv, Exec, R.Exec;
    var rsched := ReplayTsoTheorems.TsoRefinesReplay(w, logs, h, sched);
  }

  /** Reads overtake buffered stores: from every reachable state a thread whose next access is a read of a version it
      sees completes it by its own steps alone.  No store leaves a buffer; the new memop joins the thread's own. */
  lemma ReadOverBuffer(w: Workload, logs: R.Logs, h: seq<Event>, sched: seq<Act>, t: Tid) returns (k: nat)
    requires LogsOk(w, h, logs) && t < w.nthr && CanRead(h, Exec(w, logs, sched), t)
    ensures var s, s' := Exec(w, logs, sched), Only(StepOf(w, logs), Exec(w, logs, sched), Go(t), k);
            && t < |s.flat.thr| == |s'.flat.thr| && t < |s.buf| && s.flat.thr[t].memop < |Own(h, t)|
            && s'.sh == s.sh && s'.buf == s.buf[t := s.buf[t] + [Count(s.flat.thr[t].memop + 1)]]
            && s'.flat.thr[t].trace == s.flat.thr[t].trace + [Own(h, t)[s.flat.thr[t].memop]]
  {
    hide LogsOk, Exec, Ok, CanRead, Only, Own, Step;
    Reached(w, logs, h, sched);
    k := ReadRun(w, logs, h, Exec(w, logs, sched), t);
  }

  /** A write and the read that follows it, both with no store leaving the buffer: from every reachable state in which a
      thread is past the reader wait of a write, its own steps alone complete the write, and then the read if the
      thread sees its version.  All four stores are then still in the buffer. */
  lemma WriteThenRead(w: Workload, logs: R.Logs, h: seq<Event>, sched: seq<Act>, t: Tid) returns (k: nat)
    requires LogsOk(w, h, logs) && t < w.nthr
    requires var s := Exec(w, logs, sched);
             && t < |s.flat.thr| == |s.buf| && s.flat.thr[t].pc.SeenWrite? && s.flat.thr[t].memop + 1 < |Own(h, t)|
             && var e, r := Own(h, t)[s.flat.thr[t].memop], Own(h, t)[s.flat.thr[t].memop + 1];
             && !r.write
             && r.version <= if r.addr.obj == e.addr.obj then e.version + 2 else SeenVersion(s, t, r.addr.obj)
    ensures var s, s' := Exec(w, logs, sched), Only(StepOf(w, logs), Exec(w, logs, sched), Go(t), k);
            var n := s.flat.thr[t].memop;
            var e, r := Own(h, t)[n], Own(h, t)[n + 1];
            && t < |s'.flat.thr| && s'.sh == s.sh && s'.flat.thr[t].trace == s.flat.thr[t].trace + [e, r]
            && s'.buf == s.buf[t := s.buf[t] + [Word(e.addr, e.val), Bump(e.addr.obj, e.version + 2), Count(n + 1),
                                                Count(n + 2)]]
  {
    hide LogsOk, Exec, Ok, Only, Own, Step, SeenVersion;
    Reached(w, logs, h, sched);
    var s := Exec(w, logs, sched);
    var n := s.flat.thr[t].memop;
    var i := WriteRun(w, logs, h, s, t);
    var s1 := Only(StepOf(w, logs), s, Go(t), i);
    SeenBehind(s, s1, t, Own(h, t)[n], n, Own(h, t)[n + 1].addr.obj);
    assert CanRead(h, s1, t);
    var j := ReadRun(w, logs, h, s1, t);
    OnlyPlus(StepOf(w, logs), s, Go(t), i, j);
    k := i + j;
    var e := Own(h, t)[n];
    AddedMore(s, s1, Only(StepOf(w, logs), s, Go(t), k), t, WriteStores(e, n), [Count(n + 2)]);
    assert WriteStores(e, n) + [Count(n + 2)]
        == [Word(e.addr, e.val), Bump(e.addr.obj, e.version + 2), Count(n + 1), Count(n + 2)];
  }

  /** Waiting threads see memory, not the buffers of others: in every reachable state a thread that waits for a version
      goes on exactly when that version has reached memory, unless it has itself a buffered store to the object, and
      one that waits for another thread's read exactly when that thread's memop has. */
  lemma SpinsOnMemory(w: Workload, logs: R.Logs, h: seq<Event>, sched: seq<Act>, t: Tid)
    requires LogsOk(w, h, logs) && t < w.nthr
    ensures var s := Exec(w, logs, sched);
            && Sized(s, w.nthr) && |logs.version| == w.nthr
            && (s.flat.thr[t].pc.SpinVersion? ==>
                  && s.flat.thr[t].memop < |Own(h, t)|
                  && var e := Own(h, t)[s.flat.thr[t].memop];
                  && (!Touches(s.buf[t], e.addr.obj) ==>
                        (Step(w, logs, s, Go(t)).Some? <==> e.version <= Num(s.sh.ver, e.addr.obj))))
            && (s.flat.thr[t].pc.SpinReader? ==>
                  var entry := s.flat.thr[t].pc.entry;
                  entry.tid < w.nthr && entry.tid != t ==>
                  (Step(w, logs, s, Go(t)).Some? <==> entry.memop < s.sh.count[entry.tid]))
  {
    hide LogsOk, Exec, Ok, Own, R.Step, Pushed, Merged, SeenBy, Touches;
    Reached(w, logs, h, sched);
    var s := Exec(w, logs, sched);
    OkFacts(w, logs, h, s, t);
    if s.flat.thr[t].pc.SpinVersion? { VersionSpin(w, logs, h, s, t); }
    if s.flat.thr[t].pc.SpinReader? { ReaderSpin(w, logs, h, s, t); }
  }

  lemma VersionSpin(w: Workload, logs: R.Logs, h: seq<Event>, s: State, t: Tid)
    requires Ok(w, logs, h, s) && Sized(s, w.nthr) && |logs.version| == w.nthr && t < w.nthr
    requires s.flat.thr[t].pc.SpinVersion?
    ensures s.flat.thr[t].memop < |Own(h, t)|
    ensures var e := Own(h, t)[s.flat.thr[t].memop];
            !Touches(s.buf[t], e.addr.obj) ==>
            (R.Step(w, logs, SeenBy(s, t), t).Some? <==> e.version <= Num(s.sh.ver, e.addr.obj))
  {
    hide Ok, View, Own, ThreadInv, Touches;
    OkFacts(w, logs, h, s, t);
    SpinsForRecorded(w, logs, h, s, t);
    var e := Own(h, t)[s.flat.thr[t].memop];
    assert R.CurrentOp(w, SeenBy(s, t), t) == R.CurrentOp(w, s.flat, t);
    if !Touches(s.buf[t], e.addr.obj) { ViewUntouched(s.sh, t, s.buf[t], e.addr.obj); }
  }

  lemma ReaderSpin(w: Workload, logs: R.Logs, h: seq<Event>, s: State, t: Tid)
    requires Ok(w, logs, h, s) && Sized(s, w.nthr) && |logs.version| == w.nthr && t < w.nthr
    requires s.flat.thr[t].pc.SpinReader?
    ensures var entry := s.flat.thr[t].pc.entry;
            entry.tid < w.nthr && entry.tid != t ==>
            (R.Step(w, logs, SeenBy(s, t), t).Some? <==> entry.memop < s.sh.count[entry.tid])
  {
    hide Ok, View, Own;
    OkFacts(w, logs, h, s, t);
    assert R.CurrentOp(w, SeenBy(s, t), t) == R.CurrentOp(w, s.flat, t);
    assert R.CurrentOp(w, s.flat, t).Write?;
  }
}
