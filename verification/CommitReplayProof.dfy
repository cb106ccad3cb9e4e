/** Token-passing replay repeats the recorded blocks in their order. */
module CommitReplayProof {
  import opened Mem
  import opened Blocks
  import opened CommitReplay

  /** A finished recording and its merged log. */
  ghost predicate LogOk(w: Workload, h: seq<Block>, log: seq<Tid>) {
    Serial(w, h) && Complete(w, h) && |log| == |h| && forall i | 0 <= i < |h| :: log[i] == h[i].tid
  }

  /** The accesses of the block in progress, for its own thread. */
  function Current(h: seq<Block>, n: nat, t: Tid): seq<Access> {
    if n < |h| && h[n].tid == t then h[n].accs else []
  }

  predicate AtEnd(pc: PC) {
    pc.ReadNext? || pc.SetNext? || pc.Return?
  }

  /** Where a thread is that has replayed k accesses of block n; cur is that block or, for a thread that does
      not own it, empty, and before is what the thread did in earlier blocks. */
  predicate Shape(w: Workload, t: Tid, th: Thread, before: seq<Access>, cur: seq<Access>, k: nat) {
    && k <= |cur| && th.trace == before + cur[..k] && th.pc != Failed
    && |th.trace| == th.bbcnt + (if AtEnd(th.pc) && !th.ending then 1 else 0)
    && (AtEnd(th.pc) && !th.ending ==> Phase(|th.trace|) == 0)
    && (th.ending ==> (AtEnd(th.pc) || th.pc.Done?))
    && (th.ending || th.pc.Done? ==> CurrentOp(w, t, th).Stop?)
    && (th.pc.Idle? ==> k < BATCH_N && (k == 0 ==> Phase(|th.trace|) == 0))
    && (th.pc.Check? || th.pc.Body? ==> k < |cur|)
    && (th.pc.ReadNext? || th.pc.SetNext? ==> 0 < k == |cur|)
    && (th.pc.Return? || th.pc.Done? ==> k == 0)
  }

  predicate ThreadInv(w: Workload, h: seq<Block>, n: nat, t: Tid, th: Thread)
    requires n <= |h|
  {
    var before := Committed(h[..n], t);
    |before| <= |th.trace| && Shape(w, t, th, before, Current(h, n, t), |th.trace| - |before|)
  }

  /** How far block n is. */
  function Progress(h: seq<Block>, n: nat, s: State): seq<Access>
    requires n < |h| && h[n].tid < |s.thr|
  {
    var k := |s.thr[h[n].tid].trace| - |Committed(h[..n], h[n].tid)|;
    if 0 <= k <= |h[n].accs| then h[n].accs[..k] else []
  }

  predicate Shared(w: Workload, h: seq<Block>, s: State, n: nat)
    requires n <= |h| && forall i | 0 <= i < |h| :: h[i].tid < |s.thr|
  {
    if n == |h| then s.cursor == |h| && s.mem == MemOf(w.init, h)
    else
      var pc := s.thr[h[n].tid].pc;
      && s.token == h[n].tid
      && s.cursor == (if pc.SetNext? then n + 2 else n + 1)
      && (pc.SetNext? ==> n + 1 < |h| && pc.next == h[n + 1].tid)
      && s.mem == After(MemOf(w.init, h[..n]), Progress(h, n, s))
  }

  /** The first n blocks are replayed, block n is under way, nothing else has happened. */
  ghost predicate Inv(w: Workload, h: seq<Block>, s: State, n: nat) {
    && n <= |h| && |s.thr| == w.nthr && (forall i | 0 <= i < |h| :: h[i].tid < |s.thr|)
    && (forall t | 0 <= t < |s.thr| :: ThreadInv(w, h, n, t, s.thr[t]))
    && Shared(w, h, s, n)
  }

  // ---------------------------------------------------------------- blocks

  lemma {:induction false} TidsBelow(w: Workload, h: seq<Block>, i: nat)
    requires Serial(w, h) && i < |h|
    ensures h[i].tid < w.nthr
  {
    SerialAt(w, h, i);
  }

  /** The k-th access of block n is what the program asks for when the earlier ones are done. */
  lemma BlockAt(w: Workload, h: seq<Block>, n: nat, k: nat)
    requires Serial(w, h) && n < |h| && k < |h[n].accs|
    ensures var before, f, e := Committed(h[..n], h[n].tid), h[n].accs[..k], h[n].accs[k];
            && Phase(|before|) == 0 && |h[n].accs| <= BATCH_N
            && Does(e, w.prog(h[n].tid, Returned(before + f)))
            && (!e.write ==> e.val == Get(After(MemOf(w.init, h[..n]), f), e.addr))
            && After(MemOf(w.init, h[..n]), h[n].accs[..k + 1])
               == if e.write then After(MemOf(w.init, h[..n]), f)[e.addr := e.val] else After(MemOf(w.init, h[..n]), f)
  {
    BlockRuns(w, h, n);
    hide *;
    var before, m, accs := Committed(h[..n], h[n].tid), MemOf(w.init, h[..n]), h[n].accs;
    RunsPrefix(w.prog, h[n].tid, before, m, accs, k + 1);
    assert accs[..k + 1] == accs[..k] + [accs[k]];
    OneMoreAccess(w.prog, h[n].tid, before, m, accs[..k], accs[k]);
  }

  lemma BlockRuns(w: Workload, h: seq<Block>, n: nat)
    requires Serial(w, h) && n < |h|
    ensures var before := Committed(h[..n], h[n].tid);
            && Phase(|before|) == 0 && |h[n].accs| <= BATCH_N
            && Runs(w.prog, h[n].tid, before, MemOf(w.init, h[..n]), h[n].accs)
  {
    hide Serial, Committed, MemOf, Runs, Returned, Phase;
    SerialAt(w, h, n);
  }

  lemma BlockDone(w: Workload, h: seq<Block>, n: nat, t: Tid)
    requires Serial(w, h) && n < |h|
    ensures Committed(h[..n + 1], t) == Committed(h[..n], t) + Current(h, n, t)
    ensures MemOf(w.init, h[..n + 1]) == After(MemOf(w.init, h[..n]), h[n].accs)
    ensures 0 < |h[n].accs| <= BATCH_N && Phase(|Committed(h[..n], h[n].tid)|) == 0
    ensures |h[n].accs| < BATCH_N ==> w.prog(h[n].tid, Returned(Committed(h[..n + 1], h[n].tid))) == Stop
  {
    SerialAt(w, h, n);
    assert h[..n + 1] == h[..n] + [h[n]];
    OneMoreBlock(w, h[..n], h[n], t);
    OneMoreBlock(w, h[..n], h[n], h[n].tid);
  }

  // ---------------------------------------------------------------- steps inside a block

  /** What the recording says about the thread's next operation. */
  predicate Facts(w: Workload, t: Tid, th: Thread, before: seq<Access>, cur: seq<Access>, k: nat, token: Tid) {
    && |cur| <= BATCH_N && (cur != [] ==> Phase(|before|) == 0)
    && (k < |cur| ==> Does(cur[k], CurrentOp(w, t, th)) && token == t)
    && (0 < |cur| < BATCH_N && k == |cur| ==> CurrentOp(w, t, th).Stop?)
    && (cur == [] && token == t ==> CurrentOp(w, t, th).Stop?)
  }

  lemma FactsHold(w: Workload, h: seq<Block>, log: seq<Tid>, s: State, n: nat, t: Tid)
    requires LogOk(w, h, log) && Inv(w, h, s, n) && t < |s.thr|
    ensures var th, before := s.thr[t], Committed(h[..n], t);
            && |before| <= |th.trace|
            && Facts(w, t, th, before, Current(h, n, t), |th.trace| - |before|, s.token)
            && (n == |h| ==> CurrentOp(w, t, th).Stop? && th.trace == Committed(h, t))
  {
    hide Serial, After, MemOf, Returned, Phase, Does, Committed, Runs, Shared, Shape;
    var th, before := s.thr[t], Committed(h[..n], t);
    assert ThreadInv(w, h, n, t, th);
    var k := |th.trace| - |before|;
    TraceOf(w, t, th, before, Current(h, n, t), k);
    if n == |h| {
      assert h[..n] == h;
    } else {
      SharedToken(w, h, s, n);
      if t == h[n].tid { OwnerFacts(w, h, s, n, k); }
    }
  }

  lemma TraceOf(w: Workload, t: Tid, th: Thread, before: seq<Access>, cur: seq<Access>, k: nat)
    requires Shape(w, t, th, before, cur, k)
    ensures k <= |cur| && th.trace == before + cur[..k] && (cur == [] ==> th.trace == before)
  {
  }

  /** The same for the thread whose block is under way. */
  lemma OwnerFacts(w: Workload, h: seq<Block>, s: State, n: nat, k: nat)
    requires Serial(w, h) && n < |h| && h[n].tid < |s.thr| && s.token == h[n].tid
    requires k <= |h[n].accs| && s.thr[h[n].tid].trace == Committed(h[..n], h[n].tid) + h[n].accs[..k]
    ensures var t := h[n].tid; Facts(w, t, s.thr[t], Committed(h[..n], t), h[n].accs, k, s.token)
  {
    hide Serial, After, MemOf, Returned, Phase, Does, Committed, Runs;
    var cur := h[n].accs;
    BlockDone(w, h, n, h[n].tid);
    if k < |cur| { BlockAt(w, h, n, k); } else { assert cur[..k] == cur; }
  }

  lemma SharedToken(w: Workload, h: seq<Block>, s: State, n: nat)
    requires n < |h| && (forall i | 0 <= i < |h| :: h[i].tid < |s.thr|) && Shared(w, h, s, n)
    ensures s.token == h[n].tid
  {
  }

  /** A step in which the thread makes no access and does not touch the log. */
  function Local(w: Workload, th: Thread, t: Tid, token: Tid): Thread {
    match th.pc
    case Idle =>
      if CurrentOp(w, t, th).Stop? then
        if Phase(th.bbcnt) == 0 then th.(pc := Done) else th.(pc := ReadNext, ending := true)
      else if Phase(th.bbcnt) == 0 && token != t then th
      else th.(pc := Check)
    case Check => th.(pc := if token == t then Body else Failed)
    case Return => if th.ending then th.(pc := Done) else th.(pc := Idle, bbcnt := th.bbcnt + 1)
    case _ => th
  }

  lemma LocalShape(w: Workload, t: Tid, th: Thread, before: seq<Access>, cur: seq<Access>, k: nat, token: Tid)
    requires Shape(w, t, th, before, cur, k) && Facts(w, t, th, before, cur, k, token)
    ensures Shape(w, t, Local(w, th, t, token), before, cur, k)
  {
    if th.pc.Idle? && cur != [] { PhaseInBlock(|before|, |th.trace|); }
    hide Phase, Returned;
  }

  lemma AccessShape(w: Workload, t: Tid, th: Thread, before: seq<Access>, cur: seq<Access>, k: nat, token: Tid)
    requires Shape(w, t, th, before, cur, k) && Facts(w, t, th, before, cur, k, token) && th.pc.Body?
    ensures Shape(w, t, Accessed(th, cur[k]), before, cur, k + 1)
  {
    PhaseInBlock(|before|, |th.trace|);
    PhaseInBlock(|before|, |th.trace| + 1);
    assert cur[..k + 1] == cur[..k] + [cur[k]];
    hide Phase, Returned;
  }

  lemma FetchShape(w: Workload, t: Tid, th: Thread, before: seq<Access>, cur: seq<Access>, k: nat, next: Tid)
    requires Shape(w, t, th, before, cur, k) && th.pc.ReadNext?
    ensures Shape(w, t, th.(pc := SetNext(next)), before, cur, k)
  {
    hide Phase, Returned;
  }

  /** The thread has passed the token on. */
  lemma PassedShape(w: Workload, t: Tid, th: Thread, before: seq<Access>, cur: seq<Access>, k: nat, cur': seq<Access>)
    requires Shape(w, t, th, before, cur, k) && (th.pc.ReadNext? || th.pc.SetNext?)
    ensures Shape(w, t, th.(pc := Return), before + cur, cur', 0) && th.trace == before + cur
  {
    hide Phase, Returned;
    assert cur[..k] == cur;
  }

  /** The next block begins. */
  lemma NewBlockShape(w: Workload, t: Tid, th: Thread, before: seq<Access>, cur: seq<Access>)
    requires Shape(w, t, th, before, [], 0)
    ensures Shape(w, t, th, before, cur, 0)
  {
    hide Phase, Returned;
  }

  // ---------------------------------------------------------------- steps of the whole state

  /** One thread changes and block n stays where it is. */
  lemma LocalKeeps(w: Workload, h: seq<Block>, s: State, n: nat, t: Tid, th': Thread)
    requires Inv(w, h, s, n) && t < |s.thr| && ThreadInv(w, h, n, t, th')
    requires th'.trace == s.thr[t].trace && !th'.pc.SetNext? && !s.thr[t].pc.SetNext?
    ensures Inv(w, h, With(s, t, th'), n)
  {
    hide ThreadInv, After, MemOf, Committed;
  }

  lemma PlainKeeps(w: Workload, h: seq<Block>, log: seq<Tid>, s: State, n: nat, t: Tid)
    requires LogOk(w, h, log) && Inv(w, h, s, n) && t < |s.thr| && Step(w, log, s, t).Some?
    requires s.thr[t].pc.Idle? || s.thr[t].pc.Check? || s.thr[t].pc.Return?
    ensures Inv(w, h, Step(w, log, s, t).value, n)
  {
    hide Shape, Facts, Step, Shared, Committed, LogOk, Local;
    var th, before, cur := s.thr[t], Committed(h[..n], t), Current(h, n, t);
    assert ThreadInv(w, h, n, t, th);
    FactsHold(w, h, log, s, n, t);
    LocalShape(w, t, th, before, cur, |th.trace| - |before|, s.token);
    LocalIsStep(w, log, s, t);
    LocalKeeps(w, h, s, n, t, Local(w, th, t, s.token));
  }

  lemma LocalIsStep(w: Workload, log: seq<Tid>, s: State, t: Tid)
    requires t < |s.thr| && Step(w, log, s, t).Some?
    requires s.thr[t].pc.Idle? || s.thr[t].pc.Check? || s.thr[t].pc.Return?
    ensures var th' := Local(w, s.thr[t], t, s.token);
            && Step(w, log, s, t).value == With(s, t, th') && th'.trace == s.thr[t].trace && !th'.pc.SetNext?
  {
    hide Returned, Phase;
  }

  lemma BodyKeeps(w: Workload, h: seq<Block>, log: seq<Tid>, s: State, n: nat, t: Tid)
    requires LogOk(w, h, log) && Inv(w, h, s, n) && t < |s.thr| && Step(w, log, s, t).Some? && s.thr[t].pc.Body?
    ensures Inv(w, h, Step(w, log, s, t).value, n)
  {
    var th, before, cur := s.thr[t], Committed(h[..n], t), Current(h, n, t);
    var k := |th.trace| - |before|;
    assert ThreadInv(w, h, n, t, th);
    FactsHold(w, h, log, s, n, t);
    AccessShape(w, t, th, before, cur, k, s.token);
    BodyStep(w, h, log, s, n, k);
    hide Shape, Facts, Step, Shared, Committed, After, MemOf, Accessed, Progress;
  }

  /** The replayed access is the recorded one. */
  lemma BodyStep(w: Workload, h: seq<Block>, log: seq<Tid>, s: State, n: nat, k: nat)
    requires LogOk(w, h, log) && n < |h| && (forall i | 0 <= i < |h| :: h[i].tid < |s.thr|) && Shared(w, h, s, n)
    requires var t := h[n].tid;
             && k < |h[n].accs| && s.thr[t].pc.Body? && s.thr[t].trace == Committed(h[..n], t) + h[n].accs[..k]
    ensures var t := h[n].tid;
            var s' := Step(w, log, s, t);
            && s'.Some? && s'.value == With(s, t, Accessed(s.thr[t], h[n].accs[k])).(mem := s'.value.mem)
            && Shared(w, h, s'.value, n)
  {
    hide Serial, Committed, After, MemOf, Returned, Phase, Complete, Shared, Step, Accessed;
    var t, e := h[n].tid, h[n].accs[k];
    SharedMem(w, h, s, n, k);
    BlockAt(w, h, n, k);
    MakesAccess(w, log, s, t, e);
    BodyShared(w, h, s, n, k);
  }

  lemma SharedMem(w: Workload, h: seq<Block>, s: State, n: nat, k: nat)
    requires n < |h| && (forall i | 0 <= i < |h| :: h[i].tid < |s.thr|) && Shared(w, h, s, n) && k <= |h[n].accs|
    requires s.thr[h[n].tid].trace == Committed(h[..n], h[n].tid) + h[n].accs[..k]
    ensures Progress(h, n, s) == h[n].accs[..k] && s.mem == After(MemOf(w.init, h[..n]), h[n].accs[..k])
  {
    hide Committed, After, MemOf;
  }

  function Stored(m: Memory, e: Access): Memory {
    if e.write then m[e.addr := e.val] else m
  }

  lemma MakesAccess(w: Workload, log: seq<Tid>, s: State, t: Tid, e: Access)
    requires t < |s.thr| && s.thr[t].pc.Body? && Does(e, CurrentOp(w, t, s.thr[t]))
    requires !e.write ==> e.val == Get(s.mem, e.addr)
    ensures Step(w, log, s, t) == Some(With(s, t, Accessed(s.thr[t], e)).(mem := Stored(s.mem, e)))
  {
    hide Returned, Accessed;
  }

  lemma BodyShared(w: Workload, h: seq<Block>, s: State, n: nat, k: nat)
    requires n < |h| && (forall i | 0 <= i < |h| :: h[i].tid < |s.thr|) && Shared(w, h, s, n) && k < |h[n].accs|
    requires var t := h[n].tid; s.thr[t].pc.Body? && s.thr[t].trace == Committed(h[..n], t) + h[n].accs[..k]
    requires Stored(s.mem, h[n].accs[k]) == After(MemOf(w.init, h[..n]), h[n].accs[..k + 1])
    ensures var t, e := h[n].tid, h[n].accs[k];
            Shared(w, h, With(s, t, Accessed(s.thr[t], e)).(mem := Stored(s.mem, e)), n)
  {
    hide Committed, After, MemOf, Stored, Phase;
    var t, e, accs := h[n].tid, h[n].accs[k], h[n].accs;
    var s' := With(s, t, Accessed(s.thr[t], e)).(mem := Stored(s.mem, e));
    assert accs[..k + 1] == accs[..k] + [e];
    assert s'.thr[t].trace == Committed(h[..n], t) + accs[..k + 1];
    assert Progress(h, n, s') == accs[..k + 1];
    hide Progress;
  }

  lemma FetchKeeps(w: Workload, h: seq<Block>, log: seq<Tid>, s: State, n: nat, t: Tid)
    requires LogOk(w, h, log) && Inv(w, h, s, n) && t < |s.thr| && s.thr[t].pc.ReadNext? && s.cursor < |log|
    ensures Inv(w, h, Step(w, log, s, t).value, n)
  {
    hide Committed, After, MemOf, Serial, Complete, Shape, CurrentOp, Shared;
    var th, before, cur := s.thr[t], Committed(h[..n], t), Current(h, n, t);
    assert ThreadInv(w, h, n, t, th);
    FetchShape(w, t, th, before, cur, |th.trace| - |before|, log[s.cursor]);
    HoldsBlock(w, h, n, t, th);
    FetchShared(w, h, log, s, n);
    assert ThreadInv(w, h, n, t, th.(pc := SetNext(log[s.cursor])));
    hide ThreadInv;
  }

  lemma FetchShared(w: Workload, h: seq<Block>, log: seq<Tid>, s: State, n: nat)
    requires n < |h| == |log| && (forall i | 0 <= i < |h| :: h[i].tid < |s.thr| && log[i] == h[i].tid)
    requires Shared(w, h, s, n) && s.thr[h[n].tid].pc.ReadNext? && s.cursor < |log|
    ensures var t := h[n].tid;
            Shared(w, h, With(s, t, s.thr[t].(pc := SetNext(log[s.cursor]))).(cursor := s.cursor + 1), n)
  {
    hide Committed, After, MemOf;
  }

  /** The token moves on: block n is complete. */
  lemma PassKeeps(w: Workload, h: seq<Block>, s: State, n: nat, t: Tid, s': State)
    requires Serial(w, h) && Inv(w, h, s, n) && t < |s.thr|
    requires if s.thr[t].pc.ReadNext? then s.cursor == |h| && s' == With(s, t, s.thr[t].(pc := Return))
             else s.thr[t].pc.SetNext? && s' == With(s, t, s.thr[t].(pc := Return)).(token := s.thr[t].pc.next)
    ensures n < |h| && Inv(w, h, s', n + 1)
  {
    var th := s.thr[t];
    assert ThreadInv(w, h, n, t, th);
    HoldsBlock(w, h, n, t, th);
    hide ThreadInv, Committed, After, MemOf, Serial, Shared;
    forall u | 0 <= u < |s'.thr|
      ensures ThreadInv(w, h, n + 1, u, s'.thr[u])
              && |s'.thr[u].trace| == |Committed(h[..n + 1], u)| && !s'.thr[u].pc.SetNext?
    {
      assert ThreadInv(w, h, n, u, s.thr[u]);
      PassThread(w, h, n, u, s.thr[u]);
    }
    PassShared(w, h, s, n, s');
  }

  lemma HoldsBlock(w: Workload, h: seq<Block>, n: nat, t: Tid, th: Thread)
    requires n <= |h| && ThreadInv(w, h, n, t, th) && (th.pc.ReadNext? || th.pc.SetNext?)
    ensures n < |h| && h[n].tid == t && th.trace == Committed(h[..n], t) + h[n].accs
  {
    var cur := Current(h, n, t);
    assert cur[..|cur|] == cur;
  }

  lemma PassThread(w: Workload, h: seq<Block>, n: nat, u: Tid, th: Thread)
    requires Serial(w, h) && n < |h| && ThreadInv(w, h, n, u, th)
    requires u == h[n].tid ==> th.pc.ReadNext? || th.pc.SetNext?
    ensures var th' := if u == h[n].tid then th.(pc := Return) else th;
            ThreadInv(w, h, n + 1, u, th') && |th'.trace| == |Committed(h[..n + 1], u)| && !th'.pc.SetNext?
  {
    var before, cur, next := Committed(h[..n], u), Current(h, n, u), Current(h, n + 1, u);
    BlockDone(w, h, n, u);
    hide Committed, After, MemOf, Serial, Returned, Phase;
    if u == h[n].tid {
      PassedShape(w, u, th, before, cur, |th.trace| - |before|, next);
    } else {
      NewBlockShape(w, u, th, before, next);
    }
  }

  lemma PassShared(w: Workload, h: seq<Block>, s: State, n: nat, s': State)
    requires Serial(w, h) && n < |h| && (forall i | 0 <= i < |h| :: h[i].tid < |s.thr|) && Shared(w, h, s, n)
    requires var t := h[n].tid;
             && s.thr[t].trace == Committed(h[..n], t) + h[n].accs
             && if s.thr[t].pc.ReadNext? then s.cursor == |h| && s' == With(s, t, s.thr[t].(pc := Return))
                else s.thr[t].pc.SetNext? && s' == With(s, t, s.thr[t].(pc := Return)).(token := s.thr[t].pc.next)
    requires n + 1 < |h| ==>
               && |s'.thr[h[n + 1].tid].trace| == |Committed(h[..n + 1], h[n + 1].tid)|
               && !s'.thr[h[n + 1].tid].pc.SetNext?
    ensures Shared(w, h, s', n + 1)
  {
    BlockDone(w, h, n, h[n].tid);
    assert Progress(h, n, s) == h[n].accs;
    if n + 1 == |h| {
      assert h[..n + 1] == h;
    } else {
      assert Progress(h, n + 1, s') == [];
      assert After(MemOf(w.init, h[..n + 1]), []) == MemOf(w.init, h[..n + 1]);
    }
    hide Committed, After, MemOf, Serial;
  }

  lemma StepKeeps(w: Workload, h: seq<Block>, log: seq<Tid>, s: State, n: nat, t: Tid) returns (n': nat)
    requires LogOk(w, h, log) && Inv(w, h, s, n) && t < |s.thr| && Step(w, log, s, t).Some?
    ensures Inv(w, h, Step(w, log, s, t).value, n')
  {
    n' := n;
    var pc := s.thr[t].pc;
    assert pc != Failed by { assert ThreadInv(w, h, n, t, s.thr[t]); }
    assert s.cursor <= |h| by { CursorBound(w, h, s, n); }
    hide Inv;
    if pc.Body? {
      BodyKeeps(w, h, log, s, n, t);
    } else if pc.ReadNext? && s.cursor < |log| {
      FetchKeeps(w, h, log, s, n, t);
    } else if pc.ReadNext? || pc.SetNext? {
      n' := n + 1;
      PassKeeps(w, h, s, n, t, Step(w, log, s, t).value);
    } else {
      PlainKeeps(w, h, log, s, n, t);
    }
  }

  lemma Sized(w: Workload, h: seq<Block>, s: State, n: nat)
    requires Inv(w, h, s, n)
    ensures |s.thr| == w.nthr
  {
  }

  lemma CursorBound(w: Workload, h: seq<Block>, s: State, n: nat)
    requires Inv(w, h, s, n)
    ensures s.cursor <= |h|
  {
  }

  lemma InitInv(w: Workload, h: seq<Block>, log: seq<Tid>)
    requires LogOk(w, h, log)
    ensures Inv(w, h, Init(w, log), 0)
  {
    var s := Init(w, log);
    forall i | 0 <= i < |h| ensures h[i].tid < |s.thr| { TidsBelow(w, h, i); }
    assert h[..0] == [];
    forall t | 0 <= t < |s.thr| ensures ThreadInv(w, h, 0, t, s.thr[t]) {
    }
    if h != [] {
      assert Progress(h, 0, s) == [];
    }
  }

  lemma {:induction false} ExecInv(w: Workload, h: seq<Block>, log: seq<Tid>, sched: seq<Tid>) returns (n: nat)
    requires LogOk(w, h, log)
    ensures Inv(w, h, Exec(w, log, sched), n)
  {
    hide Inv, Step, LogOk;
    if sched == [] {
      InitInv(w, h, log);
      n := 0;
    } else {
      n := ExecInv(w, h, log, Front(sched));
      var s, t := Exec(w, log, Front(sched)), Last(sched);
      if t < |s.thr| && Step(w, log, s, t).Some? { n := StepKeeps(w, h, log, s, n, t); }
    }
  }

  // ---------------------------------------------------------------- determinism

  /** Every replay schedule only ever does the recorded blocks in their order: the assertion holds, some n blocks
      are complete and block n is under way, and each thread has made exactly these accesses; when all
      threads are done so are all blocks, and memory is the recorded memory. */
  lemma CommitReplayDeterminism(w: Workload, h: seq<Block>, log: seq<Tid>, sched: seq<Tid>) returns (n: nat)
    requires LogOk(w, h, log)
    ensures var s := Exec(w, log, sched);
            && n <= |h| && |s.thr| == w.nthr
            && (forall t | 0 <= t < w.nthr ::
                  && s.thr[t].pc != Failed && Committed(h[..n], t) <= s.thr[t].trace
                  && s.thr[t].trace <= Committed(h[..n], t) + Current(h, n, t))
            && (Finished(s) ==>
                  && n == |h| && s.mem == MemOf(w.init, h)
                  && forall t | 0 <= t < w.nthr :: s.thr[t].trace == Committed(h, t))
  {
    n := ExecInv(w, h, log, sched);
    var s := Exec(w, log, sched);
    hide Exec, Committed, MemOf, After, Shared, Serial, Returned, Phase, Progress;
    forall t | 0 <= t < w.nthr
      ensures s.thr[t].pc != Failed && Committed(h[..n], t) <= s.thr[t].trace
              && s.thr[t].trace <= Committed(h[..n], t) + Current(h, n, t)
    {
      assert ThreadInv(w, h, n, t, s.thr[t]);
    }
    if Finished(s) { FinishedAll(w, h, log, s, n); }
  }

  lemma FinishedAll(w: Workload, h: seq<Block>, log: seq<Tid>, s: State, n: nat)
    requires LogOk(w, h, log) && Inv(w, h, s, n) && Finished(s)
    ensures n == |h| && s.mem == MemOf(w.init, h) && forall t | 0 <= t < w.nthr :: s.thr[t].trace == Committed(h, t)
  {
    if n < |h| { NotDone(w, h, log, s, n); }
    forall t | 0 <= t < w.nthr ensures s.thr[t].trace == Committed(h, t) {
      FactsHold(w, h, log, s, n, t);
    }
  }

  /** The thread of the current block has not finished. */
  lemma NotDone(w: Workload, h: seq<Block>, log: seq<Tid>, s: State, n: nat)
    requires LogOk(w, h, log) && Inv(w, h, s, n) && n < |h|
    ensures s.thr[h[n].tid].pc != Done
  {
    var t := h[n].tid;
    FactsHold(w, h, log, s, n, t);
    assert ThreadInv(w, h, n, t, s.thr[t]);
    BlockDone(w, h, n, t);
    hide Committed, MemOf, After, Shared, Serial, Returned, Phase, Progress;
  }

  // ---------------------------------------------------------------- progress

  /** No deadlock: while some thread is not done, the owner of the current block, or any thread once all blocks
      are complete, can step. */
  lemma CommitReplayProgress(w: Workload, h: seq<Block>, log: seq<Tid>, sched: seq<Tid>) returns (t: Tid)
    requires LogOk(w, h, log) && !Finished(Exec(w, log, sched))
    ensures t < |Exec(w, log, sched).thr| && Step(w, log, Exec(w, log, sched), t).Some?
  {
    var n := ExecInv(w, h, log, sched);
    var s := Exec(w, log, sched);
    hide Exec, LogOk, ThreadInv, Shared, Facts, Shape, Step;
    if n < |h| {
      t := h[n].tid;
      NotDone(w, h, log, s, n);
      SharedToken(w, h, s, n);
    } else {
      t :| 0 <= t < |s.thr| && s.thr[t].pc != Done;
    }
    FactsHold(w, h, log, s, n, t);
    CanStep(w, h, log, s, n, t);
  }

  lemma CanStep(w: Workload, h: seq<Block>, log: seq<Tid>, s: State, n: nat, t: Tid)
    requires t < |s.thr| && n <= |h| && ThreadInv(w, h, n, t, s.thr[t]) && s.thr[t].pc != Done
    requires var before := Committed(h[..n], t);
             Facts(w, t, s.thr[t], before, Current(h, n, t), |s.thr[t].trace| - |before|, s.token)
    requires s.token == t || CurrentOp(w, t, s.thr[t]).Stop?
    ensures Step(w, log, s, t).Some?
  {
    hide Committed, Returned, Phase;
  }

  // ---------------------------------------------------------------- termination

  /** Steps a thread can still take before its next access, at most. */
  function Rank(th: Thread): nat {
    match th.pc
    case ReadNext => if th.ending then 5 else 9
    case SetNext(_) => if th.ending then 4 else 8
    case Return => if th.ending then 3 else 7
    case Idle => 6
    case Check => 5
    case Body => 4
    case _ => 0
  }

  function Left(h: seq<Block>, t: Tid, th: Thread): int {
    10 * (|Committed(h, t)| - |th.trace|) + Rank(th)
  }

  function Measure(h: seq<Block>, thr: seq<Thread>, n: nat): int
    requires n <= |thr|
  {
    if n == 0 then 0 else Measure(h, thr, n - 1) + Left(h, n - 1, thr[n - 1])
  }

  lemma {:induction false} MeasureUpdate(h: seq<Block>, thr: seq<Thread>, t: Tid, th: Thread, n: nat)
    requires t < |thr| && n <= |thr|
    ensures Measure(h, thr[t := th], n) == Measure(h, thr, n) + if t < n then Left(h, t, th) - Left(h, t, thr[t]) else 0
  {
    hide Left;
    if n > 0 { MeasureUpdate(h, thr, t, th, n - 1); }
  }

  lemma {:induction false} CommittedGrows(h: seq<Block>, t: Tid, n: nat)
    requires n <= |h|
    ensures |Committed(h[..n], t)| + |Current(h, n, t)| <= |Committed(h, t)|
  {
    if n == |h| {
      assert h[..n] == h;
    } else if n < |h| - 1 {
      CommittedGrows(Front(h), t, n);
      assert Front(h)[..n] == h[..n];
    }
  }

  lemma {:induction false} MeasureNonNegative(w: Workload, h: seq<Block>, s: State, n: nat, k: nat)
    requires Inv(w, h, s, n) && k <= |s.thr|
    ensures 0 <= Measure(h, s.thr, k)
  {
    hide Left, ThreadInv, Shared;
    if k > 0 {
      MeasureNonNegative(w, h, s, n, k - 1);
      LeftNonNegative(w, h, n, k - 1, s.thr[k - 1]);
    }
  }

  lemma LeftNonNegative(w: Workload, h: seq<Block>, n: nat, t: Tid, th: Thread)
    requires n <= |h| && ThreadInv(w, h, n, t, th)
    ensures 0 <= Left(h, t, th)
  {
    CommittedGrows(h, t, n);
    hide Committed, Returned, Phase;
  }

  lemma StepDrops(w: Workload, h: seq<Block>, log: seq<Tid>, s: State, t: Tid)
    requires t < |s.thr| && Step(w, log, s, t).Some? && !s.thr[t].pc.Failed? && (s.thr[t].ending ==> AtEnd(s.thr[t].pc))
    ensures var s' := Step(w, log, s, t).value;
            |s'.thr| == |s.thr| && Measure(h, s'.thr, |s.thr|) <= Measure(h, s.thr, |s.thr|) - 1
  {
    var s' := Step(w, log, s, t).value;
    hide Committed, Returned, Phase, Measure;
    assert s'.thr == s.thr[t := s'.thr[t]];
    MeasureUpdate(h, s.thr, t, s'.thr[t], |s.thr|);
  }

  lemma NotEnding(w: Workload, h: seq<Block>, log: seq<Tid>, s: State, n: nat, t: Tid)
    requires Inv(w, h, s, n) && t < |s.thr| && Step(w, log, s, t).Some?
    ensures !s.thr[t].pc.Failed? && (s.thr[t].ending ==> AtEnd(s.thr[t].pc))
  {
    assert ThreadInv(w, h, n, t, s.thr[t]);
  }
}
