/** What a thread that has the token does alone with its stores buffered: it replays its whole block, and nobody else
    notices. */
module CommitReplayPaths {
  import opened Mem
  import opened Schedules
  import opened Blocks
  import opened CommitReplayTso
  import opened CommitReplayTsoProof
  import R = CommitReplay
  import P = CommitReplayProof

  /** What every schedule keeps: the first n blocks are replayed, block n is under way. */
  ghost predicate Ok(w: Workload, h: seq<Block>, log: seq<Tid>, s: State, n: nat) {
    P.LogOk(w, h, log) && P.Inv(w, h, s.flat, n) && TokenInv(s)
  }

  /** The plain stores of the accesses, oldest first. */
  function Stores(accs: seq<Access>): seq<Store> {
    if accs == [] then []
    else Stores(Front(accs)) + if Last(accs).write then [Word(Last(accs).addr, Last(accs).val)] else []
  }

  /** The stores that pass the token on; after the last block there are none. */
  function Handover(h: seq<Block>, n: nat): seq<Store> {
    if n + 1 < |h| then [Cursor(n + 2), Token(h[n + 1].tid)] else []
  }

  /** Since s0 only thread t has moved, it has added these stores to its buffer, and memory is as it was. */
  predicate Added(s0: State, s: State, t: Tid, st: seq<Store>) {
    && t < |s0.buf| == |s.buf| && s.sh == s0.sh && s.buf == s0.buf[t := s0.buf[t] + st]
    && t < |s0.flat.thr| == |s.flat.thr| && s.flat.thr == s0.flat.thr[t := s.flat.thr[t]]
  }

  lemma AddedMore(s0: State, s: State, s': State, t: Tid, a: seq<Store>, b: seq<Store>)
    requires Added(s0, s, t, a) && Added(s, s', t, b)
    ensures Added(s0, s', t, a + b)
  {
    assert s0.buf[t] + (a + b) == s0.buf[t] + a + b;
  }

  /** How many accesses of block n its thread has made. */
  function Made(h: seq<Block>, s: State, n: nat): int
    requires n < |h| && h[n].tid < |s.flat.thr|
  {
    |s.flat.thr[h[n].tid].trace| - |Committed(h[..n], h[n].tid)|
  }

  /** The stores made so far in block n. */
  function SoFar(h: seq<Block>, s: State, n: nat): seq<Store>
    requires n < |h| && h[n].tid < |s.flat.thr|
  {
    var k := Made(h, s, n);
    (if 0 <= k <= |h[n].accs| then Stores(h[n].accs[..k]) else [])
    + if s.flat.thr[h[n].tid].pc.SetNext? then [Cursor(n + 2)] else []
  }

  /** In block n, which began in s0, with its stores so far at the end of the buffer. */
  ghost predicate Way(w: Workload, h: seq<Block>, log: seq<Tid>, s0: State, n: nat, s: State) {
    && n < |h| && h[n].tid < |s.flat.thr| && Ok(w, h, log, s, n) && s.sh.token == h[n].tid
    && Added(s0, s, h[n].tid, SoFar(h, s, n)) && !s.flat.thr[h[n].tid].pc.Return?
  }

  /** Block n, which began in s0, is replayed, and all its stores and those that pass the token on are in the buffer. */
  ghost predicate Passed(w: Workload, h: seq<Block>, log: seq<Tid>, s0: State, n: nat, s: State) {
    && n < |h| && h[n].tid < |s.flat.thr| && Ok(w, h, log, s, n + 1)
    && Added(s0, s, h[n].tid, Stores(h[n].accs) + Handover(h, n))
    && s.flat.thr[h[n].tid].pc.Return?
    && s.flat.thr[h[n].tid].trace == Committed(h[..n], h[n].tid) + h[n].accs
  }

  // ---------------------------------------------------------------- one step

  /** The thread with the token sees the flat memory and can step. */
  lemma HolderCanStep(w: Workload, h: seq<Block>, log: seq<Tid>, s: State, n: nat)
    requires n < |h| && h[n].tid < |s.flat.thr| && Ok(w, h, log, s, n) && s.sh.token == h[n].tid
    ensures var t := h[n].tid;
            && t < |s.buf| == |s.flat.thr| && SeenBy(s, t) == s.flat && R.Step(w, log, s.flat, t).Some?
            && P.ThreadInv(w, h, n, t, s.flat.thr[t]) && s.flat.token == t && !s.flat.thr[t].pc.Done?
            && s.flat.thr[t].pc != R.Failed
  {
    hide P.LogOk, P.Shape, P.Facts, R.Step, View, P.Shared;
    var t := h[n].tid;
    P.NotDone(w, h, log, s.flat, n);
    P.FactsHold(w, h, log, s.flat, n, t);
    P.SharedToken(w, h, s.flat, n);
    assert P.ThreadInv(w, h, n, t, s.flat.thr[t]);
    HolderSees(s, t);
    P.CanStep(w, h, log, s.flat, n, t);
    NotFailed(w, h, n, t, s.flat.thr[t]);
  }

  lemma NotFailed(w: Workload, h: seq<Block>, n: nat, t: Tid, th: R.Thread)
    requires n <= |h| && P.ThreadInv(w, h, n, t, th)
    ensures th.pc != R.Failed && |Committed(h[..n], t)| <= |th.trace|
    ensures |th.trace| - |Committed(h[..n], t)| <= |P.Current(h, n, t)|
    ensures th.trace == Committed(h[..n], t) + P.Current(h, n, t)[..|th.trace| - |Committed(h[..n], t)|]
    ensures th.pc.Body? ==> |th.trace| - |Committed(h[..n], t)| < |P.Current(h, n, t)|
    ensures th.pc.ReadNext? || th.pc.SetNext? ==> th.trace == Committed(h[..n], t) + P.Current(h, n, t)
  {
    hide Committed, Phase, Returned;
    var cur := P.Current(h, n, t);
    assert cur[..|cur|] == cur;
  }

  /** What the holder's step adds to its buffer. */
  lemma HolderStepAdds(w: Workload, h: seq<Block>, log: seq<Tid>, s: State, n: nat)
    requires n < |h| && h[n].tid < |s.flat.thr| && Ok(w, h, log, s, n) && s.sh.token == h[n].tid
    ensures var t := h[n].tid;
            && Step(w, log, s, Go(t)).Some?
            && var s' := Step(w, log, s, Go(t)).value;
            && R.Step(w, log, s.flat, t) == Some(s'.flat) && TokenInv(s') && s'.sh.token == t
            && Added(s, s', t, Pushed(log, s.flat, t, R.CurrentOp(w, t, s.flat.thr[t])))
            && P.Measure(h, s'.flat.thr, |s'.flat.thr|) < P.Measure(h, s.flat.thr, |s.flat.thr|)
  {
    hide R.Step, P.Inv, P.LogOk, P.ThreadInv, View, Pushed, P.Measure, TokenInv;
    var t := h[n].tid;
    HolderCanStep(w, h, log, s, n);
    HolderStep(w, log, s.flat, t);
    GoKeeps(w, h, log, s, n, t);
    P.NotEnding(w, h, log, s.flat, n, t);
    P.StepDrops(w, h, log, s.flat, t);
  }

  lemma PlainMoves(w: Workload, h: seq<Block>, log: seq<Tid>, flat: R.State, n: nat)
    requires P.LogOk(w, h, log) && P.Inv(w, h, flat, n) && n < |h| && R.Step(w, log, flat, h[n].tid).Some?
    requires var pc := flat.thr[h[n].tid].pc; pc.Idle? || pc.Check?
    ensures var t, flat' := h[n].tid, R.Step(w, log, flat, h[n].tid).value;
            && P.Inv(w, h, flat', n) && t < |flat'.thr|
            && flat'.thr[t].trace == flat.thr[t].trace && !flat'.thr[t].pc.SetNext? && !flat'.thr[t].pc.Return?
            && Pushed(log, flat, t, R.CurrentOp(w, t, flat.thr[t])) == []
  {
    P.PlainKeeps(w, h, log, flat, n, h[n].tid);
    hide P.LogOk, P.Inv, Returned, Phase;
  }

  lemma BodyMoves(w: Workload, h: seq<Block>, log: seq<Tid>, flat: R.State, n: nat, k: nat)
    requires P.LogOk(w, h, log) && P.Inv(w, h, flat, n) && n < |h| && flat.thr[h[n].tid].pc.Body?
    requires k < |h[n].accs| && flat.thr[h[n].tid].trace == Committed(h[..n], h[n].tid) + h[n].accs[..k]
    ensures R.Step(w, log, flat, h[n].tid).Some?
    ensures var t, flat', e := h[n].tid, R.Step(w, log, flat, h[n].tid).value, h[n].accs[k];
            && P.Inv(w, h, flat', n) && t < |flat'.thr|
            && flat'.thr[t].trace == flat.thr[t].trace + [e] && !flat'.thr[t].pc.SetNext? && !flat'.thr[t].pc.Return?
            && Pushed(log, flat, t, R.CurrentOp(w, t, flat.thr[t])) == if e.write then [Word(e.addr, e.val)] else []
  {
    hide P.LogOk, Committed, R.Step, Returned, Phase, P.ThreadInv, P.Shared, After, MemOf, Serial;
    var t, e := h[n].tid, h[n].accs[k];
    P.BodyStep(w, h, log, flat, n, k);
    P.BodyKeeps(w, h, log, flat, n, t);
    SerialOf(w, h, log);
    P.BlockAt(w, h, n, k);
  }

  lemma SerialOf(w: Workload, h: seq<Block>, log: seq<Tid>)
    requires P.LogOk(w, h, log)
    ensures Serial(w, h) && |log| == |h|
  {
  }

  lemma EndMoves(w: Workload, h: seq<Block>, log: seq<Tid>, flat: R.State, n: nat)
    requires P.LogOk(w, h, log) && P.Inv(w, h, flat, n) && n < |h| && R.Step(w, log, flat, h[n].tid).Some?
    requires var pc := flat.thr[h[n].tid].pc; pc.ReadNext? || pc.SetNext?
    ensures var t, flat' := h[n].tid, R.Step(w, log, flat, h[n].tid).value;
            && t < |flat'.thr| && flat'.thr[t].trace == flat.thr[t].trace
            && var st := Pushed(log, flat, t, R.CurrentOp(w, t, flat.thr[t]));
            if flat.thr[t].pc.ReadNext? && n + 1 < |h| then
              P.Inv(w, h, flat', n) && flat'.thr[t].pc.SetNext? && st == [Cursor(n + 2)]
            else
              && P.Inv(w, h, flat', n + 1) && flat'.thr[t].pc.Return?
              && st == if flat.thr[t].pc.ReadNext? then [] else [Token(h[n + 1].tid)]
  {
    hide Serial, Complete, Committed, After, MemOf, P.ThreadInv, Returned, Phase;
    var t := h[n].tid;
    assert flat.thr[t].pc.ReadNext? ==> flat.cursor == n + 1;
    if flat.thr[t].pc.ReadNext? && n + 1 < |h| {
      P.FetchKeeps(w, h, log, flat, n, t);
    } else {
      P.PassKeeps(w, h, flat, n, t, R.Step(w, log, flat, t).value);
    }
  }

  // ---------------------------------------------------------------- the whole block

  lemma OneMoreStore(accs: seq<Access>, k: nat)
    requires k < |accs|
    ensures Stores(accs[..k + 1]) == Stores(accs[..k]) + if accs[k].write then [Word(accs[k].addr, accs[k].val)] else []
  {
    assert Front(accs[..k + 1]) == accs[..k];
  }

  /** The stores so far after a step inside the block. */
  lemma SoFarMore(w: Workload, h: seq<Block>, log: seq<Tid>, s: State, s': State, n: nat, st: seq<Store>)
    requires n < |h| && h[n].tid < |s.flat.thr| == |s'.flat.thr| && P.ThreadInv(w, h, n, h[n].tid, s.flat.thr[h[n].tid])
    requires var th, th' := s.flat.thr[h[n].tid], s'.flat.thr[h[n].tid];
             && !th.pc.SetNext?
             && if th.pc.Body? then
                  var k := Made(h, s, n);
                  && 0 <= k < |h[n].accs| && th'.trace == th.trace + [h[n].accs[k]] && !th'.pc.SetNext?
                  && st == if h[n].accs[k].write then [Word(h[n].accs[k].addr, h[n].accs[k].val)] else []
                else th'.trace == th.trace && st == if th'.pc.SetNext? then [Cursor(n + 2)] else []
    ensures SoFar(h, s', n) == SoFar(h, s, n) + st
  {
    hide Stores, Committed, P.Shape, P.Current;
    var k := Made(h, s, n);
    if s.flat.thr[h[n].tid].pc.Body? { OneMoreStore(h[n].accs, k); }
  }

  /** The stores of the whole block. */
  lemma SoFarAll(w: Workload, h: seq<Block>, s: State, n: nat)
    requires n < |h| && h[n].tid < |s.flat.thr| && P.ThreadInv(w, h, n, h[n].tid, s.flat.thr[h[n].tid])
    requires var pc := s.flat.thr[h[n].tid].pc; pc.ReadNext? || pc.SetNext?
    ensures SoFar(h, s, n) == Stores(h[n].accs) + if s.flat.thr[h[n].tid].pc.SetNext? then [Cursor(n + 2)] else []
    ensures s.flat.thr[h[n].tid].trace == Committed(h[..n], h[n].tid) + h[n].accs
  {
    P.HoldsBlock(w, h, n, h[n].tid, s.flat.thr[h[n].tid]);
    hide Stores, Committed, P.ThreadInv;
    assert h[n].accs[..|h[n].accs|] == h[n].accs;
  }

  ghost function WayOf(w: Workload, h: seq<Block>, log: seq<Tid>, s0: State, n: nat): State -> bool {
    (s: State) => Way(w, h, log, s0, n, s)
  }

  ghost function PassedOf(w: Workload, h: seq<Block>, log: seq<Tid>, s0: State, n: nat): State -> bool {
    (s: State) => Passed(w, h, log, s0, n, s)
  }

  function WorkOf(h: seq<Block>): State -> int {
    (s: State) => P.Measure(h, s.flat.thr, |s.flat.thr|)
  }

  /** A step inside the block. */
  lemma StaysOnWay(w: Workload, h: seq<Block>, log: seq<Tid>, s0: State, n: nat, s: State)
    requires Way(w, h, log, s0, n, s)
    requires var pc := s.flat.thr[h[n].tid].pc; !pc.SetNext? && !(pc.ReadNext? && n + 1 == |h|)
    ensures Step(w, log, s, Go(h[n].tid)).Some? && Way(w, h, log, s0, n, Step(w, log, s, Go(h[n].tid)).value)
  {
    hide P.LogOk, P.Inv, TokenInv, Step, R.Step, Added, SoFar, P.ThreadInv, Pushed, P.Measure, P.Current, Committed;
    var t := h[n].tid;
    HolderCanStep(w, h, log, s, n);
    HolderStepAdds(w, h, log, s, n);
    NotFailed(w, h, n, t, s.flat.thr[t]);
    OwnBlock(h, n);
    var s', st := Step(w, log, s, Go(t)).value, Pushed(log, s.flat, t, R.CurrentOp(w, t, s.flat.thr[t]));
    if s.flat.thr[t].pc.Body? {
      BodyMoves(w, h, log, s.flat, n, Made(h, s, n));
    } else if s.flat.thr[t].pc.ReadNext? {
      EndMoves(w, h, log, s.flat, n);
    } else {
      PlainMoves(w, h, log, s.flat, n);
    }
    AddedSizes(s, s', t, st);
    SoFarMore(w, h, log, s, s', n, st);
    AddedMore(s0, s, s', t, SoFar(h, s, n), st);
  }

  lemma OwnBlock(h: seq<Block>, n: nat)
    requires n < |h|
    ensures P.Current(h, n, h[n].tid) == h[n].accs
  {
  }

  lemma AddedSizes(s0: State, s: State, t: Tid, st: seq<Store>)
    requires Added(s0, s, t, st)
    ensures t < |s0.buf| == |s.buf| && t < |s0.flat.thr| == |s.flat.thr| && s.sh == s0.sh
  {
  }

  /** The step that ends the block. */
  lemma EndsBlock(w: Workload, h: seq<Block>, log: seq<Tid>, s0: State, n: nat, s: State)
    requires Way(w, h, log, s0, n, s)
    requires var pc := s.flat.thr[h[n].tid].pc; pc.SetNext? || (pc.ReadNext? && n + 1 == |h|)
    ensures Step(w, log, s, Go(h[n].tid)).Some? && Passed(w, h, log, s0, n, Step(w, log, s, Go(h[n].tid)).value)
  {
    hide P.LogOk, P.Inv, TokenInv, Step, R.Step, Added, SoFar, P.ThreadInv, Pushed, P.Measure, Committed, Stores;
    var t := h[n].tid;
    HolderCanStep(w, h, log, s, n);
    HolderStepAdds(w, h, log, s, n);
    var s', st := Step(w, log, s, Go(t)).value, Pushed(log, s.flat, t, R.CurrentOp(w, t, s.flat.thr[t]));
    EndMoves(w, h, log, s.flat, n);
    AddedSizes(s, s', t, st);
    SoFarAll(w, h, s, n);
    AddedMore(s0, s, s', t, SoFar(h, s, n), st);
    EndStores(w, h, log, s, n);
    assert SoFar(h, s, n) + st == Stores(h[n].accs) + Handover(h, n);
  }

  /** There is a next block when the token is passed to its thread. */
  lemma EndStores(w: Workload, h: seq<Block>, log: seq<Tid>, s: State, n: nat)
    requires n < |h| && h[n].tid < |s.flat.thr| && Ok(w, h, log, s, n)
    ensures s.flat.thr[h[n].tid].pc.SetNext? ==> n + 1 < |h|
  {
    hide P.ThreadInv, Committed, After, MemOf, Serial, TokenInv;
  }

  lemma WayAdvances(w: Workload, h: seq<Block>, log: seq<Tid>, s0: State, n: nat, s: State)
    requires Way(w, h, log, s0, n, s)
    ensures Advances(StepOf(w, log), Go(h[n].tid), WayOf(w, h, log, s0, n), PassedOf(w, h, log, s0, n), WorkOf(h), s)
  {
    hide P.LogOk, P.Inv, TokenInv, Step, R.Step, Added, SoFar, Pushed, P.Measure, Passed;
    var pc, t := s.flat.thr[h[n].tid].pc, h[n].tid;
    if pc.SetNext? || (pc.ReadNext? && n + 1 == |h|) {
      EndsBlock(w, h, log, s0, n, s);
    } else {
      StaysOnWay(w, h, log, s0, n, s);
      HolderStepAdds(w, h, log, s, n);
      var s' := Step(w, log, s, Go(t)).value;
      P.MeasureNonNegative(w, h, s'.flat, n, |s'.flat.thr|);
    }
  }

  lemma BlockAdvances(w: Workload, h: seq<Block>, log: seq<Tid>, s: State, n: nat)
    requires n < |h|
    ensures AlwaysAdvances(StepOf(w, log), Go(h[n].tid), WayOf(w, h, log, s, n), PassedOf(w, h, log, s, n), WorkOf(h))
  {
    hide Advances, Way;
    forall s1: State | WayOf(w, h, log, s, n)(s1)
      ensures Advances(StepOf(w, log), Go(h[n].tid), WayOf(w, h, log, s, n), PassedOf(w, h, log, s, n), WorkOf(h), s1)
    {
      WayAdvances(w, h, log, s, n, s1);
    }
  }

  /** Thread t is at the start of a block and sees the token. */
  predicate CanBegin(w: Workload, s: State, t: Tid) {
    && t < |s.flat.thr| == |s.buf| && s.flat.thr[t].pc.Idle? && Phase(s.flat.thr[t].bbcnt) == 0
    && !R.CurrentOp(w, t, s.flat.thr[t]).Stop? && SeenBy(s, t).token == t
  }

  /** The block a thread begins is the one the recording says is next. */
  lemma BeginsNext(w: Workload, h: seq<Block>, log: seq<Tid>, s: State, n: nat, t: Tid)
    requires Ok(w, h, log, s, n) && CanBegin(w, s, t)
    ensures n < |h| && h[n].tid == t && Way(w, h, log, s, n, s)
    ensures s.flat.thr[t].trace == Committed(h[..n], t)
  {
    hide P.LogOk, View, P.Shared, Committed, Returned, Phase;
    P.FactsHold(w, h, log, s.flat, n, t);
    HolderSees(s, t);
    assert P.ThreadInv(w, h, n, t, s.flat.thr[t]);
    if n < |h| { P.SharedToken(w, h, s.flat, n); }
    var before := Committed(h[..n], t);
    StartsBlock(w, t, s.flat.thr[t], before, P.Current(h, n, t), |s.flat.thr[t].trace| - |before|, t);
    assert Made(h, s, n) == 0 && h[n].accs[..0] == [];
    assert SoFar(h, s, n) == [];
    AddedNone(s, t);
  }

  lemma StartsBlock(w: Workload, t: Tid, th: R.Thread, before: seq<Access>, cur: seq<Access>, k: nat, token: Tid)
    requires P.Shape(w, t, th, before, cur, k) && P.Facts(w, t, th, before, cur, k, token) && cur != []
    requires th.pc.Idle? && Phase(th.bbcnt) == 0
    ensures k == 0 && th.trace == before
  {
    PhaseInBlock(|before|, |th.trace|);
    hide Phase, Returned;
  }

  lemma AddedNone(s: State, t: Tid)
    requires t < |s.buf| && t < |s.flat.thr|
    ensures Added(s, s, t, [])
  {
    assert s.buf[t] + [] == s.buf[t];
  }

  /** The last step of mem_read, mem_write or mem_finish_thr. */
  lemma Returns(w: Workload, h: seq<Block>, log: seq<Tid>, s: State, n: nat, t: Tid)
    requires Ok(w, h, log, s, n) && t < |s.flat.thr| && s.flat.thr[t].pc.Return?
    ensures Step(w, log, s, Go(t)).Some?
    ensures var s' := Step(w, log, s, Go(t)).value;
            && Added(s, s', t, []) && (s'.flat.thr[t].pc.Idle? || s'.flat.thr[t].pc.Done?)
            && s'.flat.thr[t].trace == s.flat.thr[t].trace
  {
    hide View;
    assert SeenBy(s, t).thr == s.flat.thr;
    hide P.LogOk, P.Inv, R.CurrentOp, Phase;
  }

  /** A whole block over the buffer: from every reachable state a thread at the start of a block that sees the token
      replays the block the recording says is next, by its own steps alone and with no store leaving a buffer.  Its
      buffer then ends with the block's stores and, unless it was the last block, the new cursor and the token. */
  lemma BlockOverBuffer(w: Workload, h: seq<Block>, log: seq<Tid>, sched: seq<Act>, t: Tid) returns (k: nat, n: nat)
    requires P.LogOk(w, h, log) && CanBegin(w, Exec(w, log, sched), t)
    ensures n < |h| && h[n].tid == t
    ensures var s, s' := Exec(w, log, sched), Only(StepOf(w, log), Exec(w, log, sched), Go(t), k);
            && |s'.flat.thr| == |s.flat.thr| && s'.flat.thr == s.flat.thr[t := s'.flat.thr[t]]
            && s'.sh == s.sh && s'.buf == s.buf[t := s.buf[t] + Stores(h[n].accs) + Handover(h, n)]
            && s.flat.thr[t].trace == Committed(h[..n], t) && s'.flat.thr[t].trace == s.flat.thr[t].trace + h[n].accs
            && (s'.flat.thr[t].pc.Idle? || s'.flat.thr[t].pc.Done?)
  {
    hide Exec, R.Exec, P.LogOk, P.Inv, TokenInv, Way, CanBegin, AlwaysAdvances, Only, Step, Stores, Handover, Committed;
    var s := Exec(w, log, sched);
    var rsched;
    rsched, n := TsoRefinesCommitReplay(w, h, log, sched);
    BeginsNext(w, h, log, s, n, t);
    BlockAdvances(w, h, log, s, n);
    var i := ArrivesOn(StepOf(w, log), Go(t), WayOf(w, h, log, s, n), PassedOf(w, h, log, s, n), WorkOf(h), s);
    var s1 := Only(StepOf(w, log), s, Go(t), i);
    Returns(w, h, log, s1, n + 1, t);
    OnlyNext(StepOf(w, log), s, Go(t), i);
    k := i + 1;
    var st := Stores(h[n].accs) + Handover(h, n);
    AddedMore(s, s1, Only(StepOf(w, log), s, Go(t), k), t, st, []);
    assert st + [] == st && s.buf[t] + st == s.buf[t] + Stores(h[n].accs) + Handover(h, n);
  }

  /** Waiting threads see memory, not the buffers of others: in every reachable state a thread at the start of a block
      goes on only if memory says it has the token and, without buffered stores of its own, exactly then. */
  lemma WaitsForToken(w: Workload, h: seq<Block>, log: seq<Tid>, sched: seq<Act>, t: Tid)
    requires P.LogOk(w, h, log) && t < |Exec(w, log, sched).flat.thr|
    requires var th := Exec(w, log, sched).flat.thr[t];
             th.pc.Idle? && Phase(th.bbcnt) == 0 && !R.CurrentOp(w, t, th).Stop?
    ensures var s := Exec(w, log, sched);
            && |s.buf| == |s.flat.thr|
            && (Step(w, log, s, Go(t)).Some? ==> s.sh.token == t)
            && (s.buf[t] == [] ==> (Step(w, log, s, Go(t)).Some? <==> s.sh.token == t))
  {
    hide Exec, R.Exec, P.LogOk, P.Inv, Phase, Pushed, Merged;
    var s := Exec(w, log, sched);
    var rsched, n := TsoRefinesCommitReplay(w, h, log, sched);
    HolderSees(s, t);
    assert s.buf[t] == [] ==> View(s.sh, s.buf[t]) == s.sh;
    hide View, TokenInv;
    assert SeenBy(s, t).thr == s.flat.thr;
  }
}
