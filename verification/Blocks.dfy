/** Blocks of accesses executed one at a time: what the commit-order recorder has to be equivalent to. */
module Blocks {
  import opened Mem

  /** RTM_BATCH_N */
  const BATCH_N: nat := 7

  /** Position in the current block after n accesses: g_sim_bbcnt % RTM_BATCH_N. */
  function Phase(n: nat): nat {
    n % BATCH_N
  }

  lemma PhaseInBlock(k: nat, n: nat)
    requires Phase(k) == 0 && k <= n <= k + BATCH_N
    ensures Phase(n) == if n - k == BATCH_N then 0 else n - k
  {
  }

  datatype Access = Access(write: bool, addr: Addr, val: Value)

  /** The accesses one thread made between bb_start and bb_end. */
  datatype Block = Block(tid: Tid, accs: seq<Access>)

  type Memory = map<Addr, Value>

  /** What the accesses returned to the program; a write returns nothing, shown as 0. */
  function Returned(accs: seq<Access>): seq<Value> {
    seq(|accs|, i requires 0 <= i < |accs| => if accs[i].write then 0 else accs[i].val)
  }

  predicate Does(e: Access, op: Op) {
    match op
    case Read(a) => !e.write && e.addr == a
    case Write(a, x) => e == Access(true, a, x)
    case Stop => false
  }

  /** Memory after the accesses. */
  function After(m: Memory, accs: seq<Access>): Memory {
    if accs == [] then m
    else if Last(accs).write then After(m, Front(accs))[Last(accs).addr := Last(accs).val]
    else After(m, Front(accs))
  }

  /** Run alone from memory m, thread t, having made the accesses `before`, makes exactly these accesses. */
  predicate Runs(prog: Program, t: Tid, before: seq<Access>, m: Memory, accs: seq<Access>) {
    accs == [] ||
    (var f, e := Front(accs), Last(accs);
     && Runs(prog, t, before, m, f)
     && Does(e, prog(t, Returned(before + f)))
     && (!e.write ==> e.val == Get(After(m, f), e.addr)))
  }

  // ---------------------------------------------------------------- sequences of blocks

  function MemOf(init: Memory, h: seq<Block>): Memory {
    if h == [] then init else After(MemOf(init, Front(h)), Last(h).accs)
  }

  /** What one thread did, in program order. */
  function Committed(h: seq<Block>, t: Tid): seq<Access> {
    if h == [] then []
    else Committed(Front(h), t) + if Last(h).tid == t then Last(h).accs else []
  }

  /** When one thread's blocks ran. */
  function Times(h: seq<Block>, t: Tid): seq<nat> {
    if h == [] then []
    else Times(Front(h), t) + if Last(h).tid == t then [|h| - 1] else []
  }

  /** The next block: BATCH_N accesses, or fewer if they end the thread. */
  predicate Next(w: Workload, h: seq<Block>, b: Block) {
    var before := Committed(h, b.tid);
    && b.tid < w.nthr
    && Runs(w.prog, b.tid, before, MemOf(w.init, h), b.accs)
    && Phase(|before|) == 0 && 0 < |b.accs| <= BATCH_N
    && (|b.accs| < BATCH_N ==> w.prog(b.tid, Returned(before + b.accs)) == Stop)
  }

  /** The blocks are a run of the workload in which they follow one another without overlap. */
  predicate Serial(w: Workload, h: seq<Block>) {
    h == [] || (Serial(w, Front(h)) && Next(w, Front(h), Last(h)))
  }

  ghost predicate Complete(w: Workload, h: seq<Block>) {
    forall t | 0 <= t < w.nthr :: w.prog(t, Returned(Committed(h, t))) == Stop
  }

  // ---------------------------------------------------------------- lemmas

  lemma OneMoreAccess(prog: Program, t: Tid, before: seq<Access>, m: Memory, accs: seq<Access>, e: Access)
    ensures After(m, accs + [e]) == if e.write then After(m, accs)[e.addr := e.val] else After(m, accs)
    ensures Runs(prog, t, before, m, accs + [e]) <==>
            && Runs(prog, t, before, m, accs)
            && Does(e, prog(t, Returned(before + accs)))
            && (!e.write ==> e.val == Get(After(m, accs), e.addr))
  {
    assert Front(accs + [e]) == accs;
  }

  lemma OneMoreBlock(w: Workload, h: seq<Block>, b: Block, t: Tid)
    ensures MemOf(w.init, h + [b]) == After(MemOf(w.init, h), b.accs)
    ensures Committed(h + [b], t) == if b.tid == t then Committed(h, t) + b.accs else Committed(h, t)
    ensures Times(h + [b], t) == if b.tid == t then Times(h, t) + [|h|] else Times(h, t)
    ensures Serial(w, h + [b]) <==> Serial(w, h) && Next(w, h, b)
  {
    assert Front(h + [b]) == h;
  }

  lemma {:induction false} SerialAt(w: Workload, h: seq<Block>, i: nat)
    requires Serial(w, h) && i < |h|
    ensures Serial(w, h[..i]) && Next(w, h[..i], h[i])
  {
    if i < |h| - 1 {
      SerialAt(w, Front(h), i);
      assert Front(h)[..i] == h[..i];
    }
  }

  /** Up to some access of a block. */
  lemma {:induction false} RunsPrefix(prog: Program, t: Tid, before: seq<Access>, m: Memory, accs: seq<Access>, k: nat)
    requires Runs(prog, t, before, m, accs) && k <= |accs|
    ensures Runs(prog, t, before, m, accs[..k])
  {
    if k < |accs| {
      RunsPrefix(prog, t, before, m, Front(accs), k);
      assert Front(accs)[..k] == accs[..k];
    } else {
      assert accs[..k] == accs;
    }
  }

  lemma NextSizes(w: Workload, h: seq<Block>, b: Block)
    requires Next(w, h, b)
    ensures |Committed(h, b.tid)| % 7 == 0 && 0 < |b.accs| <= 7
  {
    hide Committed, Runs, MemOf, Returned;
  }

  lemma OneMoreCeiling(n: nat, k: nat)
    requires n % 7 == 0 && 0 < k <= 7
    ensures (n + k + 6) / 7 == (n + 6) / 7 + 1
    ensures k != 7 ==> (n + k) % 7 != 0
  {
  }

  /** A thread's blocks by their number: one for every seven accesses, the last one possibly shorter. */
  lemma {:induction false} BlockCount(w: Workload, h: seq<Block>, t: Tid)
    requires Serial(w, h)
    ensures |Times(h, t)| == (|Committed(h, t)| + 6) / 7
  {
    if h != [] {
      var f, b := Front(h), Last(h);
      BlockCount(w, f, t);
      SerialAt(w, h, |h| - 1);
      assert h == f + [b];
      hide Serial, Next, Times, Committed, MemOf;
      OneMoreBlock(w, f, b, t);
      if b.tid == t {
        NextSizes(w, f, b);
        OneMoreCeiling(|Committed(f, t)|, |b.accs|);
      }
    }
  }

  /** After a short block a thread has no further block. */
  lemma {:induction false} ShortIsLast(w: Workload, h: seq<Block>, t: Tid, i: nat, j: nat)
    requires Serial(w, h) && i < |h| && h[i].tid == t && |h[i].accs| != 7 && i < j <= |h|
    ensures |Committed(h[..j], t)| % 7 != 0
    ensures j < |h| ==> h[j].tid != t
  {
    hide Serial, Next, Times, Committed, MemOf;
    assert h[..j] == h[..j - 1] + [h[j - 1]];
    OneMoreBlock(w, h[..j - 1], h[j - 1], t);
    if j > i + 1 {
      ShortIsLast(w, h, t, i, j - 1);
    } else {
      SerialAt(w, h, i);
      NextSizes(w, h[..i], h[i]);
      OneMoreCeiling(|Committed(h[..i], t)|, |h[i].accs|);
    }
    if j < |h| {
      SerialAt(w, h, j);
      NextSizes(w, h[..j], h[j]);
    }
  }

  /** A timestamp is in a thread's list exactly when the thread committed at that time. */
  lemma {:induction false} TimesExact(h: seq<Block>, t: Tid, i: nat)
    ensures i in Times(h, t) <==> i < |h| && h[i].tid == t
  {
    if h != [] { TimesExact(Front(h), t, i); }
  }

  lemma {:induction false} TimesIncrease(h: seq<Block>, t: Tid)
    ensures forall i | 0 <= i < |Times(h, t)| :: Times(h, t)[i] < |h|
    ensures forall i, j | 0 <= i < j < |Times(h, t)| :: Times(h, t)[i] < Times(h, t)[j]
  {
    if h != [] { TimesIncrease(Front(h), t); }
  }
}
