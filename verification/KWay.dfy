/** The k-way merge that merge-memop.cpp and merge-commit.cpp share: a priority queue holding the next
    entry of every log that is not exhausted.  The order of ties is left open, as in the source. */
module KWay {
  import opened Mem

  /** A queue entry: the log it came from and the entry. */
  datatype Tagged<T> = Tagged(tid: Tid, item: T)

  /** What one log contributed, in order. */
  function Proj<T>(s: seq<Tagged<T>>, t: Tid): seq<T> {
    if s == [] then []
    else Proj(Front(s), t) + if Last(s).tid == t then [Last(s).item] else []
  }

  ghost predicate TotalOrder<T(!new)>(le: (T, T) -> bool) {
    && (forall a, b :: le(a, b) || le(b, a))
    && (forall a, b, c :: le(a, b) && le(b, c) ==> le(a, c))
  }

  predicate SortedBy<T>(le: (T, T) -> bool, s: seq<T>) {
    forall i, j | 0 <= i < j < |s| :: le(s[i], s[j])
  }

  predicate Minimal<T>(le: (T, T) -> bool, pq: seq<Tagged<T>>, m: nat) {
    m < |pq| && forall k | 0 <= k < |pq| :: le(pq[m].item, pq[k].item)
  }

  function Without<T>(pq: seq<Tagged<T>>, m: nat): seq<Tagged<T>>
    requires m < |pq|
  {
    pq[..m] + pq[m + 1..]
  }

  /** Log t has been read up to pos: part of it is out, at most one entry is queued. */
  ghost predicate Partly<T>(log: seq<T>, pos: nat, out: seq<T>, queued: seq<T>) {
    pos <= |log| && out + queued == log[..pos] && |queued| <= 1 && (pos < |log| ==> |queued| == 1)
  }

  ghost predicate LogInv<T>(logs: seq<seq<T>>, pos: seq<nat>, pq: seq<Tagged<T>>, out: seq<Tagged<T>>, t: Tid)
    requires t < |logs| == |pos|
  {
    Partly(logs[t], pos[t], Proj(out, t), Proj(pq, t))
  }

  predicate Ordered<T>(le: (T, T) -> bool, pq: seq<Tagged<T>>, out: seq<Tagged<T>>) {
    && (forall i, j | 0 <= i < j < |out| :: le(out[i].item, out[j].item))
    && (forall i, k | 0 <= i < |out| && 0 <= k < |pq| :: le(out[i].item, pq[k].item))
  }

  predicate TidsBelow<T>(s: seq<Tagged<T>>, n: nat) {
    forall i | 0 <= i < |s| :: s[i].tid < n
  }

  ghost predicate MergeInv<T>(le: (T, T) -> bool, logs: seq<seq<T>>, pos: seq<nat>, pq: seq<Tagged<T>>,
                              out: seq<Tagged<T>>) {
    && |pos| == |logs| && TidsBelow(pq, |logs|) && TidsBelow(out, |logs|)
    && (forall t | 0 <= t < |logs| :: LogInv(logs, pos, pq, out, t))
    && Ordered(le, pq, out)
  }

  /** The result of a merge: sorted, and every log's entries in their order, nothing lost or added. */
  ghost predicate Merged<T>(le: (T, T) -> bool, logs: seq<seq<T>>, out: seq<Tagged<T>>) {
    && TidsBelow(out, |logs|)
    && (forall i, j | 0 <= i < j < |out| :: le(out[i].item, out[j].item))
    && (forall t | 0 <= t < |logs| :: Proj(out, t) == logs[t])
  }

  // ---------------------------------------------------------------- projections

  lemma ProjOneMore<T>(s: seq<Tagged<T>>, x: Tagged<T>, t: Tid)
    ensures Proj(s + [x], t) == if x.tid == t then Proj(s, t) + [x.item] else Proj(s, t)
  {
    assert Front(s + [x]) == s;
  }

  lemma {:induction false} ProjWithout<T>(pq: seq<Tagged<T>>, m: nat, t: Tid)
    requires m < |pq| && |Proj(pq, pq[m].tid)| <= 1
    ensures Proj(Without(pq, m), t) == if t == pq[m].tid then [] else Proj(pq, t)
    ensures Proj(pq, pq[m].tid) == [pq[m].item]
  {
    if m == |pq| - 1 {
      assert Without(pq, m) == Front(pq);
    } else {
      assert Without(pq, m) == Without(Front(pq), m) + [Last(pq)];
      ProjOneMore(Without(Front(pq), m), Last(pq), t);
      ProjWithout(Front(pq), m, t);
    }
  }

  lemma {:induction false} ProjMember<T>(s: seq<Tagged<T>>, i: nat)
    requires i < |s|
    ensures s[i].item in Proj(s, s[i].tid)
  {
    if i < |s| - 1 { ProjMember(Front(s), i); }
  }

  lemma {:induction false} ProjFrom<T>(s: seq<Tagged<T>>, t: Tid, x: T)
    ensures x in Proj(s, t) <==> Tagged(t, x) in s
  {
    if s != [] {
      ProjFrom(Front(s), t, x);
      assert s == Front(s) + [Last(s)];
    }
  }

  // ---------------------------------------------------------------- counting

  /** How many entries of a log have a property. */
  function Count<T>(log: seq<T>, p: T -> bool): nat {
    if log == [] then 0 else Count(Front(log), p) + if p(Last(log)) then 1 else 0
  }

  /** How many there are in all logs together. */
  function CountIn<T>(logs: seq<seq<T>>, p: T -> bool): nat {
    if logs == [] then 0 else CountIn(Front(logs), p) + Count(Last(logs), p)
  }

  function CountOut<T>(out: seq<Tagged<T>>, p: T -> bool): nat {
    if out == [] then 0 else CountOut(Front(out), p) + if p(Last(out).item) then 1 else 0
  }

  lemma {:induction false} CountNone<T>(logs: seq<seq<T>>, p: T -> bool)
    requires forall t | 0 <= t < |logs| :: logs[t] == []
    ensures CountIn(logs, p) == 0
  {
    if logs != [] { CountNone(Front(logs), p); }
  }

  lemma {:induction false} CountPush<T>(logs: seq<seq<T>>, p: T -> bool, t: Tid, x: T)
    requires t < |logs|
    ensures CountIn(logs[t := logs[t] + [x]], p) == CountIn(logs, p) + if p(x) then 1 else 0
  {
    var logs' := logs[t := logs[t] + [x]];
    if t < |logs| - 1 {
      CountPush(Front(logs), p, t, x);
      assert Front(logs') == Front(logs)[t := logs[t] + [x]];
    } else {
      assert Front(logs') == Front(logs);
      assert Front(logs[t] + [x]) == logs[t];
    }
  }

  /** The logs that were merged. */
  function Split<T>(out: seq<Tagged<T>>, n: nat): (logs: seq<seq<T>>)
    requires TidsBelow(out, n)
    ensures |logs| == n && forall t | 0 <= t < n :: logs[t] == Proj(out, t)
  {
    if out == [] then seq(n, t => [])
    else
      var logs, t := Split(Front(out), n), Last(out).tid;
      logs[t := logs[t] + [Last(out).item]]
  }

  lemma {:induction false} CountSplit<T>(out: seq<Tagged<T>>, n: nat, p: T -> bool)
    requires TidsBelow(out, n)
    ensures CountOut(out, p) == CountIn(Split(out, n), p)
  {
    if out == [] {
      CountNone(Split(out, n), p);
    } else {
      CountSplit(Front(out), n, p);
      CountPush(Split(Front(out), n), p, Last(out).tid, Last(out).item);
    }
  }

  /** A merge neither loses nor adds entries of any kind. */
  lemma CountMerged<T>(logs: seq<seq<T>>, out: seq<Tagged<T>>, p: T -> bool)
    requires TidsBelow(out, |logs|) && forall t | 0 <= t < |logs| :: Proj(out, t) == logs[t]
    ensures CountOut(out, p) == CountIn(logs, p)
  {
    CountSplit(out, |logs|, p);
    assert Split(out, |logs|) == logs;
  }

  // ---------------------------------------------------------------- queue operations

  lemma {:induction false} MinimalExists<T(!new)>(le: (T, T) -> bool, pq: seq<Tagged<T>>) returns (m: nat)
    requires TotalOrder(le) && pq != []
    ensures Minimal(le, pq, m)
  {
    if |pq| == 1 {
      m := 0;
      assert le(pq[0].item, pq[0].item);
    } else {
      m := MinimalExists(le, Front(pq));
      if le(Last(pq).item, pq[m].item) { m := |pq| - 1; }
    }
  }

  /** The queue's top. */
  method PickMinimal<T(!new)>(le: (T, T) -> bool, pq: seq<Tagged<T>>) returns (m: nat)
    requires TotalOrder(le) && pq != []
    ensures m < |pq| && Minimal(le, pq, m)
  {
    ghost var m0 := MinimalExists(le, pq);
    m :| m < |pq| && Minimal(le, pq, m);
  }

  /** Log t has just been opened. */
  lemma EnqueueFirst<T>(logs: seq<seq<T>>, pos: seq<nat>, pq: seq<Tagged<T>>, t: Tid, t': Tid)
    requires t < |logs| == |pos| && t' < |logs| && pos[t] == 0 && logs[t] != []
    requires forall k | 0 <= k < |pq| :: pq[k].tid != t
    requires t' != t ==> LogInv(logs, pos, pq, [], t')
    ensures LogInv(logs, pos[t := 1], pq + [Tagged(t, logs[t][0])], [], if t' == t then t else t')
  {
    ProjOneMore(pq, Tagged(t, logs[t][0]), t');
    if t' == t { ProjAbsent(pq, t); }
  }

  lemma {:induction false} ProjAbsent<T>(pq: seq<Tagged<T>>, t: Tid)
    requires forall k | 0 <= k < |pq| :: pq[k].tid != t
    ensures Proj(pq, t) == []
  {
    if pq != [] { ProjAbsent(Front(pq), t); }
  }

  function NextPos<T>(logs: seq<seq<T>>, pos: seq<nat>, t: Tid): seq<nat>
    requires t < |logs| == |pos|
  {
    if pos[t] < |logs[t]| then pos[t := pos[t] + 1] else pos
  }

  /** The queue after popping entry m and reading the next entry of its log, if there is one. */
  function NextQueue<T>(logs: seq<seq<T>>, pos: seq<nat>, pq: seq<Tagged<T>>, m: nat): seq<Tagged<T>>
    requires m < |pq| && pq[m].tid < |logs| == |pos|
  {
    var t := pq[m].tid;
    Without(pq, m) + if pos[t] < |logs[t]| then [Tagged(t, logs[t][pos[t]])] else []
  }

  lemma ProjNextQueue<T>(logs: seq<seq<T>>, pos: seq<nat>, pq: seq<Tagged<T>>, m: nat, t: Tid)
    requires m < |pq| && pq[m].tid < |logs| == |pos| && |Proj(pq, pq[m].tid)| <= 1
    ensures var u := pq[m].tid;
            Proj(NextQueue(logs, pos, pq, m), t)
            == if t != u then Proj(pq, t) else if pos[u] < |logs[u]| then [logs[u][pos[u]]] else []
  {
    var u, q := pq[m].tid, Without(pq, m);
    hide Proj, Without;
    ProjWithout(pq, m, t);
    if pos[u] < |logs[u]| {
      ProjOneMore(q, Tagged(u, logs[u][pos[u]]), t);
    } else {
      assert NextQueue(logs, pos, pq, m) == q;
    }
  }

  /** A log moves on by at most one entry. */
  lemma LogMoves<T>(log: seq<T>, pos: nat, out: seq<T>, x: T)
    requires Partly(log, pos, out, [x])
    ensures if pos < |log| then Partly(log, pos + 1, out + [x], [log[pos]]) else Partly(log, pos, out + [x], [])
  {
    assert out + [x] + [] == out + [x];
    if pos < |log| { assert log[..pos + 1] == log[..pos] + [log[pos]]; }
  }

  lemma NextPosAt<T>(logs: seq<seq<T>>, pos: seq<nat>, t: Tid, t': Tid)
    requires t < |logs| == |pos| && t' < |logs|
    ensures var pos' := NextPos(logs, pos, t);
            |pos'| == |pos| && pos'[t'] == if t' == t && pos[t] < |logs[t]| then pos[t] + 1 else pos[t']
  {
  }

  lemma PartlyQueued<T>(log: seq<T>, pos: nat, out: seq<T>, queued: seq<T>)
    requires Partly(log, pos, out, queued)
    ensures |queued| <= 1
  {
  }

  lemma StepOther<T>(logs: seq<seq<T>>, pos: seq<nat>, pq: seq<Tagged<T>>, out: seq<Tagged<T>>, m: nat, t': Tid)
    requires m < |pq| && pq[m].tid < |logs| == |pos| && t' < |logs| && t' != pq[m].tid
    requires LogInv(logs, pos, pq, out, t') && |Proj(pq, pq[m].tid)| <= 1
    ensures LogInv(logs, NextPos(logs, pos, pq[m].tid), NextQueue(logs, pos, pq, m), out + [pq[m]], t')
  {
    hide Proj, Without, NextQueue, NextPos, Partly;
    NextPosAt(logs, pos, pq[m].tid, t');
    ProjNextQueue(logs, pos, pq, m, t');
    ProjOneMore(out, pq[m], t');
  }

  lemma StepOwn<T>(logs: seq<seq<T>>, pos: seq<nat>, pq: seq<Tagged<T>>, out: seq<Tagged<T>>, m: nat)
    requires m < |pq| && pq[m].tid < |logs| == |pos| && LogInv(logs, pos, pq, out, pq[m].tid)
    ensures var t := pq[m].tid;
            LogInv(logs, NextPos(logs, pos, t), NextQueue(logs, pos, pq, m), out + [pq[m]], t)
  {
    hide Proj, Without, NextQueue, NextPos, Partly;
    var t, x := pq[m].tid, pq[m].item;
    PartlyQueued(logs[t], pos[t], Proj(out, t), Proj(pq, t));
    ProjWithout(pq, m, t);
    LogMoves(logs[t], pos[t], Proj(out, t), x);
    NextPosAt(logs, pos, t, t);
    ProjNextQueue(logs, pos, pq, m, t);
    ProjOneMore(out, pq[m], t);
  }

  lemma StepLog<T>(logs: seq<seq<T>>, pos: seq<nat>, pq: seq<Tagged<T>>, out: seq<Tagged<T>>, m: nat, t': Tid)
    requires m < |pq| && pq[m].tid < |logs| == |pos| && t' < |logs|
    requires LogInv(logs, pos, pq, out, t') && LogInv(logs, pos, pq, out, pq[m].tid)
    ensures LogInv(logs, NextPos(logs, pos, pq[m].tid), NextQueue(logs, pos, pq, m), out + [pq[m]], t')
  {
    hide Proj, NextQueue, NextPos, Partly;
    var t := pq[m].tid;
    if t' == t {
      StepOwn(logs, pos, pq, out, m);
    } else {
      PartlyQueued(logs[t], pos[t], Proj(out, t), Proj(pq, t));
      StepOther(logs, pos, pq, out, m, t');
    }
  }

  lemma StepOrdered<T(!new)>(le: (T, T) -> bool, logs: seq<seq<T>>, pos: seq<nat>, pq: seq<Tagged<T>>,
                      out: seq<Tagged<T>>, m: nat)
    requires TotalOrder(le) && Minimal(le, pq, m) && pq[m].tid < |logs| == |pos| && SortedBy(le, logs[pq[m].tid])
    requires Ordered(le, pq, out) && LogInv(logs, pos, pq, out, pq[m].tid)
    ensures Ordered(le, NextQueue(logs, pos, pq, m), out + [pq[m]])
  {
    var t, q, out' := pq[m].tid, NextQueue(logs, pos, pq, m), out + [pq[m]];
    ProjWithout(pq, m, t);
    assert logs[t][pos[t] - 1] == Last(logs[t][..pos[t]]) == pq[m].item;
    forall k | 0 <= k < |q| ensures le(pq[m].item, q[k].item) {
    }
    forall i, k | 0 <= i < |out'| && 0 <= k < |q| ensures le(out'[i].item, q[k].item) {
      if i < |out| { assert le(out[i].item, pq[m].item); }
    }
  }

  lemma MergeStep<T(!new)>(le: (T, T) -> bool, logs: seq<seq<T>>, pos: seq<nat>, pq: seq<Tagged<T>>,
                    out: seq<Tagged<T>>, m: nat)
    requires TotalOrder(le) && (forall t | 0 <= t < |logs| :: SortedBy(le, logs[t]))
    requires MergeInv(le, logs, pos, pq, out) && Minimal(le, pq, m)
    ensures MergeInv(le, logs, NextPos(logs, pos, pq[m].tid), NextQueue(logs, pos, pq, m), out + [pq[m]])
  {
    hide LogInv, Ordered, TotalOrder, SortedBy;
    var t := pq[m].tid;
    forall t' | 0 <= t' < |logs|
      ensures LogInv(logs, NextPos(logs, pos, t), NextQueue(logs, pos, pq, m), out + [pq[m]], t')
    {
      StepLog(logs, pos, pq, out, m, t');
    }
    StepOrdered(le, logs, pos, pq, out, m);
  }

  lemma MergeDone<T>(le: (T, T) -> bool, logs: seq<seq<T>>, pos: seq<nat>, out: seq<Tagged<T>>)
    requires MergeInv(le, logs, pos, [], out)
    ensures Merged(le, logs, out)
  {
    forall t | 0 <= t < |logs| ensures Proj(out, t) == logs[t] {
      assert LogInv(logs, pos, [], out, t);
      assert logs[t][..|logs[t]|] == logs[t];
    }
  }

  // ---------------------------------------------------------------- termination

  function Unread<T>(logs: seq<seq<T>>, pos: seq<nat>, n: nat): int
    requires n <= |logs| == |pos|
  {
    if n == 0 then 0 else Unread(logs, pos, n - 1) + |logs[n - 1]| - pos[n - 1]
  }

  function Work<T>(logs: seq<seq<T>>, pos: seq<nat>, pq: seq<Tagged<T>>): int
    requires |logs| == |pos|
  {
    2 * Unread(logs, pos, |logs|) + |pq|
  }

  lemma {:induction false} UnreadDrops<T>(logs: seq<seq<T>>, pos: seq<nat>, t: Tid, n: nat)
    requires n <= |logs| == |pos| && t < |logs|
    ensures Unread(logs, pos[t := pos[t] + 1], n) == Unread(logs, pos, n) - if t < n then 1 else 0
  {
    if n > 0 { UnreadDrops(logs, pos, t, n - 1); }
  }

  lemma {:induction false} UnreadNonNegative<T>(logs: seq<seq<T>>, pos: seq<nat>, n: nat)
    requires n <= |logs| == |pos| && forall t | 0 <= t < |logs| :: pos[t] <= |logs[t]|
    ensures 0 <= Unread(logs, pos, n)
  {
    if n > 0 { UnreadNonNegative(logs, pos, n - 1); }
  }

  lemma StepTerminates<T>(logs: seq<seq<T>>, pos: seq<nat>, pq: seq<Tagged<T>>, m: nat)
    requires m < |pq| && pq[m].tid < |logs| == |pos| && forall t | 0 <= t < |logs| :: pos[t] <= |logs[t]|
    ensures |NextPos(logs, pos, pq[m].tid)| == |logs|
    ensures 0 <= Work(logs, NextPos(logs, pos, pq[m].tid), NextQueue(logs, pos, pq, m)) < Work(logs, pos, pq)
  {
    UnreadDrops(logs, pos, pq[m].tid, |logs|);
    UnreadNonNegative(logs, NextPos(logs, pos, pq[m].tid), |logs|);
  }

  /** Opening the logs: the first entry of every non-empty log is queued. */
  method OpenLogs<T(!new)>(ghost le: (T, T) -> bool, logs: seq<seq<T>>) returns (pos: seq<nat>, pq: seq<Tagged<T>>)
    ensures |pos| == |logs| && MergeInv(le, logs, pos, pq, [])
  {
    hide LogInv, MergeInv;
    pos, pq := seq(|logs|, i => 0), [];
    for t := 0 to |logs|
      invariant |pos| == |logs| && TidsBelow(pq, t)
      invariant forall t' | t <= t' < |logs| :: pos[t'] == 0
      invariant forall t' | 0 <= t' < t :: LogInv(logs, pos, pq, [], t')
    {
      if logs[t] != [] {
        var pos', pq' := pos[t := 1], pq + [Tagged(t, logs[t][0])];
        OpenOne(logs, pos, pq, t, pos', pq');
        pos, pq := pos', pq';
      } else {
        EmptyLog(logs, pos, pq, t);
      }
    }
    AllOpen(le, logs, pos, pq);
  }

  lemma OpenOne<T>(logs: seq<seq<T>>, pos: seq<nat>, pq: seq<Tagged<T>>, t: Tid, pos': seq<nat>, pq': seq<Tagged<T>>)
    requires t < |logs| == |pos| && logs[t] != [] && pos[t] == 0 && TidsBelow(pq, t)
    requires pos' == pos[t := 1] && pq' == pq + [Tagged(t, logs[t][0])]
    requires forall t' | 0 <= t' < t :: LogInv(logs, pos, pq, [], t')
    ensures TidsBelow(pq', t + 1)
    ensures forall t' | 0 <= t' < t + 1 :: LogInv(logs, pos', pq', [], t')
  {
    hide LogInv;
    forall t' | 0 <= t' < t + 1 ensures LogInv(logs, pos', pq', [], t') {
      EnqueueFirst(logs, pos, pq, t, t');
    }
  }

  lemma AllOpen<T>(le: (T, T) -> bool, logs: seq<seq<T>>, pos: seq<nat>, pq: seq<Tagged<T>>)
    requires |pos| == |logs| && TidsBelow(pq, |logs|) && forall t | 0 <= t < |logs| :: LogInv(logs, pos, pq, [], t)
    ensures MergeInv(le, logs, pos, pq, [])
  {
    hide LogInv;
  }

  lemma EmptyLog<T>(logs: seq<seq<T>>, pos: seq<nat>, pq: seq<Tagged<T>>, t: Tid)
    requires t < |logs| == |pos| && pos[t] == 0 && logs[t] == []
    requires forall k | 0 <= k < |pq| :: pq[k].tid != t
    ensures LogInv(logs, pos, pq, [], t)
  {
    ProjAbsent(pq, t);
  }
}
