/** merge-commit.cpp: the threads' timestamp logs become one log of thread ids. */
module MergeCommit {
  import opened Mem
  import opened Blocks
  import opened KWay

  /** !(q_ent::operator>) */
  predicate NotAfter(a: nat, b: nat) {
    !(a > b)
  }

  function Tids(out: seq<Tagged<nat>>): seq<Tid> {
    seq(|out|, i requires 0 <= i < |out| => out[i].tid)
  }

  /** The logs hold the times of these blocks. */
  ghost predicate LogsOf(h: seq<Block>, logs: seq<seq<nat>>) {
    && (forall t | 0 <= t < |logs| :: logs[t] == Times(h, t))
    && (forall i | 0 <= i < |h| :: h[i].tid < |logs|)
  }

  /** merge_commit; `out` is the log with the timestamps still attached. */
  method MergeTimes(logs: seq<seq<nat>>) returns (tids: seq<Tid>, ghost out: seq<Tagged<nat>>)
    requires forall t | 0 <= t < |logs| :: SortedBy(NotAfter, logs[t])
    ensures Merged(NotAfter, logs, out) && tids == Tids(out)
    ensures forall h: seq<Block> | LogsOf(h, logs) :: |tids| == |h| && forall j | 0 <= j < |h| :: tids[j] == h[j].tid
  {
    assert Tids([]) == [] && TotalOrder(NotAfter);
    hide *;
    var pos, pq := OpenLogs(NotAfter, logs);
    tids, out := [], [];
    while pq != []
      invariant |pos| == |logs| && MergeInv(NotAfter, logs, pos, pq, out) && tids == Tids(out)
      decreases Work(logs, pos, pq)
    {
      var m := PickMinimal(NotAfter, pq);
      var e := pq[m];
      PoppedTime(logs, pos, pq, out, m);
      tids := tids + [e.tid];
      out := out + [e];
      pos, pq := NextPos(logs, pos, e.tid), NextQueue(logs, pos, pq, m);
    }
    MergeDone(NotAfter, logs, pos, out);
    forall h: seq<Block> | LogsOf(h, logs) ensures |tids| == |h| && forall j | 0 <= j < |h| :: tids[j] == h[j].tid {
      MergedCommitOrder(h, logs, out);
    }
  }

  lemma PoppedTime(logs: seq<seq<nat>>, pos: seq<nat>, pq: seq<Tagged<nat>>, out: seq<Tagged<nat>>, m: nat)
    requires (forall t | 0 <= t < |logs| :: SortedBy(NotAfter, logs[t]))
    requires TotalOrder(NotAfter) && MergeInv(NotAfter, logs, pos, pq, out) && Minimal(NotAfter, pq, m)
    ensures |pos| == |logs| && m < |pq| && pq[m].tid < |logs| && Tids(out + [pq[m]]) == Tids(out) + [pq[m].tid]
    ensures var pos', pq' := NextPos(logs, pos, pq[m].tid), NextQueue(logs, pos, pq, m);
            && |pos'| == |logs| && MergeInv(NotAfter, logs, pos', pq', out + [pq[m]])
            && 0 <= Work(logs, pos', pq') < Work(logs, pos, pq)
  {
    forall t | 0 <= t < |logs| ensures pos[t] <= |logs[t]| { assert LogInv(logs, pos, pq, out, t); }
    StepTerminates(logs, pos, pq, m);
    MergeStep(NotAfter, logs, pos, pq, out, m);
  }

  // ---------------------------------------------------------------- the merged log lists the blocks

  /** Every merged timestamp is that of a block of the thread it is tagged with. */
  lemma MergedFrom(h: seq<Block>, logs: seq<seq<nat>>, out: seq<Tagged<nat>>, i: nat)
    requires Merged(NotAfter, logs, out) && (forall t | 0 <= t < |logs| :: logs[t] == Times(h, t)) && i < |out|
    ensures out[i].item < |h| && h[out[i].item].tid == out[i].tid
  {
    var t := out[i].tid;
    ProjMember(out, i);
    TimesExact(h, t, out[i].item);
  }

  lemma {:induction false} ProjSplit<T>(s: seq<Tagged<T>>, t: Tid, i: nat)
    requires i <= |s|
    ensures Proj(s, t) == Proj(s[..i], t) + Proj(s[i..], t)
  {
    if i == |s| {
      assert s[..i] == s && s[i..] == [];
    } else {
      ProjSplit(Front(s), t, i);
      assert Front(s)[..i] == s[..i] && Front(s)[i..] == Front(s[i..]) && Last(s[i..]) == Last(s);
    }
  }

  /** Two entries of one log are apart in what the log contributed. */
  lemma ProjPair<T>(s: seq<Tagged<T>>, i: nat, j: nat) returns (a: nat, b: nat)
    requires i < j < |s| && s[i].tid == s[j].tid
    ensures a < b < |Proj(s, s[i].tid)| && Proj(s, s[i].tid)[a] == s[i].item && Proj(s, s[i].tid)[b] == s[j].item
  {
    var t := s[i].tid;
    ProjSplit(s, t, j);
    var front, back := s[..j], s[j..];
    ProjMember(front, i);
    ProjSplit(back, t, 1);
    assert back[..1] == [s[j]];
    ProjOneMore([], s[j], t);
    a :| 0 <= a < |Proj(front, t)| && Proj(front, t)[a] == s[i].item;
    b := |Proj(front, t)|;
  }

  lemma MergedIncreases(h: seq<Block>, logs: seq<seq<nat>>, out: seq<Tagged<nat>>, i: nat, j: nat)
    requires Merged(NotAfter, logs, out) && (forall t | 0 <= t < |logs| :: logs[t] == Times(h, t)) && i < j < |out|
    ensures out[i].item < out[j].item
  {
    MergedFrom(h, logs, out, i);
    MergedFrom(h, logs, out, j);
    if out[i].tid == out[j].tid {
      var a, b := ProjPair(out, i, j);
      TimesIncrease(h, out[i].tid);
    }
  }

  lemma {:induction false} MergedAt(h: seq<Block>, logs: seq<seq<nat>>, out: seq<Tagged<nat>>, j: nat) returns (p: nat)
    requires Merged(NotAfter, logs, out) && (forall t | 0 <= t < |logs| :: logs[t] == Times(h, t))
    requires j < |h| && h[j].tid < |logs|
    ensures p < |out| && out[p].item == j
  {
    TimesExact(h, h[j].tid, j);
    ProjFrom(out, h[j].tid, j);
    p :| 0 <= p < |out| && out[p] == Tagged(h[j].tid, j);
  }

  /** The j-th entry is the block with timestamp j. */
  lemma {:induction false} MergedEntry(h: seq<Block>, logs: seq<seq<nat>>, out: seq<Tagged<nat>>, j: nat)
    requires Merged(NotAfter, logs, out) && (forall t | 0 <= t < |logs| :: logs[t] == Times(h, t))
    requires j < |h| && forall i | 0 <= i < |h| :: h[i].tid < |logs|
    ensures j < |out| && out[j] == Tagged(h[j].tid, j)
  {
    hide Proj, Times;
    if j > 0 { MergedEntry(h, logs, out, j - 1); }
    var p := MergedAt(h, logs, out, j);
    if p < j { MergedBefore(h, logs, out, p, j); }
    if p > j {
      MergedFrom(h, logs, out, j);
      MergedIncreases(h, logs, out, j, p);
      if j > 0 { MergedIncreases(h, logs, out, j - 1, j); }
    }
    MergedFrom(h, logs, out, j);
  }

  lemma MergedBefore(h: seq<Block>, logs: seq<seq<nat>>, out: seq<Tagged<nat>>, p: nat, j: nat)
    requires Merged(NotAfter, logs, out) && (forall t | 0 <= t < |logs| :: logs[t] == Times(h, t))
    requires p < j <= |out| && 0 < j && out[j - 1].item == j - 1
    ensures out[p].item < j
  {
    if p < j - 1 { MergedIncreases(h, logs, out, p, j - 1); }
  }

  /** The merged log's j-th thread is the one that committed at time j, and there is nothing else in it. */
  lemma MergedCommitOrder(h: seq<Block>, logs: seq<seq<nat>>, out: seq<Tagged<nat>>)
    requires Merged(NotAfter, logs, out) && LogsOf(h, logs)
    ensures |Tids(out)| == |h| && forall j | 0 <= j < |h| :: Tids(out)[j] == h[j].tid
  {
    hide Merged, Proj, Times;
    forall j | 0 <= j < |h| ensures j < |out| && out[j] == Tagged(h[j].tid, j) {
      MergedEntry(h, logs, out, j);
    }
    if |out| > |h| {
      MergedFrom(h, logs, out, |h|);
      if |h| > 0 { MergedIncreases(h, logs, out, |h| - 1, |h|); }
    }
    if |out| < |h| { MergedEntry(h, logs, out, |out|); }
  }
}
