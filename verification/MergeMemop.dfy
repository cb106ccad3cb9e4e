/** merge-memop.cpp and load_wait_reader_log: the threads' sorted logs become one log with an index table,
    from which the replayer cuts every object's reader log. */
module MergeMemop {
  import opened Mem
  import opened Replay
  import opened RecordLog
  import opened Reorder
  import opened KWay

  type QueEnt = Tagged<MemopEntry>

  /** QueEnt::operator> */
  predicate Greater(a: MemopEntry, b: MemopEntry) {
    if a.objid == b.objid then a.version > b.version else a.objid > b.objid
  }

  predicate Le(a: MemopEntry, b: MemopEntry) {
    !Greater(a, b)
  }

  lemma LeTotal()
    ensures TotalOrder(Le)
  {
  }

  /** The entries of one object in the merged order. */
  function Sub(full: seq<QueEnt>, o: int): seq<QueEnt> {
    if full == [] then []
    else Sub(Front(full), o) + if Last(full).item.objid == o then [Last(full)] else []
  }

  /** How many entries belong to objects below o. */
  function StartOf(full: seq<QueEnt>, o: int): nat {
    if full == [] then 0 else StartOf(Front(full), o) + if Last(full).item.objid < o then 1 else 0
  }

  /** The index table for objects below n: where the object's entries start and how many there are. */
  function Cells(full: seq<QueEnt>, n: nat): seq<int> {
    if n == 0 then [] else Cells(full, n - 1) + Cell(full, n - 1)
  }

  function Cell(full: seq<QueEnt>, o: nat): seq<int> {
    if Sub(full, o) == [] then [-1, 0] else [StartOf(full, o), |Sub(full, o)|]
  }

  function Strip(full: seq<QueEnt>): seq<ReaderEntry> {
    seq(|full|, i requires 0 <= i < |full| => ReaderEntry(full[i].item.version, full[i].item.memop, full[i].tid))
  }

  predicate ObjSorted(full: seq<QueEnt>) {
    forall i, j | 0 <= i < j < |full| :: full[i].item.objid <= full[j].item.objid
  }

  predicate ObjUpTo(full: seq<QueEnt>, p: int) {
    forall i | 0 <= i < |full| :: full[i].item.objid <= p
  }

  // ---------------------------------------------------------------- the index table

  lemma SubOneMore(full: seq<QueEnt>, e: QueEnt, o: int)
    ensures Sub(full + [e], o) == if e.item.objid == o then Sub(full, o) + [e] else Sub(full, o)
    ensures StartOf(full + [e], o) == StartOf(full, o) + if e.item.objid < o then 1 else 0
  {
    assert Front(full + [e]) == full;
  }

  lemma {:induction false} CellsOneMore(full: seq<QueEnt>, e: QueEnt, n: nat)
    requires n <= e.item.objid
    ensures Cells(full + [e], n) == Cells(full, n)
  {
    if n > 0 {
      CellsOneMore(full, e, n - 1);
      SubOneMore(full, e, n - 1);
      hide Sub, StartOf;
      assert Cell(full + [e], n - 1) == Cell(full, n - 1);
      hide Cell;
    }
  }

  lemma {:induction false} CellsLength(full: seq<QueEnt>, n: nat)
    ensures |Cells(full, n)| == 2 * n
  {
    if n > 0 { CellsLength(full, n - 1); }
  }

  lemma {:induction false} CellsAt(full: seq<QueEnt>, n: nat, o: nat)
    requires o < n
    ensures |Cells(full, n)| == 2 * n
    ensures if Sub(full, o) == [] then Cells(full, n)[2 * o] == -1 && Cells(full, n)[2 * o + 1] == 0
            else Cells(full, n)[2 * o] == StartOf(full, o) && Cells(full, n)[2 * o + 1] == |Sub(full, o)|
  {
    CellsLength(full, n - 1);
    if o < n - 1 { CellsAt(full, n - 1, o); }
  }

  lemma {:induction false} BeyondLast(full: seq<QueEnt>, p: int, o: int)
    requires ObjUpTo(full, p) && p < o
    ensures Sub(full, o) == [] && StartOf(full, o) == |full|
  {
    if full != [] { BeyondLast(Front(full), p, o); }
  }

  lemma {:induction false} AtLast(full: seq<QueEnt>, p: int)
    requires ObjUpTo(full, p)
    ensures StartOf(full, p) + |Sub(full, p)| == |full|
  {
    if full != [] { AtLast(Front(full), p); }
  }

  lemma Unfolded(full: seq<QueEnt>, o: int)
    requires full != []
    ensures var f, e := Front(full), Last(full);
            && Sub(full, o) == (if e.item.objid == o then Sub(f, o) + [e] else Sub(f, o))
            && StartOf(full, o) == StartOf(f, o) + (if e.item.objid < o then 1 else 0)
  {
  }

  lemma SliceOneMore<T>(s: seq<T>, a: nat, n: nat)
    requires s != [] && a + n <= |s| - 1
    ensures s[a..a + n] == Front(s)[a..a + n] && (a + n == |s| - 1 ==> s[a..a + n + 1] == s[a..a + n] + [Last(s)])
  {
  }

  /** The entries of an object lie together, where the index says. */
  lemma {:induction false} SliceIsSub(full: seq<QueEnt>, o: int)
    requires ObjSorted(full)
    ensures StartOf(full, o) + |Sub(full, o)| <= |full|
    ensures full[StartOf(full, o)..StartOf(full, o) + |Sub(full, o)|] == Sub(full, o)
  {
    if full != [] {
      hide Sub, StartOf, ObjSorted, ObjUpTo;
      var f, p := Front(full), Last(full).item.objid;
      LastObject(full);
      SliceIsSub(f, o);
      Unfolded(full, o);
      if p == o { AtLast(f, o); }
      if p < o { BeyondLast(full, p, o); }
      SliceOneMore(full, StartOf(f, o), |Sub(f, o)|);
    }
  }

  lemma LastObject(full: seq<QueEnt>)
    requires ObjSorted(full) && full != []
    ensures var p := Last(full).item.objid; ObjUpTo(full, p) && ObjUpTo(Front(full), p) && ObjSorted(Front(full))
  {
  }

  // ---------------------------------------------------------------- the index table and the input logs

  function ForObject(o: int): MemopEntry -> bool {
    (e: MemopEntry) => e.objid == o
  }

  function ForSmaller(o: int): MemopEntry -> bool {
    (e: MemopEntry) => e.objid < o
  }

  lemma {:induction false} SubCounts(full: seq<QueEnt>, o: int)
    ensures |Sub(full, o)| == CountOut(full, ForObject(o)) && StartOf(full, o) == CountOut(full, ForSmaller(o))
  {
    if full != [] { SubCounts(Front(full), o); }
  }

  /** The index table in terms of the input logs: an object's second cell is the number of its entries, its first cell
      the number of entries of smaller objects, or -1 if it has no entries. */
  ghost predicate Indexes(logs: seq<seq<MemopEntry>>, index: seq<int>, nobj: nat) {
    && |index| == 2 * nobj
    && forall o | 0 <= o < nobj ::
         && index[2 * o + 1] == CountIn(logs, ForObject(o))
         && index[2 * o] == if CountIn(logs, ForObject(o)) > 0 then CountIn(logs, ForSmaller(o)) else -1
  }

  lemma CellsIndex(logs: seq<seq<MemopEntry>>, full: seq<QueEnt>, nobj: nat)
    requires Merged(Le, logs, full)
    ensures Indexes(logs, Cells(full, nobj), nobj)
  {
    hide Cells, Sub, StartOf, CountIn, CountOut, ForObject, ForSmaller;
    CellsLength(full, nobj);
    forall o | 0 <= o < nobj
      ensures Cells(full, nobj)[2 * o + 1] == CountIn(logs, ForObject(o))
      ensures Cells(full, nobj)[2 * o] == if CountIn(logs, ForObject(o)) > 0 then CountIn(logs, ForSmaller(o)) else -1
    {
      CellsAt(full, nobj, o);
      SubCounts(full, o);
      CountMerged(logs, full, ForObject(o));
      CountMerged(logs, full, ForSmaller(o));
    }
  }

  // ---------------------------------------------------------------- merging

  /** What the loop has written to the index table: complete cells for the objects before `prev`, and the
      start of `prev`'s entries. */
  ghost predicate IndexInv(full: seq<QueEnt>, index: seq<int>, prev: int, prevCnt: int) {
    && ObjUpTo(full, prev)
    && (prev == -1 ==> full == [] && index == [])
    && (prev != -1 ==> 0 <= prev && Sub(full, prev) != [] && prevCnt == StartOf(full, prev)
                       && index == Cells(full, prev) + [prevCnt])
  }

  /** Closing the current object's cell: its entry count is appended. */
  lemma CloseCell(full: seq<QueEnt>, index: seq<int>, prev: int, prevCnt: int)
    requires IndexInv(full, index, prev, prevCnt) && prev != -1
    ensures index + [|full| - prevCnt] == Cells(full, prev + 1)
    ensures |full| - prevCnt > 0
  {
    hide Cells, StartOf, Sub, ObjUpTo;
    AtLast(full, prev);
    CellsNext(full, prev);
  }

  lemma CellsNext(full: seq<QueEnt>, n: nat)
    ensures Cells(full, n + 1) == Cells(full, n) + Cell(full, n)
  {
  }

  lemma OpenCell(full: seq<QueEnt>, e: QueEnt, prev: int)
    requires ObjUpTo(full, prev) && prev < e.item.objid && 0 <= e.item.objid
    ensures IndexInv(full + [e], Cells(full, e.item.objid) + [|full|], e.item.objid, |full|)
  {
    var o, full' := e.item.objid, full + [e];
    CellsOneMore(full, e, o);
    SubOneMore(full, e, o);
    BeyondLast(full, prev, o);
    hide Cells, Sub, StartOf;
    assert |Sub(full', o)| == 1;
    assert StartOf(full', o) == |full|;
    assert ObjUpTo(full', o);
  }

  lemma SameCell(full: seq<QueEnt>, e: QueEnt, index: seq<int>, prev: int, prevCnt: int)
    requires IndexInv(full, index, prev, prevCnt) && e.item.objid == prev && prev != -1
    ensures IndexInv(full + [e], index, prev, prevCnt)
  {
    CellsOneMore(full, e, prev);
    SubOneMore(full, e, prev);
  }

  /** Cells [-1, 0] for the objects from `from` up to `to` that have no entries. */
  method EmptyCells(index: seq<int>, from: nat, to: nat, ghost full: seq<QueEnt>) returns (index': seq<int>)
    requires from <= to && index == Cells(full, from) && ObjUpTo(full, from - 1)
    ensures index' == Cells(full, to)
  {
    index' := index;
    for i := from to to
      invariant index' == Cells(full, i)
    {
      BeyondLast(full, from - 1, i);
      index' := index' + [-1, 0];
    }
  }

  /** The index table as one popped entry changes it. */
  method IndexEntry(index: seq<int>, prev: int, prevCnt: int, cnt: nat, e: QueEnt, ghost full: seq<QueEnt>)
    returns (index': seq<int>, prev': int, prevCnt': int)
    requires IndexInv(full, index, prev, prevCnt) && cnt == |full| && 0 <= e.item.objid && prev <= e.item.objid
    requires -1 <= prev
    ensures IndexInv(full + [e], index', prev', prevCnt') && prev' == e.item.objid
  {
    index', prev', prevCnt' := index, prev, prevCnt;
    if prev != e.item.objid {
      if prev != -1 {
        CloseCell(full, index, prev, prevCnt);
        index' := index' + [cnt - prevCnt];
      }
      index' := EmptyCells(index', prev + 1, e.item.objid, full);
      OpenCell(full, e, prev);
      index' := index' + [cnt];
      prevCnt' := cnt;
      prev' := e.item.objid;
    } else {
      SameCell(full, e, index, prev, prevCnt);
    }
  }

  predicate Mergeable(logs: seq<seq<MemopEntry>>, nobj: nat) {
    forall t | 0 <= t < |logs| :: SortedBy(Le, logs[t]) && ObjectsBelow(logs[t], nobj)
  }

  lemma StripOneMore(full: seq<QueEnt>, e: QueEnt)
    ensures Strip(full + [e]) == Strip(full) + [ReaderEntry(e.item.version, e.item.memop, e.tid)]
  {
  }

  /** merge_memop: the merged log and the index table; `full` is the merged log with its object ids. */
  method MergeLogs(logs: seq<seq<MemopEntry>>, nobj: nat)
    returns (merged: seq<ReaderEntry>, index: seq<int>, ghost full: seq<QueEnt>)
    requires Mergeable(logs, nobj) && exists t :: 0 <= t < |logs| && logs[t] != []
    ensures Merged(Le, logs, full) && merged == Strip(full)
    ensures index == Cells(full, nobj) && Indexes(logs, index, nobj)
  {
    assert IndexInv([], [], -1, 0) && Strip([]) == [];
    hide *;
    LeTotal();
    var pos, pq := OpenLogs(Le, logs);
    merged, index, full := [], [], [];
    var prev, prevCnt := -1, 0;
    while pq != []
      invariant |pos| == |logs| && MergeInv(Le, logs, pos, pq, full) && merged == Strip(full)
      invariant -1 <= prev < nobj && IndexInv(full, index, prev, prevCnt)
      invariant full == [] <==> prev == -1
      invariant full != [] ==> prev == Last(full).item.objid
      decreases Work(logs, pos, pq)
    {
      var m := PickMinimal(Le, pq);
      var e := pq[m];
      Popped(logs, pos, pq, full, nobj, m);
      index, prev, prevCnt := IndexEntry(index, prev, prevCnt, |merged|, e, full);
      merged := merged + [ReaderEntry(e.item.version, e.item.memop, e.tid)];
      full := full + [e];
      pos, pq := NextPos(logs, pos, e.tid), NextQueue(logs, pos, pq, m);
    }
    MergeDone(Le, logs, pos, full);
    SomethingMerged(logs, full);
    CloseCell(full, index, prev, prevCnt);
    index := index + [|merged| - prevCnt];
    index := EmptyCells(index, prev + 1, nobj, full);
    CellsIndex(logs, full, nobj);
  }

  /** Popping a least entry keeps the merge going. */
  lemma Popped(logs: seq<seq<MemopEntry>>, pos: seq<nat>, pq: seq<QueEnt>, full: seq<QueEnt>, nobj: nat, m: nat)
    requires Mergeable(logs, nobj) && TotalOrder(Le) && MergeInv(Le, logs, pos, pq, full) && Minimal(Le, pq, m)
    ensures |pos| == |logs| && pq[m].tid < |logs| && 0 <= pq[m].item.objid < nobj
    ensures full != [] ==> Last(full).item.objid <= pq[m].item.objid
    ensures Strip(full + [pq[m]]) == Strip(full) + [ReaderEntry(pq[m].item.version, pq[m].item.memop, pq[m].tid)]
    ensures Last(full + [pq[m]]) == pq[m] && |Strip(full)| == |full|
    ensures var pos', pq' := NextPos(logs, pos, pq[m].tid), NextQueue(logs, pos, pq, m);
            && |pos'| == |logs| && MergeInv(Le, logs, pos', pq', full + [pq[m]])
            && 0 <= Work(logs, pos', pq') < Work(logs, pos, pq)
  {
    QueuedBelow(logs, pos, pq, full, nobj, m);
    StepTerminates(logs, pos, pq, m);
    MergeStep(Le, logs, pos, pq, full, m);
    StripOneMore(full, pq[m]);
    hide MergeInv, Work, TotalOrder, Strip;
  }

  lemma QueuedBelow(logs: seq<seq<MemopEntry>>, pos: seq<nat>, pq: seq<QueEnt>, full: seq<QueEnt>, nobj: nat, m: nat)
    requires Mergeable(logs, nobj) && MergeInv(Le, logs, pos, pq, full) && m < |pq|
    ensures 0 <= pq[m].item.objid < nobj
    ensures full != [] ==> Last(full).item.objid <= pq[m].item.objid
    ensures |pos| == |logs| && pq[m].tid < |logs|
    ensures forall t | 0 <= t < |logs| :: pos[t] <= |logs[t]|
  {
    var t := pq[m].tid;
    assert LogInv(logs, pos, pq, full, t);
    ProjMember(pq, m);
    assert pq[m].item in logs[t][..pos[t]];
    assert full != [] ==> Le(Last(full).item, pq[m].item);
    forall t | 0 <= t < |logs| ensures pos[t] <= |logs[t]| { assert LogInv(logs, pos, pq, full, t); }
  }

  lemma SomethingMerged(logs: seq<seq<MemopEntry>>, full: seq<QueEnt>)
    requires Merged(Le, logs, full) && exists t :: 0 <= t < |logs| && logs[t] != []
    ensures full != []
  {
    var t :| 0 <= t < |logs| && logs[t] != [];
    assert Proj(full, t) == logs[t];
  }

  // ---------------------------------------------------------------- loading

  lemma StripSlice(full: seq<QueEnt>, o: int)
    requires ObjSorted(full)
    ensures |Strip(full)| == |full| && Strip([]) == []
    ensures StartOf(full, o) + |Sub(full, o)| <= |full|
    ensures Strip(full)[StartOf(full, o)..StartOf(full, o) + |Sub(full, o)|] == Strip(Sub(full, o))
  {
    SliceIsSub(full, o);
    hide Sub, StartOf;
  }

  /** load_wait_reader_log with both files present. */
  method LoadReaderLogs(memop: seq<ReaderEntry>, index: seq<int>, nobj: nat, ghost full: seq<QueEnt>)
    returns (reader: seq<seq<ReaderEntry>>)
    requires ObjSorted(full) && memop == Strip(full) && index == Cells(full, nobj)
    ensures |reader| == nobj && forall o | 0 <= o < nobj :: reader[o] == Strip(Sub(full, o))
  {
    reader := [];
    var p := 0;
    hide Cells, Sub, StartOf, ObjSorted, Strip;
    for o := 0 to nobj
      invariant p == 2 * o && |reader| == o
      invariant forall o' | 0 <= o' < o :: reader[o'] == Strip(Sub(full, o'))
    {
      CellsAt(full, nobj, o);
      StripSlice(full, o);
      if index[p] == -1 {
        reader := reader + [[]];
      } else {
        reader := reader + [memop[index[p]..index[p] + index[p + 1]]];
      }
      p := p + 2;
    }
  }
}
