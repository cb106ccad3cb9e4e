/** The log tools end to end: from the memop logs the threads recorded to the reader logs the replayer
    uses. */
module Pipeline {
  import opened Mem
  import opened Replay
  import opened RecordLog
  import opened LogExact
  import opened Reorder
  import opened KWay
  import opened MergeMemop

  /** The reader log of object o, cut from the logs of all threads: an interleaving of the threads'
      entries for o, each thread's in order, sorted by version. */
  ghost predicate ReaderLogFrom(files: seq<seq<MemopEntry>>, o: ObjId, log: seq<ReaderEntry>) {
    && (forall i, j | 0 <= i < j < |log| :: log[i].version <= log[j].version)
    && (forall i | 0 <= i < |log| :: log[i].tid < |files|)
    && (forall t | 0 <= t < |files| :: files[t] != [] && OfThread(log, t, o) == Of(Front(files[t]), o))
  }

  /** The entries of thread t, as the recorder wrote them. */
  function OfThread(log: seq<ReaderEntry>, t: Tid, o: ObjId): seq<MemopEntry> {
    if log == [] then []
    else OfThread(Front(log), t, o) +
         if Last(log).tid == t then [MemopEntry(o, Last(log).version, Last(log).memop)] else []
  }

  /** What a recorder leaves behind in a thread's memop log. */
  ghost predicate RecordedFile(file: seq<MemopEntry>, nobj: nat) {
    && EndMarked(file) && ObjectsBelow(Front(file), nobj) && Increasing(Front(file))
    && forall i | 0 <= i < |file| - 1 :: file[i].memop != -1
  }

  lemma {:induction false} ProjSub(full: seq<QueEnt>, t: Tid, o: int)
    ensures Proj(Sub(full, o), t) == Of(Proj(full, t), o)
  {
    if full != [] {
      ProjSub(Front(full), t, o);
      if Last(full).item.objid == o { ProjOneMore(Sub(Front(full), o), Last(full), t); }
      if Last(full).tid == t { OfOneMore(Proj(Front(full), t), Last(full).item, o); }
      assert Sub(full, o) == Sub(Front(full), o) || Last(full).item.objid == o;
      assert Proj(full, t) == Proj(Front(full), t) || Last(full).tid == t;
    }
  }

  lemma {:induction false} SubObject(full: seq<QueEnt>, o: int)
    ensures forall i | 0 <= i < |Sub(full, o)| :: Sub(full, o)[i].item.objid == o && Sub(full, o)[i] in full
  {
    if full != [] { SubObject(Front(full), o); }
  }

  lemma {:induction false} StripThread(sub: seq<QueEnt>, t: Tid, o: ObjId)
    requires forall i | 0 <= i < |sub| :: sub[i].item.objid == o
    ensures OfThread(Strip(sub), t, o) == Proj(sub, t)
  {
    if sub != [] {
      StripThread(Front(sub), t, o);
      assert Front(Strip(sub)) == Strip(Front(sub));
    }
  }

  lemma {:induction false} SubSorted(full: seq<QueEnt>, o: int)
    requires forall i, j | 0 <= i < j < |full| :: Le(full[i].item, full[j].item)
    ensures forall i, j | 0 <= i < j < |Sub(full, o)| :: Sub(full, o)[i].item.version <= Sub(full, o)[j].item.version
  {
    if full != [] {
      SubSorted(Front(full), o);
      SubObject(Front(full), o);
      forall i | 0 <= i < |Sub(Front(full), o)| && Last(full).item.objid == o
        ensures Sub(Front(full), o)[i].item.version <= Last(full).item.version
      {
        var k :| 0 <= k < |full| - 1 && full[k] == Sub(Front(full), o)[i];
      }
    }
  }

  lemma SortedFile(file: seq<MemopEntry>, nobj: nat)
    requires RecordedFile(file, nobj)
    ensures Real(Front(file)) == Front(file)
    ensures SortedBy(Le, Bucketed(Front(file), nobj)) && ObjectsBelow(Bucketed(Front(file), nobj), nobj)
  {
    AllReal(Front(file));
    BucketedSorted(Front(file), nobj);
    var b := Bucketed(Front(file), nobj);
    forall i | 0 <= i < |b| ensures 0 <= b[i].objid < nobj {
      assert b[i] in b;
      BucketedMembers(Front(file), nobj, b[i]);
    }
  }

  lemma MergedReader(files: seq<seq<MemopEntry>>, nobj: nat, logs: seq<seq<MemopEntry>>, full: seq<QueEnt>, o: ObjId)
    requires |logs| == |files| && (forall t | 0 <= t < |files| :: RecordedFile(files[t], nobj))
    requires forall t | 0 <= t < |files| :: files[t] != [] && logs[t] == Bucketed(Front(files[t]), nobj)
    requires Merged(Le, logs, full) && o < nobj
    ensures ReaderLogFrom(files, o, Strip(Sub(full, o)))
  {
    SubSorted(full, o);
    SubObject(full, o);
    var sub := Sub(full, o);
    forall i | 0 <= i < |sub| ensures sub[i].tid < |files| {
      var k :| 0 <= k < |full| && full[k] == sub[i];
    }
    forall t | 0 <= t < |files| ensures OfThread(Strip(sub), t, o) == Of(Front(files[t]), o) {
      StripThread(sub, t, o);
      ProjSub(full, t, o);
      BucketedStable(Front(files[t]), nobj, o);
    }
  }

  lemma NothingBucketed(log: seq<MemopEntry>, n: nat)
    requires ObjectsBelow(log, n) && Bucketed(log, n) == []
    ensures log == []
  {
    BucketedPermutation(log, n);
    assert |multiset(log)| == |log|;
  }

  /** reorder-memop for every thread, merge-memop, load_wait_reader_log. */
  method BuildReaderLogs(files: seq<seq<MemopEntry>>, nobj: nat) returns (reader: seq<seq<ReaderEntry>>)
    requires forall t | 0 <= t < |files| :: RecordedFile(files[t], nobj)
    ensures |reader| == nobj && forall o | 0 <= o < nobj :: ReaderLogFrom(files, o, reader[o])
  {
    var logs: seq<seq<MemopEntry>> := [];
    for t := 0 to |files|
      invariant |logs| == t
      invariant forall t' | 0 <= t' < t :: logs[t'] == Bucketed(Front(files[t']), nobj)
    {
      SortedFile(files[t], nobj);
      var sorted := ReorderThread(files[t], nobj);
      logs := logs + [sorted];
    }
    if t :| 0 <= t < |logs| && logs[t] != [] {
      forall t | 0 <= t < |logs| ensures SortedBy(Le, logs[t]) && ObjectsBelow(logs[t], nobj) {
        SortedFile(files[t], nobj);
      }
      var merged, index, full := MergeLogs(logs, nobj);
      reader := LoadReaderLogs(merged, index, nobj, full);
      forall o | 0 <= o < nobj ensures ReaderLogFrom(files, o, reader[o]) {
        MergedReader(files, nobj, logs, full, o);
      }
    } else {
      // total_size is 0: no merged log is written, and loading finds none.
      reader := seq(nobj, o => []);
      forall t | 0 <= t < |files| ensures Front(files[t]) == [] {
        NothingBucketed(Front(files[t]), nobj);
      }
    }
  }
}
