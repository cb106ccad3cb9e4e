/** reorder-memop.cpp: bucketing one thread's memop log by object. */
module Reorder {
  import opened Mem
  import opened RecordLog
  import opened LogExact

  /** The entries of one object, in log order. */
  function Of(log: seq<MemopEntry>, o: int): seq<MemopEntry> {
    if log == [] then []
    else Of(Front(log), o) + if Last(log).objid == o then [Last(log)] else []
  }

  /** Skip entries that name no memop. */
  function Real(log: seq<MemopEntry>): seq<MemopEntry> {
    if log == [] then []
    else Real(Front(log)) + if Last(log).memop == -1 then [] else [Last(log)]
  }

  /** The buckets of objects 0 .. n - 1, one after the other. */
  function Bucketed(log: seq<MemopEntry>, n: nat): seq<MemopEntry> {
    if n == 0 then [] else Bucketed(log, n - 1) + Of(log, n - 1)
  }

  predicate ObjectsBelow(log: seq<MemopEntry>, n: int) {
    forall i | 0 <= i < |log| :: 0 <= log[i].objid < n
  }

  /** A log file as the recorder leaves it: entries, then the end mark. */
  predicate EndMarked(file: seq<MemopEntry>) {
    && file != [] && Last(file).objid == -1
    && forall i | 0 <= i < |file| - 1 :: file[i].objid != -1
  }

  /** load_wait_memop_log: one vector for each object. */
  method LoadWaitMemopLog(file: seq<MemopEntry>, nobj: nat) returns (all: seq<seq<MemopEntry>>, total: nat)
    requires EndMarked(file) && ObjectsBelow(Real(Front(file)), nobj)
    ensures |all| == nobj && forall o | 0 <= o < nobj :: all[o] == Of(Real(Front(file)), o)
    ensures total == |Real(Front(file))|
  {
    all, total := seq(nobj, i => []), 0;
    ghost var log, n := Front(file), |file| - 1;
    assert log == file[..n] && file[n].objid == -1 && forall i | 0 <= i < n :: file[i].objid != -1;
    hide *;
    var i := 0;
    ghost var loaded := Real(file[..i]);
    assert file[..i] == [];
    NothingLoaded();
    while file[i].objid != -1
      invariant 0 <= i <= n && |all| == nobj
      invariant loaded == Real(file[..i]) && total == |loaded|
      invariant forall o | 0 <= o < nobj :: all[o] == Of(loaded, o)
      decreases n - i
    {
      assert file[..i + 1] == file[..i] + [file[i]];
      RealOneMore(file[..i], file[i]);
      if file[i].memop != -1 {
        RealRange(log, i, nobj);
        all := PushBack(all, file[i], loaded);
        total := total + 1;
        loaded := loaded + [file[i]];
      }
      i := i + 1;
    }
    assert file[..i] == log;
  }

  /** all[wmlog->objid].push_back(*wmlog) */
  method PushBack(all: seq<seq<MemopEntry>>, e: MemopEntry,
                  ghost log: seq<MemopEntry>) returns (all': seq<seq<MemopEntry>>)
    requires 0 <= e.objid < |all| && forall o | 0 <= o < |all| :: all[o] == Of(log, o)
    ensures |all'| == |all| && forall o | 0 <= o < |all| :: all'[o] == Of(log + [e], o)
  {
    hide Of;
    all' := all[e.objid := all[e.objid] + [e]];
    forall o | 0 <= o < |all| ensures all'[o] == Of(log + [e], o) {
      OfOneMore(log, e, o);
    }
  }

  lemma NothingLoaded()
    ensures Real([]) == [] && forall o :: Of([], o) == []
  {
  }

  lemma {:induction false} RealRange(log: seq<MemopEntry>, i: nat, n: nat)
    requires i < |log| && log[i].memop != -1 && ObjectsBelow(Real(log), n)
    ensures 0 <= log[i].objid < n
  {
    if i < |log| - 1 {
      assert forall k | 0 <= k < |Real(Front(log))| :: Real(Front(log))[k] == Real(log)[k];
      RealRange(Front(log), i, n);
    } else {
      assert Last(Real(log)) == log[i];
    }
  }

  /** write_out_memop_log: the vectors copied one behind the other. */
  method WriteOutMemopLog(all: seq<seq<MemopEntry>>, ghost log: seq<MemopEntry>) returns (file: seq<MemopEntry>)
    requires forall o | 0 <= o < |all| :: all[o] == Of(log, o)
    ensures file == Bucketed(log, |all|)
  {
    file := [];
    for o := 0 to |all|
      invariant file == Bucketed(log, o)
    {
      file := file + all[o];
    }
  }

  // ---------------------------------------------------------------- a stable permutation

  lemma OfOneMore(log: seq<MemopEntry>, e: MemopEntry, o: int)
    ensures Of(log + [e], o) == if e.objid == o then Of(log, o) + [e] else Of(log, o)
  {
    assert Front(log + [e]) == log;
  }

  lemma RealOneMore(log: seq<MemopEntry>, e: MemopEntry)
    ensures Real(log + [e]) == if e.memop == -1 then Real(log) else Real(log) + [e]
  {
    assert Front(log + [e]) == log;
  }

  lemma {:induction false} OfAppend(a: seq<MemopEntry>, b: seq<MemopEntry>, o: int)
    ensures Of(a + b, o) == Of(a, o) + Of(b, o)
  {
    if b == [] {
      assert a + b == a;
    } else {
      OfAppend(a, Front(b), o);
      assert Front(a + b) == a + Front(b);
    }
  }

  lemma {:induction false} OfOf(log: seq<MemopEntry>, o: int, o': int)
    ensures Of(Of(log, o), o') == if o == o' then Of(log, o) else []
  {
    if log != [] {
      OfOf(Front(log), o, o');
      if Last(log).objid == o {
        OfOneMore(Of(Front(log), o), Last(log), o');
      } else {
        assert Of(log, o) == Of(Front(log), o);
      }
    }
  }

  lemma OfJoin(a: seq<MemopEntry>, b: seq<MemopEntry>, o: int)
    requires Of(a, o) == [] || Of(b, o) == []
    ensures Of(a + b, o) == if Of(a, o) == [] then Of(b, o) else Of(a, o)
  {
    OfAppend(a, b, o);
  }

  /** Bucketing is stable: every object's entries keep their order, and nothing is lost or added. */
  lemma {:induction false} BucketedStable(log: seq<MemopEntry>, n: nat, o: int)
    ensures Of(Bucketed(log, n), o) == if 0 <= o < n then Of(log, o) else []
  {
    hide *;
    BucketedUnfold(log, n, o);
    if n > 0 {
      BucketedStable(log, n - 1, o);
      OfOf(log, n - 1, o);
      OfJoin(Bucketed(log, n - 1), Of(log, n - 1), o);
    }
  }

  lemma BucketedUnfold(log: seq<MemopEntry>, n: nat, o: int)
    ensures n == 0 ==> Of(Bucketed(log, n), o) == []
    ensures n > 0 ==> Bucketed(log, n) == Bucketed(log, n - 1) + Of(log, n - 1)
  {
  }

  lemma {:induction false} OfMembers(log: seq<MemopEntry>, o: int, e: MemopEntry)
    ensures e in Of(log, o) <==> e in log && e.objid == o
  {
    if log != [] {
      OfMembers(Front(log), o, e);
      assert log == Front(log) + [Last(log)];
    }
  }

  lemma {:induction false} BucketedMembers(log: seq<MemopEntry>, n: nat, e: MemopEntry)
    ensures e in Bucketed(log, n) <==> e in log && 0 <= e.objid < n
  {
    hide Of;
    if n > 0 {
      BucketedMembers(log, n - 1, e);
      OfMembers(log, n - 1, e);
      var a, b := Bucketed(log, n - 1), Of(log, n - 1);
      assert Bucketed(log, n) == a + b;
      assert e in a + b <==> e in a || e in b;
    }
  }

  lemma {:induction false} OfMultiset(log: seq<MemopEntry>, o: int, e: MemopEntry)
    ensures multiset(Of(log, o))[e] == if e.objid == o then multiset(log)[e] else 0
  {
    if log != [] {
      OfMultiset(Front(log), o, e);
      assert log == Front(log) + [Last(log)];
    }
  }

  lemma CountAppend(a: seq<MemopEntry>, b: seq<MemopEntry>, e: MemopEntry)
    ensures multiset(a + b)[e] == multiset(a)[e] + multiset(b)[e]
  {
  }

  lemma {:induction false} BucketedCount(log: seq<MemopEntry>, n: nat, e: MemopEntry)
    ensures multiset(Bucketed(log, n))[e] == if 0 <= e.objid < n then multiset(log)[e] else 0
  {
    hide Of;
    if n > 0 {
      BucketedCount(log, n - 1, e);
      OfMultiset(log, n - 1, e);
      var a, b := Bucketed(log, n - 1), Of(log, n - 1);
      CountAppend(a, b, e);
    }
  }

  /** Bucketing is a permutation of the log. */
  lemma BucketedPermutation(log: seq<MemopEntry>, n: nat)
    requires ObjectsBelow(log, n)
    ensures multiset(Bucketed(log, n)) == multiset(log)
  {
    forall e ensures multiset(Bucketed(log, n))[e] == multiset(log)[e] {
      BucketedCount(log, n, e);
      if e in multiset(log) { assert e in log; }
    }
  }

  // ---------------------------------------------------------------- strictly sorted

  predicate Before(a: MemopEntry, b: MemopEntry) {
    a.objid < b.objid || (a.objid == b.objid && a.version < b.version)
  }

  predicate StrictlySorted(log: seq<MemopEntry>) {
    forall i, j | 0 <= i < j < |log| :: Before(log[i], log[j])
  }

  lemma {:induction false} OfIncreasing(log: seq<MemopEntry>, o: int)
    requires Increasing(log)
    ensures StrictlySorted(Of(log, o))
  {
    if log != [] {
      OfIncreasing(Front(log), o);
      forall i | 0 <= i < |Of(Front(log), o)| && Last(log).objid == o ensures Before(Of(Front(log), o)[i], Last(log)) {
        var e := Of(Front(log), o)[i];
        OfMembers(Front(log), o, e);
        var k :| 0 <= k < |log| - 1 && log[k] == e;
      }
    }
  }

  /** With the recorder's per-object version order, the output is strictly sorted by (objid, version). */
  lemma {:induction false} BucketedSorted(log: seq<MemopEntry>, n: nat)
    requires Increasing(log)
    ensures StrictlySorted(Bucketed(log, n))
  {
    hide Of;
    if n > 0 {
      BucketedSorted(log, n - 1);
      OfIncreasing(log, n - 1);
      var a, b := Bucketed(log, n - 1), Of(log, n - 1);
      forall i, j | 0 <= i < |a| && 0 <= j < |b| ensures Before(a[i], b[j]) {
        assert a[i] in a && b[j] in b;
        BucketedMembers(log, n - 1, a[i]);
        OfMembers(log, n - 1, b[j]);
      }
    }
  }

  /** Recorder logs hold no entry without a memop. */
  lemma {:induction false} AllReal(log: seq<MemopEntry>)
    requires forall i | 0 <= i < |log| :: log[i].memop != -1
    ensures Real(log) == log
  {
    if log != [] {
      RealLast(log);
      hide Real;
      AllReal(Front(log));
      assert log == Front(log) + [Last(log)];
    }
  }

  lemma RealLast(log: seq<MemopEntry>)
    requires log != [] && Last(log).memop != -1
    ensures Real(log) == Real(Front(log)) + [Last(log)]
  {
  }

  /** The whole tool on one thread; the sorted file is only written when there is something to write. */
  method ReorderThread(file: seq<MemopEntry>, nobj: nat) returns (sorted: seq<MemopEntry>)
    requires EndMarked(file) && ObjectsBelow(Real(Front(file)), nobj)
    ensures sorted == Bucketed(Real(Front(file)), nobj)
  {
    var all, total := LoadWaitMemopLog(file, nobj);
    if total != 0 {
      sorted := WriteOutMemopLog(all, Real(Front(file)));
    } else {
      sorted := [];
      BucketedPermutation(Real(Front(file)), nobj);
      assert |multiset(Bucketed(Real(Front(file)), nobj))| == 0;
    }
  }
}
