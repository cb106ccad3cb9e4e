/** What a finished thread has logged, in terms of its accesses alone. */
module LogExact {
  import opened Mem
  import opened ReplaySafety
  import opened RecordLog

  predicate At(es: seq<Event>, i: int, o: ObjId, v: Version) {
    0 <= i < |es| && es[i].addr.obj == o && es[i].version == v
  }

  /** m is the thread's last read of version v of object o, and the thread does not overwrite v itself. */
  predicate LastReadOf(es: seq<Event>, o: ObjId, v: Version, m: int) {
    At(es, m, o, v) && forall i | 0 <= i < |es| && At(es, i, o, v) :: !es[i].write && i <= m
  }

  predicate Names(es: seq<Event>, e: MemopEntry) {
    0 <= e.objid && LastReadOf(es, e.objid, e.version, e.memop)
  }

  predicate Increasing(log: seq<MemopEntry>) {
    forall i, j | 0 <= i < j < |log| && log[i].objid == log[j].objid :: log[i].version < log[j].version
  }

  /** The log holds exactly one entry for each version of each object that the thread read and did not
      itself overwrite, carrying the last such read; per object the versions increase strictly. */
  ghost predicate Exact(es: seq<Event>, log: seq<MemopEntry>) {
    && (forall e :: e in log <==> Names(es, e))
    && Increasing(log)
  }

  /** An entry whose version the thread has already moved past. */
  predicate Closed(es: seq<Event>, e: MemopEntry) {
    && Names(es, e)
    && 0 <= LastIdx(es, e.objid) && e.version < es[LastIdx(es, e.objid)].version
  }

  /** A read that is the thread's last access to its object is the last read of its version. */
  lemma LastAccessNamed(es: seq<Event>, o: ObjId)
    requires Monotone(es) && 0 <= LastIdx(es, o) && !es[LastIdx(es, o)].write
    ensures Names(es, ReadEntry(es, LastIdx(es, o)))
  {
  }

  lemma ClosedStays(es: seq<Event>, e: MemopEntry)
    requires es != [] && Monotone(es) && Closed(Front(es), e)
    ensures Closed(es, e)
  {
    var j := LastIdx(Front(es), e.objid);
    assert Front(es)[j] == es[j];
    assert At(es, e.memop, e.objid, e.version);
    forall i | 0 <= i < |es| && At(es, i, e.objid, e.version) ensures !es[i].write && i <= e.memop {
      if i < |es| - 1 { assert At(Front(es), i, e.objid, e.version); }
    }
  }

  lemma NewlyClosed(es: seq<Event>)
    requires es != [] && Monotone(es) && EndsReads(es, |es| - 1)
    ensures Closed(es, ReadEntry(es, LastIdx(Front(es), Last(es).addr.obj)))
  {
    var o := Last(es).addr.obj;
    var j := LastIdx(Front(es), o);
    assert es[..|es| - 1] == Front(es) && Front(es)[j] == es[j];
    forall i | 0 <= i < |es| && At(es, i, o, es[j].version) ensures !es[i].write && i <= j {
    }
  }

  lemma {:induction false} ClosedEntries(es: seq<Event>, e: MemopEntry)
    requires Monotone(es) && e in MemopSpec(es)
    ensures Closed(es, e)
  {
    MonotoneFront(es);
    if e in MemopSpec(Front(es)) {
      ClosedEntries(Front(es), e);
      ClosedStays(es, e);
    } else {
      NewlyClosed(es);
    }
  }

  lemma NamedBefore(es: seq<Event>, e: MemopEntry)
    requires es != [] && Names(es, e) && e.memop < |es| - 1
    ensures Names(Front(es), e)
  {
    forall i | 0 <= i < |Front(es)| && At(Front(es), i, e.objid, e.version) ensures !Front(es)[i].write
        && i <= e.memop {
      assert At(es, i, e.objid, e.version);
    }
  }

  lemma {:induction false} NamedIsLogged(es: seq<Event>, e: MemopEntry)
    requires Monotone(es) && Names(es, e)
    ensures e in MemopSpec(es) || e.memop == LastIdx(es, e.objid)
  {
    if e.memop < |es| - 1 {
      MonotoneFront(es);
      NamedBefore(es, e);
      NamedIsLogged(Front(es), e);
      assert es[..|es| - 1] == Front(es);
      if Last(es).addr.obj == e.objid {
        assert At(es, |es| - 1, Last(es).addr.obj, Last(es).version);
      }
    }
  }

  lemma {:induction false} SpecIncreasing(es: seq<Event>)
    requires Monotone(es)
    ensures Increasing(MemopSpec(es))
  {
    if es != [] {
      MonotoneFront(es);
      SpecIncreasing(Front(es));
      var log := MemopSpec(Front(es));
      var j := LastIdx(Front(es), Last(es).addr.obj);
      assert 0 <= j ==> Front(es)[j] == es[j];
      forall i | 0 <= i < |log| && EndsReads(es, |es| - 1) && log[i].objid == es[j].addr.obj
        ensures log[i].version < es[j].version
      {
        ClosedEntries(Front(es), log[i]);
      }
    }
  }

  // ---------------------------------------------------------------- the final reads

  lemma {:induction false} PendingMembers(last: seq<LastObj>, i: nat, e: MemopEntry)
    requires i <= |last|
    ensures e in Pending(last, i) <==>
              i <= e.objid < |last| && last[e.objid].memop >= 0
                  && e == MemopEntry(e.objid, last[e.objid].version, last[e.objid].memop)
    decreases |last| - i
  {
    if i < |last| { PendingMembers(last, i + 1, e); }
  }

  lemma {:induction false} PendingIncreasing(last: seq<LastObj>, i: nat)
    requires i <= |last|
    ensures forall j, k | 0 <= j < k < |Pending(last, i)| :: Pending(last, i)[j].objid < Pending(last, i)[k].objid
    decreases |last| - i
  {
    if i < |last| {
      PendingIncreasing(last, i + 1);
      var rest := Pending(last, i + 1);
      forall k | 0 <= k < |rest| ensures i < rest[k].objid {
        PendingMembers(last, i + 1, rest[k]);
      }
    }
  }

  lemma PendingNamed(nobj: nat, es: seq<Event>, last: seq<LastObj>, e: MemopEntry)
    requires Monotone(es) && InRange(nobj, es) && |last| == nobj && LastOk(es, last, false)
    ensures e in Pending(last, 0) <==>
              0 <= e.objid < nobj && 0 <= LastIdx(es, e.objid) && !es[LastIdx(es, e.objid)].write
              && e == ReadEntry(es, LastIdx(es, e.objid))
  {
    PendingMembers(last, 0, e);
  }

  lemma FinishedMembers(nobj: nat, es: seq<Event>, last: seq<LastObj>, e: MemopEntry)
    requires Monotone(es) && InRange(nobj, es) && |last| == nobj && LastOk(es, last, false)
    ensures e in MemopSpec(es) + Pending(last, 0) <==> Names(es, e)
  {
    PendingNamed(nobj, es, last, e);
    if e in MemopSpec(es) { ClosedEntries(es, e); }
    if e in Pending(last, 0) { LastAccessNamed(es, e.objid); }
    if Names(es, e) { NamedIsLogged(es, e); }
  }

  lemma FinishedIncreasing(nobj: nat, es: seq<Event>, last: seq<LastObj>)
    requires Monotone(es) && InRange(nobj, es) && |last| == nobj && LastOk(es, last, false)
    ensures Increasing(MemopSpec(es) + Pending(last, 0))
  {
    var l1, l2 := MemopSpec(es), Pending(last, 0);
    SpecIncreasing(es);
    PendingIncreasing(last, 0);
    forall i, j | 0 <= i < |l1| && 0 <= j < |l2| && l1[i].objid == l2[j].objid ensures l1[i].version < l2[j].version {
      assert l1[i] in l1 && l2[j] in l2;
      ClosedEntries(es, l1[i]);
      PendingNamed(nobj, es, last, l2[j]);
    }
  }

  /** Exactness of the reader log of a finished thread. */
  lemma MemopLogExact(nobj: nat, es: seq<Event>)
    requires Monotone(es) && InRange(nobj, es)
    ensures FinishMemops(LogAll(nobj, es)) != []
    ensures Exact(es, Front(FinishMemops(LogAll(nobj, es))))
    ensures Last(FinishMemops(LogAll(nobj, es))) == MemopEntry(-1, -1, -1)
  {
    DirectLogs(nobj, es);
    var st := LogAll(nobj, es);
    assert Front(FinishMemops(st)) == st.memops + Pending(st.last, 0);
    forall e ensures e in MemopSpec(es) + Pending(st.last, 0) <==> Names(es, e) {
      FinishedMembers(nobj, es, st.last, e);
    }
    FinishedIncreasing(nobj, es, st.last);
  }

  // ---------------------------------------------------------------- the version log

  lemma {:induction false} VersionEntries(es: seq<Event>, i: nat)
    requires i < |VersionSpec(es)|
    ensures 0 <= VersionSpec(es)[i].memop < |es|
    ensures VersionSpec(es)[i].version == es[VersionSpec(es)[i].memop].version
  {
    if i < |VersionSpec(Front(es))| { VersionEntries(Front(es), i); }
  }

  lemma {:induction false} VersionIncreasing(es: seq<Event>, i: nat, j: nat)
    requires i < j < |VersionSpec(es)|
    ensures VersionSpec(es)[i].memop < VersionSpec(es)[j].memop
  {
    if j < |VersionSpec(Front(es))| {
      VersionIncreasing(Front(es), i, j);
    } else {
      VersionEntries(Front(es), i);
    }
  }

  lemma {:induction false} WaitLogged(es: seq<Event>, k: nat) returns (i: nat)
    requires k < |es| && Waits(es, k)
    ensures i < |VersionSpec(es)| && VersionSpec(es)[i].memop == k
  {
    if k < |es| - 1 {
      assert Front(es)[..k] == es[..k];
      assert var j := LastIdx(es[..k], es[k].addr.obj); 0 <= j ==> Front(es)[j] == es[j];
      i := WaitLogged(Front(es), k);
    } else {
      i := |VersionSpec(es)| - 1;
    }
  }

  /** The sparse version log suffices: it is what the replayer expects, and ends with its mark. */
  lemma VersionLogSuffices(nobj: nat, es: seq<Event>)
    requires Monotone(es) && InRange(nobj, es)
    ensures VersionLogOk(es, FinishVersions(LogAll(nobj, es)))
    ensures var log := FinishVersions(LogAll(nobj, es));
            && log != [] && Last(log) == WaitVersion(-1, -1)
            && (forall i | 0 <= i < |log| - 1 :: 0 <= log[i].memop < |es|)
  {
    DirectLogs(nobj, es);
    var spec := VersionSpec(es);
    var log := FinishVersions(LogAll(nobj, es));
    forall i | 0 <= i < |log| - 1 ensures 0 <= log[i].memop < |es| && log[i].version == es[log[i].memop].version {
      VersionEntries(es, i);
    }
    forall i, j | 0 <= i < j < |log| - 1 ensures log[i].memop < log[j].memop {
      VersionIncreasing(es, i, j);
    }
    forall k | 0 <= k < |es|
      ensures es[k].version == 0 || SameVersionBefore(es, k) || exists i :: 0 <= i < |log| - 1 && log[i].memop == k
    {
      if Waits(es, k) {
        var i := WaitLogged(es, k);
        assert log[i].memop == k;
      } else {
        var j := LastIdx(es[..k], es[k].addr.obj);
        assert 0 <= j ==> es[..k][j] == es[j];
      }
    }
  }
}
