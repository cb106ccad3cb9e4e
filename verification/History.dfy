/** Linear histories of accesses.  A history is legal when running its accesses one at a time, in
    that order, is a run of the workload: every access is the one its thread's program asks for, every
    read returns the last value written, and an access carries twice the number of earlier writes
    to its object as its version. */
module History {
  import opened Mem

  function Writes(h: seq<Event>, o: ObjId): nat {
    if h == [] then 0
    else Writes(Front(h), o) + (if Last(h).write && Last(h).addr.obj == o then 1 else 0)
  }

  function Ver(h: seq<Event>, o: ObjId): Version {
    2 * Writes(h, o)
  }

  function Val(init: map<Addr, Value>, h: seq<Event>, a: Addr): Value {
    if h == [] then Get(init, a)
    else if Last(h).write && Last(h).addr == a then Last(h).val
    else Val(init, Front(h), a)
  }

  /** The accesses of one thread, in program order. */
  function Own(h: seq<Event>, t: Tid): seq<Event> {
    if h == [] then []
    else if Last(h).tid == t then Own(Front(h), t) + [Last(h)]
    else Own(Front(h), t)
  }

  predicate Next(w: Workload, h: seq<Event>, e: Event) {
    && e.tid < w.nthr
    && SameOp(e, w.prog(e.tid, Results(Own(h, e.tid))))
    && e.version == Ver(h, e.addr.obj)
    && (!e.write ==> e.val == Val(w.init, h, e.addr))
  }

  predicate Legal(w: Workload, h: seq<Event>) {
    h == [] || (Legal(w, Front(h)) && Next(w, Front(h), Last(h)))
  }

  /** Every thread ran its program to the end. */
  ghost predicate Complete(w: Workload, h: seq<Event>) {
    forall t | 0 <= t < w.nthr :: w.prog(t, Results(Own(h, t))) == Stop
  }

  // ---------------------------------------------------------------- positions

  lemma {:induction false} LegalAt(w: Workload, h: seq<Event>, i: nat)
    requires Legal(w, h) && i < |h|
    ensures Legal(w, h[..i]) && Next(w, h[..i], h[i])
  {
    if i < |h| - 1 {
      LegalAt(w, Front(h), i);
      assert Front(h)[..i] == h[..i];
    }
  }

  lemma {:induction false} OwnTid(h: seq<Event>, t: Tid)
    ensures forall k | 0 <= k < |Own(h, t)| :: Own(h, t)[k].tid == t
  {
    if h != [] { OwnTid(Front(h), t); }
  }

  /** Where in the history the k-th access of a thread is. */
  function Pos(h: seq<Event>, t: Tid, k: nat): (i: nat)
    requires k < |Own(h, t)|
    ensures i < |h| && h[i].tid == t && h[i] == Own(h, t)[k]
  {
    if Last(h).tid == t && k == |Own(h, t)| - 1 then |h| - 1 else Pos(Front(h), t, k)
  }

  lemma {:induction false} OwnBefore(h: seq<Event>, t: Tid, k: nat)
    requires k < |Own(h, t)|
    ensures Own(h[..Pos(h, t, k)], t) == Own(h, t)[..k]
  {
    if Last(h).tid == t && k == |Own(h, t)| - 1 {
    } else {
      OwnBefore(Front(h), t, k);
      assert Front(h)[..Pos(h, t, k)] == h[..Pos(h, t, k)];
    }
  }

  lemma {:induction false} PosMono(h: seq<Event>, t: Tid, j: nat, k: nat)
    requires j < k < |Own(h, t)|
    ensures Pos(h, t, j) < Pos(h, t, k)
  {
    if Last(h).tid == t && k == |Own(h, t)| - 1 {
    } else {
      PosMono(Front(h), t, j, k);
    }
  }

  /** Every access of the history is some thread's k-th. */
  lemma {:induction false} OwnIndex(h: seq<Event>, i: nat) returns (k: nat)
    requires i < |h|
    ensures k < |Own(h, h[i].tid)| && Pos(h, h[i].tid, k) == i
  {
    if i == |h| - 1 {
      k := |Own(h, h[i].tid)| - 1;
    } else {
      k := OwnIndex(Front(h), i);
    }
  }

  // ---------------------------------------------------------------- versions

  lemma {:induction false} WritesMono(h: seq<Event>, o: ObjId, i: nat)
    requires i <= |h|
    ensures Writes(h[..i], o) <= Writes(h, o)
    ensures i < |h| && h[i].write && h[i].addr.obj == o ==> Writes(h[..i], o) + 1 <= Writes(h, o)
  {
    if i == |h| {
      assert h[..i] == h;
    } else if i < |h| - 1 {
      WritesMono(Front(h), o, i);
      assert Front(h)[..i] == h[..i];
    }
  }

  /** Along a legal history an object's versions never decrease, and grow by at least two past a write. */
  lemma VersionOrder(w: Workload, h: seq<Event>, i: nat, j: nat)
    requires Legal(w, h) && i < j < |h| && h[i].addr.obj == h[j].addr.obj
    ensures h[i].version <= h[j].version
    ensures h[i].write ==> h[i].version + 2 <= h[j].version
  {
    LegalAt(w, h, i);
    LegalAt(w, h, j);
    WritesMono(h[..j], h[i].addr.obj, i);
    assert h[..j][..i] == h[..i];
  }

  /** The same along one thread's own accesses. */
  lemma OwnVersionOrder(w: Workload, h: seq<Event>, t: Tid, j: nat, k: nat)
    requires Legal(w, h) && j < k < |Own(h, t)|
    requires Own(h, t)[j].addr.obj == Own(h, t)[k].addr.obj
    ensures Own(h, t)[j].version <= Own(h, t)[k].version
    ensures Own(h, t)[j].write ==> Own(h, t)[j].version + 2 <= Own(h, t)[k].version
  {
    PosMono(h, t, j, k);
    VersionOrder(w, h, Pos(h, t, j), Pos(h, t, k));
  }

  /** A version is overwritten once, after every read of it. */
  lemma Overwriter(w: Workload, h: seq<Event>, t: Tid, k: nat, t': Tid, k': nat)
    requires Legal(w, h) && k < |Own(h, t)| && k' < |Own(h, t')|
    requires Own(h, t)[k].write && Own(h, t)[k].addr.obj == Own(h, t')[k'].addr.obj
    requires Own(h, t)[k].version == Own(h, t')[k'].version
    ensures Own(h, t')[k'].write ==> t == t' && k == k'
    ensures !Own(h, t')[k'].write ==> Pos(h, t', k') < Pos(h, t, k) && (t == t' ==> k' < k)
  {
    var i, j := Pos(h, t, k), Pos(h, t', k');
    if i < j { VersionOrder(w, h, i, j); }
    if j < i { VersionOrder(w, h, j, i); }
    if t == t' && k < k' { PosMono(h, t, k, k'); }
    if t == t' && k' < k { PosMono(h, t, k', k); }
  }

  lemma OwnVersionEven(w: Workload, h: seq<Event>, t: Tid, k: nat)
    requires Legal(w, h) && k < |Own(h, t)|
    ensures 0 <= Own(h, t)[k].version && Own(h, t)[k].version % 2 == 0
    ensures t < w.nthr
    ensures Own(h, t)[k].tid == t
  {
    LegalAt(w, h, Pos(h, t, k));
  }

  /** Every version below the object's last one was overwritten by some write. */
  lemma {:induction false} WriteOf(w: Workload, h: seq<Event>, o: ObjId, n: nat) returns (i: nat)
    requires Legal(w, h) && n < Writes(h, o)
    ensures i < |h| && h[i].write && h[i].addr.obj == o && h[i].version == 2 * n
  {
    if n < Writes(Front(h), o) {
      i := WriteOf(w, Front(h), o, n);
    } else {
      i := |h| - 1;
    }
  }

  // ---------------------------------------------------------------- values by version

  /** The value of a word once exactly the writes of versions below `v` to its object are in. */
  function ValAt(init: map<Addr, Value>, h: seq<Event>, a: Addr, v: Version): Value {
    if h == [] then Get(init, a)
    else if Last(h).write && Last(h).addr == a && Last(h).version < v then Last(h).val
    else ValAt(init, Front(h), a, v)
  }

  lemma {:induction false} ValAtAll(w: Workload, h: seq<Event>, a: Addr, v: Version)
    requires Legal(w, h) && Ver(h, a.obj) <= v
    ensures ValAt(w.init, h, a, v) == Val(w.init, h, a)
  {
    if h != [] { ValAtAll(w, Front(h), a, v); }
  }

  /** Up to position `i` the versions below the one reached there are exactly the writes before `i`. */
  lemma {:induction false} ValAtPrefix(w: Workload, h: seq<Event>, i: nat, a: Addr)
    requires Legal(w, h) && i <= |h|
    ensures ValAt(w.init, h, a, Ver(h[..i], a.obj)) == Val(w.init, h[..i], a)
  {
    if i == |h| {
      assert h[..i] == h;
      ValAtAll(w, h, a, Ver(h, a.obj));
    } else {
      ValAtPrefix(w, Front(h), i, a);
      assert Front(h)[..i] == h[..i];
      WritesMono(Front(h), a.obj, i);
    }
  }

  lemma ValAtRead(w: Workload, h: seq<Event>, t: Tid, k: nat)
    requires Legal(w, h) && k < |Own(h, t)| && !Own(h, t)[k].write
    ensures Own(h, t)[k].val == ValAt(w.init, h, Own(h, t)[k].addr, Own(h, t)[k].version)
  {
    var i := Pos(h, t, k);
    LegalAt(w, h, i);
    ValAtPrefix(w, h, i, h[i].addr);
  }

  /** Overwriting version `v` changes the written word only. */
  lemma ValAtWrite(w: Workload, h: seq<Event>, t: Tid, k: nat, a: Addr)
    requires Legal(w, h) && k < |Own(h, t)| && Own(h, t)[k].write && a.obj == Own(h, t)[k].addr.obj
    ensures ValAt(w.init, h, a, Own(h, t)[k].version + 2)
         == if a == Own(h, t)[k].addr then Own(h, t)[k].val else ValAt(w.init, h, a, Own(h, t)[k].version)
  {
    var i := Pos(h, t, k);
    LegalAt(w, h, i);
    ValAtPrefix(w, h, i, a);
    ValAtPrefix(w, h, i + 1, a);
    assert Front(h[..i + 1]) == h[..i];
  }

  /** The k-th access of a thread is what its program asks for after its first k accesses. */
  lemma OwnOp(w: Workload, h: seq<Event>, t: Tid, k: nat)
    requires Legal(w, h) && k < |Own(h, t)|
    ensures SameOp(Own(h, t)[k], w.prog(t, Results(Own(h, t)[..k])))
  {
    LegalAt(w, h, Pos(h, t, k));
    OwnBefore(h, t, k);
  }
}
