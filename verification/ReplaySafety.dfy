/** Replay follows the recorded history.  From logs that describe a legal history `h`, every schedule
    of replay steps repeats h's accesses: same objects, versions and values, no assertion fires and
    no two threads ever consume one object's reader log at the same time. */
module ReplaySafety {
  import opened Mem
  import opened History
  import opened Replay

  // ---------------------------------------------------------------- what the logs must say

  predicate SameVersionBefore(own: seq<Event>, k: nat)
    requires k < |own|
  {
    exists j :: 0 <= j < k && own[j].addr.obj == own[k].addr.obj && own[j].version == own[k].version
  }

  /** A thread's version log: in program order, entries tell the version of the access they name; an
      access without an entry starts from version 0 or repeats the version of an earlier access. */
  ghost predicate VersionLogOk(own: seq<Event>, log: seq<WaitVersion>) {
    && log != [] && Last(log).memop == -1
    && (forall i | 0 <= i < |log| - 1 :: 0 <= log[i].memop < |own| && log[i].version == own[log[i].memop].version)
    && (forall i, j | 0 <= i < j < |log| - 1 :: log[i].memop < log[j].memop)
    && (forall k | 0 <= k < |own| ::
          own[k].version == 0 || SameVersionBefore(own, k) || exists i :: 0 <= i < |log| - 1 && log[i].memop == k)
  }

  predicate ReadAt(h: seq<Event>, t: Tid, k: int, o: ObjId, v: Version) {
    0 <= k < |Own(h, t)| && !Own(h, t)[k].write && Own(h, t)[k].addr.obj == o && Own(h, t)[k].version == v
  }

  predicate WriteAt(h: seq<Event>, t: Tid, k: int, o: ObjId, v: Version) {
    0 <= k < |Own(h, t)| && Own(h, t)[k].write && Own(h, t)[k].addr.obj == o && Own(h, t)[k].version == v
  }

  predicate ReaderSorted(log: seq<ReaderEntry>) {
    forall i, j | 0 <= i < j < |log| :: log[i].version <= log[j].version
  }

  predicate ReaderNames(h: seq<Event>, o: ObjId, log: seq<ReaderEntry>) {
    forall i | 0 <= i < |log| :: ReadAt(h, log[i].tid, log[i].memop, o, log[i].version)
  }

  ghost predicate ReaderCovers(h: seq<Event>, o: ObjId, log: seq<ReaderEntry>) {
    forall t: Tid, k, v | ReadAt(h, t, k, o, v) :: (exists k' :: WriteAt(h, t, k', o, v)) || Covered(log, t, k, v)
  }

  /** An object's reader log: sorted by version, naming reads only, and covering every read of a version
      by a thread that does not itself overwrite that version. */
  ghost predicate ReaderLogOk(h: seq<Event>, o: ObjId, log: seq<ReaderEntry>) {
    ReaderSorted(log) && ReaderNames(h, o, log) && ReaderCovers(h, o, log)
  }

  predicate Covered(log: seq<ReaderEntry>, t: Tid, k: int, v: Version) {
    exists i :: 0 <= i < |log| && log[i].tid == t && log[i].version == v && k <= log[i].memop
  }

  ghost predicate LogsOk(w: Workload, h: seq<Event>, logs: Logs) {
    && Legal(w, h) && Complete(w, h)
    && |logs.version| == w.nthr
    && (forall t | 0 <= t < w.nthr :: VersionLogOk(Own(h, t), logs.version[t]))
    && (forall o :: ReaderLogOk(h, o, ReaderLog(logs, o)))
  }

  // ---------------------------------------------------------------- the invariant

  predicate Passed(pc: PC) {
    !pc.Start? && !pc.SpinVersion? && !pc.CheckVersion? && !pc.Failed?
  }

  predicate Reading(pc: PC) {
    pc.Load? || pc.SeenRead? || pc.DoneRead?
  }

  predicate InMutex(pc: PC) {
    pc.Peek? || pc.UnlockNone? || pc.UnlockSome?
  }

  /** Past wait_reader, before the version is bumped. */
  predicate Cleared(pc: PC) {
    pc.UnlockNone? || pc.SeenWrite? || pc.Store? || pc.LoadVersion? || pc.StoreVersion?
  }

  predicate Stored(pc: PC) {
    pc.LoadVersion? || pc.StoreVersion?
  }

  /** The access thread t is in the middle of, or about to start. */
  function Cur(h: seq<Event>, s: State, t: Tid): Event
    requires t < |s.thr| && s.thr[t].memop < |Own(h, t)|
  {
    Own(h, t)[s.thr[t].memop]
  }

  /** The cursor of a version log is at the first entry for access k or a later one. */
  ghost predicate WaitOk(log: seq<WaitVersion>, wait: WaitVersion, pos: nat, k: nat) {
    var c := if wait.memop == -1 then pos else pos - 1;
    && 0 <= c < |log|
    && (wait.memop == -1 ==> c == |log| - 1)
    && (wait.memop != -1 ==> c < |log| - 1 && wait == log[c])
    && (forall i | 0 <= i < c :: log[i].memop < k)
    && (forall i | c <= i < |log| - 1 :: k <= log[i].memop)
  }

  /** The first access of the thread that has not passed its version wait. */
  function Waiting(th: Thread): nat {
    if Passed(th.pc) then th.memop + 1 else th.memop
  }

  ghost predicate ReadsDone(h: seq<Event>, s: State, o: ObjId, v: Version) {
    forall t: Tid, k | ReadAt(h, t, k, o, v) :: t < |s.thr| && k < s.thr[t].memop
  }

  /** No entry of the current version is left in the object's reader log. */
  predicate ConsumedAll(logs: Logs, s: State, o: ObjId) {
    var n := Num(s.cursor, o);
    n >= |ReaderLog(logs, o)| || (0 <= n && ReaderLog(logs, o)[n].version > Num(s.ver, o))
  }

  ghost predicate PcOk(logs: Logs, h: seq<Event>, s: State, t: Tid)
    requires t < |s.thr|
  {
    var th := s.thr[t];
    && !th.pc.Failed?
    && (!th.pc.Start? ==> th.memop < |Own(h, t)|)
    && (th.pc.SpinVersion? || th.pc.CheckVersion? ==> th.wait.memop == th.memop)
    && (th.pc.CheckVersion? ==> th.wait.version <= Num(s.ver, Cur(h, s, t).addr.obj))
    && (Passed(th.pc) ==>
          var e := Cur(h, s, t);
          var o := e.addr.obj;
          && (Reading(th.pc) <==> !e.write)
          && (!th.pc.DoneWrite? ==> Num(s.ver, o) == e.version)
          && (th.pc.SeenRead? || th.pc.DoneRead? ==> th.pc.val == e.val)
          && (th.pc.DoneRead? || th.pc.Store? || th.pc.LoadVersion? || th.pc.StoreVersion? || th.pc.DoneWrite? ==>
                th.pc.seen == e.version)
          && (th.pc.StoreVersion? ==> th.pc.loaded == e.version)
          && (th.pc.UnlockSome? || th.pc.SpinReader? ==>
                th.pc.entry in ReaderLog(logs, o) && th.pc.entry.version == e.version)
          && (InMutex(th.pc) ==> o in s.mutex && s.mutex[o] == t)
          && (Cleared(th.pc) ==> ConsumedAll(logs, s, o) && ReadsDone(h, s, o, e.version))
          && (Stored(th.pc) ==> Get(s.mem, e.addr) == e.val))
  }

  ghost predicate ThreadInv(logs: Logs, h: seq<Event>, s: State, t: Tid)
    requires t < |s.thr| == |logs.version|
  {
    var th := s.thr[t];
    && th.memop <= |Own(h, t)|
    && th.trace == Own(h, t)[..th.memop]
    && WaitOk(logs.version[t], th.wait, th.pos, Waiting(th))
    && PcOk(logs, h, s, t)
  }

  predicate Bumped(h: seq<Event>, s: State, t: Tid, k: int) {
    t < |s.thr| && (k < s.thr[t].memop || (k == s.thr[t].memop && s.thr[t].pc.DoneWrite?))
  }

  /** Thread t has taken this entry from o's reader log and is waiting for it. */
  predicate AwaitsEntry(h: seq<Event>, s: State, t: Tid, o: ObjId, entry: ReaderEntry) {
    && t < |s.thr| && s.thr[t].memop < |Own(h, t)|
    && Cur(h, s, t).addr.obj == o
    && (s.thr[t].pc == UnlockSome(entry) || s.thr[t].pc == SpinReader(entry))
  }

  predicate EntryDone(s: State, entry: ReaderEntry) {
    entry.tid < |s.thr| && entry.memop < s.thr[entry.tid].memop
  }

  predicate StoredTo(h: seq<Event>, s: State, t: Tid, a: Addr) {
    t < |s.thr| && s.thr[t].memop < |Own(h, t)| && Stored(s.thr[t].pc) && Cur(h, s, t).addr == a
  }

  ghost predicate VersionInv(h: seq<Event>, s: State, o: ObjId) {
    var v := Num(s.ver, o);
    && 0 <= v && v % 2 == 0
    && (forall t: Tid, k, x | WriteAt(h, t, k, o, x) :: Bumped(h, s, t, k) <==> x < v)
    && (forall t: Tid, k, x | ReadAt(h, t, k, o, x) && x < v :: t < |s.thr| && k < s.thr[t].memop)
    && (forall t: Tid, k, x | ReadAt(h, t, k, o, x) && t < |s.thr| && k < s.thr[t].memop :: x <= v)
  }

  ghost predicate CursorInv(logs: Logs, h: seq<Event>, s: State, o: ObjId) {
    var n, log := Num(s.cursor, o), ReaderLog(logs, o);
    && 0 <= n <= |log|
    && (forall i | 0 <= i < n :: log[i].version <= Num(s.ver, o))
    && (forall i | n <= i < |log| :: Num(s.ver, o) <= log[i].version)
    && (forall i | 0 <= i < n :: EntryDone(s, log[i]) || exists t: Tid :: AwaitsEntry(h, s, t, o, log[i]))
  }

  ghost predicate MutexInv(h: seq<Event>, s: State, o: ObjId) {
    o in s.mutex ==>
      && s.mutex[o] < |s.thr| && s.thr[s.mutex[o]].memop < |Own(h, s.mutex[o])|
      && InMutex(s.thr[s.mutex[o]].pc) && Cur(h, s, s.mutex[o]).addr.obj == o
  }

  ghost predicate MemInv(w: Workload, h: seq<Event>, s: State, a: Addr) {
    (forall t: Tid :: !StoredTo(h, s, t, a)) ==> Get(s.mem, a) == ValAt(w.init, h, a, Num(s.ver, a.obj))
  }

  ghost predicate Inv(w: Workload, logs: Logs, h: seq<Event>, s: State) {
    && |s.thr| == |logs.version| == w.nthr
    && (forall t | 0 <= t < |s.thr| :: ThreadInv(logs, h, s, t))
    && (forall o :: VersionInv(h, s, o))
    && (forall o :: CursorInv(logs, h, s, o))
    && (forall o :: MutexInv(h, s, o))
    && (forall a :: MemInv(w, h, s, a))
  }

  // ---------------------------------------------------------------- consequences of the invariant

  lemma CurrentAccess(w: Workload, logs: Logs, h: seq<Event>, s: State, t: Tid)
    requires LogsOk(w, h, logs) && |s.thr| == w.nthr && t < |s.thr| && ThreadInv(logs, h, s, t)
    ensures CurrentOp(w, s, t).Stop? <==> s.thr[t].memop == |Own(h, t)|
    ensures s.thr[t].memop < |Own(h, t)| ==>
              SameOp(Cur(h, s, t), CurrentOp(w, s, t)) && Cur(h, s, t).tid == t
  {
    if s.thr[t].memop < |Own(h, t)| {
      OwnOp(w, h, t, s.thr[t].memop);
      OwnTid(h, t);
    } else {
      assert Own(h, t)[..s.thr[t].memop] == Own(h, t);
    }
  }

  /** An object's version never runs ahead of an access that is still to be made. */
  lemma NotPast(h: seq<Event>, s: State, t: Tid)
    requires t < |s.thr| && s.thr[t].memop < |Own(h, t)| && !s.thr[t].pc.DoneWrite?
    requires VersionInv(h, s, Cur(h, s, t).addr.obj)
    ensures Num(s.ver, Cur(h, s, t).addr.obj) <= Cur(h, s, t).version
  {
    var e := Cur(h, s, t);
    if e.write {
      assert WriteAt(h, t, s.thr[t].memop, e.addr.obj, e.version);
    } else {
      assert ReadAt(h, t, s.thr[t].memop, e.addr.obj, e.version);
    }
  }

  predicate Writing(h: seq<Event>, s: State, t: Tid, o: ObjId) {
    && t < |s.thr| && s.thr[t].memop < |Own(h, t)| && Passed(s.thr[t].pc) && !Reading(s.thr[t].pc)
    && !s.thr[t].pc.DoneWrite? && Cur(h, s, t).addr.obj == o
  }

  /** At most one thread is between its version wait and its version bump in a write to an object. */
  lemma SoleWriter(w: Workload, logs: Logs, h: seq<Event>, s: State, t: Tid, t': Tid, o: ObjId)
    requires Legal(w, h) && |s.thr| == |logs.version|
    requires Writing(h, s, t, o) && Writing(h, s, t', o)
    requires ThreadInv(logs, h, s, t) && ThreadInv(logs, h, s, t')
    ensures t == t'
  {
    Overwriter(w, h, t, s.thr[t].memop, t', s.thr[t'].memop);
  }

  /** No thread reads an object whose writer has been cleared to store. */
  lemma NoReader(logs: Logs, h: seq<Event>, s: State, t: Tid, t': Tid, o: ObjId)
    requires |s.thr| == |logs.version|
    requires Writing(h, s, t, o) && Cleared(s.thr[t].pc) && ThreadInv(logs, h, s, t)
    requires t' < |s.thr| && ThreadInv(logs, h, s, t') && Reading(s.thr[t'].pc)
    ensures Cur(h, s, t').addr.obj != o
  {
    assert ReadAt(h, t', s.thr[t'].memop, Cur(h, s, t').addr.obj, Cur(h, s, t').version);
  }

  // ---------------------------------------------------------------- what a step leaves alone

  /** Thread t is inside, or about to start, the access the history has for it. */
  ghost predicate Accessing(w: Workload, logs: Logs, h: seq<Event>, s: State, t: Tid) {
    && t < |s.thr| == |logs.version| && s.thr[t].memop < |Own(h, t)|
    && ThreadInv(logs, h, s, t)
    && SameOp(Cur(h, s, t), CurrentOp(w, s, t)) && Cur(h, s, t).tid == t
  }

  lemma StepAccess(w: Workload, logs: Logs, h: seq<Event>, s: State, t: Tid)
    requires LogsOk(w, h, logs) && Inv(w, logs, h, s) && t < |s.thr| && Step(w, logs, s, t).Some?
    ensures Accessing(w, logs, h, s, t)
  {
    CurrentAccess(w, logs, h, s, t);
  }

  lemma OthersKept(logs: Logs, h: seq<Event>, s: State, s': State, t: Tid, t': Tid)
    requires Moves(s, s', t) && |s.thr| == |logs.version| && t' < |s.thr| && t' != t
    requires s.thr[t].memop <= s'.thr[t].memop && ThreadInv(logs, h, s, t')
    requires s.thr[t'].memop < |Own(h, t')| ==>
               var e := Cur(h, s, t');
               && Num(s.ver, e.addr.obj) <= Num(s'.ver, e.addr.obj)
               && (Passed(s.thr[t'].pc) && !s.thr[t'].pc.DoneWrite? ==>
                   && Num(s'.ver, e.addr.obj) == Num(s.ver, e.addr.obj)
                   && (e.addr.obj in s.mutex && InMutex(s.thr[t'].pc) ==>
                         e.addr.obj in s'.mutex && s'.mutex[e.addr.obj] == s.mutex[e.addr.obj])
                   && (Cleared(s.thr[t'].pc) ==> Num(s'.cursor, e.addr.obj) == Num(s.cursor, e.addr.obj))
                   && (Stored(s.thr[t'].pc) ==> Get(s'.mem, e.addr) == Get(s.mem, e.addr)))
    ensures ThreadInv(logs, h, s', t')
  {
  }

  /** Entries taken from a reader log stay awaited until they are done. */
  lemma AwaitsKept(logs: Logs, h: seq<Event>, s: State, s': State, t: Tid, o: ObjId)
    requires Moves(s, s', t) && s.thr[t].memop <= s'.thr[t].memop && CursorInv(logs, h, s, o)
    requires forall e | AwaitsEntry(h, s, t, o, e) :: AwaitsEntry(h, s', t, o, e) || EntryDone(s', e)
    ensures forall i | 0 <= i < Num(s.cursor, o) ::
              EntryDone(s', ReaderLog(logs, o)[i]) || exists t': Tid :: AwaitsEntry(h, s', t', o, ReaderLog(logs, o)[i])
  {
    var n, log := Num(s.cursor, o), ReaderLog(logs, o);
    forall i | 0 <= i < n ensures EntryDone(s', log[i]) || exists t': Tid :: AwaitsEntry(h, s', t', o, log[i]) {
      if !EntryDone(s, log[i]) {
        var t': Tid :| AwaitsEntry(h, s, t', o, log[i]);
        assert AwaitsEntry(h, s', t', o, log[i]) || EntryDone(s', log[i]);
      }
    }
  }

  /** A word's value and the threads that have stored to it are untouched. */
  lemma MemKept(w: Workload, h: seq<Event>, s: State, s': State, t: Tid, a: Addr)
    requires Moves(s, s', t) && MemInv(w, h, s, a)
    requires Get(s'.mem, a) == Get(s.mem, a) && Num(s'.ver, a.obj) == Num(s.ver, a.obj)
    requires StoredTo(h, s, t, a) ==> StoredTo(h, s', t, a)
    ensures MemInv(w, h, s', a)
  {
    assert forall t': Tid :: StoredTo(h, s, t', a) ==> StoredTo(h, s', t', a);
  }

  /** Changes of the program counter that no other thread and no object can notice. */
  predicate Quiet(th: Thread, th': Thread) {
    && th'.memop == th.memop && th'.trace == th.trace
    && !th.pc.DoneWrite? && !th'.pc.DoneWrite?
    && !InMutex(th.pc) && !InMutex(th'.pc)
    && !th.pc.SpinReader? && !th'.pc.SpinReader?
    && (Stored(th.pc) <==> Stored(th'.pc))
  }

  lemma QuietObject(logs: Logs, h: seq<Event>, s: State, s': State, t: Tid, o: ObjId)
    requires Moves(s, s', t) && s' == s.(thr := s'.thr) && Quiet(s.thr[t], s'.thr[t])
    requires VersionInv(h, s, o) && CursorInv(logs, h, s, o) && MutexInv(h, s, o)
    ensures VersionInv(h, s', o) && CursorInv(logs, h, s', o) && MutexInv(h, s', o)
  {
    AwaitsKept(logs, h, s, s', t, o);
  }

  lemma QuietStep(w: Workload, logs: Logs, h: seq<Event>, s: State, s': State, t: Tid)
    requires Inv(w, logs, h, s) && Moves(s, s', t) && s' == s.(thr := s'.thr)
    requires Quiet(s.thr[t], s'.thr[t]) && ThreadInv(logs, h, s', t)
    ensures Inv(w, logs, h, s')
  {
    hide VersionInv, CursorInv, MutexInv, MemInv, ThreadInv;
    forall t' | 0 <= t' < |s.thr| && t' != t ensures ThreadInv(logs, h, s', t') {
      OthersKept(logs, h, s, s', t, t');
    }
    forall o ensures VersionInv(h, s', o) && CursorInv(logs, h, s', o) && MutexInv(h, s', o) {
      QuietObject(logs, h, s, s', t, o);
    }
    forall a ensures MemInv(w, h, s', a) {
      MemKept(w, h, s, s', t, a);
    }
  }
}
