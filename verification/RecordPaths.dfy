/** The fallback accesses of the version-based recorders, run alone: which of their stores are still buffered at the end
    and what they do not wait for. */
module RecordPaths {
  import opened Mem
  import opened Schedules
  import opened RecordLog
  import opened RecordModel

  /** Thread t is about to access address a of an object that exists. */
  predicate About(c: Config, s: State, t: Tid, op: Op) {
    t < |s.thr| && CurrentOp(c, s, t) == op && !op.Stop? && op.addr.obj < |s.thr[t].log.last|
  }

  // ---------------------------------------------------------------- the seqlock read

  /** The read as the thread sees memory now. */
  function ReadEvent(s: State, t: Tid, a: Addr): Event
    requires t < |s.thr|
  {
    Event(t, false, a, Load(s, s.thr[t].buf, VersionOf(a.obj)), Load(s, s.thr[t].buf, Word(a)))
  }

  lemma {:induction false} GotoLoad(s: State, t: Tid, pc: PC, buf: seq<Pending>, l: Loc)
    requires t < |s.thr|
    ensures Load(Goto(s, t, pc), buf, l) == Load(s, buf, l)
    decreases |buf|
  {
    if buf != [] { GotoLoad(s, t, pc, Front(buf), l); }
  }

  /** From version load to log entry: four steps, whatever is buffered. */
  lemma ReadSteps(c: Config, s: State, t: Tid, a: Addr)
    requires About(c, s, t, Read(a)) && ReadEvent(s, t, a).version % 2 == 0
    ensures var e := ReadEvent(s, t, a);
            var s1, s2 := Goto(s, t, ReadVersion), Goto(s, t, ReadWord(e.version));
            var s3, s4 := Goto(s, t, Recheck(e.version, e.val)), Commit(s, t, e, LogRead(e.version, e.val));
            && Step(c, s1, Go(t)) == Some(s2) && Step(c, s2, Go(t)) == Some(s3) && Step(c, s3, Go(t)) == Some(s4)
            && Step(c, s4, Go(t)) == Some(Logged(s.(hist := s.hist + [e]), t, e))
  {
    hide Results, LogEvent, Load;
    var e := ReadEvent(s, t, a);
    var buf := s.thr[t].buf;
    GotoLoad(s, t, ReadVersion, buf, VersionOf(a.obj));
    GotoLoad(s, t, ReadWord(e.version), buf, Word(a));
    GotoLoad(s, t, Recheck(e.version, e.val), buf, VersionOf(a.obj));
    GotoTwice(s, t, ReadVersion, ReadWord(e.version));
    GotoTwice(s, t, ReadWord(e.version), Recheck(e.version, e.val));
    GotoTwice(s, t, Recheck(e.version, e.val), LogRead(e.version, e.val));
    var s4 := Commit(s, t, e, LogRead(e.version, e.val));
    assert Logged(s4, t, e) == Logged(s.(hist := s.hist + [e]), t, e);
  }

  lemma OnlyFour(c: Config, s: State, t: Tid, s1: State, s2: State, s3: State, s4: State)
    requires Step(c, s, Go(t)) == Some(s1) && Step(c, s1, Go(t)) == Some(s2)
    requires Step(c, s2, Go(t)) == Some(s3) && Step(c, s3, Go(t)) == Some(s4)
    ensures Only(StepOf(c), s, Go(t), 4) == s4
  {
    hide Step, Only;
    OnlyNone(StepOf(c), s, Go(t));
    OnlyNext(StepOf(c), s, Go(t), 0);
    OnlyNext(StepOf(c), s, Go(t), 1);
    OnlyNext(StepOf(c), s, Go(t), 2);
    OnlyNext(StepOf(c), s, Go(t), 3);
  }

  /** A seqlock read alone: entered directly, or after an abort from anywhere in a transaction, it takes four steps from
      its version load to its log entry when the version the thread sees is even.  It waits for no buffered store and
      leaves all of them where they are. */
  lemma ReadAlone(c: Config, s: State, t: Tid, a: Addr)
    requires About(c, s, t, Read(a)) && ReadEvent(s, t, a).version % 2 == 0
    requires s.thr[t].pc == Start || InTx(s.thr[t].pc)
    ensures Step(c, s, if s.thr[t].pc == Start then Go(t) else Abort(t)) == Some(Goto(s, t, ReadVersion))
    ensures var e := ReadEvent(s, t, a);
            Only(StepOf(c), Goto(s, t, ReadVersion), Go(t), 4) == Logged(s.(hist := s.hist + [e]), t, e)
  {
    var e := ReadEvent(s, t, a);
    ReadSteps(c, s, t, a);
    OnlyFour(c, Goto(s, t, ReadVersion), t, Goto(s, t, ReadWord(e.version)), Goto(s, t, Recheck(e.version, e.val)),
             Commit(s, t, e, LogRead(e.version, e.val)), Logged(s.(hist := s.hist + [e]), t, e));
  }

  // ---------------------------------------------------------------- the seqlock write

  /** What a write inside its critical section has made of s. */
  function Inside(s: State, t: Tid, o: ObjId, pc: PC, buf: seq<Pending>): State
    requires t < |s.thr|
  {
    s.(lock := s.lock[o := 1], owner := s.owner[o := t], thr := s.thr[t := s.thr[t].(pc := pc, buf := buf)])
  }

  lemma InsideTwice(s: State, t: Tid, p: PC, b: seq<Pending>, q: PC, b': seq<Pending>)
    requires t < |s.thr|
    ensures s.thr[t := s.thr[t].(pc := p, buf := b)][t := s.thr[t].(pc := q, buf := b')]
         == s.thr[t := s.thr[t].(pc := q, buf := b')]
  {
  }

  lemma LoadsVersion(c: Config, s: State, t: Tid, a: Addr, x: Value, pc: PC)
    requires About(c, s, t, Write(a, x)) && (pc.WriteVersion? || pc.FirstLoad? || pc.SecondLoad?)
    ensures var y := Num(s.ver, a.obj);
            var pc' := if pc.WriteVersion? then FirstLoad(y)
                       else if pc.FirstLoad? then FirstStore(pc.v, y) else SecondStore(pc.v, y);
            Step(c, Inside(s, t, a.obj, pc, []), Go(t)) == Some(Inside(s, t, a.obj, pc', []))
  {
    hide Results;
    assert CurrentOp(c, Inside(s, t, a.obj, pc, []), t) == Write(a, x);
    InsideTwice(s, t, pc, [], Step(c, Inside(s, t, a.obj, pc, []), Go(t)).value.thr[t].pc, []);
  }

  lemma Pushes(c: Config, s: State, t: Tid, a: Addr, x: Value, pc: PC, buf: seq<Pending>)
    requires About(c, s, t, Write(a, x)) && (pc.FirstStore? || pc.StoreWord? || pc.SecondStore? || pc.Release?)
    ensures var pc' := if pc.FirstStore? then StoreWord(pc.v) else if pc.StoreWord? then Fence(pc.v)
                       else if pc.SecondStore? then Release(pc.v) else LogWrite(pc.v);
            var st := if pc.FirstStore? then Pending(VersionOf(a.obj), pc.x + 1)
                      else if pc.StoreWord? then Pending(Word(a), x)
                      else if pc.SecondStore? then Pending(VersionOf(a.obj), pc.x + 1) else Pending(LockOf(a.obj), 0);
            Step(c, Inside(s, t, a.obj, pc, buf), Go(t)) == Some(Inside(s, t, a.obj, pc', buf + [st]))
  {
    hide Results, Load;
    assert CurrentOp(c, Inside(s, t, a.obj, pc, buf), t) == Write(a, x);
    var th := Step(c, Inside(s, t, a.obj, pc, buf), Go(t)).value.thr[t];
    InsideTwice(s, t, pc, buf, th.pc, th.buf);
  }

  /** From spin_lock to the fence. */
  lemma BeforeFence(c: Config, s: State, t: Tid, a: Addr, x: Value)
    requires About(c, s, t, Write(a, x)) && s.thr[t].buf == [] && Num(s.lock, a.obj) == 0
    ensures var o, v := a.obj, Num(s.ver, a.obj);
            var s1, s2 := Inside(s, t, o, WriteVersion, []), Inside(s, t, o, FirstLoad(v), []);
            var s3 := Inside(s, t, o, FirstStore(v, v), []);
            var s4 := Inside(s, t, o, StoreWord(v), [Pending(VersionOf(o), v + 1)]);
            var s5 := Inside(s, t, o, Fence(v), [Pending(VersionOf(o), v + 1), Pending(Word(a), x)]);
            && Step(c, Goto(s, t, Acquire), Go(t)) == Some(s1) && Step(c, s1, Go(t)) == Some(s2)
            && Step(c, s2, Go(t)) == Some(s3) && Step(c, s3, Go(t)) == Some(s4) && Step(c, s4, Go(t)) == Some(s5)
  {
    hide Results;
    var o, v := a.obj, Num(s.ver, a.obj);
    var b := [Pending(VersionOf(o), v + 1)];
    assert Step(c, Goto(s, t, Acquire), Go(t)) == Some(Inside(s, t, o, WriteVersion, [])) by {
      InsideTwice(s, t, Acquire, [], WriteVersion, []);
    }
    hide Step, Inside, About;
    LoadsVersion(c, s, t, a, x, WriteVersion);
    LoadsVersion(c, s, t, a, x, FirstLoad(v));
    Pushes(c, s, t, a, x, FirstStore(v, v), []);
    Pushes(c, s, t, a, x, StoreWord(v), b);
    assert [] + b == b && b + [Pending(Word(a), x)] == [Pending(VersionOf(o), v + 1), Pending(Word(a), x)];
  }

  /** The state when the stores before the fence are in memory. */
  function Fenced(s: State, a: Addr, x: Value): State {
    s.(ver := s.ver[a.obj := Num(s.ver, a.obj) + 1], data := s.data[a := x])
  }

  lemma DrainsBeforeFence(c: Config, s: State, t: Tid, a: Addr, x: Value)
    requires About(c, s, t, Write(a, x))
    ensures var o, v := a.obj, Num(s.ver, a.obj);
            var b := [Pending(VersionOf(o), v + 1), Pending(Word(a), x)];
            var s1 := Step(c, Inside(s, t, o, Fence(v), b), Drain(t));
            s1.Some? && Step(c, s1.value, Drain(t)) == Some(Inside(Fenced(s, a, x), t, o, Fence(v), []))
  {
    hide Results;
    var o, v := a.obj, Num(s.ver, a.obj);
    var b := [Pending(VersionOf(o), v + 1), Pending(Word(a), x)];
    assert b[1..] == [Pending(Word(a), x)] && b[1..][1..] == [];
    InsideTwice(s, t, Fence(v), b, Fence(v), b[1..]);
    InsideTwice(s, t, Fence(v), b[1..], Fence(v), []);
  }

  /** From the fence to the log entry. */
  lemma AfterFence(c: Config, s: State, t: Tid, a: Addr, x: Value, v: Version)
    requires About(c, s, t, Write(a, x)) && Num(s.ver, a.obj) == v + 1
    ensures var o, e := a.obj, Event(t, true, a, v, x);
            var s' := s.(hist := s.hist + [e]);
            var s1, s2 := Inside(s', t, o, SecondLoad(v), []), Inside(s', t, o, SecondStore(v, v + 1), []);
            var s3 := Inside(s', t, o, Release(v), [Pending(VersionOf(o), v + 2)]);
            var s4 := Inside(s', t, o, LogWrite(v), [Pending(VersionOf(o), v + 2), Pending(LockOf(o), 0)]);
            && Step(c, Inside(s, t, o, Fence(v), []), Go(t)) == Some(s1) && Step(c, s1, Go(t)) == Some(s2)
            && Step(c, s2, Go(t)) == Some(s3) && Step(c, s3, Go(t)) == Some(s4)
            && Step(c, s4, Go(t)) == Some(Logged(s4, t, e))
  {
    hide Results, LogEvent;
    var o, e := a.obj, Event(t, true, a, v, x);
    var s', b := s.(hist := s.hist + [e]), [Pending(VersionOf(o), v + 2)];
    PassesFence(c, s, t, a, x, v);
    assert About(c, s', t, Write(a, x));
    var s4 := Inside(s', t, o, LogWrite(v), b + [Pending(LockOf(o), 0)]);
    assert Step(c, s4, Go(t)) == Some(Logged(s4, t, e));
    hide Step, Inside, About;
    LoadsVersion(c, s', t, a, x, SecondLoad(v));
    Pushes(c, s', t, a, x, SecondStore(v, v + 1), []);
    Pushes(c, s', t, a, x, Release(v), b);
    assert [] + b == b && b + [Pending(LockOf(o), 0)] == [Pending(VersionOf(o), v + 2), Pending(LockOf(o), 0)];
  }

  lemma PassesFence(c: Config, s: State, t: Tid, a: Addr, x: Value, v: Version)
    requires About(c, s, t, Write(a, x))
    ensures var s' := s.(hist := s.hist + [Event(t, true, a, v, x)]);
            Step(c, Inside(s, t, a.obj, Fence(v), []), Go(t)) == Some(Inside(s', t, a.obj, SecondLoad(v), []))
  {
    hide Results, Load;
    assert CurrentOp(c, Inside(s, t, a.obj, Fence(v), []), t) == Write(a, x);
    InsideTwice(s, t, Fence(v), [], SecondLoad(v), []);
  }

  lemma OnlyFive(c: Config, s: State, t: Tid, s1: State, s2: State, s3: State, s4: State, s5: State)
    requires Step(c, s, Go(t)) == Some(s1) && Step(c, s1, Go(t)) == Some(s2)
    requires Step(c, s2, Go(t)) == Some(s3) && Step(c, s3, Go(t)) == Some(s4) && Step(c, s4, Go(t)) == Some(s5)
    ensures Only(StepOf(c), s, Go(t), 5) == s5
  {
    hide Step, Only;
    OnlyFour(c, s, t, s1, s2, s3, s4);
    OnlyNext(StepOf(c), s, Go(t), 4);
  }

  lemma OnlyTwoDrains(c: Config, s: State, t: Tid, s2: State)
    requires Step(c, s, Drain(t)).Some? && Step(c, Step(c, s, Drain(t)).value, Drain(t)) == Some(s2)
    ensures Only(StepOf(c), s, Drain(t), 2) == s2
  {
    hide Step, Only;
    OnlyNone(StepOf(c), s, Drain(t));
    OnlyNext(StepOf(c), s, Drain(t), 0);
    OnlyNext(StepOf(c), s, Drain(t), 1);
  }

  /** A seqlock write alone: entered directly, or after an abort from anywhere in a transaction, with the lock free and
      no store buffered.  Five steps take it to the fence with the odd version and the word in the buffer; once these
      two have drained, five more take it to its log entry.  The even version and the unlock are then still in the
      buffer: to the others the object is locked and its version odd. */
  lemma WriteAlone(c: Config, s: State, t: Tid, a: Addr, x: Value)
    requires About(c, s, t, Write(a, x)) && s.thr[t].buf == [] && Num(s.lock, a.obj) == 0
    requires s.thr[t].pc == Start || InTx(s.thr[t].pc)
    ensures Step(c, s, if s.thr[t].pc == Start then Go(t) else Abort(t)) == Some(Goto(s, t, Acquire))
    ensures var o, v, e := a.obj, Num(s.ver, a.obj), Event(t, true, a, Num(s.ver, a.obj), x);
            var s1 := Only(StepOf(c), Goto(s, t, Acquire), Go(t), 5);
            var s2 := Only(StepOf(c), s1, Drain(t), 2);
            var s3 := Fenced(s, a, x).(hist := s.hist + [e]);
            var s4 := Inside(s3, t, o, LogWrite(v), [Pending(VersionOf(o), v + 2), Pending(LockOf(o), 0)]);
            && s1 == Inside(s, t, o, Fence(v), [Pending(VersionOf(o), v + 1), Pending(Word(a), x)])
            && s2 == Inside(Fenced(s, a, x), t, o, Fence(v), [])
            && Only(StepOf(c), s2, Go(t), 5) == Logged(s4, t, e)
  {
    hide Only, Step, LogEvent, Results;
    var o, v, e := a.obj, Num(s.ver, a.obj), Event(t, true, a, Num(s.ver, a.obj), x);
    Entered(c, s, t, a, x);
    BeforeFence(c, s, t, a, x);
    OnlyFive(c, Goto(s, t, Acquire), t, Inside(s, t, o, WriteVersion, []), Inside(s, t, o, FirstLoad(v), []),
             Inside(s, t, o, FirstStore(v, v), []), Inside(s, t, o, StoreWord(v), [Pending(VersionOf(o), v + 1)]),
             Inside(s, t, o, Fence(v), [Pending(VersionOf(o), v + 1), Pending(Word(a), x)]));
    DrainsBeforeFence(c, s, t, a, x);
    hide Inside;
    var s2 := Inside(Fenced(s, a, x), t, o, Fence(v), []);
    OnlyTwoDrains(c, Inside(s, t, o, Fence(v), [Pending(VersionOf(o), v + 1), Pending(Word(a), x)]), t, s2);
    assert About(c, Fenced(s, a, x), t, Write(a, x));
    AfterFence(c, Fenced(s, a, x), t, a, x, v);
    var s3, b := Fenced(s, a, x).(hist := s.hist + [e]), [Pending(VersionOf(o), v + 2)];
    assert b + [Pending(LockOf(o), 0)] == [Pending(VersionOf(o), v + 2), Pending(LockOf(o), 0)];
    var s4 := Inside(s3, t, o, LogWrite(v), [Pending(VersionOf(o), v + 2), Pending(LockOf(o), 0)]);
    OnlyFive(c, s2, t, Inside(s3, t, o, SecondLoad(v), []), Inside(s3, t, o, SecondStore(v, v + 1), []),
             Inside(s3, t, o, Release(v), b), s4, Logged(s4, t, e));
  }

  lemma Entered(c: Config, s: State, t: Tid, a: Addr, x: Value)
    requires About(c, s, t, Write(a, x)) && (s.thr[t].pc == Start || InTx(s.thr[t].pc))
    ensures Step(c, s, if s.thr[t].pc == Start then Go(t) else Abort(t)) == Some(Goto(s, t, Acquire))
  {
    hide Results, Load;
  }
}
