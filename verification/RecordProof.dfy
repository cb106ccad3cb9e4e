/** With the fence in place, `hist` is a legal history in every reachable state of the recorder: the
    accesses take effect one at a time, in an order that respects program order and every object's
    versions, and each recorded version is the one whose value was read or overwritten. */
module RecordProof {
  import opened Mem
  import opened History
  import opened RecordLog
  import opened RecordModel

  // ---------------------------------------------------------------- the invariant

  predicate ReadPc(pc: PC) {
    pc.TxReadVersion? || pc.TxReadWord? || pc.TxReadEnd? || pc.ReadVersion? || pc.ReadWord? || pc.Recheck? ||
    pc.LogRead?
  }

  /** Inside the seqlock writer's critical section. */
  predicate Locked(pc: PC) {
    pc.WriteVersion? || pc.FirstLoad? || pc.FirstStore? || pc.StoreWord? || pc.Fence? || pc.SecondLoad?
    || pc.SecondStore? || pc.Release?
  }

  /** The access has taken effect but is not yet logged. */
  predicate Unlogged(pc: PC) {
    pc.SecondLoad? || pc.SecondStore? || pc.Release? || pc.LogRead? || pc.LogWrite?
  }

  /** The access as it stands in `hist` while it is unlogged. */
  function Effect(t: Tid, pc: PC, op: Op): Event
    requires Unlogged(pc) && !op.Stop?
  {
    match op
    case Read(a) => Event(t, false, a, pc.v, if pc.LogRead? then pc.val else 0)
    case Write(a, x) => Event(t, true, a, pc.v, x)
  }

  /** The thread's own records: what it has logged is what took effect, up to an access in progress. */
  ghost predicate Records(c: Config, s: State, t: Tid)
    requires t < |s.thr|
  {
    var th, op := s.thr[t], CurrentOp(c, s, t);
    && (th.pc != Start ==> !op.Stop? && (ReadPc(th.pc) <==> op.Read?))
    && Own(s.hist, t) == (if Unlogged(th.pc) then th.trace + [Effect(t, th.pc, op)] else th.trace)
    && InRange(c.nobj, th.trace) && th.log == LogAll(c.nobj, th.trace)
  }

  /** The store buffer and the version in memory at each point of the writer's critical section. */
  predicate WriterOk(s: State, pc: PC, buf: seq<Pending>, a: Addr, x: Value) {
    var o := a.obj;
    var now, mem := Ver(s.hist, o), Num(s.ver, o);
    match pc
    case WriteVersion => buf == [] && mem == now
    case FirstLoad(v) => buf == [] && mem == now == v
    case FirstStore(v, y) => buf == [] && mem == now == v == y
    case StoreWord(v) => now == v
        && ((buf == [Pending(VersionOf(o), v + 1)] && mem == v) || (buf == [] && mem == v + 1))
    case Fence(v) =>
      && now == v
      && ((buf == [Pending(VersionOf(o), v + 1), Pending(Word(a), x)] && mem == v)
          || (buf == [Pending(Word(a), x)] && mem == v + 1)
          || (buf == [] && mem == v + 1 && Get(s.data, a) == x))
    case SecondLoad(v) => buf == [] && now == v + 2 && mem == v + 1
    case SecondStore(v, y) => buf == [] && now == v + 2 && mem == y == v + 1
    case Release(v) => now == v + 2
        && ((buf == [Pending(VersionOf(o), v + 2)] && mem == v + 1) || (buf == [] && mem == v + 2))
    case _ => false
  }

  /** Outside a critical section only an unlock, perhaps behind the final version, can be buffered. */
  predicate TailOk(s: State, t: Tid, buf: seq<Pending>) {
    buf != [] ==>
      && Last(buf).loc.LockOf? && Last(buf).val == 0
      && var o := Last(buf).loc.obj;
         var now, mem := Ver(s.hist, o), Num(s.ver, o);
         && o in s.owner && s.owner[o] == t
         && ((buf == [Pending(LockOf(o), 0)] && mem == now)
             || (buf == [Pending(VersionOf(o), now), Pending(LockOf(o), 0)] && mem == now - 1))
  }

  ghost predicate Buffers(c: Config, s: State, t: Tid)
    requires t < |s.thr|
  {
    var th, op := s.thr[t], CurrentOp(c, s, t);
    if Locked(th.pc) && op.Write? then
      WriterOk(s, th.pc, th.buf, op.addr, op.val) && op.addr.obj in s.owner && s.owner[op.addr.obj] == t
    else !Locked(th.pc) && TailOk(s, t, th.buf)
  }

  /** What a seqlock reader has in hand: an old version, or the current one with the current value.  A write transaction
      at its end has seen the lock free. */
  ghost predicate Snapshot(c: Config, s: State, t: Tid)
    requires t < |s.thr|
  {
    var th, op := s.thr[t], CurrentOp(c, s, t);
    && (th.pc.TxWriteEnd? ==> th.pc.l == 0)
    && ((th.pc.ReadWord? || th.pc.Recheck?) && op.Read? ==>
          var now := Ver(s.hist, op.addr.obj);
          && th.pc.v % 2 == 0 && th.pc.v <= now
          && (th.pc.Recheck? && th.pc.v == now ==>
                th.pc.val == Val(c.w.init, s.hist, op.addr) || Num(s.ver, op.addr.obj) == now + 1))
  }

  /** Thread t is in the critical section of o, or its unlock of o is still buffered. */
  predicate Holds(c: Config, s: State, t: Tid, o: ObjId) {
    && t < |s.thr|
    && ((Locked(s.thr[t].pc) && CurrentOp(c, s, t).Write? && CurrentOp(c, s, t).addr.obj == o)
        || (s.thr[t].buf != [] && Last(s.thr[t].buf).loc == LockOf(o)))
  }

  ghost predicate ObjectInv(c: Config, s: State, o: ObjId) {
    if o in s.owner then Num(s.lock, o) == 1 && Holds(c, s, s.owner[o], o)
    else Num(s.lock, o) == 0 && Num(s.ver, o) == Ver(s.hist, o)
  }

  /** The writer's value is in memory, its access not yet counted. */
  predicate Dirty(c: Config, s: State, t: Tid, a: Addr) {
    && t < |s.thr| && s.thr[t].pc.Fence? && s.thr[t].buf == []
    && CurrentOp(c, s, t).Write? && CurrentOp(c, s, t).addr == a
  }

  ghost predicate WordInv(c: Config, s: State, a: Addr) {
    || Get(s.data, a) == Val(c.w.init, s.hist, a)
    || (a.obj in s.owner && Dirty(c, s, s.owner[a.obj], a))
  }

  ghost predicate Local(c: Config, s: State, t: Tid)
    requires t < |s.thr|
  {
    Records(c, s, t) && Buffers(c, s, t) && Snapshot(c, s, t)
  }

  ghost predicate Inv(c: Config, s: State) {
    && |s.thr| == c.w.nthr && Legal(c.w, s.hist)
    && (forall t | 0 <= t < |s.thr| :: Local(c, s, t))
    && (forall o :: ObjectInv(c, s, o))
    && (forall a :: WordInv(c, s, a))
  }

  // ---------------------------------------------------------------- consequences

  lemma NewEvent(w: Workload, h: seq<Event>, e: Event, o: ObjId, a: Addr, t: Tid)
    ensures Ver(h + [e], o) == Ver(h, o) + if e.write && e.addr.obj == o then 2 else 0
    ensures Val(w.init, h + [e], a) == if e.write && e.addr == a then e.val else Val(w.init, h, a)
    ensures Own(h + [e], t) == if e.tid == t then Own(h, t) + [e] else Own(h, t)
    ensures Legal(w, h + [e]) <==> Legal(w, h) && Next(w, h, e)
  {
    assert Front(h + [e]) == h;
  }

  /** Memory's version of an object is even exactly when it is the current one; else a writer is inside. */
  lemma VersionCases(c: Config, s: State, o: ObjId)
    requires Inv(c, s)
    ensures var now, mem := Ver(s.hist, o), Num(s.ver, o); now - 1 <= mem <= now + 1
    ensures Num(s.ver, o) % 2 == 0 ==> Num(s.ver, o) == Ver(s.hist, o)
    ensures Num(s.ver, o) == Ver(s.hist, o) + 1 ==> o in s.owner
  {
    hide Legal, WordInv, Records, Snapshot, Results, Own;
    assert ObjectInv(c, s, o);
    EvenNow(s.hist, o);
    hide Ver;
    if o in s.owner {
      assert Local(c, s, s.owner[o]);
    }
  }

  lemma EvenNow(h: seq<Event>, o: ObjId)
    ensures Ver(h, o) % 2 == 0
  {
  }

  /** The two words of a dirty object differ from the history only while memory's version is odd. */
  lemma DirtyIsOdd(c: Config, s: State, a: Addr)
    requires Inv(c, s) && Get(s.data, a) != Val(c.w.init, s.hist, a)
    ensures Num(s.ver, a.obj) == Ver(s.hist, a.obj) + 1
  {
    assert WordInv(c, s, a);
    assert Local(c, s, s.owner[a.obj]);
  }

  /** What a load returns outside a critical section: memory's version, or the thread's own final one that
      is still buffered; words are never buffered there. */
  lemma LoadOutside(s: State, t: Tid, buf: seq<Pending>, o: ObjId, a: Addr)
    requires TailOk(s, t, buf)
    ensures var x := Load(s, buf, VersionOf(o));
            x == Num(s.ver, o) || (x == Ver(s.hist, o) && Num(s.ver, o) == x - 1)
    ensures Load(s, buf, Word(a)) == Get(s.data, a)
  {
    if |buf| == 2 {
      assert Front(buf) == [buf[0]];
      LoadOne(s, buf[0], VersionOf(o));
      LoadOne(s, buf[0], Word(a));
    } else if |buf| == 1 {
      assert buf == [buf[0]];
      LoadOne(s, buf[0], VersionOf(o));
      LoadOne(s, buf[0], Word(a));
    }
  }

  lemma LoadOne(s: State, p: Pending, l: Loc)
    ensures Load(s, [p], l) == if p.loc == l then p.val else InMemory(s, l)
  {
    assert Front([p]) == [];
  }

  // ---------------------------------------------------------------- steps of one thread on itself

  predicate Moves(s: State, s': State, t: Tid) {
    t < |s.thr| == |s'.thr| && s'.thr == s.thr[t := s'.thr[t]]
  }

  lemma LocalKeeps(c: Config, s: State, s': State, t: Tid)
    requires Inv(c, s) && Moves(s, s', t) && s' == s.(thr := s'.thr) && Local(c, s', t)
    requires forall o :: Holds(c, s, t, o) ==> Holds(c, s', t, o)
    requires forall a :: Dirty(c, s, t, a) ==> Dirty(c, s', t, a)
    ensures Inv(c, s')
  {
    hide Legal;
    forall t' | 0 <= t' < |s'.thr| && t' != t ensures Local(c, s', t') {
      assert Local(c, s, t');
    }
    hide Local;
    forall o ensures ObjectInv(c, s', o) {
      assert ObjectInv(c, s, o);
    }
    forall a ensures WordInv(c, s', a) {
      assert WordInv(c, s, a);
    }
  }

  /** Moves of the program counter outside the critical section, before the access takes effect. */
  lemma QuietGoto(c: Config, s: State, t: Tid, pc: PC)
    requires Inv(c, s) && t < |s.thr| && !Locked(s.thr[t].pc) && !Unlogged(s.thr[t].pc)
    requires !Locked(pc) && !Unlogged(pc) && !CurrentOp(c, s, t).Stop? && pc != Start
    requires ReadPc(pc) <==> CurrentOp(c, s, t).Read?
    requires Snapshot(c, Goto(s, t, pc), t)
    ensures Inv(c, Goto(s, t, pc))
  {
    assert Local(c, s, t);
    LocalKeeps(c, s, Goto(s, t, pc), t);
  }

  lemma ReadVersionKeeps(c: Config, s: State, t: Tid)
    requires Inv(c, s) && t < |s.thr| && s.thr[t].pc.ReadVersion? && CurrentOp(c, s, t).Read?
    requires Load(s, s.thr[t].buf, VersionOf(CurrentOp(c, s, t).addr.obj)) % 2 == 0
    ensures Inv(c, Goto(s, t, ReadWord(Load(s, s.thr[t].buf, VersionOf(CurrentOp(c, s, t).addr.obj)))))
  {
    var a := CurrentOp(c, s, t).addr;
    assert Local(c, s, t);
    LoadOutside(s, t, s.thr[t].buf, a.obj, a);
    VersionCases(c, s, a.obj);
    QuietGoto(c, s, t, ReadWord(Load(s, s.thr[t].buf, VersionOf(a.obj))));
  }

  lemma ReadWordKeeps(c: Config, s: State, t: Tid)
    requires Inv(c, s) && t < |s.thr| && s.thr[t].pc.ReadWord? && CurrentOp(c, s, t).Read?
    ensures Inv(c, Goto(s, t, Recheck(s.thr[t].pc.v, Load(s, s.thr[t].buf, Word(CurrentOp(c, s, t).addr)))))
  {
    var a := CurrentOp(c, s, t).addr;
    assert Local(c, s, t);
    LoadOutside(s, t, s.thr[t].buf, a.obj, a);
    if Get(s.data, a) != Val(c.w.init, s.hist, a) { DirtyIsOdd(c, s, a); }
    QuietGoto(c, s, t, Recheck(s.thr[t].pc.v, Load(s, s.thr[t].buf, Word(a))));
  }

  /** Loads of the writer inside its critical section. */
  lemma WriterLoads(c: Config, s: State, t: Tid)
    requires t < |s.thr| && Local(c, s, t) && CurrentOp(c, s, t).Write? && Step(c, s, Go(t)).Some?
    requires s.thr[t].pc.WriteVersion? || s.thr[t].pc.FirstLoad? || s.thr[t].pc.SecondLoad?
    ensures var s' := Step(c, s, Go(t)).value;
            && Moves(s, s', t) && s' == s.(thr := s'.thr) && Local(c, s', t)
            && Locked(s'.thr[t].pc) && s'.thr[t].trace == s.thr[t].trace
  {
    hide Own, Ver, Val, LogAll, Results, InRange;
  }

  /** Its buffered version stores. */
  lemma WriterVersionStores(c: Config, s: State, t: Tid)
    requires t < |s.thr| && Local(c, s, t) && CurrentOp(c, s, t).Write? && Step(c, s, Go(t)).Some?
    requires s.thr[t].pc.FirstStore? || s.thr[t].pc.SecondStore?
    ensures var s' := Step(c, s, Go(t)).value;
            && Moves(s, s', t) && s' == s.(thr := s'.thr) && Local(c, s', t)
            && Locked(s'.thr[t].pc) && s'.thr[t].trace == s.thr[t].trace
  {
    hide Own, Ver, Val, LogAll, Results, InRange, Load;
  }

  /** Its buffered value store. */
  lemma WriterWordStores(c: Config, s: State, t: Tid)
    requires t < |s.thr| && Local(c, s, t) && CurrentOp(c, s, t).Write? && Step(c, s, Go(t)).Some?
    requires s.thr[t].pc.StoreWord?
    ensures var s' := Step(c, s, Go(t)).value;
            && Moves(s, s', t) && s' == s.(thr := s'.thr) && Local(c, s', t)
            && Locked(s'.thr[t].pc) && s'.thr[t].trace == s.thr[t].trace
  {
    hide Own, Ver, Val, LogAll, Results, InRange, Load;
  }

  lemma ReleaseThread(c: Config, s: State, t: Tid)
    requires t < |s.thr| && Local(c, s, t) && s.thr[t].pc.Release?
    requires CurrentOp(c, s, t).Write? && Step(c, s, Go(t)).Some?
    ensures var s' := Step(c, s, Go(t)).value;
            && Moves(s, s', t) && s' == s.(thr := s'.thr) && Local(c, s', t)
            && s'.thr[t].buf != [] && Last(s'.thr[t].buf).loc == LockOf(CurrentOp(c, s, t).addr.obj)
  {
    hide Own, Ver, Val, LogAll, Results, InRange, Load;
  }

  lemma WriterKeeps(c: Config, s: State, t: Tid)
    requires Inv(c, s) && t < |s.thr| && Locked(s.thr[t].pc) && !s.thr[t].pc.Fence?
    requires Step(c, s, Go(t)).Some?
    ensures Inv(c, Step(c, s, Go(t)).value)
  {
    assert Local(c, s, t);
    assert CurrentOp(c, s, t).Write?;
    if s.thr[t].pc.Release? {
      ReleaseThread(c, s, t);
    } else if s.thr[t].pc.StoreWord? {
      WriterWordStores(c, s, t);
    } else if s.thr[t].pc.FirstStore? || s.thr[t].pc.SecondStore? {
      WriterVersionStores(c, s, t);
    } else {
      WriterLoads(c, s, t);
    }
    assert s.thr[t].buf == [] || !Last(s.thr[t].buf).loc.LockOf?;
    hide Step, Local;
    LocalKeeps(c, s, Step(c, s, Go(t)).value, t);
  }

  lemma LoggedThread(c: Config, s: State, t: Tid, e: Event)
    requires t < |s.thr| && Local(c, s, t) && (s.thr[t].pc.LogRead? || s.thr[t].pc.LogWrite?)
    requires !CurrentOp(c, s, t).Stop? && e == Effect(t, s.thr[t].pc, CurrentOp(c, s, t))
    requires e.addr.obj < |s.thr[t].log.last|
    ensures Local(c, Logged(s, t, e), t)
  {
    var th := s.thr[t];
    assert Front(th.trace + [e]) == th.trace;
    assert LogAll(c.nobj, th.trace + [e]) == LogEvent(th.log, e);
    hide LogAll, LogEvent, Results, Own, Ver, Val;
  }

  lemma LoggedKeeps(c: Config, s: State, t: Tid, e: Event)
    requires Inv(c, s) && t < |s.thr| && (s.thr[t].pc.LogRead? || s.thr[t].pc.LogWrite?)
    requires !CurrentOp(c, s, t).Stop? && e == Effect(t, s.thr[t].pc, CurrentOp(c, s, t))
    requires e.addr.obj < |s.thr[t].log.last|
    ensures Inv(c, Logged(s, t, e))
  {
    hide Local;
    assert Local(c, s, t);
    LoggedThread(c, s, t, e);
    LocalKeeps(c, s, Logged(s, t, e), t);
  }

  // ---------------------------------------------------------------- accesses that take effect

  /** What thread t' relies on is left alone: the objects it holds, and the snapshot it is taking. */
  ghost predicate Undisturbed(c: Config, s: State, s': State, t': Tid)
    requires t' < |s.thr|
  {
    var op := CurrentOp(c, s, t');
    && (forall o | o in s.owner && s.owner[o] == t' ::
          && o in s'.owner && s'.owner[o] == t'
          && Ver(s'.hist, o) == Ver(s.hist, o) && Num(s'.ver, o) == Num(s.ver, o))
    && (op.Write? && op.addr.obj in s.owner && s.owner[op.addr.obj] == t' ==>
        Get(s'.data, op.addr) == Get(s.data, op.addr))
    && (op.Read? ==>
          var now, now' := Ver(s.hist, op.addr.obj), Ver(s'.hist, op.addr.obj);
          || now < now'
          || (now == now' && Val(c.w.init, s'.hist, op.addr) == Val(c.w.init, s.hist, op.addr)
              && (Num(s.ver, op.addr.obj) == now + 1 ==> Num(s'.ver, op.addr.obj) == now + 1)))
  }

  lemma OthersKept(c: Config, s: State, s': State, t: Tid, t': Tid)
    requires Moves(s, s', t) && t' < |s.thr| && t' != t && Local(c, s, t')
    requires Own(s'.hist, t') == Own(s.hist, t') && Undisturbed(c, s, s', t')
    ensures Local(c, s', t')
  {
    hide Ver, Val, Own, LogAll, InRange, Results, Effect;
  }

  /** Appending a read to the history changes nobody else's view. */
  lemma ReadUndisturbed(c: Config, s: State, s': State, t: Tid, e: Event, t': Tid)
    requires Moves(s, s', t) && t' < |s.thr| && t' != t && e.tid == t && !e.write
    requires s' == s.(hist := s.hist + [e], thr := s'.thr)
    ensures Own(s'.hist, t') == Own(s.hist, t') && Undisturbed(c, s, s', t')
  {
    hide Ver, Val, Own, Results;
    var op := CurrentOp(c, s, t');
    forall o ensures Ver(s.hist + [e], o) == Ver(s.hist, o) {
      NewEvent(c.w, s.hist, e, o, e.addr, t');
    }
    NewEvent(c.w, s.hist, e, 0, if op.Stop? then e.addr else op.addr, t');
  }

  lemma ReadThread(c: Config, s: State, t: Tid, e: Event)
    requires t < |s.thr| && Local(c, s, t) && !Unlogged(s.thr[t].pc) && !Locked(s.thr[t].pc) && s.thr[t].pc != Start
    requires CurrentOp(c, s, t).Read? && e == Event(t, false, CurrentOp(c, s, t).addr, e.version, e.val)
    ensures Local(c, Commit(s, t, e, LogRead(e.version, e.val)), t)
  {
    hide Ver, Val, Own, LogAll, InRange, Results;
    var buf := s.thr[t].buf;
    NewEvent(c.w, s.hist, e, e.addr.obj, e.addr, t);
    if buf != [] && Last(buf).loc.LockOf? { NewEvent(c.w, s.hist, e, Last(buf).loc.obj, e.addr, t); }
  }

  lemma ReadNext(c: Config, s: State, t: Tid, e: Event)
    requires t < |s.thr| && t < c.w.nthr && Local(c, s, t) && !Unlogged(s.thr[t].pc)
    requires CurrentOp(c, s, t).Read? && e == Event(t, false, CurrentOp(c, s, t).addr, e.version, e.val)
    requires e.version == Ver(s.hist, e.addr.obj) && e.val == Val(c.w.init, s.hist, e.addr)
    ensures Next(c.w, s.hist, e)
  {
    hide Ver, Val, Own, LogAll, Results;
    assert Own(s.hist, t) == s.thr[t].trace;
  }

  lemma ReadObject(c: Config, s: State, t: Tid, e: Event, o: ObjId, a: Addr)
    requires t < |s.thr| && !e.write && ObjectInv(c, s, o) && WordInv(c, s, a)
    requires !Locked(s.thr[t].pc)
    ensures var s' := Commit(s, t, e, LogRead(e.version, e.val)); ObjectInv(c, s', o) && WordInv(c, s', a)
  {
    NewEvent(c.w, s.hist, e, o, e.addr, t);
    NewEvent(c.w, s.hist, e, a.obj, a, t);
    hide Ver, Val, Own, Results;
  }

  lemma ReadKeeps(c: Config, s: State, t: Tid, e: Event)
    requires Inv(c, s) && t < |s.thr| && !Unlogged(s.thr[t].pc) && !Locked(s.thr[t].pc) && s.thr[t].pc != Start
    requires CurrentOp(c, s, t).Read? && e == Event(t, false, CurrentOp(c, s, t).addr, e.version, e.val)
    requires e.version == Ver(s.hist, e.addr.obj) && e.val == Val(c.w.init, s.hist, e.addr)
    ensures Inv(c, Commit(s, t, e, LogRead(e.version, e.val)))
  {
    var s' := Commit(s, t, e, LogRead(e.version, e.val));
    hide Local, ObjectInv, WordInv, Ver, Val, Own, Next, Legal, Results;
    assert Local(c, s, t);
    ReadNext(c, s, t, e);
    ReadThread(c, s, t, e);
    NewEvent(c.w, s.hist, e, e.addr.obj, e.addr, t);
    forall t' | 0 <= t' < |s.thr| && t' != t ensures Local(c, s', t') {
      ReadUndisturbed(c, s, s', t, e, t');
      OthersKept(c, s, s', t, t');
    }
    forall o ensures ObjectInv(c, s', o) {
      ReadObject(c, s, t, e, o, e.addr);
    }
    forall a ensures WordInv(c, s', a) {
      ReadObject(c, s, t, e, e.addr.obj, a);
    }
    hide Commit;
  }

  /** Appending a write by the holder of its object, or of an object nobody holds. */
  lemma WriteUndisturbed(c: Config, s: State, s': State, t: Tid, e: Event, t': Tid)
    requires Moves(s, s', t) && t' < |s.thr| && t' != t && e.tid == t && e.write && s'.hist == s.hist + [e]
    requires s'.owner == s.owner && (e.addr.obj in s.owner ==> s.owner[e.addr.obj] == t)
    requires forall o | o != e.addr.obj :: Num(s'.ver, o) == Num(s.ver, o)
    requires forall a | a != e.addr :: Get(s'.data, a) == Get(s.data, a)
    ensures Own(s'.hist, t') == Own(s.hist, t') && Undisturbed(c, s, s', t')
  {
    hide Ver, Val, Own, Results;
    var op := CurrentOp(c, s, t');
    forall o ensures Ver(s.hist + [e], o) == Ver(s.hist, o) + if e.addr.obj == o then 2 else 0 {
      NewEvent(c.w, s.hist, e, o, e.addr, t');
    }
    NewEvent(c.w, s.hist, e, 0, if op.Stop? then e.addr else op.addr, t');
  }

  lemma FenceThread(c: Config, s: State, t: Tid, e: Event)
    requires t < |s.thr| && Local(c, s, t) && s.thr[t].pc.Fence? && s.thr[t].buf == [] && CurrentOp(c, s, t).Write?
    requires e == Event(t, true, CurrentOp(c, s, t).addr, s.thr[t].pc.v, CurrentOp(c, s, t).val)
    requires t < c.w.nthr
    ensures Local(c, Commit(s, t, e, SecondLoad(e.version)), t) && Next(c.w, s.hist, e)
    ensures e.version == Ver(s.hist, e.addr.obj) && Get(s.data, e.addr) == e.val
    ensures e.addr.obj in s.owner && s.owner[e.addr.obj] == t
  {
    NewEvent(c.w, s.hist, e, e.addr.obj, e.addr, t);
    hide Ver, Val, Own, LogAll;
  }

  lemma FenceObject(c: Config, s: State, t: Tid, e: Event, o: ObjId, a: Addr)
    requires t < |s.thr| && s.thr[t].pc.Fence? && s.thr[t].buf == [] && CurrentOp(c, s, t).Write?
    requires e.write && e.addr == CurrentOp(c, s, t).addr && Get(s.data, e.addr) == e.val
    requires e.addr.obj in s.owner && s.owner[e.addr.obj] == t
    requires ObjectInv(c, s, o) && WordInv(c, s, a)
    ensures ObjectInv(c, Commit(s, t, e, SecondLoad(e.version)), o)
    ensures WordInv(c, Commit(s, t, e, SecondLoad(e.version)), a)
  {
    NewEvent(c.w, s.hist, e, o, e.addr, t);
    NewEvent(c.w, s.hist, e, a.obj, a, t);
    hide Ver, Val, Own, Results;
  }

  lemma FenceKeeps(c: Config, s: State, t: Tid, e: Event)
    requires Inv(c, s) && t < |s.thr| && s.thr[t].pc.Fence? && s.thr[t].buf == [] && CurrentOp(c, s, t).Write?
    requires e == Event(t, true, CurrentOp(c, s, t).addr, s.thr[t].pc.v, CurrentOp(c, s, t).val)
    ensures Inv(c, Commit(s, t, e, SecondLoad(e.version)))
  {
    var s' := Commit(s, t, e, SecondLoad(e.version));
    hide Local, ObjectInv, WordInv, Ver, Val, Own, Next, Legal, Results;
    FenceThread(c, s, t, e);
    NewEvent(c.w, s.hist, e, e.addr.obj, e.addr, t);
    forall t' | 0 <= t' < |s.thr| && t' != t ensures Local(c, s', t') {
      WriteUndisturbed(c, s, s', t, e, t');
      OthersKept(c, s, s', t, t');
    }
    FenceObjects(c, s, t, e);
    hide Commit;
  }

  lemma FenceObjects(c: Config, s: State, t: Tid, e: Event)
    requires (forall o :: ObjectInv(c, s, o)) && (forall a :: WordInv(c, s, a))
    requires t < |s.thr| && s.thr[t].pc.Fence? && s.thr[t].buf == [] && CurrentOp(c, s, t).Write?
    requires e.write && e.addr == CurrentOp(c, s, t).addr && Get(s.data, e.addr) == e.val
    requires e.addr.obj in s.owner && s.owner[e.addr.obj] == t
    ensures var s' := Commit(s, t, e, SecondLoad(e.version));
            (forall o :: ObjectInv(c, s', o)) && (forall a :: WordInv(c, s', a))
  {
    var s' := Commit(s, t, e, SecondLoad(e.version));
    hide ObjectInv, WordInv, Results, Commit;
    forall o ensures ObjectInv(c, s', o) {
      FenceObject(c, s, t, e, o, e.addr);
    }
    forall a ensures WordInv(c, s', a) {
      FenceObject(c, s, t, e, e.addr.obj, a);
    }
  }

  /** The state after a write transaction commits. */
  function TxWritten(s: State, t: Tid, e: Event): State
    requires t < |s.thr|
  {
    Commit(s, t, e, LogWrite(e.version)).(ver := s.ver[e.addr.obj := e.version + 2], data := s.data[e.addr := e.val])
  }

  lemma TxWriteThread(c: Config, s: State, t: Tid, e: Event)
    requires t < |s.thr| && Local(c, s, t) && s.thr[t].pc.TxWriteEnd? && s.thr[t].buf == [] && CurrentOp(c, s, t).Write?
    requires e == Event(t, true, CurrentOp(c, s, t).addr, s.thr[t].pc.v, CurrentOp(c, s, t).val)
    requires t < c.w.nthr && e.version == Ver(s.hist, e.addr.obj)
    ensures Local(c, TxWritten(s, t, e), t) && Next(c.w, s.hist, e)
  {
    NewEvent(c.w, s.hist, e, e.addr.obj, e.addr, t);
    hide Ver, Val, Own, LogAll;
  }

  lemma TxWriteObject(c: Config, s: State, t: Tid, e: Event, o: ObjId, a: Addr)
    requires t < |s.thr| && s.thr[t].pc.TxWriteEnd? && s.thr[t].buf == []
    requires e.addr.obj !in s.owner && e.write && e.version == Ver(s.hist, e.addr.obj)
    requires ObjectInv(c, s, o) && WordInv(c, s, a)
    ensures ObjectInv(c, TxWritten(s, t, e), o) && WordInv(c, TxWritten(s, t, e), a)
  {
    NewEvent(c.w, s.hist, e, o, e.addr, t);
    NewEvent(c.w, s.hist, e, a.obj, a, t);
    hide Ver, Val, Own;
  }

  lemma TxWriteOthers(c: Config, s: State, t: Tid, e: Event, t': Tid)
    requires t < |s.thr| && t' < |s.thr| && t' != t && Local(c, s, t')
    requires e.tid == t && e.write && e.addr.obj !in s.owner
    ensures Local(c, TxWritten(s, t, e), t')
  {
    hide Local, Ver, Val, Own, Results;
    WriteUndisturbed(c, s, TxWritten(s, t, e), t, e, t');
    hide Undisturbed;
    OthersKept(c, s, TxWritten(s, t, e), t, t');
  }

  lemma TxWriteObjects(c: Config, s: State, t: Tid, e: Event)
    requires (forall o :: ObjectInv(c, s, o)) && (forall a :: WordInv(c, s, a))
    requires t < |s.thr| && s.thr[t].pc.TxWriteEnd? && s.thr[t].buf == []
    requires e.addr.obj !in s.owner && e.write && e.version == Ver(s.hist, e.addr.obj)
    ensures var s' := TxWritten(s, t, e); (forall o :: ObjectInv(c, s', o)) && (forall a :: WordInv(c, s', a))
  {
    var s' := TxWritten(s, t, e);
    hide ObjectInv, WordInv, Ver, TxWritten;
    forall o ensures ObjectInv(c, s', o) {
      TxWriteObject(c, s, t, e, o, e.addr);
    }
    forall a ensures WordInv(c, s', a) {
      TxWriteObject(c, s, t, e, e.addr.obj, a);
    }
  }

  lemma TxWriteKeeps(c: Config, s: State, t: Tid, e: Event)
    requires Inv(c, s) && t < |s.thr| && s.thr[t].pc.TxWriteEnd? && s.thr[t].buf == [] && CurrentOp(c, s, t).Write?
    requires e == Event(t, true, CurrentOp(c, s, t).addr, s.thr[t].pc.v, CurrentOp(c, s, t).val)
    requires Num(s.ver, e.addr.obj) == e.version && Num(s.lock, e.addr.obj) == 0
    ensures Inv(c, TxWritten(s, t, e))
  {
    var s' := TxWritten(s, t, e);
    assert ObjectInv(c, s, e.addr.obj);
    hide Local, ObjectInv, WordInv, Ver, Val, Own, Next, Legal, Results;
    TxWriteThread(c, s, t, e);
    NewEvent(c.w, s.hist, e, e.addr.obj, e.addr, t);
    forall t' | 0 <= t' < |s.thr| && t' != t ensures Local(c, s', t') {
      TxWriteOthers(c, s, t, e, t');
    }
    TxWriteObjects(c, s, t, e);
    hide TxWritten;
  }

  // ---------------------------------------------------------------- taking the lock

  function Acquired(s: State, t: Tid, o: ObjId): State
    requires t < |s.thr|
  {
    Goto(s, t, WriteVersion).(lock := s.lock[o := 1], owner := s.owner[o := t])
  }

  lemma AcquireThread(c: Config, s: State, t: Tid, o: ObjId)
    requires t < |s.thr| && Local(c, s, t) && s.thr[t].pc.Acquire? && s.thr[t].buf == []
    requires CurrentOp(c, s, t).Write? && CurrentOp(c, s, t).addr.obj == o && Num(s.ver, o) == Ver(s.hist, o)
    ensures Local(c, Acquired(s, t, o), t)
  {
    hide Ver, Val, Own, LogAll, Results;
  }

  lemma AcquireObject(c: Config, s: State, t: Tid, o: ObjId, o': ObjId, a: Addr)
    requires t < |s.thr| && s.thr[t].pc.Acquire? && s.thr[t].buf == [] && o !in s.owner
    requires CurrentOp(c, s, t).Write? && CurrentOp(c, s, t).addr.obj == o
    requires ObjectInv(c, s, o') && WordInv(c, s, a)
    ensures ObjectInv(c, Acquired(s, t, o), o') && WordInv(c, Acquired(s, t, o), a)
  {
    hide Ver, Val, Results;
  }

  lemma AcquireKeeps(c: Config, s: State, t: Tid, o: ObjId)
    requires Inv(c, s) && t < |s.thr| && s.thr[t].pc.Acquire? && s.thr[t].buf == []
    requires CurrentOp(c, s, t).Write? && CurrentOp(c, s, t).addr.obj == o && Num(s.lock, o) == 0
    ensures Inv(c, Acquired(s, t, o))
  {
    var s' := Acquired(s, t, o);
    assert ObjectInv(c, s, o);
    hide Local, ObjectInv, WordInv, Ver, Val, Own, Legal, Results;
    AcquireThread(c, s, t, o);
    forall t' | 0 <= t' < |s.thr| && t' != t ensures Local(c, s', t') {
      OthersKept(c, s, s', t, t');
    }
    forall o' ensures ObjectInv(c, s', o') {
      AcquireObject(c, s, t, o, o', Addr(o, 0));
    }
    forall a ensures WordInv(c, s', a) {
      AcquireObject(c, s, t, o, o, a);
    }
  }

  // ---------------------------------------------------------------- store buffers draining

  function Drained(s: State, t: Tid): State
    requires t < |s.thr| && s.thr[t].buf != []
  {
    var th := s.thr[t];
    ToMemory(s.(thr := s.thr[t := th.(buf := th.buf[1..])]), th.buf[0].loc, th.buf[0].val)
  }

  /** The oldest buffered store of a thread goes to an object it holds, and what it does there. */
  ghost predicate DrainsTo(c: Config, s: State, t: Tid, o: ObjId)
    requires t < |s.thr| && s.thr[t].buf != []
  {
    var p, now := s.thr[t].buf[0], Ver(s.hist, o);
    && o in s.owner && s.owner[o] == t
    && match p.loc
       case VersionOf(o') => o' == o
           && ((p.val == now + 1 && Num(s.ver, o) == now) || (p.val == now && Num(s.ver, o) == now - 1))
       case LockOf(o') => o' == o && p.val == 0 && Num(s.ver, o) == now
       case Word(a) => a.obj == o && s.thr[t].pc.Fence? && |s.thr[t].buf| == 1
                       && CurrentOp(c, s, t).Write? && CurrentOp(c, s, t).addr == a
  }

  lemma DrainThread(c: Config, s: State, t: Tid) returns (o: ObjId)
    requires t < |s.thr| && Local(c, s, t) && s.thr[t].buf != []
    ensures DrainsTo(c, s, t, o) && Local(c, Drained(s, t), t)
    ensures s.thr[t].buf[0].loc.LockOf? ==> Drained(s, t).thr[t].buf == [] && !Locked(s.thr[t].pc)
    ensures !s.thr[t].buf[0].loc.LockOf? && !Locked(s.thr[t].pc) ==>
              Drained(s, t).thr[t].buf != [] && Last(Drained(s, t).thr[t].buf).loc == LockOf(o)
    ensures Locked(s.thr[t].pc) ==> CurrentOp(c, s, t).Write? && CurrentOp(c, s, t).addr.obj == o
  {
    hide Ver, Val, Own, LogAll, Results, InRange;
    var th, op := s.thr[t], CurrentOp(c, s, t);
    o := if Locked(th.pc) && op.Write? then op.addr.obj else Last(th.buf).loc.obj;
    assert th.buf[1..] == if |th.buf| == 2 then [th.buf[1]] else [];
  }

  lemma DrainOthers(c: Config, s: State, t: Tid, o: ObjId, t': Tid)
    requires t < |s.thr| && s.thr[t].buf != [] && DrainsTo(c, s, t, o) && t' < |s.thr| && t' != t && Local(c, s, t')
    ensures Local(c, Drained(s, t), t')
  {
    hide Ver, Val, Own, Results, Local;
    OthersKept(c, s, Drained(s, t), t, t');
  }

  lemma DrainObject(c: Config, s: State, t: Tid, o: ObjId, o': ObjId)
    requires t < |s.thr| && s.thr[t].buf != [] && DrainsTo(c, s, t, o) && ObjectInv(c, s, o')
    requires s.thr[t].buf[0].loc.LockOf? ==> Drained(s, t).thr[t].buf == [] && !Locked(s.thr[t].pc)
    requires !s.thr[t].buf[0].loc.LockOf? && !Locked(s.thr[t].pc) ==>
              Drained(s, t).thr[t].buf != [] && Last(Drained(s, t).thr[t].buf).loc == LockOf(o)
    requires Locked(s.thr[t].pc) ==> CurrentOp(c, s, t).Write? && CurrentOp(c, s, t).addr.obj == o
    requires Holds(c, s, t, o') ==> o' == o
    ensures ObjectInv(c, Drained(s, t), o')
  {
    hide Ver, Val, Results;
  }

  lemma HoldsOne(c: Config, s: State, t: Tid, o: ObjId, o': ObjId)
    requires t < |s.thr| && Local(c, s, t) && s.thr[t].buf != [] && DrainsTo(c, s, t, o) && Holds(c, s, t, o')
    ensures o' == o
  {
    hide Ver, Val, Own, Results, LogAll;
  }

  lemma DrainWord(c: Config, s: State, t: Tid, o: ObjId, a: Addr)
    requires t < |s.thr| && s.thr[t].buf != [] && DrainsTo(c, s, t, o) && WordInv(c, s, a)
    ensures WordInv(c, Drained(s, t), a)
  {
    hide Ver, Val, Results;
  }

  lemma DrainKeeps(c: Config, s: State, t: Tid)
    requires Inv(c, s) && t < |s.thr| && s.thr[t].buf != []
    ensures Inv(c, Drained(s, t))
  {
    assert Local(c, s, t);
    hide Local, ObjectInv, WordInv, Ver, Val, Own, Legal, Results, DrainsTo;
    var o := DrainThread(c, s, t);
    var s' := Drained(s, t);
    forall t' | 0 <= t' < |s.thr| && t' != t ensures Local(c, s', t') {
      DrainOthers(c, s, t, o, t');
    }
    forall o' ensures ObjectInv(c, s', o') {
      if Holds(c, s, t, o') { HoldsOne(c, s, t, o, o'); }
      DrainObject(c, s, t, o, o');
    }
    forall a ensures WordInv(c, s', a) {
      DrainWord(c, s, t, o, a);
    }
  }

  // ---------------------------------------------------------------- any step, any schedule

  lemma ReadStepKeeps(c: Config, s: State, t: Tid)
    requires Inv(c, s) && t < |s.thr| && CurrentOp(c, s, t).Read? && Step(c, s, Go(t)).Some?
    ensures Inv(c, Step(c, s, Go(t)).value)
  {
    var th, a := s.thr[t], CurrentOp(c, s, t).addr;
    assert Local(c, s, t);
    hide WriterOk, TailOk, ObjectInv, WordInv, Legal, Results, Own, LogAll, Local, Inv;
    match th.pc
    case ReadVersion => ReadVersionKeeps(c, s, t);
    case ReadWord(v) => ReadWordKeeps(c, s, t);
    case Recheck(v, val) => RecheckKeeps(c, s, t);
    case TxReadEnd(v, val) => TxReadEndKeeps(c, s, t);
    case LogRead(v, val) => LoggedKeeps(c, s, t, Event(t, false, a, v, val));
    case Start => QuietGoto(c, s, t, ReadVersion);
    case TxReadVersion => QuietGoto(c, s, t, TxReadWord(Load(s, th.buf, VersionOf(a.obj))));
    case TxReadWord(v) => QuietGoto(c, s, t, TxReadEnd(v, Load(s, th.buf, Word(a))));
    case _ =>
  }

  /** A seqlock read that leaves its retry loop has the current version and its value. */
  lemma RecheckKeeps(c: Config, s: State, t: Tid)
    requires Inv(c, s) && t < |s.thr| && CurrentOp(c, s, t).Read? && s.thr[t].pc.Recheck?
    requires Step(c, s, Go(t)).Some?
    ensures Inv(c, Step(c, s, Go(t)).value)
  {
    var th, a := s.thr[t], CurrentOp(c, s, t).addr;
    assert Local(c, s, t);
    LoadOutside(s, t, th.buf, a.obj, a);
    VersionCases(c, s, a.obj);
    if Load(s, th.buf, VersionOf(a.obj)) != th.pc.v {
      QuietGoto(c, s, t, ReadVersion);
    } else {
      ReadKeeps(c, s, t, Event(t, false, a, th.pc.v, th.pc.val));
    }
  }

  /** A read transaction that commits has the current version and its value. */
  lemma TxReadEndKeeps(c: Config, s: State, t: Tid)
    requires Inv(c, s) && t < |s.thr| && CurrentOp(c, s, t).Read? && s.thr[t].pc.TxReadEnd?
    requires Step(c, s, Go(t)).Some?
    ensures Inv(c, Step(c, s, Go(t)).value)
  {
    var th, a := s.thr[t], CurrentOp(c, s, t).addr;
    assert Local(c, s, t);
    VersionCases(c, s, a.obj);
    if th.pc.v % 2 == 0 && Num(s.ver, a.obj) == th.pc.v && Get(s.data, a) == th.pc.val {
      if Get(s.data, a) != Val(c.w.init, s.hist, a) { DirtyIsOdd(c, s, a); }
      ReadKeeps(c, s, t, Event(t, false, a, th.pc.v, th.pc.val));
    } else {
      QuietGoto(c, s, t, ReadVersion);
    }
  }

  /** The start of mem_write and its transaction. */
  lemma TxStepKeeps(c: Config, s: State, t: Tid)
    requires Inv(c, s) && t < |s.thr| && CurrentOp(c, s, t).Write? && (s.thr[t].pc.Start? || InTx(s.thr[t].pc))
    requires Step(c, s, Go(t)).Some?
    ensures Inv(c, Step(c, s, Go(t)).value)
  {
    var th, op := s.thr[t], CurrentOp(c, s, t);
    var a := op.addr;
    assert Local(c, s, t);
    hide WriterOk, TailOk, ObjectInv, WordInv, Legal, Results, Own, LogAll, Local, Inv, Load;
    match th.pc
    case Start => QuietGoto(c, s, t, Acquire);
    case TxWriteVersion => QuietGoto(c, s, t, TxWriteLock(Load(s, th.buf, VersionOf(a.obj))));
    case TxWriteLock(v) =>
      var l := Load(s, th.buf, LockOf(a.obj));
      QuietGoto(c, s, t, if l != 0 then Acquire else TxWriteEnd(v, l));
    case TxWriteEnd(_, _) => TxWriteEndKeeps(c, s, t);
    case _ =>
  }

  lemma TxWriteEndStep(c: Config, s: State, t: Tid)
    requires t < |s.thr| && CurrentOp(c, s, t).Write? && s.thr[t].pc.TxWriteEnd? && Step(c, s, Go(t)).Some?
    ensures var op, v := CurrentOp(c, s, t), s.thr[t].pc.v;
            && s.thr[t].buf == []
            && Step(c, s, Go(t)).value
               == if Num(s.ver, op.addr.obj) == v && Num(s.lock, op.addr.obj) == s.thr[t].pc.l
                  then TxWritten(s, t, Event(t, true, op.addr, v, op.val)) else Goto(s, t, Acquire)
  {
    hide Results, Load, Num;
  }

  lemma SawFree(c: Config, s: State, t: Tid)
    requires Inv(c, s) && t < |s.thr| && s.thr[t].pc.TxWriteEnd?
    ensures s.thr[t].pc.l == 0
  {
    assert Local(c, s, t);
    hide Records, Buffers, Ver, Val, Legal, Results;
  }

  /** A write transaction commits only when nobody holds the object's lock. */
  lemma TxWriteEndKeeps(c: Config, s: State, t: Tid)
    requires Inv(c, s) && t < |s.thr| && CurrentOp(c, s, t).Write? && s.thr[t].pc.TxWriteEnd?
    requires Step(c, s, Go(t)).Some?
    ensures Inv(c, Step(c, s, Go(t)).value)
  {
    hide Results, Inv, Step, TxWritten, Num;
    var op, v := CurrentOp(c, s, t), s.thr[t].pc.v;
    TxWriteEndStep(c, s, t);
    SawFree(c, s, t);
    if Num(s.ver, op.addr.obj) == v && Num(s.lock, op.addr.obj) == 0 {
      TxWriteKeeps(c, s, t, Event(t, true, op.addr, v, op.val));
    } else {
      QuietGoto(c, s, t, Acquire);
    }
  }

  lemma WriteStepKeeps(c: Config, s: State, t: Tid)
    requires Inv(c, s) && c.fenced && t < |s.thr| && CurrentOp(c, s, t).Write? && Step(c, s, Go(t)).Some?
    ensures Inv(c, Step(c, s, Go(t)).value)
  {
    var th, op := s.thr[t], CurrentOp(c, s, t);
    var a := op.addr;
    assert Local(c, s, t);
    hide WriterOk, TailOk, ObjectInv, WordInv, Legal, Results, Own, LogAll, Local, Inv;
    match th.pc
    case Acquire => AcquireKeeps(c, s, t, a.obj);
    case Fence(v) => FenceKeeps(c, s, t, Event(t, true, a, v, op.val));
    case LogWrite(v) => LoggedKeeps(c, s, t, Event(t, true, a, v, op.val));
    case _ => if Locked(th.pc) { WriterKeeps(c, s, t); } else { TxStepKeeps(c, s, t); }
  }

  lemma StepKeeps(c: Config, s: State, act: Act)
    requires Inv(c, s) && c.fenced && Step(c, s, act).Some?
    ensures Inv(c, Step(c, s, act).value)
  {
    var t := act.tid;
    match act
    case Drain(_) => DrainKeeps(c, s, t);
    case Begin(_) =>
      QuietGoto(c, s, t, if CurrentOp(c, s, t).Read? then TxReadVersion else TxWriteVersion);
    case Abort(_) =>
      QuietGoto(c, s, t, if CurrentOp(c, s, t).Read? then ReadVersion else Acquire);
    case Go(_) =>
      if CurrentOp(c, s, t).Read? { ReadStepKeeps(c, s, t); } else { WriteStepKeeps(c, s, t); }
  }

  lemma InitInv(c: Config)
    ensures Inv(c, Init(c))
  {
  }

  lemma {:induction false} ExecInv(c: Config, sched: seq<Act>)
    requires c.fenced
    ensures Inv(c, Exec(c, sched))
  {
    hide Inv, Step, Init;
    if sched == [] {
      InitInv(c);
    } else {
      ExecInv(c, Front(sched));
      if Step(c, Exec(c, Front(sched)), Last(sched)).Some? { StepKeeps(c, Exec(c, Front(sched)), Last(sched)); }
    }
  }
}
