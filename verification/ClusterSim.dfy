/** The commit of a transaction over many accesses is indistinguishable from as many single-access transactions of
    mem-record-rtmseq.c, run one after another without interruption. */
module ClusterSim {
  import opened Mem
  import opened RecordLog
  import opened RecordModel
  import CL = ClusterRecord

  // ---------------------------------------------------------------- one access

  /** An access takes effect and is logged at once. */
  function Applied(s: State, t: Tid, e: Event): State
    requires t < |s.thr| && e.addr.obj < |s.thr[t].log.last|
  {
    var s1 := if e.write then s.(ver := s.ver[e.addr.obj := e.version + 2], data := s.data[e.addr := e.val]) else s;
    Logged(s1.(hist := s.hist + [e]), t, e)
  }

  /** The access can be made now by a transaction. */
  predicate Ready(c: Config, s: State, t: Tid, e: Event) {
    && t < |s.thr| && s.thr[t].pc == Start && s.thr[t].buf == [] && e.tid == t
    && e.addr.obj < |s.thr[t].log.last| && SameOp(e, CurrentOp(c, s, t)) && Num(s.ver, e.addr.obj) == e.version
    && if e.write then Num(s.lock, e.addr.obj) == 0 else e.version % 2 == 0 && Get(s.data, e.addr) == e.val
  }

  lemma OneMore(c: Config, sched: seq<Act>, act: Act, s': State)
    requires Step(c, Exec(c, sched), act) == Some(s')
    ensures Exec(c, sched + [act]) == s'
  {
    hide Step;
    assert Front(sched + [act]) == sched;
  }

  lemma Five(c: Config, sched: seq<Act>, t: Tid, s1: State, s2: State, s3: State, s4: State, s5: State)
    returns (sched': seq<Act>)
    requires Step(c, Exec(c, sched), Begin(t)) == Some(s1)
    requires Step(c, s1, Go(t)) == Some(s2) && Step(c, s2, Go(t)) == Some(s3)
    requires Step(c, s3, Go(t)) == Some(s4) && Step(c, s4, Go(t)) == Some(s5)
    ensures sched <= sched' && Exec(c, sched') == s5
  {
    hide *;
    sched' := sched + [Begin(t)];
    OneMore(c, sched, Begin(t), s1);
    OneMore(c, sched', Go(t), s2);
    sched' := sched' + [Go(t)];
    OneMore(c, sched', Go(t), s3);
    sched' := sched' + [Go(t)];
    OneMore(c, sched', Go(t), s4);
    sched' := sched' + [Go(t)];
    OneMore(c, sched', Go(t), s5);
    sched' := sched' + [Go(t)];
  }

  lemma ReadSteps(c: Config, s: State, t: Tid, e: Event)
    requires Ready(c, s, t, e) && !e.write
    ensures var s1, s2 := Goto(s, t, TxReadVersion), Goto(s, t, TxReadWord(e.version));
            var s3, s4 := Goto(s, t, TxReadEnd(e.version, e.val)), Commit(s, t, e, LogRead(e.version, e.val));
            && Step(c, s, Begin(t)) == Some(s1) && Step(c, s1, Go(t)) == Some(s2) && Step(c, s2, Go(t)) == Some(s3)
            && Step(c, s3, Go(t)) == Some(s4) && Step(c, s4, Go(t)) == Some(Applied(s, t, e))
  {
    hide Results, LogEvent;
    assert CurrentOp(c, s, t) == Read(e.addr);
    var s1, s2 := Goto(s, t, TxReadVersion), Goto(s, t, TxReadWord(e.version));
    var s3, s4 := Goto(s, t, TxReadEnd(e.version, e.val)), Commit(s, t, e, LogRead(e.version, e.val));
    GotoTwice(s, t, TxReadVersion, TxReadWord(e.version));
    GotoTwice(s, t, TxReadWord(e.version), TxReadEnd(e.version, e.val));
    GotoTwice(s, t, TxReadEnd(e.version, e.val), LogRead(e.version, e.val));
    assert Logged(s4, t, e) == Applied(s, t, e);
  }

  /** The write has taken effect and is not logged yet. */
  function Stored(s: State, t: Tid, e: Event): State
    requires t < |s.thr|
  {
    Commit(s, t, e, LogWrite(e.version)).(ver := s.ver[e.addr.obj := e.version + 2], data := s.data[e.addr := e.val])
  }

  lemma WriteSteps(c: Config, s: State, t: Tid, e: Event)
    requires Ready(c, s, t, e) && e.write
    ensures var s1, s2 := Goto(s, t, TxWriteVersion), Goto(s, t, TxWriteLock(e.version));
            var s3 := Goto(s, t, TxWriteEnd(e.version, 0));
            && Step(c, s, Begin(t)) == Some(s1) && Step(c, s1, Go(t)) == Some(s2) && Step(c, s2, Go(t)) == Some(s3)
  {
    hide Results;
    assert CurrentOp(c, s, t) == Write(e.addr, e.val);
    GotoTwice(s, t, TxWriteVersion, TxWriteLock(e.version));
    GotoTwice(s, t, TxWriteLock(e.version), TxWriteEnd(e.version, 0));
  }

  lemma WriteCommits(c: Config, s: State, t: Tid, e: Event)
    requires Ready(c, s, t, e) && e.write
    ensures Step(c, Goto(s, t, TxWriteEnd(e.version, 0)), Go(t)) == Some(Stored(s, t, e))
    ensures Step(c, Stored(s, t, e), Go(t)) == Some(Applied(s, t, e))
  {
    hide Results, LogEvent;
    assert CurrentOp(c, s, t) == Write(e.addr, e.val);
    GotoTwice(s, t, TxWriteEnd(e.version, 0), LogWrite(e.version));
    assert Logged(Stored(s, t, e), t, e) == Applied(s, t, e);
  }

  /** A single-access transaction makes the access. */
  lemma OneTx(c: Config, sched: seq<Act>, t: Tid, e: Event) returns (sched': seq<Act>)
    requires Ready(c, Exec(c, sched), t, e)
    ensures sched <= sched' && Exec(c, sched') == Applied(Exec(c, sched), t, e)
  {
    var s := Exec(c, sched);
    if e.write {
      WriteSteps(c, s, t, e);
      WriteCommits(c, s, t, e);
      hide Step, Ready, Applied, Stored;
      sched' := Five(c, sched, t, Goto(s, t, TxWriteVersion), Goto(s, t, TxWriteLock(e.version)),
          Goto(s, t, TxWriteEnd(e.version, 0)),
                     Stored(s, t, e), Applied(s, t, e));
    } else {
      ReadSteps(c, s, t, e);
      hide Step, Ready, Applied;
      sched' := Five(c, sched, t, Goto(s, t, TxReadVersion), Goto(s, t, TxReadWord(e.version)),
          Goto(s, t, TxReadEnd(e.version, e.val)),
                     Commit(s, t, e, LogRead(e.version, e.val)), Applied(s, t, e));
    }
  }

  // ---------------------------------------------------------------- a block

  function OwnVers(accs: seq<Event>): map<ObjId, Version> {
    if accs == [] then map[]
    else if Last(accs).write then OwnVers(Front(accs))[Last(accs).addr.obj := Last(accs).version + 2]
    else OwnVers(Front(accs))
  }

  function OwnWords(accs: seq<Event>): map<Addr, Value> {
    if accs == [] then map[]
    else if Last(accs).write then OwnWords(Front(accs))[Last(accs).addr := Last(accs).val]
    else OwnWords(Front(accs))
  }

  /** The version a transaction sees, given what it loaded and the accesses it made. */
  predicate SeesVersion(m: CL.Mode, f: seq<Event>, o: ObjId, v: Version)
    requires m.Tx?
  {
    var own := OwnVers(f);
    if o in own then own[o] == v else o in m.vers && m.vers[o] == v
  }

  predicate SeesWord(m: CL.Mode, f: seq<Event>, a: Addr, x: Value)
    requires m.Tx?
  {
    var own := OwnWords(f);
    if a in own then own[a] == x else a in m.words && m.words[a] == x
  }

  predicate Sound1(c: Config, t: Tid, before: seq<Event>, m: CL.Mode, f: seq<Event>, e: Event)
    requires m.Tx?
  {
    && e.tid == t && e.addr.obj < c.nobj && SameOp(e, c.w.prog(t, Results(before + f)))
    && SeesVersion(m, f, e.addr.obj, e.version)
    && if e.write then e.addr.obj in m.locks && m.locks[e.addr.obj] == 0
       else e.version % 2 == 0 && SeesWord(m, f, e.addr, e.val)
  }

  /** The accesses follow from the program, the loaded values and the transaction's own stores. */
  predicate Sound(c: Config, t: Tid, before: seq<Event>, m: CL.Mode, accs: seq<Event>)
    requires m.Tx?
  {
    accs == [] || (Sound(c, t, before, m, Front(accs)) && Sound1(c, t, before, m, Front(accs), Last(accs)))
  }

  /** The shared state after a commit of these accesses. */
  function After(c: Config, s: State, t: Tid, accs: seq<Event>): State
    requires t < |s.thr| && InRange(c.nobj, s.thr[t].trace + accs)
  {
    var th := s.thr[t];
    s.(ver := s.ver + OwnVers(accs), data := s.data + OwnWords(accs), hist := s.hist + accs,
       thr := s.thr[t := th.(trace := th.trace + accs, log := LogAll(c.nobj, th.trace + accs))])
  }

  lemma {:induction false} SoundRange(c: Config, t: Tid, before: seq<Event>, m: CL.Mode, accs: seq<Event>)
    requires m.Tx? && Sound(c, t, before, m, accs)
    ensures InRange(c.nobj, accs)
  {
    if accs != [] { SoundRange(c, t, before, m, Front(accs)); }
  }

  lemma AfterOneMore(c: Config, s: State, t: Tid, f: seq<Event>, e: Event)
    requires t < |s.thr| && InRange(c.nobj, s.thr[t].trace + f) && e.addr.obj < c.nobj && s.thr[t].pc == Start
    ensures InRange(c.nobj, s.thr[t].trace + (f + [e]))
    ensures |After(c, s, t, f).thr[t].log.last| == c.nobj
    ensures After(c, s, t, f + [e]) == Applied(After(c, s, t, f), t, e)
  {
    hide OwnVers, OwnWords, LogAll, LogEvent;
    var tr := s.thr[t].trace;
    assert tr + (f + [e]) == (tr + f) + [e];
    LogOneMore(c.nobj, tr + f, e);
    OwnOneMore(f, e);
    var s1, s2 := After(c, s, t, f), After(c, s, t, f + [e]);
    assert s2.hist == s1.hist + [e];
    MergeUpdate(s.ver, OwnVers(f), e.addr.obj, e.version + 2);
    MergeUpdate(s.data, OwnWords(f), e.addr, e.val);
    assert s2.thr == Applied(s1, t, e).thr;
  }

  lemma MergeUpdate<K, V>(m: map<K, V>, n: map<K, V>, k: K, v: V)
    ensures m + n[k := v] == (m + n)[k := v]
  {
  }

  lemma OwnOneMore(f: seq<Event>, e: Event)
    ensures OwnVers(f + [e]) == if e.write then OwnVers(f)[e.addr.obj := e.version + 2] else OwnVers(f)
    ensures OwnWords(f + [e]) == if e.write then OwnWords(f)[e.addr := e.val] else OwnWords(f)
  {
    assert Front(f + [e]) == f;
  }

  lemma AfterNothing(c: Config, s: State, t: Tid)
    requires t < |s.thr| && InRange(c.nobj, s.thr[t].trace) && s.thr[t].log == LogAll(c.nobj, s.thr[t].trace)
    ensures InRange(c.nobj, s.thr[t].trace + []) && After(c, s, t, []) == s
  {
    hide LogAll;
    assert s.thr[t].trace + [] == s.thr[t].trace;
    assert s.thr == s.thr[t := s.thr[t]];
    assert s.ver + map[] == s.ver && s.data + map[] == s.data && s.hist + [] == s.hist;
  }

  lemma LogOneMore(nobj: nat, es: seq<Event>, e: Event)
    requires InRange(nobj, es) && e.addr.obj < nobj
    ensures InRange(nobj, es + [e]) && LogAll(nobj, es + [e]) == LogEvent(LogAll(nobj, es), e)
  {
    assert Front(es + [e]) == es;
  }

  lemma NextReady(c: Config, s: State, t: Tid, m: CL.Mode, f: seq<Event>, e: Event)
    requires t < |s.thr| && s.thr[t].pc == Start && s.thr[t].buf == [] && m.Tx? && CL.Holds(s, m)
    requires InRange(c.nobj, s.thr[t].trace + f) && Sound1(c, t, s.thr[t].trace, m, f, e)
    ensures Ready(c, After(c, s, t, f), t, e)
  {
    hide Results, OwnVers, OwnWords, LogAll;
  }

  /** The block's accesses are made one after another. */
  lemma {:induction false} BlockTx(c: Config, sched: seq<Act>, t: Tid, m: CL.Mode,
                                   accs: seq<Event>) returns (sched': seq<Act>)
    requires var s := Exec(c, sched);
             && t < |s.thr| && s.thr[t].pc == Start && s.thr[t].buf == [] && InRange(c.nobj, s.thr[t].trace)
             && s.thr[t].log == LogAll(c.nobj, s.thr[t].trace)
             && m.Tx? && CL.Holds(s, m) && Sound(c, t, s.thr[t].trace, m, accs)
    ensures InRange(c.nobj, Exec(c, sched).thr[t].trace + accs)
    ensures sched <= sched' && Exec(c, sched') == After(c, Exec(c, sched), t, accs)
  {
    hide Exec, CL.Holds, LogAll, After, Applied, Ready, Sound1;
    var s := Exec(c, sched);
    if accs == [] {
      sched' := sched;
      AfterNothing(c, s, t);
    } else {
      var f, e := Front(accs), Last(accs);
      var sched1 := BlockTx(c, sched, t, m, f);
      assert e.addr.obj < c.nobj by { SoundRange(c, t, s.thr[t].trace, m, accs); }
      NextReady(c, s, t, m, f, e);
      sched' := OneTx(c, sched1, t, e);
      AfterOneMore(c, s, t, f, e);
      assert f + [e] == accs;
    }
  }
}
