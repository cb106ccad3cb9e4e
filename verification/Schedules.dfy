/** Runs of a transition system under a schedule, and fair schedules: a system that always can go on, and only so often,
    finishes under them. */
module Schedules {
  import opened Mem

  /** The state after a schedule; an action that is not possible changes nothing. */
  function Run<S, A>(step: (S, A) -> Option<S>, s: S, sched: seq<A>): S {
    if sched == [] then s
    else
      var s1 := Run(step, s, Front(sched));
      var r := step(s1, Last(sched));
      if r.Some? then r.value else s1
  }

  lemma RunOneMore<S, A>(step: (S, A) -> Option<S>, s: S, sched: seq<A>, a: A)
    ensures var s1 := Run(step, s, sched);
            Run(step, s, sched + [a]) == if step(s1, a).Some? then step(s1, a).value else s1
  {
    assert Front(sched + [a]) == sched;
  }

  lemma RunThree<S, A>(step: (S, A) -> Option<S>, s: S, a: A, b: A, c: A)
    requires step(s, a).Some? && step(step(s, a).value, b).Some? && step(step(step(s, a).value, b).value, c).Some?
    ensures Run(step, s, [a, b, c]) == step(step(step(s, a).value, b).value, c).value
  {
    RunOneMore(step, s, [], a);
    RunOneMore(step, s, [a], b);
    RunOneMore(step, s, [a, b], c);
    assert [] + [a] == [a] && [a] + [b] == [a, b] && [a, b] + [c] == [a, b, c];
  }

  lemma {:induction false} RunAppend<S, A>(step: (S, A) -> Option<S>, s: S, sched: seq<A>, rest: seq<A>)
    ensures Run(step, s, sched + rest) == Run(step, Run(step, s, sched), rest)
  {
    if rest == [] {
      assert sched + rest == sched;
    } else {
      RunAppend(step, s, sched, Front(rest));
      assert sched + rest == sched + Front(rest) + [Last(rest)];
      RunOneMore(step, s, sched + Front(rest), Last(rest));
    }
  }

  // ---------------------------------------------------------------- fairness

  /** Every action gets a turn. */
  ghost predicate Covers<A(!new)>(acts: iset<A>, round: seq<A>) {
    forall a | a in acts :: a in round
  }

  /** The schedule consists of k rounds, after anything. */
  ghost predicate Rounds<A(!new)>(acts: iset<A>, sched: seq<A>, k: nat)
    decreases k
  {
    k == 0 || exists i :: 0 <= i <= |sched| && Covers(acts, sched[i..]) && Rounds(acts, sched[..i], k - 1)
  }

  /** In this state some action is possible until the work is done, and each one does some of it. */
  ghost predicate CanGoOn<S(!new), A(!new)>(step: (S, A) -> Option<S>, done: S -> bool, work: S -> int,
                                            acts: iset<A>, s: S)
  {
    && 0 <= work(s)
    && (forall a | step(s, a).Some? :: work(step(s, a).value) < work(s))
    && (!done(s) ==> exists a :: a in acts && step(s, a).Some?)
    && (done(s) ==> forall a :: step(s, a).None?)
  }

  /** So it is in every reachable state. */
  ghost predicate Progresses<S(!new), A(!new)>(step: (S, A) -> Option<S>, s: S, done: S -> bool, work: S -> int,
                                               acts: iset<A>)
  {
    forall sched: seq<A> :: CanGoOn(step, done, work, acts, Run(step, s, sched))
  }

  /** Either nothing in the continuation was possible, or some work was done. */
  lemma {:induction false} StaysOrWorks<S(!new), A(!new)>(step: (S, A) -> Option<S>, s0: S, done: S -> bool,
                                                          work: S -> int, acts: iset<A>, sched: seq<A>, rest: seq<A>)
    requires Progresses(step, s0, done, work, acts)
    ensures var s, s' := Run(step, s0, sched), Run(step, s0, sched + rest);
            (s' == s && forall a | a in rest :: step(s, a).None?) || work(s') < work(s)
  {
    if rest == [] {
      assert sched + rest == sched;
    } else {
      StaysOrWorks(step, s0, done, work, acts, sched, Front(rest));
      assert rest == Front(rest) + [Last(rest)];
      assert sched + rest == sched + Front(rest) + [Last(rest)];
      RunOneMore(step, s0, sched + Front(rest), Last(rest));
      assert CanGoOn(step, done, work, acts, Run(step, s0, sched + Front(rest)));
    }
  }

  /** k rounds finish the work or do k pieces of it. */
  lemma {:induction false} RoundsWork<S(!new), A(!new)>(step: (S, A) -> Option<S>, s0: S, done: S -> bool,
                                                        work: S -> int, acts: iset<A>, sched: seq<A>,
                                                        rest: seq<A>, k: nat)
    requires Progresses(step, s0, done, work, acts) && Rounds(acts, rest, k)
    ensures var s, s' := Run(step, s0, sched), Run(step, s0, sched + rest); done(s') || work(s') + k <= work(s)
    decreases k
  {
    if k == 0 {
      StaysOrWorks(step, s0, done, work, acts, sched, rest);
    } else {
      var front, round := LastRound(acts, rest, k);
      hide Run, Progresses, Covers, Rounds;
      RoundsWork(step, s0, done, work, acts, sched, front, k - 1);
      DoneOrTurn(step, s0, done, work, acts, sched + front, round);
      assert sched + rest == sched + front + round;
    }
  }

  lemma LastRound<A(!new)>(acts: iset<A>, sched: seq<A>, k: nat) returns (front: seq<A>, round: seq<A>)
    requires 0 < k && Rounds(acts, sched, k)
    ensures sched == front + round && Covers(acts, round) && Rounds(acts, front, k - 1)
  {
    hide Covers;
    var i :| 0 <= i <= |sched| && Covers(acts, sched[i..]) && Rounds(acts, sched[..i], k - 1);
    front, round := sched[..i], sched[i..];
  }

  /** In a round either everything is done, or some work is. */
  lemma DoneOrTurn<S(!new), A(!new)>(step: (S, A) -> Option<S>, s0: S, done: S -> bool, work: S -> int, acts: iset<A>,
                                     sched: seq<A>, round: seq<A>)
    requires Progresses(step, s0, done, work, acts) && Covers(acts, round)
    ensures var s, s' := Run(step, s0, sched), Run(step, s0, sched + round);
            if done(s) then s' == s else work(s') < work(s)
  {
    var s := Run(step, s0, sched);
    assert CanGoOn(step, done, work, acts, s);
    if done(s) {
      DoneStays(step, s0, sched, round);
    } else {
      StaysOrWorks(step, s0, done, work, acts, sched, round);
    }
  }

  lemma {:induction false} DoneStays<S, A(!new)>(step: (S, A) -> Option<S>, s0: S, sched: seq<A>, rest: seq<A>)
    requires forall a :: step(Run(step, s0, sched), a).None?
    ensures Run(step, s0, sched + rest) == Run(step, s0, sched)
  {
    if rest == [] {
      assert sched + rest == sched;
    } else {
      DoneStays(step, s0, sched, Front(rest));
      assert sched + rest == sched + Front(rest) + [Last(rest)];
      RunOneMore(step, s0, sched + Front(rest), Last(rest));
    }
  }

  /** From wherever a schedule has led, every continuation with more rounds than there is work left finishes. */
  lemma FairlyDone<S(!new), A(!new)>(step: (S, A) -> Option<S>, s0: S, done: S -> bool, work: S -> int, acts: iset<A>,
                                     sched: seq<A>, rest: seq<A>, k: nat)
    requires Progresses(step, s0, done, work, acts) && Rounds(acts, rest, k) && work(Run(step, s0, sched)) < k
    ensures done(Run(step, s0, sched + rest))
  {
    RoundsWork(step, s0, done, work, acts, sched, rest, k);
    assert CanGoOn(step, done, work, acts, Run(step, s0, sched + rest));
  }

  function Repeat<A>(round: seq<A>, k: nat): seq<A> {
    if k == 0 then [] else Repeat(round, k - 1) + round
  }

  lemma {:induction false} RepeatRounds<A(!new)>(acts: iset<A>, sched: seq<A>, round: seq<A>, k: nat)
    requires Covers(acts, round)
    ensures Rounds(acts, sched + Repeat(round, k), k)
  {
    if k > 0 {
      RepeatRounds(acts, sched, round, k - 1);
      var before, all := sched + Repeat(round, k - 1), sched + Repeat(round, k);
      assert all == before + round;
      assert all[|before|..] == round && all[..|before|] == before;
    }
  }

  // ---------------------------------------------------------------- one action alone

  /** The state after k turns of one action and of nothing else. */
  function Only<S, A>(step: (S, A) -> Option<S>, s: S, a: A, k: nat): S {
    if k == 0 then s
    else
      var s1 := Only(step, s, a, k - 1);
      var r := step(s1, a);
      if r.Some? then r.value else s1
  }

  lemma OnlyNone<S, A>(step: (S, A) -> Option<S>, s: S, a: A)
    ensures Only(step, s, a, 0) == s
  {
  }

  lemma OnlyNext<S, A>(step: (S, A) -> Option<S>, s: S, a: A, k: nat)
    requires step(Only(step, s, a, k), a).Some?
    ensures Only(step, s, a, k + 1) == step(Only(step, s, a, k), a).value
  {
  }

  lemma {:induction false} OnlyPlus<S, A>(step: (S, A) -> Option<S>, s: S, a: A, n: nat, k: nat)
    ensures Only(step, s, a, n + k) == Only(step, Only(step, s, a, n), a, k)
  {
    if k > 0 { OnlyPlus(step, s, a, n, k - 1); }
  }

  /** Such turns are a schedule like any other. */
  lemma {:induction false} OnlyRuns<S, A>(step: (S, A) -> Option<S>, s: S, a: A, k: nat)
    ensures Only(step, s, a, k) == Run(step, s, Repeat([a], k))
  {
    if k > 0 {
      OnlyRuns(step, s, a, k - 1);
      RunOneMore(step, s, Repeat([a], k - 1), a);
    }
  }

  /** The action is possible and leads to the goal, or goes on with less work left. */
  ghost predicate Advances<S(!new), A>(step: (S, A) -> Option<S>, a: A, way: S -> bool, goal: S -> bool,
                                       work: S -> int, s: S)
  {
    && step(s, a).Some?
    && (goal(step(s, a).value) || (way(step(s, a).value) && 0 <= work(step(s, a).value) < work(s)))
  }

  ghost predicate AlwaysAdvances<S(!new), A>(step: (S, A) -> Option<S>, a: A, way: S -> bool, goal: S -> bool,
                                             work: S -> int)
  {
    forall s | way(s) :: Advances(step, a, way, goal, work, s)
  }

  /** Alone, an action that keeps advancing gets to the goal, without leaving the way before. */
  lemma {:induction false} Arrives<S(!new), A>(step: (S, A) -> Option<S>, a: A, way: S -> bool, goal: S -> bool,
                                               work: S -> int, s: S, k: nat) returns (n: nat)
    requires AlwaysAdvances(step, a, way, goal, work)
    requires 0 < k && way(Only(step, s, a, k)) && forall j | 0 < j < k :: way(Only(step, s, a, j))
    ensures k < n && goal(Only(step, s, a, n)) && forall j | 0 < j < n :: way(Only(step, s, a, j))
    decreases work(Only(step, s, a, k))
  {
    var s1 := Only(step, s, a, k);
    assert Advances(step, a, way, goal, work, s1);
    assert Only(step, s, a, k + 1) == step(s1, a).value;
    if goal(step(s1, a).value) {
      n := k + 1;
    } else {
      n := Arrives(step, a, way, goal, work, s, k + 1);
    }
  }

  /** So it does once it is on the way. */
  lemma ArrivesFrom<S(!new), A>(step: (S, A) -> Option<S>, a: A, way: S -> bool, goal: S -> bool, work: S -> int, s: S)
    returns (n: nat)
    requires AlwaysAdvances(step, a, way, goal, work) && step(s, a).Some? && way(step(s, a).value)
    ensures 1 < n && goal(Only(step, s, a, n)) && forall j | 0 < j < n :: way(Only(step, s, a, j))
  {
    OnlyNone(step, s, a);
    OnlyNext(step, s, a, 0);
    hide *;
    n := Arrives(step, a, way, goal, work, s, 1);
  }

  /** So it does from the way itself. */
  lemma ArrivesOn<S(!new), A>(step: (S, A) -> Option<S>, a: A, way: S -> bool, goal: S -> bool, work: S -> int, s: S)
    returns (n: nat)
    requires AlwaysAdvances(step, a, way, goal, work) && way(s)
    ensures 0 < n && goal(Only(step, s, a, n)) && forall j | 0 <= j < n :: way(Only(step, s, a, j))
  {
    assert Advances(step, a, way, goal, work, s);
    OnlyNone(step, s, a);
    OnlyNext(step, s, a, 0);
    if goal(step(s, a).value) {
      n := 1;
    } else {
      n := ArrivesFrom(step, a, way, goal, work, s);
    }
  }
}
