/** What one work-stealing worker does by itself: with its own deque, and with another's. */
module WorkStealingRounds {
  import opened Wrappers
  import opened Runs
  import opened WorkStealing

  /** A worker at the top of its loop, in a scheduler that is not stopped. */
  predicate AtTop(s: State, w: nat) { AtWorker(s, w) && s.workers[w].Top? && !s.stop }

  /** One task has been run and counted: worker `w` is at the top again, and the rest is as it was. */
  predicate Finished(s: State, e: State, w: nat, task: nat) {
    && AtTop(e, w) && e.workers == s.workers && |e.deques| == |s.deques| && e.producers == s.producers
    && e.completedLog == s.completedLog + [task] && e.threwLog == s.threwLog && e.completed == s.completed + 1
    && e.scheduled == s.scheduled && e.pushed == s.pushed && e.failedSteals == s.failedSteals
  }

  function RunAndCount(w: nat): seq<Action> { [Run(w, false), CountExecuted(w), CountCompleted(w)] }

  /** The task in hand is run, logged and counted in both counters. */
  lemma RunsInHand(s: State, w: nat, task: nat) returns (e: State)
    requires AtWorker(s, w) && s.workers[w] == Holding(task)
    ensures Exec(Next, s, RunAndCount(w)) == Some(e)
    ensures e == s.(workers := s.workers[w := Top], completedLog := s.completedLog + [task],
                    completed := s.completed + 1,
                    deques := s.deques[w := s.deques[w].(executed := s.deques[w].executed + 1)])
  {
    var s1 := s.(workers := s.workers[w := Ran], completedLog := s.completedLog + [task]);
    var s2 := s1.(workers := s1.workers[w := HalfCounted],
                  deques := s1.deques[w := s1.deques[w].(executed := s1.deques[w].executed + 1)]);
    e := s2.(workers := s2.workers[w := Top], completed := s2.completed + 1);
    TwoSteps(Next, s, Run(w, false), s1, CountExecuted(w), s2);
    OneStep(Next, s2, CountCompleted(w), e);
    Then(Next, s, [Run(w, false), CountExecuted(w)], s2, [CountCompleted(w)], e);
    assert RunAndCount(w) == [Run(w, false), CountExecuted(w)] + [CountCompleted(w)];
  }

  // ----- The owner -----

  function OwnerRound(w: nat): seq<Action> { [CheckStop(w), PopLocal(w)] + RunAndCount(w) }

  function OwnerRounds(w: nat, n: nat): seq<Action> { if n == 0 then [] else OwnerRound(w) + OwnerRounds(w, n - 1) }

  function NewestFirst(tasks: seq<nat>): seq<nat> {
    if tasks == [] then [] else [tasks[|tasks| - 1]] + NewestFirst(tasks[..|tasks| - 1])
  }

  lemma OneOwned(s: State, w: nat) returns (e: State)
    requires AtTop(s, w) && s.deques[w].tasks != []
    ensures Exec(Next, s, OwnerRound(w)) == Some(e)
    ensures Finished(s, e, w, s.deques[w].tasks[|s.deques[w].tasks| - 1])
    ensures e.deques == s.deques[w := e.deques[w]] && e.deques[w].executed == s.deques[w].executed + 1
    ensures e.deques[w].tasks == s.deques[w].tasks[..|s.deques[w].tasks| - 1] && e.totalSteals == s.totalSteals
  {
    var task := s.deques[w].tasks[|s.deques[w].tasks| - 1];
    var s1 := s.(workers := s.workers[w := Looking]);
    var s2 := s1.(workers := s1.workers[w := Holding(task)], deques := s1.deques[w := PoppedLocal(s1.deques[w])]);
    TwoSteps(Next, s, CheckStop(w), s1, PopLocal(w), s2);
    e := RunsInHand(s2, w, task);
    Then(Next, s, [CheckStop(w), PopLocal(w)], s2, RunAndCount(w), e);
    assert e.workers == s.workers;
  }

  /** Left alone, a worker runs all of its own deque, newest first, and steals nothing. */
  lemma {:induction false} OwnerAlone(s: State, w: nat) returns (e: State)
    requires AtTop(s, w)
    ensures Exec(Next, s, OwnerRounds(w, |s.deques[w].tasks|)) == Some(e) && AtTop(e, w) && e.workers == s.workers
    ensures e.completedLog == s.completedLog + NewestFirst(s.deques[w].tasks) && e.totalSteals == s.totalSteals
    ensures e.deques == s.deques[w := e.deques[w]] && e.deques[w].tasks == []
    ensures e.deques[w].executed == s.deques[w].executed + |s.deques[w].tasks|
    decreases |s.deques[w].tasks|
  {
    if s.deques[w].tasks == [] {
      e := s;
    } else {
      var n := |s.deques[w].tasks|;
      var s1 := OneOwned(s, w);
      e := OwnerAlone(s1, w);
      Then(Next, s, OwnerRound(w), s1, OwnerRounds(w, n - 1), e);
    }
  }

  // ----- The thief -----

  function TheftRound(w: nat, v: nat): seq<Action> {
    [CheckStop(w), PopLocal(w)] + [BeginSteal(w), Attempt(w, v)] + [CountSteal(w)] + RunAndCount(w)
  }

  function TheftRounds(w: nat, v: nat, n: nat): seq<Action> {
    if n == 0 then [] else TheftRound(w, v) + TheftRounds(w, v, n - 1)
  }

  lemma GetsHungry(s: State, w: nat) returns (e: State)
    requires AtTop(s, w) && s.deques[w].tasks == []
    ensures Exec(Next, s, [CheckStop(w), PopLocal(w)]) == Some(e)
    ensures e == s.(workers := s.workers[w := Hungry])
  {
    var s1 := s.(workers := s.workers[w := Looking]);
    e := s.(workers := s.workers[w := Hungry]);
    assert s1.workers[w := Hungry] == e.workers;
    TwoSteps(Next, s, CheckStop(w), s1, PopLocal(w), e);
  }

  lemma TakesFrom(s: State, w: nat, v: nat) returns (e: State)
    requires AtWorker(s, w) && s.workers[w].Hungry? && v < |s.deques| && v != w && s.deques[v].tasks != []
    ensures Exec(Next, s, [BeginSteal(w), Attempt(w, v)] + [CountSteal(w)]) == Some(e)
    ensures e == s.(workers := s.workers[w := Holding(s.deques[v].tasks[0])], deques := e.deques,
                    totalSteals := s.totalSteals + 1, successfulSteals := s.successfulSteals + 1)
    ensures e.deques == s.deques[v := StolenFrom(s.deques[v])]
  {
    var task := s.deques[v].tasks[0];
    var s1 := s.(workers := s.workers[w := Stealing(|s.deques| - 1)], totalSteals := s.totalSteals + 1);
    var s2 := s1.(workers := s1.workers[w := Stole(task)], deques := s1.deques[v := StolenFrom(s1.deques[v])]);
    e := s2.(workers := s2.workers[w := Holding(task)], successfulSteals := s2.successfulSteals + 1);
    TwoSteps(Next, s, BeginSteal(w), s1, Attempt(w, v), s2);
    OneStep(Next, s2, CountSteal(w), e);
    Then(Next, s, [BeginSteal(w), Attempt(w, v)], s2, [CountSteal(w)], e);
  }

  lemma OneStolen(s: State, w: nat, v: nat) returns (e: State)
    requires AtTop(s, w) && s.deques[w].tasks == [] && v < |s.deques| && v != w && s.deques[v].tasks != []
    ensures Exec(Next, s, TheftRound(w, v)) == Some(e) && Finished(s, e, w, s.deques[v].tasks[0])
    ensures e.deques == s.deques[v := e.deques[v]][w := e.deques[w]] && e.deques[w].tasks == []
    ensures e.deques[w].executed == s.deques[w].executed + 1
    ensures e.deques[v].tasks == s.deques[v].tasks[1..] && e.deques[v].stolen == s.deques[v].stolen + 1
    ensures e.totalSteals == s.totalSteals + 1 && e.successfulSteals == s.successfulSteals + 1
  {
    var task := s.deques[v].tasks[0];
    var s1 := GetsHungry(s, w);
    var s2 := TakesFrom(s1, w, v);
    e := RunsInHand(s2, w, task);
    var steal := [BeginSteal(w), Attempt(w, v)] + [CountSteal(w)];
    Then(Next, s1, steal, s2, RunAndCount(w), e);
    Then(Next, s, [CheckStop(w), PopLocal(w)], s1, steal + RunAndCount(w), e);
    assert TheftRound(w, v) == [CheckStop(w), PopLocal(w)] + (steal + RunAndCount(w));
    assert e.workers == s.workers;
  }

  /** Left alone beside another's deque, a worker with none of its own steals and runs all of it, oldest first. */
  lemma {:induction false} ThiefAlone(s: State, w: nat, v: nat) returns (e: State)
    requires AtTop(s, w) && s.deques[w].tasks == [] && v < |s.deques| && v != w
    ensures Exec(Next, s, TheftRounds(w, v, |s.deques[v].tasks|)) == Some(e) && AtTop(e, w) && e.workers == s.workers
    ensures e.completedLog == s.completedLog + s.deques[v].tasks && |e.deques| == |s.deques|
    ensures e.deques[v].tasks == [] && e.deques[v].stolen == s.deques[v].stolen + |s.deques[v].tasks|
    ensures e.deques[w].executed == s.deques[w].executed + |s.deques[v].tasks|
    ensures forall q :: 0 <= q < |s.deques| && q != v && q != w ==> e.deques[q] == s.deques[q]
    ensures e.totalSteals == s.totalSteals + |s.deques[v].tasks|
    ensures e.successfulSteals == s.successfulSteals + |s.deques[v].tasks| && e.failedSteals == s.failedSteals
    decreases |s.deques[v].tasks|
  {
    if s.deques[v].tasks == [] {
      e := s;
    } else {
      var n := |s.deques[v].tasks|;
      var s1 := OneStolen(s, w, v);
      e := ThiefAlone(s1, w, v);
      Then(Next, s, TheftRound(w, v), s1, TheftRounds(w, v, n - 1), e);
    }
  }
}
