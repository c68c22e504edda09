/** Runs that show where the base scheduler's promises stop. */
module BaseSchedulerLimits {
  import opened Wrappers
  import opened Runs
  import opened Folds
  import opened BaseScheduler

  function Fresh(queues: seq<Queue>, maxQueue: nat, producers: seq<Producer>, workers: seq<Worker>): State {
    State(queues, maxQueue, producers, 0, workers, 0, [], false, WaitingForIdle, [], 0, 0, [])
  }

  // ----- The cap and racing producers -----

  function Funcs(k: nat): seq<Job> { seq(k, _ => Func(0)) }

  /** One queue with `k` function tasks, and what the producers are doing. */
  predicate At(s: State, cap: nat, k: nat, producers: seq<Producer>) {
    |s.queues| == 1 && s.queues[0].tasks == Funcs(k) && s.maxQueue == cap && !s.stopFlag && s.producers == producers
  }

  lemma {:induction false} AllAreFuncs(k: nat)
    ensures Tally(IsFunc, Funcs(k), ()) == k
  {
    if k > 0 {
      AllAreFuncs(k - 1);
      assert Funcs(k)[1..] == Funcs(k - 1);
    }
  }

  lemma CountsItself(s: State, cap: nat, k: nat, producers: seq<Producer>, p: nat) returns (run: seq<Action>, s': State)
    requires At(s, cap, k, producers) && p < |producers| && producers[p] == Outside
    ensures Exec(Next, s, run) == Some(s') && At(s', cap, k, producers[p := Counted(Func(0))])
  {
    var s1 := Next(s, Accept(p, 0)).value;
    s' := Next(s1, Bump(p)).value;
    run := [Accept(p, 0), Bump(p)];
    TwoSteps(Next, s, Accept(p, 0), s1, Bump(p), s');
    assert producers[p := Accepted(Func(0))][p := Counted(Func(0))] == producers[p := Counted(Func(0))];
  }

  lemma PassesCheck(s: State, cap: nat, k: nat, producers: seq<Producer>, p: nat) returns (run: seq<Action>, s': State)
    requires At(s, cap, k, producers) && k < cap && p < |producers| && producers[p] == Counted(Func(0))
    ensures Exec(Next, s, run) == Some(s') && At(s', cap, k, producers[p := Ready(Func(0), 0)])
  {
    assert s.next % 1 == 0;
    var s1 := Next(s, Aim(p)).value;
    s' := Next(s1, CheckSize(p)).value;
    run := [Aim(p), CheckSize(p)];
    TwoSteps(Next, s, Aim(p), s1, CheckSize(p), s');
    assert producers[p := Aimed(Func(0), 0)][p := Ready(Func(0), 0)] == producers[p := Ready(Func(0), 0)];
  }

  lemma GetsReady(s: State, cap: nat, k: nat, producers: seq<Producer>, p: nat) returns (run: seq<Action>, s': State)
    requires At(s, cap, k, producers) && k < cap && p < |producers| && producers[p] == Outside
    ensures Exec(Next, s, run) == Some(s') && At(s', cap, k, producers[p := Ready(Func(0), 0)])
  {
    var counted := producers[p := Counted(Func(0))];
    var r1, s1 := CountsItself(s, cap, k, producers, p);
    var r2, s2 := PassesCheck(s1, cap, k, counted, p);
    Then(Next, s, r1, s1, r2, s2);
    run, s' := r1 + r2, s2;
    assert counted[p := Ready(Func(0), 0)] == producers[p := Ready(Func(0), 0)];
  }

  lemma Pushes(s: State, cap: nat, k: nat, producers: seq<Producer>, p: nat) returns (run: seq<Action>, s': State)
    requires At(s, cap, k, producers) && p < |producers| && producers[p] == Ready(Func(0), 0)
    ensures Exec(Next, s, run) == Some(s') && At(s', cap, k + 1, producers[p := Outside])
  {
    var s1 := Next(s, Push(p)).value;
    s' := Next(s1, Notify(p)).value;
    run := [Push(p), Notify(p)];
    TwoSteps(Next, s, Push(p), s1, Notify(p), s');
    assert Funcs(k) + [Func(0)] == Funcs(k + 1);
    assert producers[p := Notifying(0)][p := Outside] == producers[p := Outside];
  }

  function Outsiders(n: nat): seq<Producer> { seq(n, _ => Outside) }

  /** The first `p` of `n` producers are past the check; or the first `p` of those are done. */
  function PastCheckUpTo(n: nat, p: nat): seq<Producer> { seq(n, i => if i < p then Ready(Func(0), 0) else Outside) }

  function DoneUpTo(n: nat, p: nat): seq<Producer> { seq(n, i => if i < p then Outside else Ready(Func(0), 0)) }

  /** One producer alone fills the queue up to its cap. */
  lemma {:induction false} FillsUp(s: State, cap: nat, k: nat, n: nat, goal: nat) returns (run: seq<Action>, s': State)
    requires At(s, cap, k, Outsiders(n)) && n > 0 && k <= goal <= cap
    ensures Exec(Next, s, run) == Some(s') && At(s', cap, goal, Outsiders(n))
    decreases goal - k
  {
    if k == goal {
      run, s' := [], s;
    } else {
      var ready := Outsiders(n)[0 := Ready(Func(0), 0)];
      var r1, s1 := GetsReady(s, cap, k, Outsiders(n), 0);
      var r2, s2 := Pushes(s1, cap, k, ready, 0);
      assert ready[0 := Outside] == Outsiders(n);
      var r3, s3 := FillsUp(s2, cap, k + 1, n, goal);
      Then(Next, s, r1, s1, r2, s2);
      Then(Next, s, r1 + r2, s2, r3, s3);
      run, s' := r1 + r2 + r3, s3;
    }
  }

  lemma {:induction false} AllGetReady(s: State, cap: nat, k: nat, n: nat, p: nat) returns (run: seq<Action>, s': State)
    requires At(s, cap, k, PastCheckUpTo(n, p)) && k < cap && p <= n
    ensures Exec(Next, s, run) == Some(s') && At(s', cap, k, PastCheckUpTo(n, n))
    decreases n - p
  {
    if p == n {
      run, s' := [], s;
    } else {
      var r1, s1 := GetsReady(s, cap, k, PastCheckUpTo(n, p), p);
      assert PastCheckUpTo(n, p)[p := Ready(Func(0), 0)] == PastCheckUpTo(n, p + 1);
      var r2, s2 := AllGetReady(s1, cap, k, n, p + 1);
      Then(Next, s, r1, s1, r2, s2);
      run, s' := r1 + r2, s2;
    }
  }

  lemma {:induction false} AllPush(s: State, cap: nat, k: nat, n: nat, p: nat) returns (run: seq<Action>, s': State)
    requires At(s, cap, k, DoneUpTo(n, p)) && p <= n
    ensures Exec(Next, s, run) == Some(s') && At(s', cap, k + n - p, DoneUpTo(n, n))
    decreases n - p
  {
    if p == n {
      run, s' := [], s;
    } else {
      var r1, s1 := Pushes(s, cap, k, DoneUpTo(n, p), p);
      assert DoneUpTo(n, p)[p := Outside] == DoneUpTo(n, p + 1);
      var r2, s2 := AllPush(s1, cap, k + 1, n, p + 1);
      Then(Next, s, r1, s1, r2, s2);
      run, s' := r1 + r2, s2;
    }
  }

  lemma StartsEmpty(cap: nat, n: nat)
    requires cap > 0
    ensures Init(Fresh([EMPTY], cap, Outsiders(n), []))
    ensures At(Fresh([EMPTY], cap, Outsiders(n), []), cap, 0, Outsiders(n))
  {
    assert Funcs(0) == [];
  }

  /**
   * For every cap and every number of producers: when one place is left and all pass the size check before any
   * of them pushes, the queue gets as many function tasks as `CapHolds` allows.
   */
  lemma CapCanBeExceeded(cap: nat, n: nat) returns (s0: State, run: seq<Action>, s: State)
    requires cap > 0 && n > 0
    ensures Init(s0) && s0.maxQueue == cap && |s0.producers| == n && Exec(Next, s0, run) == Some(s)
    ensures |s.queues| == 1 && Tally(IsFunc, s.queues[0].tasks, ()) == cap - 1 + n
  {
    s0 := Fresh([EMPTY], cap, Outsiders(n), []);
    StartsEmpty(cap, n);
    run, s := FillAndRace(s0, cap, n);
    AllAreFuncs(cap - 1 + n);
  }

  lemma FillAndRace(s0: State, cap: nat, n: nat) returns (run: seq<Action>, s: State)
    requires At(s0, cap, 0, Outsiders(n)) && cap > 0 && n > 0
    ensures Exec(Next, s0, run) == Some(s) && At(s, cap, cap - 1 + n, DoneUpTo(n, n))
  {
    var r1, s1 := FillsUp(s0, cap, 0, n, cap - 1);
    var r2, s2 := AllRace(s1, cap, cap - 1, n);
    Then(Next, s0, r1, s1, r2, s2);
    run, s := r1 + r2, s2;
  }

  /** All pass the check, and then all push. */
  lemma AllRace(s: State, cap: nat, k: nat, n: nat) returns (run: seq<Action>, s': State)
    requires At(s, cap, k, Outsiders(n)) && k < cap
    ensures Exec(Next, s, run) == Some(s') && At(s', cap, k + n, DoneUpTo(n, n))
  {
    assert Outsiders(n) == PastCheckUpTo(n, 0) && PastCheckUpTo(n, n) == DoneUpTo(n, 0);
    var r1, s1 := AllGetReady(s, cap, k, n, 0);
    var r2, s2 := AllPush(s1, cap, k, n, 0);
    Then(Next, s, r1, s1, r2, s2);
    run, s' := r1 + r2, s2;
  }

  /** The cap holds over all runs from an initial state. */
  ghost predicate CapAlwaysHolds(cap: nat, n: nat) {
    forall s0, run, s, q: nat ::
      Init(s0) && s0.maxQueue == cap && |s0.producers| == n && Exec(Next, s0, run) == Some(s) && q < |s.queues| ==>
        Tally(IsFunc, s.queues[q].tasks, ()) <= cap
  }

  lemma UnchangingStep(s: State, a: Action)
    requires Enabled(s, a)
    ensures Next(s, a).value.maxQueue == s.maxQueue && |Next(s, a).value.producers| == |s.producers|
  {}

  lemma Unchanging(s0: State, run: seq<Action>, s: State)
    requires Exec(Next, s0, run) == Some(s)
    ensures s.maxQueue == s0.maxQueue && |s.producers| == |s0.producers|
  {
    var cap, n := s0.maxQueue, |s0.producers|;
    forall s: State, a | s.maxQueue == cap && |s.producers| == n && Next(s, a).Some?
      ensures Next(s, a).value.maxQueue == cap && |Next(s, a).value.producers| == n
    {
      UnchangingStep(s, a);
    }
    Invariance(Next, (s: State) => s.maxQueue == cap && |s.producers| == n, s0, run);
  }

  /** The cap is kept, on all runs, if and only if there is at most one producer. */
  lemma CapHoldsIffOneProducer(cap: nat, n: nat)
    requires cap > 0
    ensures CapAlwaysHolds(cap, n) <==> n <= 1
  {
    if n <= 1 {
      forall s0, run, s, q: nat |
        Init(s0) && s0.maxQueue == cap && |s0.producers| == n && Exec(Next, s0, run) == Some(s) && q < |s.queues|
        ensures Tally(IsFunc, s.queues[q].tasks, ()) <= cap
      {
        Unchanging(s0, run, s);
        CapHolds(s0, run, s, q);
      }
    } else {
      var s0, run, s := CapCanBeExceeded(cap, n);
      assert Tally(IsFunc, s.queues[0].tasks, ()) > cap;
    }
  }

  // ----- A foreign ticket -----

  lemma ClaimAround(s0: State) returns (run: seq<Action>, s3: State)
    requires |s0.queues| == 2 && s0.ticket == 0 && s0.claims == [] && s0.workers == [Starting, Starting]
    ensures Exec(Next, s0, run) == Some(s3)
    ensures s3 == s0.(workers := s3.workers, ticket := 3, claims := [0, 2]) && s3.workers == [Polling(0), Polling(0)]
  {
    var s1 := s0.(workers := s0.workers[0 := Polling(0)], ticket := 1, claims := [] + [0]);
    var s2 := s1.(ticket := 2);
    s3 := s2.(workers := s2.workers[1 := Polling(0)], ticket := 3, claims := s2.claims + [2]);
    TwoSteps(Next, s0, Claim(0), s1, ForeignClaim, s2);
    OneStep(Next, s2, Claim(1), s3);
    Then(Next, s0, [Claim(0), ForeignClaim], s2, [Claim(1)], s3);
    run := [Claim(0), ForeignClaim] + [Claim(1)];
  }

  lemma PushToSecond(s3: State) returns (run: seq<Action>, s6: State)
    requires s3.queues == [EMPTY, EMPTY] && s3.next == 0 && s3.producers == [Outside, Outside]
    ensures Exec(Next, s3, run) == Some(s6)
    ensures s6 == s3.(producers := s6.producers, queues := s6.queues, next := 2)
    ensures |s6.queues| == 2 && s6.queues[0].tasks == []
    ensures s6.queues[1].pushed == [Coro(6)] && s6.queues[1].executed == []
  {
    var s4 := s3.(producers := s3.producers[0 := Ready(Coro(5), 0)],
                  queues := s3.queues[0 := Placed(EMPTY, Coro(5))], next := 1);
    var s5 := s4.(producers := s4.producers[1 := Ready(Coro(6), 1)],
                  queues := s4.queues[1 := Placed(EMPTY, Coro(6))], next := 2);
    s6 := s5.(producers := s5.producers[1 := Notifying(1)],
              queues := s5.queues[1 := Pushed(Placed(EMPTY, Coro(6)), Coro(6))]);
    TwoSteps(Next, s3, AimCoro(0, 5), s4, AimCoro(1, 6), s5);
    OneStep(Next, s5, Push(1), s6);
    Then(Next, s3, [AimCoro(0, 5), AimCoro(1, 6)], s5, [Push(1)], s6);
    run := [AimCoro(0, 5), AimCoro(1, 6)] + [Push(1)];
  }

  lemma StopAndSleep(s6: State) returns (run: seq<Action>, s9: State)
    requires |s6.queues| == 2 && s6.queues[0].tasks == []
    requires s6.workers == [Polling(0), Polling(0)] && s6.stopPc.WaitingForIdle?
    ensures Exec(Next, s6, run) == Some(s9)
    ensures s9 == s6.(stopFlag := true, stopPc := Joining, early := s9.early, workers := s9.workers)
    ensures s9.early == [|s6.queues[0].pushed|, |s6.queues[1].pushed|] && s9.workers == [Sleeping(0), Sleeping(0)]
  {
    var s7 := s6.(stopFlag := true, stopPc := Joining,
                  early := seq(|s6.queues|, q requires 0 <= q < |s6.queues| => |s6.queues[q].pushed|));
    var s8 := s7.(workers := s7.workers[0 := Sleeping(0)]);
    s9 := s8.(workers := s8.workers[1 := Sleeping(0)]);
    OneStep(Next, s6, SetStop, s7);
    TwoSteps(Next, s7, TryPop(0), s8, TryPop(1), s9);
    Then(Next, s6, [SetStop], s7, [TryPop(0), TryPop(1)], s9);
    run := [SetStop] + [TryPop(0), TryPop(1)];
  }

  lemma LeaveAndJoin(s9: State) returns (run: seq<Action>, s: State)
    requires |s9.queues| == 2 && s9.queues[0].tasks == [] && s9.workers == [Sleeping(0), Sleeping(0)]
    requires s9.stopPc.Joining? && s9.stopFlag
    ensures Exec(Next, s9, run) == Some(s)
    ensures s == s9.(workers := s.workers, stopPc := Cleaning(0)) && |s.workers| == 2
  {
    var seen := |s9.queues[0].pushed|;
    var s10 := s9.(workers := s9.workers[0 := Exited(0, seen)]);
    var s11 := s10.(workers := s10.workers[1 := Exited(0, seen)]);
    s := s11.(stopPc := Cleaning(0));
    TwoSteps(Next, s9, Wake(0), s10, Wake(1), s11);
    OneStep(Next, s11, Action.Join, s);
    Then(Next, s9, [Wake(0), Wake(1)], s11, [Action.Join], s);
    run := [Wake(0), Wake(1)] + [Action.Join];
  }

  lemma ClaimPushStop(s0: State) returns (run: seq<Action>, s9: State)
    requires s0 == Fresh([EMPTY, EMPTY], 9, [Outside, Outside], [Starting, Starting])
    ensures Exec(Next, s0, run) == Some(s9)
    ensures |s9.queues| == 2 && s9.queues[0].tasks == [] && s9.workers == [Sleeping(0), Sleeping(0)]
    ensures s9.stopPc.Joining? && s9.stopFlag && |s9.early| == 2 && s9.early[1] == 1 && s9.queues[1].executed == []
  {
    var r3, s3 := ClaimAround(s0);
    var r6, s6 := PushToSecond(s3);
    var r9, last := StopAndSleep(s6);
    Then(Next, s0, r3, s3, r6, s6);
    Then(Next, s0, r3 + r6, s6, r9, last);
    run, s9 := r3 + r6 + r9, last;
  }

  /**
   * The worker id counter is shared by all schedulers: when another scheduler's worker takes the
   * ticket in between, both workers here serve queue 0, and a task pushed to queue 1 before `stop`
   * is never executed.
   */
  lemma ForeignTicketLosesTasks() returns (s0: State, run: seq<Action>, s: State)
    ensures Init(s0) && Exec(Next, s0, run) == Some(s) && JoinedAll(s)
    ensures |s.workers| == |s.queues| == |s.early| == 2 && s.early[1] == 1
    ensures !ExecutedOnce(s.queues[1], s.early[1])
  {
    s0 := Fresh([EMPTY, EMPTY], 9, [Outside, Outside], [Starting, Starting]);
    var r9, s9 := ClaimPushStop(s0);
    var r12, last := LeaveAndJoin(s9);
    Then(Next, s0, r9, s9, r12, last);
    run, s := r9 + r12, last;
    assert Count(s.queues[1].executed, 0) == 0;
  }
}
