/** What a worker does by itself, and that `stop` can always come to its end. */
module BaseSchedulerStop {
  import opened Wrappers
  import opened Runs
  import opened BaseScheduler

  /** A worker's steps while `n` tasks are in its queue and nobody pushes. */
  function RoundsOf(w: nat, n: nat): seq<Action> {
    if n == 0 then [TryPop(w), Wake(w)] else [TryPop(w), Action.Finish(w)] + RoundsOf(w, n - 1)
  }

  /** The log positions from `first` on. */
  function Positions(first: nat, n: nat): seq<nat> { seq(n, i requires 0 <= i < n => first + i) }

  /** Worker `w` has moved, on its own queue; the rest is as it was but for the counts. */
  ghost predicate OnlyWorker(s: State, e: State, w: nat, q: nat) {
    && w < |s.workers| == |e.workers| && e.workers == s.workers[w := e.workers[w]]
    && q < |s.queues| == |e.queues| && e.queues == s.queues[q := e.queues[q]]
    && e.stopPc == s.stopPc && e.stopFlag == s.stopFlag && e.producers == s.producers && e.early == s.early
  }

  lemma OneRound(s: State, w: nat) returns (e: State)
    requires w < |s.workers| && s.workers[w].Polling? && s.workers[w].q < |s.queues|
    requires s.queues[s.workers[w].q].tasks != []
    ensures Exec(Next, s, [TryPop(w), Action.Finish(w)]) == Some(e)
    ensures var q := s.workers[w].q;
      && OnlyWorker(s, e, w, q) && e.workers[w] == Polling(q)
      && e.queues[q] == Executed(Popped(s.queues[q]), s.queues[q].popped)
  {
    var q := s.workers[w].q;
    var s1 := Next(s, TryPop(w)).value;
    assert s1.workers[w] == Running(q, s.queues[q].tasks[0], s.queues[q].popped);
    e := Next(s1, Action.Finish(w)).value;
    TwoSteps(Next, s, TryPop(w), s1, Action.Finish(w), e);
  }

  lemma LastRound(s: State, w: nat) returns (e: State)
    requires w < |s.workers| && s.workers[w].Polling? && s.workers[w].q < |s.queues|
    requires s.queues[s.workers[w].q].tasks == []
    ensures Exec(Next, s, [TryPop(w), Wake(w)]) == Some(e)
    ensures var q := s.workers[w].q;
      && OnlyWorker(s, e, w, q) && e.queues == s.queues
      && e.workers[w] == if s.stopFlag then Exited(q, |s.queues[q].pushed|) else Polling(q)
  {
    var s1 := Next(s, TryPop(w)).value;
    e := Next(s1, Wake(w)).value;
    TwoSteps(Next, s, TryPop(w), s1, Wake(w), e);
  }

  /** Worker `w` has executed the `n` tasks that were in queue `q`, and left iff the flag is up. */
  ghost predicate WorkedOff(s: State, e: State, w: nat, q: nat) {
    && OnlyWorker(s, e, w, q) && e.queues[q].tasks == [] && e.queues[q].pushed == s.queues[q].pushed
    && e.queues[q].executed == s.queues[q].executed + Positions(s.queues[q].popped, |s.queues[q].tasks|)
    && e.workers[w] == if s.stopFlag then Exited(q, |s.queues[q].pushed|) else Polling(q)
  }

  lemma OneMore(s: State, s1: State, e: State, w: nat, q: nat)
    requires OnlyWorker(s, s1, w, q) && WorkedOff(s1, e, w, q) && s.queues[q].tasks != []
    requires s1.queues[q] == Executed(Popped(s.queues[q]), s.queues[q].popped)
    ensures WorkedOff(s, e, w, q)
  {
    PositionsFrom(s.queues[q].popped, |s.queues[q].tasks|);
  }

  /**
   * A worker to whose queue nobody pushes executes what is there, once each, in order, and then leaves iff the flag
   * is up; otherwise it polls again.
   */
  lemma {:induction false} WorkerAlone(s: State, w: nat) returns (e: State)
    requires w < |s.workers| && s.workers[w].Polling? && s.workers[w].q < |s.queues|
    ensures Exec(Next, s, RoundsOf(w, |s.queues[s.workers[w].q].tasks|)) == Some(e)
    ensures WorkedOff(s, e, w, s.workers[w].q)
    decreases |s.queues[s.workers[w].q].tasks|
  {
    var q := s.workers[w].q;
    if s.queues[q].tasks == [] {
      e := LastRound(s, w);
    } else {
      var s1 := OneRound(s, w);
      e := WorkerAlone(s1, w);
      Then(Next, s, [TryPop(w), Action.Finish(w)], s1, RoundsOf(w, |s.queues[q].tasks| - 1), e);
      OneMore(s, s1, e, w, q);
    }
  }

  lemma PositionsFrom(first: nat, n: nat)
    requires n > 0
    ensures Positions(first, n) == [first] + Positions(first + 1, n - 1)
  {}

  // ----- Stopping -----

  ghost predicate WorkersInRange(s: State) {
    |s.queues| > 0 && forall w :: 0 <= w < |s.workers| ==> WorkerInRange(s.workers[w], |s.queues|)
  }

  /** Once the flag is up, every worker can get to its exit, whatever it is doing. */
  lemma OneLeaves(s: State, w: nat) returns (run: seq<Action>, e: State)
    requires WorkersInRange(s) && s.stopFlag && w < |s.workers|
    ensures Exec(Next, s, run) == Some(e) && WorkersInRange(e) && e.stopFlag && e.stopPc == s.stopPc
    ensures |e.workers| == |s.workers| && e.workers == s.workers[w := e.workers[w]] && e.workers[w].Exited?
  {
    if s.workers[w].Exited? {
      return [], s;
    }
    var a := FirstOf(s.workers[w], w);
    var s1 := ToPolling(s, w);
    if s.workers[w].Polling? {
      e := WorkerAlone(s, w);
      run := RoundsOf(w, |s.queues[s.workers[w].q].tasks|);
    } else if s1.workers[w].Exited? {
      run, e := [a], s1;
    } else {
      e := WorkerAlone(s1, w);
      run := RoundsOf(w, |s1.queues[s1.workers[w].q].tasks|);
      Then(Next, s, [a], s1, run, e);
      run := [a] + run;
    }
  }

  function FirstOf(wk: Worker, w: nat): Action {
    if wk.Starting? then Claim(w) else if wk.Running? then Action.Finish(w) else Wake(w)
  }

  lemma ToPolling(s: State, w: nat) returns (s1: State)
    requires WorkersInRange(s) && s.stopFlag && w < |s.workers| && !s.workers[w].Exited?
    ensures s.workers[w].Polling? ==> s1 == s
    ensures !s.workers[w].Polling? ==> Exec(Next, s, [FirstOf(s.workers[w], w)]) == Some(s1)
    ensures WorkersInRange(s1) && s1.stopFlag && s1.stopPc == s.stopPc && |s1.workers| == |s.workers|
    ensures s1.workers == s.workers[w := s1.workers[w]] && (s1.workers[w].Polling? || s1.workers[w].Exited?)
  {
    if s.workers[w].Polling? {
      s1 := s;
    } else {
      var a := FirstOf(s.workers[w], w);
      s1 := Next(s, a).value;
      OneStep(Next, s, a, s1);
    }
  }

  lemma {:induction false} AllLeave(s: State, k: nat) returns (run: seq<Action>, e: State)
    requires WorkersInRange(s) && s.stopFlag && k <= |s.workers|
    requires forall w :: 0 <= w < k ==> s.workers[w].Exited?
    ensures Exec(Next, s, run) == Some(e) && WorkersInRange(e) && e.stopPc == s.stopPc && AllLeft(e)
    decreases |s.workers| - k
  {
    if k == |s.workers| {
      run, e := [], s;
    } else {
      var r1, s1 := OneLeaves(s, k);
      var r2;
      r2, e := AllLeave(s1, k + 1);
      Then(Next, s, r1, s1, r2, e);
      run := r1 + r2;
    }
  }

  ghost predicate EmptyUpTo(s: State, k: nat) { forall q :: 0 <= q < |s.queues| && q < k ==> s.queues[q].tasks == [] }

  lemma {:induction false} CleanAll(s: State) returns (run: seq<Action>, e: State)
    requires s.stopPc.Cleaning? && s.stopPc.q <= |s.queues| && |s.queues| > 0 && AllLeft(s) && EmptyUpTo(s, s.stopPc.q)
    ensures Exec(Next, s, run) == Some(e) && e.stopPc.Stopped? && AllLeft(e) && EmptyUpTo(e, |e.queues|)
    decreases |s.queues| - s.stopPc.q
  {
    var a := if s.stopPc.q < |s.queues| then Clean else Return;
    var s1 := Next(s, a).value;
    OneStep(Next, s, a, s1);
    if a.Return? {
      run, e := [a], s1;
    } else {
      run, e := CleanAll(s1);
      Then(Next, s, [a], s1, run, e);
      run := [a] + run;
    }
  }

  lemma JoinAndClean(s: State) returns (run: seq<Action>, e: State)
    requires s.stopPc.Joining? && |s.queues| > 0 && AllLeft(s)
    ensures Exec(Next, s, run) == Some(e) && e.stopPc.Stopped? && AllLeft(e) && EmptyUpTo(e, |e.queues|)
  {
    var s1 := Next(s, Action.Join).value;
    OneStep(Next, s, Action.Join, s1);
    run, e := CleanAll(s1);
    Then(Next, s, [Action.Join], s1, run, e);
    run := [Action.Join] + run;
  }

  /**
   * From every reachable state before the join, `stop` can come to its end: every worker can leave, whatever it and
   * the producers are doing, and the cleanup leaves no task behind. `DrainedIffServed` says what it finds there.
   */
  lemma StopCanFinish(s0: State, before: seq<Action>, s: State) returns (run: seq<Action>, e: State)
    requires Init(s0) && Exec(Next, s0, before) == Some(s) && (s.stopPc.WaitingForIdle? || s.stopPc.Joining?)
    ensures Exec(Next, s, run) == Some(e) && e.stopPc.Stopped? && AllLeft(e) && EmptyUpTo(e, |e.queues|)
  {
    ReachableInv(s0, before, s);
    if s.stopPc.Joining? {
      run, e := FromJoining(s);
    } else {
      var s1 := Next(s, SetStop).value;
      OneStep(Next, s, SetStop, s1);
      run, e := FromJoining(s1);
      Then(Next, s, [SetStop], s1, run, e);
      run := [SetStop] + run;
    }
  }

  lemma FromJoining(s: State) returns (run: seq<Action>, e: State)
    requires s.stopPc.Joining? && s.stopFlag && WorkersInRange(s)
    ensures Exec(Next, s, run) == Some(e) && e.stopPc.Stopped? && AllLeft(e) && EmptyUpTo(e, |e.queues|)
  {
    var r1, s1 := AllLeave(s, 0);
    var r2;
    r2, e := JoinAndClean(s1);
    Then(Next, s, r1, s1, r2, e);
    run := r1 + r2;
  }
}
