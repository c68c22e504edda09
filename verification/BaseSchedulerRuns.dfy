/** What a run asks of the base scheduler, read off its actions, and what becomes of it. */
module BaseSchedulerRuns {
  import opened Wrappers
  import opened Runs
  import opened Folds
  import opened BaseScheduler

  // ----- The tickets -----

  predicate TakesTicket(a: Action) { a.Claim? || a.ForeignClaim? }

  /** The tickets that go to this scheduler's workers in a run that finds the counter at `t`. */
  function TicketsTaken(t: nat, run: seq<Action>): seq<nat>
    decreases |run|
  {
    if run == [] then []
    else if run[0].Claim? then [t] + TicketsTaken(t + 1, run[1..])
    else TicketsTaken(if run[0].ForeignClaim? then t + 1 else t, run[1..])
  }

  lemma TicketStep(s: State, run: seq<Action>, e: State) returns (s1: State)
    requires run != [] && Exec(Next, s, run) == Some(e)
    ensures Exec(Next, s1, run[1..]) == Some(e)
    ensures s1.claims == s.claims + if run[0].Claim? then [s.ticket] else []
    ensures s1.ticket == s.ticket + if TakesTicket(run[0]) then 1 else 0
  {
    s1 := Next(s, run[0]).value;
  }

  lemma {:induction false} ClaimsOfRun(s: State, run: seq<Action>, e: State)
    requires Exec(Next, s, run) == Some(e)
    ensures e.claims == s.claims + TicketsTaken(s.ticket, run)
    decreases |run|
  {
    if run != [] {
      var s1 := TicketStep(s, run, e);
      ClaimsOfRun(s1, run[1..], e);
    }
  }

  predicate IncreasingFrom(t: nat, ts: seq<nat>) {
    (forall k :: 0 <= k < |ts| ==> t + k <= ts[k]) && (forall j, k :: 0 <= j < k < |ts| ==> ts[j] < ts[k])
  }

  lemma {:induction false} TicketsIncrease(t: nat, run: seq<Action>)
    ensures IncreasingFrom(t, TicketsTaken(t, run))
    decreases |run|
  {
    if run != [] {
      TicketsIncrease(if TakesTicket(run[0]) then t + 1 else t, run[1..]);
      if run[0].Claim? { FirstThen(t, TicketsTaken(t + 1, run[1..])); }
    }
  }

  lemma FirstThen(t: nat, rest: seq<nat>)
    ensures IncreasingFrom(t + 1, rest) ==> IncreasingFrom(t, [t] + rest)
    ensures CountUpFrom(t, [t] + rest) <==> CountUpFrom(t + 1, rest)
    ensures Consecutive([t] + rest) <==> CountUpFrom(t + 1, rest)
  {
    var ts := [t] + rest;
    assert forall k :: 0 <= k < |rest| ==> rest[k] == ts[k + 1];
  }

  /** No other scheduler's worker takes a ticket before one of this scheduler's; or between two of them. */
  predicate NoneBefore(run: seq<Action>) {
    forall j, k :: 0 <= j < k < |run| && run[j].ForeignClaim? ==> !run[k].Claim?
  }

  predicate Undisturbed(run: seq<Action>) {
    forall i, j, k :: 0 <= i < j < k < |run| && run[i].Claim? && run[j].ForeignClaim? ==> !run[k].Claim?
  }

  predicate Consecutive(claims: seq<nat>) { forall k :: 0 <= k < |claims| ==> claims[k] == claims[0] + k }

  predicate CountUpFrom(t: nat, claims: seq<nat>) { forall k :: 0 <= k < |claims| ==> claims[k] == t + k }

  lemma {:induction false} NoneTaken(t: nat, run: seq<Action>)
    ensures TicketsTaken(t, run) == [] <==> forall k :: 0 <= k < |run| ==> !run[k].Claim?
    decreases |run|
  {
    if run != [] {
      assert forall k :: 0 < k < |run| ==> run[k] == run[1..][k - 1];
      NoneTaken(if TakesTicket(run[0]) then t + 1 else t, run[1..]);
    }
  }

  lemma NoneBeforeInRest(run: seq<Action>)
    requires run != []
    ensures NoneBefore(run) <==>
      NoneBefore(run[1..]) && (run[0].ForeignClaim? ==> forall k :: 0 <= k < |run| - 1 ==> !run[1..][k].Claim?)
  {
    assert forall k :: 0 < k < |run| ==> run[k] == run[1..][k - 1];
  }

  lemma UndisturbedInRest(run: seq<Action>)
    requires run != []
    ensures Undisturbed(run) <==> Undisturbed(run[1..]) && (run[0].Claim? ==> NoneBefore(run[1..]))
  {
    assert forall k :: 0 < k < |run| ==> run[k] == run[1..][k - 1];
  }

  lemma {:induction false} CountUpIff(t: nat, run: seq<Action>)
    ensures CountUpFrom(t, TicketsTaken(t, run)) <==> NoneBefore(run)
    decreases |run|
  {
    if run != [] {
      var u := if TakesTicket(run[0]) then t + 1 else t;
      NoneBeforeInRest(run);
      NoneTaken(u, run[1..]);
      TicketsIncrease(u, run[1..]);
      CountUpIff(u, run[1..]);
      var rest := TicketsTaken(u, run[1..]);
      if run[0].Claim? {
        FirstThen(t, rest);
      } else if run[0].ForeignClaim? && rest != [] {
        assert rest[0] > t;
      }
    }
  }

  lemma {:induction false} ConsecutiveIff(t: nat, run: seq<Action>)
    ensures Consecutive(TicketsTaken(t, run)) <==> Undisturbed(run)
    decreases |run|
  {
    if run != [] {
      var u := if TakesTicket(run[0]) then t + 1 else t;
      UndisturbedInRest(run);
      ConsecutiveIff(u, run[1..]);
      CountUpIff(u, run[1..]);
      if run[0].Claim? { FirstThen(t, TicketsTaken(u, run[1..])); }
    }
  }

  /**
   * Each worker takes a new ticket, in the order of their starts. They are the next ones after the scheduler's
   * first moment iff no foreign worker took one before, and follow each other without a gap iff none did in between.
   */
  lemma ClaimsCountUp(s0: State, run: seq<Action>, s: State)
    requires Init(s0) && Exec(Next, s0, run) == Some(s)
    ensures forall k :: 0 <= k < |s.claims| ==> s0.ticket + k <= s.claims[k]
    ensures forall j, k :: 0 <= j < k < |s.claims| ==> s.claims[j] < s.claims[k]
    ensures CountUpFrom(s0.ticket, s.claims) <==> NoneBefore(run)
    ensures Consecutive(s.claims) <==> Undisturbed(run)
  {
    ClaimsOfRun(s0, run, s);
    assert s.claims == TicketsTaken(s0.ticket, run);
    TicketsIncrease(s0.ticket, run);
    CountUpIff(s0.ticket, run);
    ConsecutiveIff(s0.ticket, run);
  }

  lemma {:induction false} ConsecutiveShare(claims: seq<nat>, n: nat, q: nat)
    requires claims != [] && Consecutive(claims) && q < n
    ensures Falling(claims, n, q) == Share(claims[0] + |claims|, n, q) - Share(claims[0], n, q)
  {
    var m := |claims| - 1;
    assert claims[m] == claims[0] + m;
    if m > 0 {
      ConsecutiveShare(claims[..m], n, q);
    } else {
      assert claims[..m] == [];
    }
  }

  /**
   * A scheduler with a worker for each queue, none of another scheduler starting in between, gives every queue its
   * one worker and drains it.
   */
  lemma UndisturbedStartDrains(s0: State, run: seq<Action>, s: State, q: nat)
    requires Init(s0) && Exec(Next, s0, run) == Some(s) && JoinedAll(s) && q < |s.queues|
    requires |s.workers| == |s.queues| && Undisturbed(run)
    ensures Tally(ServesAs, s.workers, q) == 1
    ensures |s.early| == |s.queues| && ExecutedOnce(s.queues[q], s.early[q])
  {
    ReachableInv(s0, run, s);
    ClaimsCountUp(s0, run, s);
    var w := EachServedOnce(s, q);
    assert Serves(s.workers[w], q);
    DrainedIffServed(s0, run, s, q);
  }

  lemma EachServedOnce(s: State, q: nat) returns (w: nat)
    requires Tickets(s) && AllLeft(s) && Consecutive(s.claims) && |s.workers| == |s.queues| && q < |s.queues|
    ensures Tally(ServesAs, s.workers, q) == 1 && w < |s.workers| && Serves(s.workers[w], q)
  {
    AllClaimed(s.workers);
    ConsecutiveShare(s.claims, |s.queues|, q);
    ConsecutiveTicketsCover(s.claims[0], |s.queues|, q);
    w := TallySource(ServesAs, s.workers, q);
  }

  lemma {:induction false} AllClaimed(workers: seq<Worker>)
    requires forall w :: 0 <= w < |workers| ==> workers[w].Exited?
    ensures Tally(Claimed, workers, ()) == |workers|
  {
    if workers != [] { AllClaimed(workers[1..]); }
  }

  // ----- A start of all workers, one after the other -----

  /** The first `k` of `n` workers have started on a counter that stood at `t`. */
  function StartedUpTo(n: nat, k: nat, t: nat, queues: nat): seq<Worker>
    requires queues > 0
  {
    seq(n, w requires 0 <= w < n => if w < k then Polling((t + w) % queues) else Starting)
  }

  function ClaimAll(n: nat): seq<Action> { seq(n, w requires 0 <= w < n => Claim(w)) }

  lemma StartedNext(n: nat, k: nat, t: nat, queues: nat)
    requires queues > 0 && k < n
    ensures StartedUpTo(n, k + 1, t, queues) == StartedUpTo(n, k, t, queues)[k := Polling((t + k) % queues)]
    ensures ClaimAll(k + 1) == ClaimAll(k) + [Claim(k)]
  {}

  lemma {:induction false} StartInTurn(s0: State, n: nat) returns (s: State)
    requires |s0.queues| > 0 && n <= |s0.workers|
    requires s0.workers == StartedUpTo(|s0.workers|, 0, s0.ticket, |s0.queues|)
    ensures Exec(Next, s0, ClaimAll(n)) == Some(s) && s.queues == s0.queues && s.ticket == s0.ticket + n
    ensures s.workers == StartedUpTo(|s0.workers|, n, s0.ticket, |s0.queues|)
  {
    if n == 0 {
      s := s0;
    } else {
      var m := StartInTurn(s0, n - 1);
      s := Starts(m, n - 1);
      StartedNext(|s0.workers|, n - 1, s0.ticket, |s0.queues|);
      Then(Next, s0, ClaimAll(n - 1), m, [Claim(n - 1)], s);
    }
  }

  /** Workers that start one after the other, alone, take the queues in turn; the run is undisturbed. */
  lemma AloneTheyTakeTurns(s0: State, n: nat) returns (s: State)
    requires Init(s0) && n <= |s0.workers|
    ensures Exec(Next, s0, ClaimAll(n)) == Some(s) && Undisturbed(ClaimAll(n))
    ensures |s.workers| == |s0.workers|
    ensures forall w :: 0 <= w < n ==> s.workers[w] == Polling((s0.ticket + w) % |s0.queues|)
  {
    assert s0.workers == StartedUpTo(|s0.workers|, 0, s0.ticket, |s0.queues|);
    s := StartInTurn(s0, n);
  }

  lemma Starts(s: State, w: nat) returns (s': State)
    requires |s.queues| > 0 && w < |s.workers| && s.workers[w].Starting?
    ensures Exec(Next, s, [Claim(w)]) == Some(s')
    ensures s'.workers == s.workers[w := Polling(s.ticket % |s.queues|)]
    ensures s'.ticket == s.ticket + 1 && s'.queues == s.queues
  {
    s' := Next(s, Claim(w)).value;
    OneStep(Next, s, Claim(w), s');
  }

  // ----- What the stop flag found -----

  lemma EarlyStays(s: State, a: Action)
    requires Enabled(s, a) && !s.stopPc.WaitingForIdle?
    ensures Next(s, a).value.early == s.early && !Next(s, a).value.stopPc.WaitingForIdle?
  {}

  /** `early` counts the tasks that had been pushed when `stop` raised the flag; they head the log ever after. */
  lemma EarlyIsWhatStopFound(s0: State, before: seq<Action>, s1: State, after: seq<Action>, s: State, q: nat)
    requires Init(s0) && Exec(Next, s0, before) == Some(s1) && q < |s1.queues|
    requires Exec(Next, s1, [SetStop] + after) == Some(s)
    ensures |s.queues| == |s.early| == |s1.queues|
    ensures s.early[q] == |s1.queues[q].pushed| && s1.queues[q].pushed <= s.queues[q].pushed
  {
    ReachableInv(s0, before, s1);
    var s2 := Stops(s1, after, s);
    LaterRun(s2, after, s);
  }

  lemma Stops(s1: State, after: seq<Action>, s: State) returns (s2: State)
    requires Inv(s1) && Exec(Next, s1, [SetStop] + after) == Some(s)
    ensures Inv(s2) && !s2.stopPc.WaitingForIdle? && Exec(Next, s2, after) == Some(s)
    ensures s2.queues == s1.queues && |s2.early| == |s1.queues|
    ensures forall q :: 0 <= q < |s1.queues| ==> s2.early[q] == |s1.queues[q].pushed|
  {
    assert ([SetStop] + after)[1..] == after;
    StepInv(s1, SetStop);
    s2 := Next(s1, SetStop).value;
  }

  lemma LaterRun(s2: State, after: seq<Action>, s: State)
    requires Inv(s2) && !s2.stopPc.WaitingForIdle? && Exec(Next, s2, after) == Some(s)
    ensures Later(s2, s)
  {
    assert Later(s2, s2);
    forall m, a | Later(s2, m) && Next(m, a).Some? ensures Later(s2, Next(m, a).value) { LaterStep(s2, m, a); }
    Invariance(Next, m => Later(s2, m), s2, after);
  }

  ghost predicate Later(s: State, m: State) {
    && Inv(m) && |m.queues| == |s.queues| && !m.stopPc.WaitingForIdle? && m.early == s.early
    && forall q: nat :: q < |s.queues| ==> s.queues[q].pushed <= m.queues[q].pushed
  }

  lemma LaterStep(s: State, m: State, a: Action)
    requires Later(s, m) && Enabled(m, a)
    ensures Later(s, Next(m, a).value)
  {
    StepInv(m, a);
    EarlyStays(m, a);
    ShapeStep(m, a);
    forall q: nat | q < |s.queues| ensures s.queues[q].pushed <= Next(m, a).value.queues[q].pushed {
      PushedGrows(m, a, q);
    }
  }

  // ----- Every request -----

  /** This action brings the task `job` to the scheduler. */
  function Asks(a: Action, job: Job): int {
    if (a.Accept? && job == Func(a.id)) || (a.AimCoro? && job == Coro(a.id)) then 1 else 0
  }

  /** Accepted, and not yet placed. */
  function Holds(p: Producer, job: Job): int {
    if (p.Accepted? || p.Counted?) && p.job == job then 1 else 0
  }

  function PlacedHere(q: Queue, job: Job): int { Count(q.placed, job) }

  /** Placed at a queue, and not yet pushed or dropped. */
  function Aims(p: Producer, at: Lost): int {
    if (p.Aimed? || p.Ready?) && p.job == at.job && p.q == at.q then 1 else 0
  }

  ghost function Known(s: State, job: Job): int { Tally(Holds, s.producers, job) + Tally(PlacedHere, s.queues, job) }

  /** Whatever was placed at a queue was pushed there, was dropped there, or is on its way there. */
  ghost predicate ComesHere(s: State, q: nat, job: Job)
    requires q < |s.queues|
  {
    Count(s.queues[q].placed, job)
    == Count(s.queues[q].pushed, job) + Tally(Aims, s.producers, Lost(job, q)) + Count(s.overflowed, Lost(job, q))
  }

  predicate Produces(a: Action) {
    a.Accept? || a.Bump? || a.Aim? || a.AimCoro? || a.CheckSize? || a.Push? || a.Notify?
  }

  predicate Places(a: Action) { a.Aim? || a.AimCoro? }

  /** The two logs of a queue change when a task is placed there or pushed there, and at no other step. */
  lemma LogsOfStep(s: State, a: Action, q: nat)
    requires ShapeOk(s) && Enabled(s, a) && q < |s.queues|
    ensures |Next(s, a).value.queues| == |s.queues|
    ensures !Places(a) ==> Next(s, a).value.queues[q].placed == s.queues[q].placed
    ensures !a.Push? ==> Next(s, a).value.queues[q].pushed == s.queues[q].pushed
    ensures !a.CheckSize? ==> Next(s, a).value.overflowed == s.overflowed
    ensures !Produces(a) ==> Next(s, a).value.producers == s.producers
  {}

  lemma {:induction false} SamePlaced(xs: seq<Queue>, ys: seq<Queue>, job: Job)
    requires |xs| == |ys| && forall q :: 0 <= q < |xs| ==> xs[q].placed == ys[q].placed
    ensures Tally(PlacedHere, xs, job) == Tally(PlacedHere, ys, job)
  {
    if xs != [] { SamePlaced(xs[1..], ys[1..], job); }
  }

  function WhatIsPlaced(s: State, a: Action): Job
    requires Enabled(s, a) && Places(a)
  {
    if a.Aim? then s.producers[a.p].job else Coro(a.id)
  }

  lemma PlacedWhenPlaced(s: State, a: Action, job: Job)
    requires ShapeOk(s) && Enabled(s, a) && Places(a)
    ensures Tally(PlacedHere, Next(s, a).value.queues, job)
         == Tally(PlacedHere, s.queues, job) + Same(WhatIsPlaced(s, a), job)
  {
    var q, what := s.next % |s.queues|, WhatIsPlaced(s, a);
    TallyUpdate(PlacedHere, s.queues, q, Placed(s.queues[q], what), job);
    TallyAppend(Same<Job>, s.queues[q].placed, [what], job);
  }

  lemma HeldWhenPlaced(s: State, a: Action, job: Job)
    requires ShapeOk(s) && Enabled(s, a) && Places(a)
    ensures Tally(Holds, Next(s, a).value.producers, job) + Same(WhatIsPlaced(s, a), job)
         == Tally(Holds, s.producers, job) + Asks(a, job)
  {
    TallyUpdate(Holds, s.producers, a.p, Next(s, a).value.producers[a.p], job);
  }

  lemma KnownStep(s: State, a: Action, job: Job)
    requires ShapeOk(s) && Enabled(s, a)
    ensures Known(Next(s, a).value, job) == Known(s, job) + Asks(a, job)
  {
    var s' := Next(s, a).value;
    if Places(a) {
      PlacedWhenPlaced(s, a, job);
      HeldWhenPlaced(s, a, job);
    } else {
      forall q: nat | q < |s.queues| ensures |s'.queues| == |s.queues| && s'.queues[q].placed == s.queues[q].placed {
        LogsOfStep(s, a, q);
      }
      ShapeStep(s, a);
      SamePlaced(s.queues, s'.queues, job);
      HeldStep(s, a, job);
    }
  }

  lemma HeldStep(s: State, a: Action, job: Job)
    requires ShapeOk(s) && Enabled(s, a) && !Places(a)
    ensures Tally(Holds, Next(s, a).value.producers, job) == Tally(Holds, s.producers, job) + Asks(a, job)
  {
    if Produces(a) {
      TallyUpdate(Holds, s.producers, a.p, Next(s, a).value.producers[a.p], job);
    } else {
      LogsOfStep(s, a, 0);
    }
  }

  lemma ComesWhenPlaced(s: State, a: Action, q: nat, job: Job)
    requires ShapeOk(s) && Enabled(s, a) && Places(a) && q < |s.queues| && ComesHere(s, q, job)
    ensures ComesHere(Next(s, a).value, q, job)
  {
    LogsOfStep(s, a, q);
    var what := WhatIsPlaced(s, a);
    TallyUpdate(Aims, s.producers, a.p, Next(s, a).value.producers[a.p], Lost(job, q));
    TallyAppend(Same<Job>, s.queues[q].placed, [what], job);
  }

  lemma ComesWhenPushed(s: State, p: nat, q: nat, job: Job)
    requires ShapeOk(s) && Enabled(s, Push(p)) && q < |s.queues| && ComesHere(s, q, job)
    ensures ComesHere(Next(s, Push(p)).value, q, job)
  {
    LogsOfStep(s, Push(p), q);
    TallyUpdate(Aims, s.producers, p, Next(s, Push(p)).value.producers[p], Lost(job, q));
    TallyAppend(Same<Job>, s.queues[q].pushed, [s.producers[p].job], job);
  }

  lemma ComesWhenChecked(s: State, p: nat, q: nat, job: Job)
    requires ShapeOk(s) && Enabled(s, CheckSize(p)) && q < |s.queues| && ComesHere(s, q, job)
    ensures ComesHere(Next(s, CheckSize(p)).value, q, job)
  {
    LogsOfStep(s, CheckSize(p), q);
    TallyUpdate(Aims, s.producers, p, Next(s, CheckSize(p)).value.producers[p], Lost(job, q));
    TallyAppend(Same<Lost>, s.overflowed, [Lost(s.producers[p].job, s.producers[p].q)], Lost(job, q));
  }

  lemma ComesStep(s: State, a: Action, q: nat, job: Job)
    requires ShapeOk(s) && Enabled(s, a) && q < |s.queues| && ComesHere(s, q, job)
    ensures |Next(s, a).value.queues| == |s.queues| && ComesHere(Next(s, a).value, q, job)
  {
    LogsOfStep(s, a, q);
    if Places(a) {
      ComesWhenPlaced(s, a, q, job);
    } else if a.Push? {
      ComesWhenPushed(s, a.p, q, job);
    } else if a.CheckSize? {
      ComesWhenChecked(s, a.p, q, job);
    } else if Produces(a) {
      TallyUpdate(Aims, s.producers, a.p, Next(s, a).value.producers[a.p], Lost(job, q));
    }
  }

  lemma {:induction false} KnownAfter(s: State, run: seq<Action>, e: State, job: Job)
    requires ShapeOk(s) && Exec(Next, s, run) == Some(e)
    ensures Known(e, job) == Known(s, job) + Tally(Asks, run, job)
    decreases |run|
  {
    if run != [] {
      KnownStep(s, run[0], job);
      ShapeStep(s, run[0]);
      KnownAfter(Next(s, run[0]).value, run[1..], e, job);
    }
  }

  /**
   * No task is lost, doubled, or changed on its way: what a run asked for is still with a producer, or was placed;
   * what was placed at a queue is on its way there, was pushed there, or was dropped there by the size check.
   */
  lemma EveryRequestIsPlaced(s0: State, run: seq<Action>, s: State, q: nat, job: Job)
    requires Init(s0) && Exec(Next, s0, run) == Some(s) && q < |s.queues|
    ensures Tally(Asks, run, job) == Tally(Holds, s.producers, job) + Tally(PlacedHere, s.queues, job)
    ensures Count(s.queues[q].placed, job)
         == Count(s.queues[q].pushed, job) + Tally(Aims, s.producers, Lost(job, q)) + Count(s.overflowed, Lost(job, q))
  {
    InitInv(s0);
    KnownAfter(s0, run, s, job);
    TallyZero(Holds, s0.producers, job);
    TallyZero(PlacedHere, s0.queues, job);
    StartsWithNothing(s0, job);
    forall s, a | ShapeOk(s) && AllCome(s, job) && Next(s, a).Some?
      ensures ShapeOk(Next(s, a).value) && AllCome(Next(s, a).value, job)
    {
      ShapeStep(s, a);
      AllComeStep(s, a, job);
    }
    Invariance(Next, s => ShapeOk(s) && AllCome(s, job), s0, run);
    assert ComesHere(s, q, job);
  }

  ghost predicate AllCome(s: State, job: Job) { forall q: nat :: q < |s.queues| ==> ComesHere(s, q, job) }

  lemma StartsWithNothing(s0: State, job: Job)
    requires Init(s0)
    ensures AllCome(s0, job)
  {
    forall q: nat | q < |s0.queues| ensures ComesHere(s0, q, job) {
      TallyZero(Aims, s0.producers, Lost(job, q));
    }
  }

  lemma AllComeStep(s: State, a: Action, job: Job)
    requires ShapeOk(s) && AllCome(s, job) && Enabled(s, a)
    ensures AllCome(Next(s, a).value, job)
  {
    ShapeStep(s, a);
    forall q: nat | q < |Next(s, a).value.queues| ensures ComesHere(Next(s, a).value, q, job) {
      ComesStep(s, a, q, job);
    }
  }
}
