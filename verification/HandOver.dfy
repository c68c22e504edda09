/**
 * Where the right to resume a coroutine goes at each step: what wakes a sleeper, an awaiter, the waiter of an event,
 * and what a scheduler does with it. `Destination` says it place by place, apart from how the steps are written.
 */
module HandOver {
  import opened Wrappers
  import opened Runs
  import opened Folds
  import opened Seqs
  import opened S = SingleResume

  /** What taking out element `i` does to the index of another one. */
  function Closed(j: nat, i: nat): nat { if j > i then j - 1 else j }

  /** The place where the right that is at `p` is after the step. */
  function Destination(s: State, a: Action, p: Place): Place
    requires Enabled(s, a)
  {
    match a
    case Finish(t, _) => if p == BehindChild(s.threads[t].c) then OnThread(t) else p
    case Complete(t, k, _) => if p == BehindAsync(k) then OnThread(t) else p
    case Fire(t, i, _) =>
      if p == InHeap(i) then OnThread(t) else if p.InHeap? then InHeap(Closed(p.i, i)) else p
    case Deliver(t, i) => if p == InSlot(i) then OnThread(t) else p
    case RunSpawned(t, i) =>
      if p == InSpawned(i) then OnThread(t) else if p.InSpawned? then InSpawned(Closed(p.i, i)) else p
    case Pop(t, q) =>
      if p == InQueue(q, 0) then OnThread(t) else if p.InQueue? && p.q == q then InQueue(q, Closed(p.i, 0)) else p
    case Sleep(t) => if p == OnThread(t) then InHeap(|s.heap|) else p
    case Await(t, i) => if p == OnThread(t) then InSlot(i) else p
    case AwaitTask(t, c) => if p == OnThread(t) then BehindChild(c) else p
    case Register(t) =>
      if p == OnThread(t) && !s.asyncs[s.threads[t].k].completed then BehindAsync(s.threads[t].k) else p
    case PostPush(t, q) => if p == OnThread(t) then InQueue(q, |s.queues[q]|) else p
    case PostDrop(t, _) => if p == OnThread(t) then InDropped(|s.dropped|) else p
    case PostSpawn(t) => if p == OnThread(t) then InSpawned(|s.spawned|) else p
    case Discard(q) => if p.InQueue? && p.q == q then InDropped(|s.dropped| + p.i) else p
    case _ => p
  }

  predicate Wakes(a: Action) { a.Finish? || a.Complete? || a.Fire? || a.Deliver? || a.RunSpawned? || a.Pop? }

  predicate Suspends(a: Action) { a.Sleep? || a.Await? || a.AwaitTask? || a.Register? || a.AskAsync? || a.Yield? }

  /** The flag of the key stays as it is. */
  lemma SameKey(s: State, a: Action, h: nat)
    requires Enabled(s, a) && !Finishes(s, a, h)
    ensures KeyOf(Next(s, a).value, h) == KeyOf(s, h)
  {
    FinishedStays(s, a, h);
  }

  lemma WithoutAt<T>(xs: seq<T>, i: nat, j: nat)
    requires i < |xs| && j < |xs| && i != j
    ensures Closed(j, i) < |Without(xs, i)| && Without(xs, i)[Closed(j, i)] == xs[j]
  {}

  lemma WakingMoves(s: State, a: Action, h: nat, p: Place)
    requires Inv(s) && Enabled(s, a) && Disciplined(s, a) && (a.Finish? || a.Complete? || a.Deliver?)
    requires At(s, h, p) && !Finishes(s, a, h)
    ensures At(Next(s, a).value, h, Destination(s, a, p))
  {
    SameKey(s, a, h);
    if a.Finish? { OnThreadIsLive(s, a.t, s.threads[a.t].c); }
  }

  lemma FireMoves(s: State, t: nat, i: nat, direct: bool, h: nat, p: Place)
    requires Inv(s) && Enabled(s, Fire(t, i, direct)) && At(s, h, p)
    ensures At(Next(s, Fire(t, i, direct)).value, h, Destination(s, Fire(t, i, direct), p))
  {
    SameKey(s, Fire(t, i, direct), h);
    if p.InHeap? && p.i != i { WithoutAt(s.heap, i, p.i); }
  }

  lemma RunSpawnedMoves(s: State, t: nat, i: nat, h: nat, p: Place)
    requires Inv(s) && Enabled(s, RunSpawned(t, i)) && At(s, h, p)
    ensures At(Next(s, RunSpawned(t, i)).value, h, Destination(s, RunSpawned(t, i), p))
  {
    SameKey(s, RunSpawned(t, i), h);
    if p.InSpawned? && p.i != i { WithoutAt(s.spawned, i, p.i); }
  }

  lemma PopMoves(s: State, t: nat, q: nat, h: nat, p: Place)
    requires Inv(s) && Enabled(s, Pop(t, q)) && At(s, h, p)
    ensures At(Next(s, Pop(t, q)).value, h, Destination(s, Pop(t, q), p))
  {
    SameKey(s, Pop(t, q), h);
  }

  lemma TakingMoves(s: State, a: Action, h: nat, p: Place)
    requires Inv(s) && Enabled(s, a) && (a.Fire? || a.RunSpawned? || a.Pop?) && At(s, h, p)
    ensures At(Next(s, a).value, h, Destination(s, a, p))
  {
    match a {
      case Fire(t, i, direct) => FireMoves(s, t, i, direct, h, p);
      case RunSpawned(t, i) => RunSpawnedMoves(s, t, i, h, p);
      case Pop(t, q) => PopMoves(s, t, q, h, p);
    }
  }

  lemma SuspendingMoves(s: State, a: Action, h: nat, p: Place)
    requires Inv(s) && Enabled(s, a) && Disciplined(s, a) && Suspends(a) && At(s, h, p)
    ensures At(Next(s, a).value, h, Destination(s, a, p))
  {
    SameKey(s, a, h);
  }

  lemma OtherMoves(s: State, a: Action, h: nat, p: Place)
    requires Inv(s) && Enabled(s, a) && Disciplined(s, a) && !Wakes(a) && !Suspends(a) && At(s, h, p)
    ensures At(Next(s, a).value, h, Destination(s, a, p))
  {
    SameKey(s, a, h);
  }

  /**
   * A disciplined step takes every right to its destination, and to no other place; only the coroutine that it
   * finishes is held nowhere afterwards.
   */
  lemma RightMoves(s: State, a: Action, h: nat, p: Place)
    requires Inv(s) && Enabled(s, a) && Disciplined(s, a) && At(s, h, p)
    ensures var s' := Next(s, a).value;
      if Finishes(s, a, h) then forall r :: !At(s', h, r)
      else forall r :: At(s', h, r) <==> r == Destination(s, a, p)
  {
    var s' := Next(s, a).value;
    DisciplinedStep(s, a);
    LiveIffInOnePlace(s', h);
    if Finishes(s, a, h) {
      LivesAfter(s, a, h);
    } else if a.Finish? || a.Complete? || a.Deliver? {
      WakingMoves(s, a, h, p);
    } else if Wakes(a) {
      TakingMoves(s, a, h, p);
    } else if Suspends(a) {
      SuspendingMoves(s, a, h, p);
    } else {
      OtherMoves(s, a, h, p);
    }
  }

  /** A submitted task comes to the back of the queue it was submitted to, an awaited child to the awaiting thread. */
  lemma NewRight(s: State, a: Action)
    requires Inv(s) && Enabled(s, a) && Disciplined(s, a) && (a.Submit? || a.AwaitTask?)
    requires !IsFinished(s, a.c)
    ensures var p := if a.Submit? then InQueue(a.q, |s.queues[a.q]|) else OnThread(a.t);
      forall r :: At(Next(s, a).value, a.c, r) <==> r == p
  {
    DisciplinedStep(s, a);
    LiveIffInOnePlace(Next(s, a).value, a.c);
    SameKey(s, a, a.c);
    var p := if a.Submit? then InQueue(a.q, |s.queues[a.q]|) else OnThread(a.t);
    assert At(Next(s, a).value, a.c, p);
  }

  /** Who is woken runs at once, or is on its way to a scheduler. */
  predicate GoesOn(pc: Pc, h: nat) { pc == Running(h) || pc == Posting(Plain(h)) }

  /**
   * Whoever waits where the step happens goes on: an awaiter when its child or its AsyncTask is done, a sleeper when
   * its timer fires, a waiter when its event comes, a queued or spawned closure when a thread takes it.
   */
  lemma WaiterGoesOn(s: State, a: Action, h: nat)
    requires Inv(s) && Enabled(s, a) && Disciplined(s, a) && Wakes(a)
    requires match a
             case Finish(t, _) => At(s, h, BehindChild(s.threads[t].c))
             case Complete(t, k, _) => At(s, h, BehindAsync(k))
             case Fire(t, i, _) => At(s, h, InHeap(i))
             case Deliver(t, i) => At(s, h, InSlot(i))
             case RunSpawned(t, i) => At(s, h, InSpawned(i))
             case Pop(t, q) => At(s, h, InQueue(q, 0))
             case _ => false
    ensures GoesOn(Next(s, a).value.threads[a.t], h)
    ensures a.Deliver? || a.RunSpawned? || a.Pop? ==> Next(s, a).value.threads[a.t] == Running(h)
    ensures a.Finish? || a.Fire? ==> (Next(s, a).value.threads[a.t] == Running(h) <==> a.direct)
  {
    if a.Finish? {
      OnThreadIsLive(s, a.t, s.threads[a.t].c);
    }
  }

  /** An idle thread can run whoever heads a queue, was spawned, sleeps until now or has its event. */
  lemma IdleThreadCanRun(s: State, t: nat, h: nat, p: Place) returns (a: Action)
    requires Inv(s) && |s.closed| == |s.queues| && IsIdle(s, t) && At(s, h, p)
    requires (p.InQueue? && p.i == 0) || p.InSpawned? || p.InHeap? || p.InSlot?
    ensures Enabled(s, a) && Disciplined(s, a) && Next(s, a).value.threads[t] == Running(h)
  {
    match p {
      case InQueue(q, _) => a := Pop(t, q);
      case InSpawned(i) => a := RunSpawned(t, i);
      case InHeap(i) => a := Fire(t, i, true);
      case InSlot(i) => a := Deliver(t, i);
    }
  }

  /** Whoever suspends is off its thread: handed on, or the thread goes on with something else or with nothing. */
  lemma SuspendedIsOffItsThread(s: State, a: Action)
    requires Enabled(s, a) && (a.Yield? || a.Sleep? || a.Await? || a.AwaitTask? || a.Register?)
    requires s.threads[a.t].Running? || s.threads[a.t].Registering?
    ensures var c, pc := s.threads[a.t].c, Next(s, a).value.threads[a.t];
      && (a.Yield? ==> pc == Posting(Plain(c)))
      && (a.Sleep? || a.Await? ==> pc == Idle)
      && (a.AwaitTask? ==> pc == Posting(Guarded(a.c)) && a.c != c)
      && (a.Register? ==> pc == if s.asyncs[s.threads[a.t].k].completed then Posting(Plain(c)) else Idle)
  {}

  // ----- The flags -----

  predicate CompletedIn(run: seq<Action>, k: nat) { exists i :: 0 <= i < |run| && run[i].Complete? && run[i].k == k }

  /** Which schedulers are stopped and which AsyncTasks are done: those that the run closed or completed. */
  ghost predicate FlagsFollow(s0: State, s: State, run: seq<Action>) {
    && |s.closed| == |s0.closed| && |s.asyncs| == |s0.asyncs|
    && (forall q: nat :: q < |s.closed| ==> (s.closed[q] <==> s0.closed[q] || Close(q) in run))
    && (forall k: nat :: k < |s.asyncs| ==> (s.asyncs[k].completed <==> s0.asyncs[k].completed || CompletedIn(run, k)))
  }

  lemma FlagsOfStep(s: State, a: Action)
    requires Enabled(s, a)
    ensures var s' := Next(s, a).value;
      && |s'.closed| == |s.closed| && |s'.asyncs| == |s.asyncs|
      && (forall q: nat :: q < |s.closed| ==> (s'.closed[q] <==> s.closed[q] || a == Close(q)))
      && (forall k: nat :: k < |s.asyncs| ==>
            (s'.asyncs[k].completed <==> s.asyncs[k].completed || (a.Complete? && a.k == k)))
  {}

  lemma CompletedInMore(run: seq<Action>, a: Action, k: nat)
    ensures CompletedIn(run + [a], k) <==> CompletedIn(run, k) || (a.Complete? && a.k == k)
  {
    var more := run + [a];
    assert more[|run|] == a && forall i :: 0 <= i < |run| ==> more[i] == run[i];
  }

  lemma FlagsStep(s0: State, s: State, run: seq<Action>, a: Action)
    requires FlagsFollow(s0, s, run) && Enabled(s, a)
    ensures FlagsFollow(s0, Next(s, a).value, run + [a])
  {
    FlagsOfStep(s, a);
    forall k: nat { CompletedInMore(run, a, k); }
  }

  lemma FlagsAreTheRuns(s0: State, run: seq<Action>, s: State)
    requires Exec(Next, s0, run) == Some(s)
    ensures FlagsFollow(s0, s, run)
  {
    var inv := (s: State, r: seq<Action>) => FlagsFollow(s0, s, r);
    assert inv(s0, []);
    forall s: State, r, a | inv(s, r) && Next(s, a).Some? ensures inv(Next(s, a).value, r + [a]) {
      FlagsStep(s0, s, r, a);
    }
    Along(Next, inv, s0, [], run);
    assert [] + run == run;
  }

  // ----- Dropping -----

  /** The two ways to lose a coroutine: a stopped or full scheduler, and the final cleanup of a stopped one. */
  predicate Drops(s: State, a: Action)
    requires Enabled(s, a)
  {
    || (a.PostDrop? && (s.closed[a.q] || |s.queues[a.q]| >= s.maxQueue))
    || (a.Discard? && s.closed[a.q])
  }

  /** Only these bring a right among the dropped. */
  lemma DroppedOnlyBy(s: State, a: Action, h: nat, p: Place)
    requires Inv(s) && Enabled(s, a) && Disciplined(s, a) && At(s, h, p) && !p.InDropped? && !Finishes(s, a, h)
    ensures (exists r :: At(Next(s, a).value, h, r) && r.InDropped?) ==> Drops(s, a)
  {
    RightMoves(s, a, h, p);
  }

  predicate NoDrop(run: seq<Action>) { forall k :: 0 <= k < |run| ==> !run[k].PostDrop? && !run[k].Discard? }

  lemma {:induction false} NothingDropped(s: State, run: seq<Action>, e: State)
    requires NoDrop(run) && Exec(NextDisciplined, s, run) == Some(e)
    ensures e.dropped == s.dropped
    decreases |run|
  {
    if run != [] {
      var s1 := NextDisciplined(s, run[0]).value;
      DroppedFrame(s, run[0]);
      assert forall k :: 0 <= k < |run| - 1 ==> run[1..][k] == run[k + 1];
      NothingDropped(s1, run[1..], e);
    }
  }

  lemma DroppedFrame(s: State, a: Action)
    requires Enabled(s, a) && !a.PostDrop? && !a.Discard?
    ensures Next(s, a).value.dropped == s.dropped
  {}

  /** After a disciplined run in which nothing stopped or full drops anything, no live coroutine is lost. */
  lemma NobodyIsLost(s0: State, run: seq<Action>, s: State, h: nat)
    requires Init(s0) && Exec(NextDisciplined, s0, run) == Some(s) && NoDrop(run) && IsLive(s, h)
    ensures exists p :: At(s, h, p) && !p.InDropped?
  {
    NothingDropped(s0, run, s);
    SingleResume(s0, run, s, h);
  }
}
