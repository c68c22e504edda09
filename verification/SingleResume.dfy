/**
 * The composed life of coroutines: submitted to a scheduler, yielding, sleeping, awaiting a child
 * `Task`, an `AsyncTask` or an IO event, finishing and waking their awaiter, dropped by a full or stopped scheduler.
 * A coroutine may be resumed by whoever holds a right to resume it; the theorem counts the rights.
 */
module SingleResume {
  import opened Wrappers
  import opened Runs
  import opened Folds
  import opened Seqs
  import A = AsyncTask

  datatype Life = Created | Live | Finished

  /** A coroutine and the `continuation_` stored in its promise. */
  datatype Co = Co(life: Life, continuation: Option<nat>)

  /** A queued closure; a guarded one tests `done()` before it resumes. */
  datatype Closure = Guarded(h: nat) | Plain(h: nat)

  datatype Pc =
    | Idle
    | Running(c: nat)
    | Posting(closure: Closure)        // between taking a handle and handing it to a scheduler
    | Registering(c: nat, k: nat)      // inside AsyncTask::await_suspend, not yet under the mutex

  datatype State = State(
    cos: seq<Co>,
    asyncs: seq<A.Shared>,
    threads: seq<Pc>,
    queues: seq<seq<Closure>>,
    closed: seq<bool>,                 // stop flag of the scheduler that owns each queue
    maxQueue: nat,
    spawned: seq<Closure>,             // detached threads not yet running
    heap: seq<nat>,                    // handles in the timer queue
    slots: seq<Option<nat>>,           // for each IO thread, descriptor and direction, the handle that waits
    dropped: seq<Closure>)             // lost to a stop flag, a full queue or the final cleanup

  datatype Action =
    | Submit(c: nat, q: nat)           // schedule(Task&&)
    | Yield(t: nat)
    | Sleep(t: nat)
    | Fire(t: nat, i: nat, direct: bool)
    | AwaitTask(t: nat, c: nat)
    | AskAsync(t: nat, k: nat)
    | Register(t: nat)
    | Complete(t: nat, k: nat, what: A.Completion)
    | Await(t: nat, i: nat)            // add_event for slot i
    | Deliver(t: nat, i: nat)          // an IO thread resumes who waits in slot i
    | Delete(i: nat)                   // del_event for slot i
    | Finish(t: nat, direct: bool)
    | PostPush(t: nat, q: nat)
    | PostDrop(t: nat, q: nat)
    | PostSpawn(t: nat)
    | RunSpawned(t: nat, i: nat)
    | Pop(t: nat, q: nat)
    | Close(q: nat)
    | Discard(q: nat)

  predicate IsIdle(s: State, t: nat) { t < |s.threads| && s.threads[t].Idle? }
  predicate IsRunning(s: State, t: nat) { t < |s.threads| && s.threads[t].Running? && s.threads[t].c < |s.cos| }
  predicate Posts(s: State, t: nat) { t < |s.threads| && s.threads[t].Posting? }

  predicate Enabled(s: State, a: Action) {
    |s.closed| == |s.queues| &&
    match a
    case Submit(c, q) => c < |s.cos| && q < |s.queues|
    case Yield(t) => IsRunning(s, t)
    case Sleep(t) => IsRunning(s, t)
    case Fire(t, i, _) => IsIdle(s, t) && i < |s.heap|
    case AwaitTask(t, c) => IsRunning(s, t) && c < |s.cos| && c != s.threads[t].c && !s.cos[c].life.Finished?
    case AskAsync(t, k) => IsRunning(s, t) && k < |s.asyncs| && !s.asyncs[k].completed
    case Register(t) => t < |s.threads| && s.threads[t].Registering? && s.threads[t].k < |s.asyncs|
    case Complete(t, k, _) => IsIdle(s, t) && k < |s.asyncs|
    case Await(t, i) => IsRunning(s, t) && i < |s.slots|
    case Deliver(t, i) => IsIdle(s, t) && i < |s.slots| && s.slots[i].Some?
    case Delete(i) => i < |s.slots|
    case Finish(t, _) => IsRunning(s, t)
    case PostPush(t, q) => Posts(s, t) && q < |s.queues|
    case PostDrop(t, q) => Posts(s, t) && q < |s.queues| && (s.closed[q] || |s.queues[q]| >= s.maxQueue)
    case PostSpawn(t) => Posts(s, t)
    case RunSpawned(t, i) => IsIdle(s, t) && i < |s.spawned|
    case Pop(t, q) => IsIdle(s, t) && q < |s.queues| && s.queues[q] != []
    case Close(q) => q < |s.queues|
    case Discard(q) => q < |s.queues| && s.closed[q]
  }

  predicate IsFinished(s: State, h: nat) { h < |s.cos| && s.cos[h].life.Finished? }

  /** What a thread does with a closure: a guarded one skips a finished coroutine. */
  function Execute(s: State, cl: Closure): Pc {
    if cl.Guarded? && IsFinished(s, cl.h) then Idle else Running(cl.h)
  }

  /** Where a woken handle goes next. */
  function Wake(h: Option<nat>, direct: bool): Pc {
    match h
    case None => Idle
    case Some(k) => if direct then Running(k) else Posting(Plain(k))
  }

  function Next(s: State, a: Action): Option<State> {
    if !Enabled(s, a) then None
    else Some(match a
      case Submit(c, q) =>
        s.(cos := s.cos[c := s.cos[c].(life := if s.cos[c].life.Created? then Live else s.cos[c].life)],
           queues := s.queues[q := s.queues[q] + [Guarded(c)]])
      case Yield(t) => s.(threads := s.threads[t := Posting(Plain(s.threads[t].c))])
      case Sleep(t) => s.(threads := s.threads[t := Idle], heap := s.heap + [s.threads[t].c])
      case Fire(t, i, direct) =>
        s.(threads := s.threads[t := Wake(Some(s.heap[i]), direct)], heap := Without(s.heap, i))
      case AwaitTask(t, c) =>
        s.(cos := s.cos[c := Co(Live, Some(s.threads[t].c))],
           threads := s.threads[t := Posting(Guarded(c))])
      case AskAsync(t, k) => s.(threads := s.threads[t := Registering(s.threads[t].c, k)])
      case Register(t) =>
        var pc := s.threads[t];
        if s.asyncs[pc.k].completed then s.(threads := s.threads[t := Posting(Plain(pc.c))])
        else s.(threads := s.threads[t := Idle],
                asyncs := s.asyncs[pc.k := A.Registered(s.asyncs[pc.k], pc.c, None)])
      case Complete(t, k, what) =>
        s.(threads := s.threads[t := Wake(s.asyncs[k].continuation, false)],
           asyncs := s.asyncs[k := A.Completed(s.asyncs[k], what)])
      case Await(t, i) =>
        s.(threads := s.threads[t := Idle], slots := s.slots[i := Some(s.threads[t].c)])
      case Deliver(t, i) =>
        s.(threads := s.threads[t := Running(s.slots[i].value)], slots := s.slots[i := None])
      case Delete(i) => s.(slots := s.slots[i := None])
      case Finish(t, direct) =>
        var c := s.threads[t].c;
        s.(cos := s.cos[c := s.cos[c].(life := Finished)],
           threads := s.threads[t := Wake(s.cos[c].continuation, direct)])
      case PostPush(t, q) =>
        s.(threads := s.threads[t := Idle], queues := s.queues[q := s.queues[q] + [s.threads[t].closure]])
      case PostDrop(t, q) =>
        s.(threads := s.threads[t := Idle], dropped := s.dropped + [s.threads[t].closure])
      case PostSpawn(t) =>
        s.(threads := s.threads[t := Idle], spawned := s.spawned + [s.threads[t].closure])
      case RunSpawned(t, i) =>
        s.(threads := s.threads[t := Execute(s, s.spawned[i])], spawned := Without(s.spawned, i))
      case Pop(t, q) =>
        s.(threads := s.threads[t := Execute(s, s.queues[q][0])], queues := s.queues[q := s.queues[q][1..]])
      case Close(q) => s.(closed := s.closed[q := true])
      case Discard(q) => s.(queues := s.queues[q := []], dropped := s.dropped + s.queues[q]))
  }

  // ----- Counting the rights to resume one coroutine -----

  /** A coroutine, taken as finished or not: a guarded closure is no right to resume a finished one. */
  datatype Key = Key(h: nat, finished: bool)

  function KeyOf(s: State, h: nat): Key { Key(h, IsFinished(s, h)) }

  function CoHolds(co: Co, h: nat): int {
    if !co.life.Finished? && co.continuation == Some(h) then 1 else 0
  }

  function AsyncHolds(sh: A.Shared, h: nat): int { A.HeldBy(sh.continuation, h) }

  function SlotHolds(slot: Option<nat>, h: nat): int { A.HeldBy(slot, h) }

  function Resumes(cl: Closure, k: Key): int { if cl.h == k.h && !(cl.Guarded? && k.finished) then 1 else 0 }

  function ThreadHolds(pc: Pc, k: Key): int {
    match pc
    case Idle => 0
    case Running(c) => Same(c, k.h)
    case Posting(cl) => Resumes(cl, k)
    case Registering(c, _) => Same(c, k.h)
  }

  function QueueHolds(q: seq<Closure>, k: Key): int { Tally(Resumes, q, k) }

  function RightsAs(s: State, k: Key): int {
    Tally(CoHolds, s.cos, k.h) + Tally(AsyncHolds, s.asyncs, k.h) + Tally(ThreadHolds, s.threads, k)
    + Tally(QueueHolds, s.queues, k) + Tally(Resumes, s.spawned, k) + Count(s.heap, k.h) + Tally(Resumes, s.dropped, k)
    + Tally(SlotHolds, s.slots, k.h)
  }

  /** In how many ways a coroutine can be resumed. */
  function Rights(s: State, h: nat): int { RightsAs(s, KeyOf(s, h)) }

  /** Those of them that expire when it finishes. */
  function Guards(s: State, h: nat): int { RightsAs(s, Key(h, false)) - RightsAs(s, Key(h, true)) }

  /** Rights that an action creates and destroys; every other action only moves rights about. */
  function Gained(s: State, a: Action, k: Key): int
    requires Enabled(s, a)
  {
    match a
    case Submit(c, _) => Resumes(Guarded(c), k)
    case AwaitTask(_, c) => Resumes(Guarded(c), k)
    case Finish(t, _) =>
      var co := s.cos[s.threads[t].c];
      if co.life.Finished? then A.HeldBy(co.continuation, k.h) else 0
    case _ => 0
  }

  function Lost(s: State, a: Action, k: Key): int
    requires Enabled(s, a)
  {
    match a
    case AwaitTask(t, c) => A.HeldBy(s.cos[c].continuation, k.h)
    case Register(t) =>
      if s.asyncs[s.threads[t].k].completed then 0 else AsyncHolds(s.asyncs[s.threads[t].k], k.h)
    case Await(_, i) => SlotHolds(s.slots[i], k.h)
    case Delete(i) => SlotHolds(s.slots[i], k.h)
    case Finish(t, _) => Same(s.threads[t].c, k.h)
    case RunSpawned(t, i) => if Execute(s, s.spawned[i]).Idle? then Resumes(s.spawned[i], k) else 0
    case Pop(t, q) => if Execute(s, s.queues[q][0]).Idle? then Resumes(s.queues[q][0], k) else 0
    case _ => 0
  }

  lemma ThreadMoves(s: State, t: nat, pc: Pc, k: Key)
    requires t < |s.threads|
    ensures Tally(ThreadHolds, s.threads[t := pc], k)
         == Tally(ThreadHolds, s.threads, k) - ThreadHolds(s.threads[t], k) + ThreadHolds(pc, k)
  {
    TallyUpdate(ThreadHolds, s.threads, t, pc, k);
  }

  lemma QueueGrows(s: State, q: nat, cl: Closure, k: Key)
    requires q < |s.queues|
    ensures Tally(QueueHolds, s.queues[q := s.queues[q] + [cl]], k)
         == Tally(QueueHolds, s.queues, k) + Resumes(cl, k)
  {
    TallyUpdate(QueueHolds, s.queues, q, s.queues[q] + [cl], k);
    TallyAppend(Resumes, s.queues[q], [cl], k);
  }

  lemma LedgerOfSubmit(s: State, c: nat, q: nat, k: Key)
    requires Enabled(s, Submit(c, q))
    ensures var a := Submit(c, q);
      RightsAs(Next(s, a).value, k) == RightsAs(s, k) + Gained(s, a, k) - Lost(s, a, k)
  {
    TallyUpdate(CoHolds, s.cos, c, Next(s, Submit(c, q)).value.cos[c], k.h);
    QueueGrows(s, q, Guarded(c), k);
  }

  lemma LedgerOfAwait(s: State, t: nat, c: nat, k: Key)
    requires Enabled(s, AwaitTask(t, c))
    ensures var a := AwaitTask(t, c);
      RightsAs(Next(s, a).value, k) == RightsAs(s, k) + Gained(s, a, k) - Lost(s, a, k)
  {
    TallyUpdate(CoHolds, s.cos, c, Next(s, AwaitTask(t, c)).value.cos[c], k.h);
    ThreadMoves(s, t, Posting(Guarded(c)), k);
  }

  lemma LedgerOfFinish(s: State, t: nat, direct: bool, k: Key)
    requires Enabled(s, Finish(t, direct))
    ensures var a := Finish(t, direct);
      RightsAs(Next(s, a).value, k) == RightsAs(s, k) + Gained(s, a, k) - Lost(s, a, k)
  {
    var s' := Next(s, Finish(t, direct)).value;
    TallyUpdate(CoHolds, s.cos, s.threads[t].c, s'.cos[s.threads[t].c], k.h);
    ThreadMoves(s, t, s'.threads[t], k);
  }

  lemma LedgerOfAsync(s: State, a: Action, k: Key)
    requires Enabled(s, a) && (a.AskAsync? || a.Register? || a.Complete?)
    ensures RightsAs(Next(s, a).value, k) == RightsAs(s, k) + Gained(s, a, k) - Lost(s, a, k)
  {
    var s' := Next(s, a).value;
    ThreadMoves(s, a.t, s'.threads[a.t], k);
    if a.Complete? {
      TallyUpdate(AsyncHolds, s.asyncs, a.k, s'.asyncs[a.k], k.h);
    } else if a.Register? {
      var i := s.threads[a.t].k;
      if !s.asyncs[i].completed {
        TallyUpdate(AsyncHolds, s.asyncs, i, s'.asyncs[i], k.h);
      }
    }
  }

  lemma LedgerOfPosts(s: State, a: Action, k: Key)
    requires Enabled(s, a) && (a.PostPush? || a.PostDrop? || a.PostSpawn?)
    ensures RightsAs(Next(s, a).value, k) == RightsAs(s, k) + Gained(s, a, k) - Lost(s, a, k)
  {
    ThreadMoves(s, a.t, Idle, k);
    var cl := s.threads[a.t].closure;
    match a {
      case PostPush(t, q) => QueueGrows(s, q, cl, k);
      case PostDrop(t, q) => TallyAppend(Resumes, s.dropped, [cl], k);
      case PostSpawn(t) => TallyAppend(Resumes, s.spawned, [cl], k);
    }
  }

  lemma LedgerOfTimer(s: State, a: Action, k: Key)
    requires Enabled(s, a) && (a.Yield? || a.Sleep? || a.Fire?)
    ensures RightsAs(Next(s, a).value, k) == RightsAs(s, k) + Gained(s, a, k) - Lost(s, a, k)
  {
    var s' := Next(s, a).value;
    ThreadMoves(s, a.t, s'.threads[a.t], k);
    match a {
      case Yield(t) =>
      case Sleep(t) => TallyAppend(Same<nat>, s.heap, [s.threads[t].c], k.h);
      case Fire(t, i, _) => TallyWithout(Same<nat>, s.heap, i, k.h);
    }
  }

  lemma LedgerOfIo(s: State, a: Action, k: Key)
    requires Enabled(s, a) && (a.Await? || a.Deliver? || a.Delete?)
    ensures RightsAs(Next(s, a).value, k) == RightsAs(s, k) + Gained(s, a, k) - Lost(s, a, k)
  {
    var s' := Next(s, a).value;
    TallyUpdate(SlotHolds, s.slots, a.i, s'.slots[a.i], k.h);
    if !a.Delete? {
      ThreadMoves(s, a.t, s'.threads[a.t], k);
    }
  }

  lemma LedgerOfWorkers(s: State, a: Action, k: Key)
    requires Enabled(s, a) && (a.RunSpawned? || a.Pop? || a.Close? || a.Discard?) && k == KeyOf(s, k.h)
    ensures RightsAs(Next(s, a).value, k) == RightsAs(s, k) + Gained(s, a, k) - Lost(s, a, k)
  {
    var s' := Next(s, a).value;
    match a {
      case RunSpawned(t, i) =>
        ThreadMoves(s, t, s'.threads[t], k);
        TallyWithout(Resumes, s.spawned, i, k);
      case Pop(t, q) =>
        ThreadMoves(s, t, s'.threads[t], k);
        TallyUpdate(QueueHolds, s.queues, q, s.queues[q][1..], k);
      case Close(q) =>
      case Discard(q) =>
        TallyUpdate(QueueHolds, s.queues, q, [], k);
        TallyAppend(Resumes, s.dropped, s.queues[q], k);
    }
  }

  lemma LedgerAs(s: State, a: Action, k: Key)
    requires Enabled(s, a) && (a.Finish? || k == KeyOf(s, k.h))
    ensures RightsAs(Next(s, a).value, k) == RightsAs(s, k) + Gained(s, a, k) - Lost(s, a, k)
  {
    match a {
      case Submit(c, q) => LedgerOfSubmit(s, c, q, k);
      case AwaitTask(t, c) => LedgerOfAwait(s, t, c, k);
      case Finish(t, direct) => LedgerOfFinish(s, t, direct, k);
      case AskAsync(_, _) => LedgerOfAsync(s, a, k);
      case Register(_) => LedgerOfAsync(s, a, k);
      case Complete(_, _, _) => LedgerOfAsync(s, a, k);
      case PostPush(_, _) => LedgerOfPosts(s, a, k);
      case PostDrop(_, _) => LedgerOfPosts(s, a, k);
      case PostSpawn(_) => LedgerOfPosts(s, a, k);
      case Yield(_) => LedgerOfTimer(s, a, k);
      case Sleep(_) => LedgerOfTimer(s, a, k);
      case Fire(_, _, _) => LedgerOfTimer(s, a, k);
      case Await(_, _) => LedgerOfIo(s, a, k);
      case Deliver(_, _) => LedgerOfIo(s, a, k);
      case Delete(_) => LedgerOfIo(s, a, k);
      case _ => LedgerOfWorkers(s, a, k);
    }
  }

  /** The action finishes this coroutine, which was not finished before. */
  predicate Finishes(s: State, a: Action, h: nat)
    requires Enabled(s, a)
  {
    a.Finish? && s.threads[a.t].c == h && !IsFinished(s, h)
  }

  lemma FinishedStays(s: State, a: Action, h: nat)
    requires Enabled(s, a)
    ensures IsFinished(Next(s, a).value, h) <==> IsFinished(s, h) || Finishes(s, a, h)
  {}

  /** The ledger, for every state whatever: what an action does to the rights to resume each coroutine. */
  lemma Ledger(s: State, a: Action, h: nat)
    requires Enabled(s, a)
    ensures Rights(Next(s, a).value, h)
         == Rights(s, h) + Gained(s, a, KeyOf(s, h)) - Lost(s, a, KeyOf(s, h))
          - if Finishes(s, a, h) then Guards(s, h) else 0
  {
    FinishedStays(s, a, h);
    LedgerAs(s, a, KeyOf(Next(s, a).value, h));
  }

  // ----- Exactly one right per live coroutine -----

  predicate IsLive(s: State, h: nat) { h < |s.cos| && s.cos[h].life.Live? }

  /** A live coroutine can be resumed through exactly one right, any other through none. */
  ghost predicate Balanced(s: State) {
    forall h: nat :: Rights(s, h) == if IsLive(s, h) then 1 else 0
  }

  ghost predicate TasksTidy(s: State) {
    && (forall c :: 0 <= c < |s.cos| && s.cos[c].life.Created? ==> s.cos[c].continuation.None?)
    && (forall c: nat :: c < |s.cos| ==> s.cos[c].continuation != Some(c))
  }

  ghost predicate AsyncsTidy(s: State) {
    forall k :: 0 <= k < |s.asyncs| && s.asyncs[k].completed ==> s.asyncs[k].continuation.None?
  }

  ghost predicate Tidy(s: State) { TasksTidy(s) && AsyncsTidy(s) }

  ghost predicate Inv(s: State) { Balanced(s) && Tidy(s) }

  /**
   * A task is not submitted while it is live and not awaited once it has been submitted or awaited; an AsyncTask
   * and an IO slot have one waiter, and none when the slot is deleted.
   */
  predicate Disciplined(s: State, a: Action)
    requires Enabled(s, a)
  {
    match a
    case Submit(c, _) => !s.cos[c].life.Live?
    case AwaitTask(_, c) => s.cos[c].life.Created?
    case Register(t) => s.asyncs[s.threads[t].k].completed || s.asyncs[s.threads[t].k].continuation.None?
    case Await(_, i) => s.slots[i].None?
    case Delete(i) => s.slots[i].None?
    case _ => true
  }

  lemma CellsCount()
    ensures forall x, h :: 0 <= CoHolds(x, h)
    ensures forall x, h :: 0 <= AsyncHolds(x, h)
    ensures forall x, h :: 0 <= SlotHolds(x, h)
    ensures forall x, k :: 0 <= ThreadHolds(x, k)
    ensures forall x, k :: 0 <= Resumes(x, k)
    ensures forall x, k :: 0 <= QueueHolds(x, k)
  {
    forall x, k ensures 0 <= QueueHolds(x, k) { TallyNonNegative(Resumes, x, k); }
  }

  lemma PlacesCount(s: State, k: Key)
    ensures 0 <= Tally(CoHolds, s.cos, k.h) <= RightsAs(s, k)
    ensures 0 <= Tally(AsyncHolds, s.asyncs, k.h) <= RightsAs(s, k)
    ensures 0 <= Tally(ThreadHolds, s.threads, k) <= RightsAs(s, k)
    ensures 0 <= Tally(QueueHolds, s.queues, k) <= RightsAs(s, k)
    ensures 0 <= Tally(Resumes, s.spawned, k) <= RightsAs(s, k)
    ensures 0 <= Count(s.heap, k.h) <= RightsAs(s, k)
    ensures 0 <= Tally(Resumes, s.dropped, k) <= RightsAs(s, k)
    ensures 0 <= Tally(SlotHolds, s.slots, k.h) <= RightsAs(s, k)
    ensures Tally(AsyncHolds, s.asyncs, k.h) + Tally(ThreadHolds, s.threads, k) <= RightsAs(s, k)
    ensures Tally(SlotHolds, s.slots, k.h) + Tally(ThreadHolds, s.threads, k) <= RightsAs(s, k)
  {
    CellsCount();
    TallyNonNegative(CoHolds, s.cos, k.h);
    TallyNonNegative(AsyncHolds, s.asyncs, k.h);
    TallyNonNegative(ThreadHolds, s.threads, k);
    TallyNonNegative(QueueHolds, s.queues, k);
    TallyNonNegative(Resumes, s.spawned, k);
    TallyNonNegative(Same<nat>, s.heap, k.h);
    TallyNonNegative(Resumes, s.dropped, k);
    TallyNonNegative(SlotHolds, s.slots, k.h);
  }

  /** Finishing can only take rights away. */
  lemma GuardsCount(s: State, h: nat)
    ensures Guards(s, h) >= 0
  {
    var before, after := Key(h, false), Key(h, true);
    forall q ensures QueueHolds(q, after) <= QueueHolds(q, before) { TallyMonotone(Resumes, q, after, before); }
    TallyMonotone(ThreadHolds, s.threads, after, before);
    TallyMonotone(QueueHolds, s.queues, after, before);
    TallyMonotone(Resumes, s.spawned, after, before);
    TallyMonotone(Resumes, s.dropped, after, before);
  }

  /** Whatever a thread runs or carries is live. */
  lemma OnThreadIsLive(s: State, t: nat, h: nat)
    requires Balanced(s) && t < |s.threads| && ThreadHolds(s.threads[t], KeyOf(s, h)) == 1
    ensures IsLive(s, h)
  {
    TallyCell(ThreadHolds, s.threads, KeyOf(s, h), t);
    PlacesCount(s, KeyOf(s, h));
    assert Rights(s, h) == if IsLive(s, h) then 1 else 0;
  }

  lemma TasksTidyStep(s: State, a: Action)
    requires TasksTidy(s) && Enabled(s, a)
    ensures TasksTidy(Next(s, a).value)
  {}

  lemma AsyncsTidyStep(s: State, a: Action)
    requires AsyncsTidy(s) && Enabled(s, a)
    ensures AsyncsTidy(Next(s, a).value)
  {}

  lemma LivesAfter(s: State, a: Action, h: nat)
    requires Enabled(s, a)
    ensures IsLive(Next(s, a).value, h) <==>
      (IsLive(s, h) && !Finishes(s, a, h)) ||
      (a.Submit? && a.c == h && s.cos[h].life.Created?) || (a.AwaitTask? && a.c == h)
  {}

  lemma FinishStep(s: State, t: nat, direct: bool, h: nat)
    requires Inv(s) && Enabled(s, Finish(t, direct))
    ensures Rights(Next(s, Finish(t, direct)).value, h) == if IsLive(Next(s, Finish(t, direct)).value, h) then 1 else 0
  {
    var a, s' := Finish(t, direct), Next(s, Finish(t, direct)).value;
    OnThreadIsLive(s, t, s.threads[t].c);
    Ledger(s, a, h);
    LivesAfter(s, a, h);
    GuardsCount(s, h);
    PlacesCount(s', KeyOf(s', h));
    assert Rights(s, h) == if IsLive(s, h) then 1 else 0;
  }

  lemma DisciplinedStep(s: State, a: Action)
    requires Inv(s) && Enabled(s, a) && Disciplined(s, a)
    ensures Inv(Next(s, a).value)
  {
    TasksTidyStep(s, a);
    AsyncsTidyStep(s, a);
    var s' := Next(s, a).value;
    forall h: nat ensures Rights(s', h) == if IsLive(s', h) then 1 else 0 {
      if a.Finish? {
        FinishStep(s, a.t, a.direct, h);
      } else {
        Ledger(s, a, h);
        LivesAfter(s, a, h);
        assert Rights(s, h) == if IsLive(s, h) then 1 else 0;
      }
    }
  }

  /** Who is hit by a breach: resumable twice from then on, or not at all. */
  function Victim(s: State, a: Action): nat
    requires Enabled(s, a) && !Disciplined(s, a)
  {
    match a
    case Submit(c, _) => c
    case AwaitTask(_, c) => c
    case Register(t) => s.asyncs[s.threads[t].k].continuation.value
    case Await(_, i) => s.slots[i].value
    case Delete(i) => s.slots[i].value
  }

  lemma UndisciplinedStep(s: State, a: Action)
    requires Inv(s) && Enabled(s, a) && !Disciplined(s, a)
    ensures !Balanced(Next(s, a).value)
  {
    var s', h := Next(s, a).value, Victim(s, a);
    Ledger(s, a, h);
    LivesAfter(s, a, h);
    assert Rights(s, h) == if IsLive(s, h) then 1 else 0;
    PlacesCount(s, KeyOf(s, h));
    if a.Register? {
      TallyCell(AsyncHolds, s.asyncs, h, s.threads[a.t].k);
    } else if a.Await? || a.Delete? {
      TallyCell(SlotHolds, s.slots, h, a.i);
    }
    assert Rights(s', h) != if IsLive(s', h) then 1 else 0;
  }

  /** The discipline is exactly what keeps one right per live coroutine. */
  lemma DisciplineIsExact(s: State, a: Action)
    requires Inv(s) && Enabled(s, a)
    ensures Inv(Next(s, a).value) <==> Disciplined(s, a)
  {
    if Disciplined(s, a) {
      DisciplinedStep(s, a);
    } else {
      UndisciplinedStep(s, a);
    }
  }

  // ----- The one place -----

  datatype Place =
    | BehindChild(c: nat)          // continuation_ of an unfinished child
    | BehindAsync(k: nat)          // continuation of an AsyncTask
    | OnThread(t: nat)             // running, or in an in-flight hand-over step
    | InQueue(q: nat, i: nat)
    | InSpawned(i: nat)
    | InHeap(i: nat)
    | InDropped(i: nat)
    | InSlot(i: nat)               // waiting for an IO event

  predicate At(s: State, h: nat, p: Place) {
    var k := KeyOf(s, h);
    match p
    case BehindChild(c) => c < |s.cos| && CoHolds(s.cos[c], h) == 1
    case BehindAsync(i) => i < |s.asyncs| && AsyncHolds(s.asyncs[i], h) == 1
    case OnThread(t) => t < |s.threads| && ThreadHolds(s.threads[t], k) == 1
    case InQueue(q, i) => q < |s.queues| && i < |s.queues[q]| && Resumes(s.queues[q][i], k) == 1
    case InSpawned(i) => i < |s.spawned| && Resumes(s.spawned[i], k) == 1
    case InHeap(i) => i < |s.heap| && s.heap[i] == h
    case InDropped(i) => i < |s.dropped| && Resumes(s.dropped[i], k) == 1
    case InSlot(i) => i < |s.slots| && SlotHolds(s.slots[i], h) == 1
  }

  function Kind(p: Place): nat {
    match p
    case BehindChild(_) => 0
    case BehindAsync(_) => 1
    case OnThread(_) => 2
    case InQueue(_, _) => 3
    case InSpawned(_) => 4
    case InHeap(_) => 5
    case InDropped(_) => 6
    case InSlot(_) => 7
  }

  function OfKind(s: State, h: nat, kind: nat): int {
    var k := KeyOf(s, h);
    if kind == 0 then Tally(CoHolds, s.cos, h)
    else if kind == 1 then Tally(AsyncHolds, s.asyncs, h)
    else if kind == 2 then Tally(ThreadHolds, s.threads, k)
    else if kind == 3 then Tally(QueueHolds, s.queues, k)
    else if kind == 4 then Tally(Resumes, s.spawned, k)
    else if kind == 5 then Count(s.heap, h)
    else if kind == 6 then Tally(Resumes, s.dropped, k)
    else if kind == 7 then Tally(SlotHolds, s.slots, h)
    else 0
  }

  lemma RightsByKind(s: State, h: nat, k1: nat, k2: nat)
    requires k1 < k2 <= 7
    ensures 0 <= OfKind(s, h, k1) && 0 <= OfKind(s, h, k2)
    ensures OfKind(s, h, k1) + OfKind(s, h, k2) <= Rights(s, h)
  {
    KindsSum(s, h);
    TwoOfEight(OfKind(s, h, 0), OfKind(s, h, 1), OfKind(s, h, 2), OfKind(s, h, 3),
               OfKind(s, h, 4), OfKind(s, h, 5), OfKind(s, h, 6), OfKind(s, h, 7), k1, k2);
  }

  lemma KindsSum(s: State, h: nat)
    ensures forall kind :: 0 <= kind <= 7 ==> OfKind(s, h, kind) >= 0
    ensures Rights(s, h) == OfKind(s, h, 0) + OfKind(s, h, 1) + OfKind(s, h, 2) + OfKind(s, h, 3)
                          + OfKind(s, h, 4) + OfKind(s, h, 5) + OfKind(s, h, 6) + OfKind(s, h, 7)
  {
    PlacesCount(s, KeyOf(s, h));
  }

  lemma TwoOfEight(a: int, b: int, c: int, d: int, e: int, f: int, g: int, h: int, i: nat, j: nat)
    requires 0 <= a && 0 <= b && 0 <= c && 0 <= d && 0 <= e && 0 <= f && 0 <= g && 0 <= h && i < j <= 7
    ensures var xs := [a, b, c, d, e, f, g, h];
      xs[i] + xs[j] <= a + b + c + d + e + f + g + h
  {}

  lemma PlaceCounts(s: State, h: nat, p: Place)
    requires At(s, h, p)
    ensures 1 <= OfKind(s, h, Kind(p)) <= Rights(s, h)
  {
    var k := KeyOf(s, h);
    CellsCount();
    PlacesCount(s, k);
    match p {
      case BehindChild(c) => TallyCell(CoHolds, s.cos, h, c);
      case BehindAsync(i) => TallyCell(AsyncHolds, s.asyncs, h, i);
      case OnThread(t) => TallyCell(ThreadHolds, s.threads, k, t);
      case InQueue(q, i) =>
        TallyCell(Resumes, s.queues[q], k, i);
        TallyCell(QueueHolds, s.queues, k, q);
      case InSpawned(i) => TallyCell(Resumes, s.spawned, k, i);
      case InHeap(i) => TallyCell(Same<nat>, s.heap, h, i);
      case InDropped(i) => TallyCell(Resumes, s.dropped, k, i);
      case InSlot(i) => TallyCell(SlotHolds, s.slots, h, i);
    }
  }

  lemma {:induction false} TwoCells<T(!new), K>(f: (T, K) -> int, xs: seq<T>, k: K, i: nat, j: nat)
    requires forall x :: 0 <= f(x, k)
    requires i < |xs| && j < |xs| && i != j && 1 <= f(xs[i], k) && 1 <= f(xs[j], k)
    ensures 2 <= Tally(f, xs, k)
  {
    if i < j { TallyPair(f, xs, k, i, j); } else { TallyPair(f, xs, k, j, i); }
  }

  lemma TwoQueuePlaces(s: State, h: nat, p: Place, r: Place)
    requires At(s, h, p) && At(s, h, r) && p != r && p.InQueue? && r.InQueue?
    ensures 2 <= Tally(QueueHolds, s.queues, KeyOf(s, h))
  {
    var k := KeyOf(s, h);
    CellsCount();
    if p.q == r.q {
      TwoCells(Resumes, s.queues[p.q], k, p.i, r.i);
      TallyCell(QueueHolds, s.queues, k, p.q);
    } else {
      TallyCell(Resumes, s.queues[p.q], k, p.i);
      TallyCell(Resumes, s.queues[r.q], k, r.i);
      TwoCells(QueueHolds, s.queues, k, p.q, r.q);
    }
  }

  lemma TwoPlacesOfAKind(s: State, h: nat, p: Place, r: Place)
    requires At(s, h, p) && At(s, h, r) && p != r && Kind(p) == Kind(r)
    ensures 2 <= OfKind(s, h, Kind(p)) <= Rights(s, h)
  {
    var k := KeyOf(s, h);
    PlacesCount(s, k);
    match p {
      case BehindChild(c) => TwoCells(CoHolds, s.cos, h, c, r.c);
      case BehindAsync(i) => TwoCells(AsyncHolds, s.asyncs, h, i, r.k);
      case OnThread(t) => TwoCells(ThreadHolds, s.threads, k, t, r.t);
      case InQueue(_, _) => TwoQueuePlaces(s, h, p, r);
      case InSpawned(i) => TwoCells(Resumes, s.spawned, k, i, r.i);
      case InHeap(i) => TwoCells(Same<nat>, s.heap, h, i, r.i);
      case InDropped(i) => TwoCells(Resumes, s.dropped, k, i, r.i);
      case InSlot(i) => TwoCells(SlotHolds, s.slots, h, i, r.i);
    }
  }

  lemma FindPlace(s: State, h: nat) returns (p: Place)
    requires Rights(s, h) >= 1
    ensures At(s, h, p)
  {
    var k := KeyOf(s, h);
    if Tally(CoHolds, s.cos, h) >= 1 {
      var c := TallySource(CoHolds, s.cos, h);
      p := BehindChild(c);
    } else if Tally(AsyncHolds, s.asyncs, h) >= 1 {
      var i := TallySource(AsyncHolds, s.asyncs, h);
      p := BehindAsync(i);
    } else if Tally(ThreadHolds, s.threads, k) >= 1 {
      var t := TallySource(ThreadHolds, s.threads, k);
      p := OnThread(t);
    } else if Tally(QueueHolds, s.queues, k) >= 1 {
      var q := TallySource(QueueHolds, s.queues, k);
      var i := TallySource(Resumes, s.queues[q], k);
      p := InQueue(q, i);
    } else if Tally(Resumes, s.spawned, k) >= 1 {
      var i := TallySource(Resumes, s.spawned, k);
      p := InSpawned(i);
    } else if Count(s.heap, h) >= 1 {
      var i := TallySource(Same<nat>, s.heap, h);
      p := InHeap(i);
    } else if Tally(Resumes, s.dropped, k) >= 1 {
      var i := TallySource(Resumes, s.dropped, k);
      p := InDropped(i);
    } else {
      var i := TallySource(SlotHolds, s.slots, h);
      p := InSlot(i);
    }
  }

  /** A coroutine is live exactly when some place holds it, and then that place is the only one. */
  lemma LiveIffInOnePlace(s: State, h: nat)
    requires Balanced(s)
    ensures IsLive(s, h) <==> exists p :: At(s, h, p)
    ensures forall p, r :: At(s, h, p) && At(s, h, r) ==> p == r
  {
    assert Rights(s, h) == if IsLive(s, h) then 1 else 0;
    if IsLive(s, h) {
      var p := FindPlace(s, h);
    }
    forall p | At(s, h, p) ensures IsLive(s, h) { PlaceCounts(s, h, p); }
    forall p, r | At(s, h, p) && At(s, h, r) ensures p == r {
      if p != r {
        if Kind(p) == Kind(r) {
          TwoPlacesOfAKind(s, h, p, r);
        } else {
          PlaceCounts(s, h, p);
          PlaceCounts(s, h, r);
          if Kind(p) < Kind(r) { RightsByKind(s, h, Kind(p), Kind(r)); } else { RightsByKind(s, h, Kind(r), Kind(p)); }
        }
      }
    }
  }

  /** Whenever a thread starts running a coroutine, that coroutine was suspended, unfinished and nobody else's. */
  lemma ResumedOnlyWhenSuspended(s: State, a: Action, t: nat, h: nat)
    requires Inv(s) && Enabled(s, a) && Disciplined(s, a)
    requires t < |s.threads| && s.threads[t] != Running(h) && Next(s, a).value.threads[t] == Running(h)
    ensures IsLive(s, h) && forall u :: 0 <= u < |s.threads| ==> s.threads[u] != Running(h)
    ensures forall p :: At(Next(s, a).value, h, p) ==> p == OnThread(t)
  {
    var s' := Next(s, a).value;
    DisciplinedStep(s, a);
    assert At(s', h, OnThread(t));
    LiveIffInOnePlace(s', h);
    assert |s'.threads| == |s.threads| && forall u :: 0 <= u < |s.threads| && u != t ==> s'.threads[u] == s.threads[u];
    forall u: nat | u < |s.threads| ensures s.threads[u] != Running(h) {
      if s.threads[u] == Running(h) { assert At(s', h, OnThread(u)); }
    }
  }

  // ----- Every run -----

  predicate Init(s: State) {
    && (forall c :: 0 <= c < |s.cos| ==> s.cos[c] == Co(Created, None))
    && (forall k :: 0 <= k < |s.asyncs| ==> s.asyncs[k] == A.FRESH)
    && (forall t :: 0 <= t < |s.threads| ==> s.threads[t].Idle?)
    && (forall q :: 0 <= q < |s.queues| ==> s.queues[q] == [])
    && |s.closed| == |s.queues| && s.spawned == [] && s.heap == [] && s.dropped == []
    && (forall i :: 0 <= i < |s.slots| ==> s.slots[i].None?)
  }

  function NextDisciplined(s: State, a: Action): Option<State> {
    if Enabled(s, a) && Disciplined(s, a) then Next(s, a) else None
  }

  lemma InitInv(s: State)
    requires Init(s)
    ensures Inv(s)
  {
    forall h: nat ensures Rights(s, h) == 0 {
      TallyZero(CoHolds, s.cos, h);
      TallyZero(AsyncHolds, s.asyncs, h);
      TallyZero(ThreadHolds, s.threads, KeyOf(s, h));
      TallyZero(QueueHolds, s.queues, KeyOf(s, h));
      TallyZero(SlotHolds, s.slots, h);
    }
  }

  lemma ReachableInv(s0: State, run: seq<Action>, s: State)
    requires Init(s0) && Exec(NextDisciplined, s0, run) == Some(s)
    ensures Inv(s)
  {
    InitInv(s0);
    forall s, a | Inv(s) && NextDisciplined(s, a).Some? ensures Inv(NextDisciplined(s, a).value) {
      DisciplinedStep(s, a);
    }
    Invariance(NextDisciplined, s => Inv(s), s0, run);
  }

  /** In every state that a disciplined run reaches, each live coroutine is held in exactly one place. */
  lemma SingleResume(s0: State, run: seq<Action>, s: State, h: nat)
    requires Init(s0) && Exec(NextDisciplined, s0, run) == Some(s)
    ensures IsLive(s, h) <==> exists p :: At(s, h, p)
    ensures forall p, r :: At(s, h, p) && At(s, h, r) ==> p == r
  {
    ReachableInv(s0, run, s);
    LiveIffInOnePlace(s, h);
  }

  /** A breach: a task submitted twice before it has run is run by two threads at once. */
  lemma SubmittedTwiceRunsTwice() returns (s0: State, run: seq<Action>, s: State)
    ensures Init(s0) && Exec(Next, s0, run) == Some(s) && s.threads == [Running(0), Running(0)]
  {
    s0 := State([Co(Created, None)], [], [Idle, Idle], [[]], [false], 9, [], [], [], []);
    var s1 := Next(s0, Submit(0, 0)).value;
    var s2 := Next(s1, Submit(0, 0)).value;
    var s3 := Next(s2, Pop(0, 0)).value;
    s := Next(s3, Pop(1, 0)).value;
    TwoSteps(Next, s0, Submit(0, 0), s1, Submit(0, 0), s2);
    TwoSteps(Next, s2, Pop(0, 0), s3, Pop(1, 0), s);
    Then(Next, s0, [Submit(0, 0), Submit(0, 0)], s2, [Pop(0, 0), Pop(1, 0)], s);
    run := [Submit(0, 0), Submit(0, 0)] + [Pop(0, 0), Pop(1, 0)];
  }
}
