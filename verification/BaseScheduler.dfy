/** The base scheduler: one FIFO queue a worker, round-robin placement, stop flag, join and cleanup. */
module BaseScheduler {
  import opened Wrappers
  import opened Runs
  import opened Folds
  import opened Modular

  /** A function task carries the counting wrapper; a coroutine task does not. */
  datatype Job = Func(id: nat) | Coro(id: nat)

  // ----- One queue, with the log of what went through it -----

  /**
   * `tasks` is the queue itself; the rest is history: every push in order, how many were popped,
   * what the final cleanup threw away, the log positions executed so far, and the tasks that the round robin
   * placed here, whether they have been pushed yet or not.
   */
  datatype Queue = Queue(
    tasks: seq<Job>, pushed: seq<Job>, popped: nat, discarded: seq<Job>, executed: seq<nat>, placed: seq<Job>)

  const EMPTY := Queue([], [], 0, [], [], [])

  /** A function task that the size check dropped, and the queue that was full. */
  datatype Lost = Lost(job: Job, q: nat)

  function Pushed(q: Queue, job: Job): Queue {
    q.(tasks := q.tasks + [job], pushed := q.pushed + [job])
  }

  function Popped(q: Queue): Queue
    requires q.tasks != []
  {
    q.(tasks := q.tasks[1..], popped := q.popped + 1)
  }

  /** The task at this position of the log has been run. */
  function Executed(q: Queue, pos: nat): Queue { q.(executed := q.executed + [pos]) }

  function Cleared(q: Queue): Queue {
    q.(tasks := [], discarded := q.discarded + q.tasks)
  }

  // ----- The concurrent system -----

  datatype Producer =
    | Outside
    | Accepted(job: Job)            // a function task that passed the stop check
    | Counted(job: Job)             // total_scheduled_ bumped
    | Aimed(job: Job, q: nat)       // next_queue_ bumped
    | Ready(job: Job, q: nat)       // size check passed, or a coroutine task that skips it
    | Notifying(q: nat)

  datatype Worker =
    | Starting
    | Polling(q: nat)
    | Running(q: nat, job: Job, pos: nat)
    | Sleeping(q: nat)
    | Exited(q: nat, seen: nat)     // `seen`: pushes to its queue at the moment it left

  datatype StopPc = WaitingForIdle | Joining | Cleaning(q: nat) | Stopped

  datatype State = State(
    queues: seq<Queue>,
    maxQueue: nat,
    producers: seq<Producer>,
    next: nat,                      // next_queue_
    workers: seq<Worker>,
    ticket: nat,                    // the static thread_id_counter
    claims: seq<nat>,               // the tickets that this scheduler's workers took
    stopFlag: bool,
    stopPc: StopPc,
    early: seq<nat>,                // pushes per queue when the stop flag was set
    scheduled: nat,                 // total_scheduled_
    completed: nat,                 // total_completed_
    overflowed: seq<Lost>)          // function tasks dropped by the size check

  datatype Action =
    | Accept(p: nat, id: nat)
    | Bump(p: nat)
    | Aim(p: nat)
    | AimCoro(p: nat, id: nat)
    | CheckSize(p: nat)
    | Push(p: nat)
    | Notify(p: nat)
    | Claim(w: nat)
    | ForeignClaim
    | TryPop(w: nat)
    | Wake(w: nat)
    | Finish(w: nat)
    | SetStop
    | Join
    | Clean
    | Return

  ghost predicate ShapeOk(s: State) {
    && |s.queues| > 0
    && (forall p :: 0 <= p < |s.producers| ==> ProducerInRange(s.producers[p], |s.queues|))
    && (forall w :: 0 <= w < |s.workers| ==> WorkerInRange(s.workers[w], |s.queues|))
    && (s.stopPc.Cleaning? ==> s.stopPc.q <= |s.queues|)
  }

  predicate ProducerInRange(p: Producer, n: nat) {
    (p.Aimed? || p.Ready? ==> p.q < n) && (p.Accepted? || p.Counted? || p.Aimed? ==> p.job.Func?)
  }

  predicate WorkerInRange(w: Worker, n: nat) { !w.Starting? ==> w.q < n }

  predicate Enabled(s: State, a: Action) {
    |s.queues| > 0 &&
    match a
    case Accept(p, _) => p < |s.producers| && s.producers[p].Outside? && !s.stopFlag
    case Bump(p) => p < |s.producers| && s.producers[p].Accepted?
    case Aim(p) => p < |s.producers| && s.producers[p].Counted?
    case AimCoro(p, _) => p < |s.producers| && s.producers[p].Outside?
    case CheckSize(p) => p < |s.producers| && s.producers[p].Aimed? && s.producers[p].q < |s.queues|
    case Push(p) => p < |s.producers| && s.producers[p].Ready? && s.producers[p].q < |s.queues|
    case Notify(p) => p < |s.producers| && s.producers[p].Notifying?
    case Claim(w) => w < |s.workers| && s.workers[w].Starting?
    case ForeignClaim => true
    case TryPop(w) => w < |s.workers| && s.workers[w].Polling? && s.workers[w].q < |s.queues|
    case Wake(w) => w < |s.workers| && s.workers[w].Sleeping? && s.workers[w].q < |s.queues|
    case Finish(w) => w < |s.workers| && s.workers[w].Running? && s.workers[w].q < |s.queues|
    case SetStop => s.stopPc.WaitingForIdle?
    case Join => s.stopPc.Joining? && forall w :: 0 <= w < |s.workers| ==> s.workers[w].Exited?
    case Clean => s.stopPc.Cleaning? && s.stopPc.q < |s.queues|
    case Return => s.stopPc.Cleaning? && s.stopPc.q == |s.queues|
  }

  function Produce(s: State, p: nat, to: Producer): State
    requires p < |s.producers|
  {
    s.(producers := s.producers[p := to])
  }

  function Work(s: State, w: nat, to: Worker): State
    requires w < |s.workers|
  {
    s.(workers := s.workers[w := to])
  }

  function SetQueue(s: State, q: nat, to: Queue): State
    requires q < |s.queues|
  {
    s.(queues := s.queues[q := to])
  }

  function Placed(q: Queue, job: Job): Queue { q.(placed := q.placed + [job]) }

  function Next(s: State, a: Action): Option<State> {
    if !Enabled(s, a) then None
    else Some(match a
      case Accept(p, id) => Produce(s, p, Accepted(Func(id)))
      case Bump(p) => Produce(s, p, Counted(s.producers[p].job)).(scheduled := s.scheduled + 1)
      case Aim(p) =>
        var q := s.next % |s.queues|;
        var job := s.producers[p].job;
        SetQueue(Produce(s, p, Aimed(job, q)), q, Placed(s.queues[q], job)).(next := s.next + 1)
      case AimCoro(p, id) =>
        var q := s.next % |s.queues|;
        SetQueue(Produce(s, p, Ready(Coro(id), q)), q, Placed(s.queues[q], Coro(id))).(next := s.next + 1)
      case CheckSize(p) =>
        var pr := s.producers[p];
        if |s.queues[pr.q].tasks| >= s.maxQueue then
          Produce(s, p, Outside).(overflowed := s.overflowed + [Lost(pr.job, pr.q)])
        else Produce(s, p, Ready(pr.job, pr.q))
      case Push(p) =>
        var pr := s.producers[p];
        SetQueue(Produce(s, p, Notifying(pr.q)), pr.q, Pushed(s.queues[pr.q], pr.job))
      case Notify(p) => Produce(s, p, Outside)
      case Claim(w) =>
        Work(s, w, Polling(s.ticket % |s.queues|)).(ticket := s.ticket + 1, claims := s.claims + [s.ticket])
      case ForeignClaim => s.(ticket := s.ticket + 1)
      case TryPop(w) =>
        var q := s.workers[w].q;
        var queue := s.queues[q];
        if queue.tasks == [] then Work(s, w, Sleeping(q))
        else SetQueue(Work(s, w, Running(q, queue.tasks[0], queue.popped)), q, Popped(queue))
      case Wake(w) =>
        var q := s.workers[w].q;
        if s.stopFlag && s.queues[q].tasks == [] then Work(s, w, Exited(q, |s.queues[q].pushed|))
        else Work(s, w, Polling(q))
      case Finish(w) =>
        var wk := s.workers[w];
        var queue := s.queues[wk.q];
        SetQueue(Work(s, w, Polling(wk.q)), wk.q, Executed(queue, wk.pos))
        .(completed := s.completed + if wk.job.Func? then 1 else 0)
      case SetStop =>
        s.(stopFlag := true, stopPc := Joining,
           early := seq(|s.queues|, q requires 0 <= q < |s.queues| => |s.queues[q].pushed|))
      case Join => s.(stopPc := Cleaning(0))
      case Clean =>
        var q := s.stopPc.q;
        SetQueue(s, q, Cleared(s.queues[q])).(stopPc := Cleaning(q + 1))
      case Return => s.(stopPc := Stopped))
  }

  predicate Init(s: State) {
    && |s.queues| > 0 && s.maxQueue > 0
    && (forall q :: 0 <= q < |s.queues| ==> s.queues[q] == EMPTY)
    && (forall p :: 0 <= p < |s.producers| ==> s.producers[p].Outside?)
    && (forall w :: 0 <= w < |s.workers| ==> s.workers[w].Starting?)
    && s.next == 0 && s.claims == [] && !s.stopFlag && s.stopPc.WaitingForIdle? && s.early == []
    && s.scheduled == 0 && s.completed == 0 && s.overflowed == []
  }

  // ----- The FIFO log -----

  predicate LogOk(q: Queue) {
    && q.popped + |q.discarded| <= |q.pushed|
    && q.tasks == q.pushed[q.popped + |q.discarded|..]
    && q.discarded == q.pushed[q.popped..q.popped + |q.discarded|]
  }

  predicate AllLeft(s: State) { forall w :: 0 <= w < |s.workers| ==> s.workers[w].Exited? }

  /** Queues are logs cut in three: popped, discarded, waiting. */
  ghost predicate Logs(s: State) {
    forall q :: 0 <= q < |s.queues| ==> LogOk(s.queues[q])
  }

  /** Cleanup starts after every worker has left, and nothing is discarded before. */
  ghost predicate Phases(s: State) {
    && (s.stopFlag <==> !s.stopPc.WaitingForIdle?)
    && (s.stopPc.Cleaning? || s.stopPc.Stopped? ==> AllLeft(s))
    && (s.stopPc.WaitingForIdle? || s.stopPc.Joining? ==>
          forall q :: 0 <= q < |s.queues| ==> s.queues[q].discarded == [])
  }

  lemma PushedLog(q: Queue, job: Job)
    requires LogOk(q)
    ensures LogOk(Pushed(q, job))
  {
    var n := q.popped + |q.discarded|;
    assert (q.pushed + [job])[n..] == q.pushed[n..] + [job];
    assert (q.pushed + [job])[q.popped..n] == q.pushed[q.popped..n];
  }

  lemma PoppedLog(q: Queue)
    requires LogOk(q) && q.tasks != [] && q.discarded == []
    ensures LogOk(Popped(q)) && q.tasks[0] == q.pushed[q.popped]
  {}

  lemma ClearedLog(q: Queue)
    requires LogOk(q)
    ensures LogOk(Cleared(q))
  {}

  /** What one action may do to one queue. */
  ghost predicate QueueMoves(q: Queue, q': Queue) {
    || q' == q
    || (exists job :: q' == Pushed(q, job))
    || (q.tasks != [] && q.discarded == [] && q' == Popped(q))
    || q' == Cleared(q)
    || (exists job :: q' == Placed(q, job))
    || (exists pos :: q' == Executed(q, pos))
  }

  lemma QueueStep(s: State, a: Action, i: nat)
    requires ShapeOk(s) && Phases(s) && Enabled(s, a) && i < |s.queues|
    ensures |Next(s, a).value.queues| == |s.queues|
    ensures QueueMoves(s.queues[i], Next(s, a).value.queues[i])
  {
    match a {
      case Push(p) =>
        assert s.producers[p].q == i ==> Next(s, a).value.queues[i] == Pushed(s.queues[i], s.producers[p].job);
      case TryPop(w) => assert s.stopPc.WaitingForIdle? || s.stopPc.Joining?;
      case Finish(w) =>
        assert s.workers[w].q == i ==>
          Next(s, a).value.queues[i] == Executed(s.queues[i], s.workers[w].pos);
      case _ =>
    }
  }

  lemma LogMoves(q: Queue, q': Queue)
    requires LogOk(q) && QueueMoves(q, q')
    ensures LogOk(q')
  {
    if job :| q' == Pushed(q, job) {
      PushedLog(q, job);
    } else if q.tasks != [] && q.discarded == [] && q' == Popped(q) {
      PoppedLog(q);
    } else if q' == Cleared(q) {
      ClearedLog(q);
    }
  }

  lemma LogsStep(s: State, a: Action)
    requires ShapeOk(s) && Logs(s) && Phases(s) && Enabled(s, a)
    ensures Logs(Next(s, a).value)
  {
    var s' := Next(s, a).value;
    ShapeStep(s, a);
    forall i: nat | i < |s'.queues| ensures LogOk(s'.queues[i]) {
      QueueStep(s, a, i);
      LogMoves(s.queues[i], s'.queues[i]);
    }
  }

  lemma PhasesStep(s: State, a: Action)
    requires ShapeOk(s) && Phases(s) && Enabled(s, a)
    ensures Phases(Next(s, a).value)
  {
    WhoLeftStays(s, a);
    NothingDiscardedYet(s, a);
  }

  lemma WhoLeftStays(s: State, a: Action)
    requires ShapeOk(s) && Phases(s) && Enabled(s, a)
    ensures var s' := Next(s, a).value;
      && (s'.stopFlag <==> !s'.stopPc.WaitingForIdle?)
      && (s'.stopPc.Cleaning? || s'.stopPc.Stopped? ==> AllLeft(s'))
  {}

  lemma NothingDiscardedYet(s: State, a: Action)
    requires ShapeOk(s) && Phases(s) && Enabled(s, a)
    ensures var s' := Next(s, a).value;
      s'.stopPc.WaitingForIdle? || s'.stopPc.Joining? ==>
        forall q :: 0 <= q < |s'.queues| ==> s'.queues[q].discarded == []
  {}

  lemma ShapeStep(s: State, a: Action)
    requires ShapeOk(s) && Enabled(s, a)
    ensures ShapeOk(Next(s, a).value) && |Next(s, a).value.queues| == |s.queues|
  {
    ProducersStayInRange(s, a);
    WorkersStayInRange(s, a);
  }

  lemma ProducersStayInRange(s: State, a: Action)
    requires ShapeOk(s) && Enabled(s, a)
    ensures var s' := Next(s, a).value;
      |s'.queues| == |s.queues| && forall p :: 0 <= p < |s'.producers| ==> ProducerInRange(s'.producers[p], |s.queues|)
  {}

  lemma WorkersStayInRange(s: State, a: Action)
    requires ShapeOk(s) && Enabled(s, a)
    ensures var s' := Next(s, a).value;
      forall w :: 0 <= w < |s'.workers| ==> WorkerInRange(s'.workers[w], |s.queues|)
  {}

  // ----- Every popped position is executed exactly once -----

  function RunsAt(w: Worker, k: (nat, nat)): int {
    if w.Running? && w.q == k.0 && w.pos == k.1 then 1 else 0
  }

  /** A log position below `popped` is being run by one worker or was executed once; no other ever is. */
  ghost predicate Once(s: State) {
    forall q: nat, pos: nat :: q < |s.queues| ==> OnceAt(s, q, pos)
  }

  ghost predicate OnceAt(s: State, q: nat, pos: nat)
    requires q < |s.queues|
  {
    Tally(RunsAt, s.workers, (q, pos)) + Count(s.queues[q].executed, pos) == if pos < s.queues[q].popped then 1 else 0
  }

  lemma OnceIdle(s: State, a: Action, q: nat, pos: nat)
    requires ShapeOk(s) && Enabled(s, a) && (a.Claim? || a.Wake?) && q < |s.queues| && OnceAt(s, q, pos)
    ensures OnceAt(Next(s, a).value, q, pos)
  {
    TallyUpdate(RunsAt, s.workers, a.w, Next(s, a).value.workers[a.w], (q, pos));
  }

  lemma OncePop(s: State, w: nat, q: nat, pos: nat)
    requires ShapeOk(s) && Enabled(s, TryPop(w)) && q < |s.queues| && OnceAt(s, q, pos)
    ensures OnceAt(Next(s, TryPop(w)).value, q, pos)
  {
    TallyUpdate(RunsAt, s.workers, w, Next(s, TryPop(w)).value.workers[w], (q, pos));
  }

  lemma OnceFinish(s: State, w: nat, q: nat, pos: nat)
    requires ShapeOk(s) && Enabled(s, Finish(w)) && q < |s.queues| && OnceAt(s, q, pos)
    ensures OnceAt(Next(s, Finish(w)).value, q, pos)
  {
    TallyUpdate(RunsAt, s.workers, w, Polling(s.workers[w].q), (q, pos));
    TallyAppend(Same<nat>, s.queues[q].executed, [s.workers[w].pos], pos);
  }

  lemma QuietQueue(s: State, a: Action, q: nat)
    requires ShapeOk(s) && Enabled(s, a) && q < |s.queues| && !a.TryPop? && !a.Finish?
    ensures |Next(s, a).value.queues| == |s.queues|
    ensures Next(s, a).value.queues[q].executed == s.queues[q].executed
    ensures Next(s, a).value.queues[q].popped == s.queues[q].popped
    ensures !a.Claim? && !a.Wake? ==> Next(s, a).value.workers == s.workers
  {}

  lemma OnceStep(s: State, a: Action)
    requires ShapeOk(s) && Once(s) && Enabled(s, a)
    ensures Once(Next(s, a).value)
  {
    var s' := Next(s, a).value;
    ShapeStep(s, a);
    forall q: nat, pos: nat | q < |s'.queues| ensures OnceAt(s', q, pos) {
      assert OnceAt(s, q, pos);
      if a.TryPop? {
        OncePop(s, a.w, q, pos);
      } else if a.Finish? {
        OnceFinish(s, a.w, q, pos);
      } else if a.Claim? || a.Wake? {
        OnceIdle(s, a, q, pos);
      } else {
        QuietQueue(s, a, q);
      }
    }
  }

  /** The job a worker runs is the one logged at its position. */
  ghost predicate RunsItsJob(s: State) {
    forall w :: 0 <= w < |s.workers| && s.workers[w].Running? && s.workers[w].q < |s.queues| ==>
      s.workers[w].pos < |s.queues[s.workers[w].q].pushed|
      && s.queues[s.workers[w].q].pushed[s.workers[w].pos] == s.workers[w].job
  }

  lemma PushedGrows(s: State, a: Action, q: nat)
    requires ShapeOk(s) && Phases(s) && Enabled(s, a) && q < |s.queues|
    ensures |Next(s, a).value.queues| == |s.queues|
    ensures s.queues[q].pushed <= Next(s, a).value.queues[q].pushed
  {
    QueueStep(s, a, q);
  }

  lemma RunsItsJobStep(s: State, a: Action)
    requires ShapeOk(s) && Logs(s) && Phases(s) && RunsItsJob(s) && Enabled(s, a)
    ensures RunsItsJob(Next(s, a).value)
  {
    var s' := Next(s, a).value;
    ShapeStep(s, a);
    forall w | 0 <= w < |s'.workers| && s'.workers[w].Running? && s'.workers[w].q < |s'.queues|
      ensures s'.workers[w].pos < |s'.queues[s'.workers[w].q].pushed|
      ensures s'.queues[s'.workers[w].q].pushed[s'.workers[w].pos] == s'.workers[w].job
    {
      PushedGrows(s, a, s'.workers[w].q);
      RunningFrom(s, a, w);
    }
  }

  lemma RunningFrom(s: State, a: Action, w: nat)
    requires ShapeOk(s) && Logs(s) && Phases(s) && Enabled(s, a)
    requires w < |s.workers| && w < |Next(s, a).value.workers| && Next(s, a).value.workers[w].Running?
    ensures var to := Next(s, a).value.workers[w];
      || to == s.workers[w]
      || (to.q < |s.queues| && to.pos < |s.queues[to.q].pushed| && s.queues[to.q].pushed[to.pos] == to.job)
  {
    if a == TryPop(w) && s.queues[s.workers[w].q].tasks != [] {
      PoppedLog(s.queues[s.workers[w].q]);
    }
  }

  // ----- Leaving only when drained -----

  predicate Serves(w: Worker, q: nat) { !w.Starting? && w.q == q }

  ghost predicate Served(s: State, q: nat) {
    exists w :: 0 <= w < |s.workers| && Serves(s.workers[w], q)
  }

  /** Once the flag is up, `early` is a lower bound of the logs; who left had seen, and popped, at least that much. */
  ghost predicate Departures(s: State) {
    && (s.stopFlag ==>
          |s.early| == |s.queues| && forall q :: 0 <= q < |s.queues| ==> s.early[q] <= |s.queues[q].pushed|)
    && (forall w: nat :: w < |s.workers| ==> LeftDrained(s, w))
  }

  lemma EarlyStep(s: State, a: Action)
    requires ShapeOk(s) && Phases(s) && Departures(s) && Enabled(s, a)
    ensures var s' := Next(s, a).value;
      s'.stopFlag ==>
        |s'.early| == |s'.queues| && forall q :: 0 <= q < |s'.queues| ==> s'.early[q] <= |s'.queues[q].pushed|
  {
    var s' := Next(s, a).value;
    ShapeStep(s, a);
    if s'.stopFlag && !a.SetStop? {
      forall q: nat | q < |s'.queues| ensures s'.early[q] <= |s'.queues[q].pushed| {
        PushedGrows(s, a, q);
      }
    }
  }

  lemma PoppedGrows(s: State, a: Action, q: nat)
    requires ShapeOk(s) && Phases(s) && Enabled(s, a) && q < |s.queues|
    ensures |Next(s, a).value.queues| == |s.queues| && s.queues[q].popped <= Next(s, a).value.queues[q].popped
  {
    QueueStep(s, a, q);
  }

  predicate LeftDrained(s: State, w: nat)
    requires w < |s.workers|
  {
    s.workers[w].Exited? && s.workers[w].q < |s.queues| ==>
      s.stopFlag && |s.early| == |s.queues|
      && s.early[s.workers[w].q] <= s.workers[w].seen <= s.queues[s.workers[w].q].popped
  }

  lemma LeavesDrained(s: State, w: nat)
    requires ShapeOk(s) && Logs(s) && Phases(s) && Departures(s) && Enabled(s, Wake(w))
    ensures LeftDrained(Next(s, Wake(w)).value, w)
  {
    var q := s.workers[w].q;
    assert LogOk(s.queues[q]);
    assert !s.workers[w].Exited?;
    assert s.queues[q].discarded == [];
  }

  lemma StaysDrained(s: State, a: Action, w: nat)
    requires ShapeOk(s) && Phases(s) && Enabled(s, a) && w < |s.workers| && s.workers[w].Exited? && LeftDrained(s, w)
    ensures LeftDrained(Next(s, a).value, w)
  {
    PoppedGrows(s, a, s.workers[w].q);
    KeepsExit(s, a, w);
  }

  lemma KeepsExit(s: State, a: Action, w: nat)
    requires Enabled(s, a) && w < |s.workers| && s.workers[w].Exited?
    ensures |Next(s, a).value.workers| == |s.workers| && Next(s, a).value.workers[w] == s.workers[w]
    ensures !a.SetStop? ==> Next(s, a).value.early == s.early && Next(s, a).value.stopFlag == s.stopFlag
  {}

  lemma BecomesExited(s: State, a: Action, w: nat)
    requires Enabled(s, a) && w < |Next(s, a).value.workers| && Next(s, a).value.workers[w].Exited?
    ensures |Next(s, a).value.workers| == |s.workers|
    ensures a == Wake(w) || s.workers[w].Exited?
  {}

  lemma DeparturesStep(s: State, a: Action)
    requires ShapeOk(s) && Logs(s) && Phases(s) && Departures(s) && Enabled(s, a)
    ensures Departures(Next(s, a).value)
  {
    var s' := Next(s, a).value;
    EarlyStep(s, a);
    forall w: nat | w < |s'.workers| && s'.workers[w].Exited? ensures LeftDrained(s', w) {
      BecomesExited(s, a, w);
      if a == Wake(w) {
        LeavesDrained(s, w);
      } else {
        StaysDrained(s, a, w);
      }
    }
  }

  ghost predicate OnlyServedPops(s: State) {
    forall q: nat :: q < |s.queues| && s.queues[q].popped > 0 ==> Served(s, q)
  }

  lemma StillServed(s: State, a: Action, q: nat)
    requires Enabled(s, a) && Served(s, q)
    ensures Served(Next(s, a).value, q)
  {
    var w :| 0 <= w < |s.workers| && Serves(s.workers[w], q);
    assert Serves(Next(s, a).value.workers[w], q);
  }

  lemma OnlyServedPopsStep(s: State, a: Action)
    requires ShapeOk(s) && Phases(s) && OnlyServedPops(s) && Enabled(s, a)
    ensures OnlyServedPops(Next(s, a).value)
  {
    var s' := Next(s, a).value;
    ShapeStep(s, a);
    forall q: nat | q < |s'.queues| && s'.queues[q].popped > 0 ensures Served(s', q) {
      if a.TryPop? && s.workers[a.w].q == q {
        assert Serves(s.workers[a.w], q);
        StillServed(s, a, q);
      } else {
        QueueStep(s, a, q);
        assert s.queues[q].popped > 0;
        StillServed(s, a, q);
      }
    }
  }

  // ----- First in, first out, when a queue has one worker -----

  function ServesAs(w: Worker, q: nat): int { if Serves(w, q) then 1 else 0 }

  function Busy(w: Worker, q: nat): int { if w.Running? && w.q == q then 1 else 0 }

  predicate InOrder(xs: seq<nat>) { forall k :: 0 <= k < |xs| ==> xs[k] == k }

  ghost predicate Fifo(s: State) {
    forall q: nat :: q < |s.queues| && Tally(ServesAs, s.workers, q) <= 1 ==>
      FifoAt(s, q)
  }

  lemma BusyOnce(workers: seq<Worker>, w: nat, q: nat)
    requires w < |workers| && workers[w].Running? && workers[w].q == q && Tally(ServesAs, workers, q) <= 1
    ensures Tally(Busy, workers, q) == 1
  {
    TallyCell(Busy, workers, q, w);
    BusyAtMostServes(workers, q);
  }

  lemma {:induction false} BusyAtMostServes(workers: seq<Worker>, q: nat)
    ensures 0 <= Tally(Busy, workers, q) <= Tally(ServesAs, workers, q)
  {
    if workers != [] { BusyAtMostServes(workers[1..], q); }
  }

  ghost predicate FifoAt(s: State, q: nat)
    requires q < |s.queues|
  {
    InOrder(s.queues[q].executed) && |s.queues[q].executed| + Tally(Busy, s.workers, q) == s.queues[q].popped
  }

  lemma FifoIdle(s: State, a: Action, q: nat)
    requires ShapeOk(s) && Fifo(s) && Enabled(s, a) && (a.Claim? || a.Wake?)
    requires q < |s.queues| && Tally(ServesAs, Next(s, a).value.workers, q) <= 1
    ensures FifoAt(Next(s, a).value, q)
  {
    var to := Next(s, a).value.workers[a.w];
    TallyUpdate(ServesAs, s.workers, a.w, to, q);
    TallyUpdate(Busy, s.workers, a.w, to, q);
    assert FifoAt(s, q);
  }

  lemma FifoPop(s: State, w: nat, q: nat)
    requires ShapeOk(s) && Fifo(s) && Enabled(s, TryPop(w))
    requires q < |s.queues| && Tally(ServesAs, Next(s, TryPop(w)).value.workers, q) <= 1
    ensures FifoAt(Next(s, TryPop(w)).value, q)
  {
    var to := Next(s, TryPop(w)).value.workers[w];
    TallyUpdate(ServesAs, s.workers, w, to, q);
    TallyUpdate(Busy, s.workers, w, to, q);
    assert FifoAt(s, q);
  }

  lemma FifoFinish(s: State, w: nat, q: nat)
    requires ShapeOk(s) && Once(s) && Fifo(s) && Enabled(s, Finish(w))
    requires q < |s.queues| && Tally(ServesAs, Next(s, Finish(w)).value.workers, q) <= 1
    ensures FifoAt(Next(s, Finish(w)).value, q)
  {
    var s' := Next(s, Finish(w)).value;
    TallyUpdate(ServesAs, s.workers, w, s'.workers[w], q);
    TallyUpdate(Busy, s.workers, w, s'.workers[w], q);
    var done: seq<nat>, pos: nat := s.queues[q].executed, s.workers[w].pos;
    if s.workers[w].q == q {
      assert FifoAt(s, q);
      assert pos < |done| ==> done[pos] == pos;
      BusyOnce(s.workers, w, q);
      TallyCell(RunsAt, s.workers, (q, pos), w);
      CountPositive(done, pos);
      assert OnceAt(s, q, pos);
    }
  }

  lemma FifoStep(s: State, a: Action)
    requires ShapeOk(s) && Phases(s) && Once(s) && Fifo(s) && Enabled(s, a)
    ensures Fifo(Next(s, a).value)
  {
    var s' := Next(s, a).value;
    ShapeStep(s, a);
    forall q: nat | q < |s'.queues| && Tally(ServesAs, s'.workers, q) <= 1
      ensures FifoAt(s', q)
    {
      if a.Claim? || a.Wake? {
        FifoIdle(s, a, q);
      } else if a.TryPop? {
        FifoPop(s, a.w, q);
      } else if a.Finish? {
        FifoFinish(s, a.w, q);
      } else {
        QuietQueue(s, a, q);
        assert FifoAt(s, q);
      }
    }
  }

  // ----- The counters -----

  function IsFunc(job: Job, k: ()): int { if job.Func? then 1 else 0 }

  function Waiting(q: Queue, k: ()): int { Tally(IsFunc, q.tasks, ()) }

  function ThrownAway(q: Queue, k: ()): int { Tally(IsFunc, q.discarded, ()) }

  function RunsFunc(w: Worker, k: ()): int { if w.Running? && w.job.Func? then 1 else 0 }

  function InFlight(p: Producer, k: ()): int {
    if p.Counted? || p.Aimed? || (p.Ready? && p.job.Func?) then 1 else 0
  }

  /** Every counted function task is completed, waiting, running, in flight, dropped or thrown away. */
  ghost predicate Accounts(s: State) {
    s.scheduled == s.completed + |s.overflowed|
      + Tally(Waiting, s.queues, ()) + Tally(ThrownAway, s.queues, ())
      + Tally(RunsFunc, s.workers, ()) + Tally(InFlight, s.producers, ())
  }

  lemma SetQueueAccounts(queues: seq<Queue>, q: nat, to: Queue)
    requires q < |queues|
    ensures Tally(Waiting, queues[q := to], ()) == Tally(Waiting, queues, ()) - Waiting(queues[q], ()) + Waiting(to, ())
    ensures Tally(ThrownAway, queues[q := to], ())
         == Tally(ThrownAway, queues, ()) - ThrownAway(queues[q], ()) + ThrownAway(to, ())
  {
    TallyUpdate(Waiting, queues, q, to, ());
    TallyUpdate(ThrownAway, queues, q, to, ());
  }

  lemma ProducerAccounts(s: State, a: Action)
    requires ShapeOk(s) && Accounts(s) && Enabled(s, a) && (a.Accept? || a.Bump? || a.CheckSize? || a.Notify?)
    ensures Accounts(Next(s, a).value)
  {
    TallyUpdate(InFlight, s.producers, a.p, Next(s, a).value.producers[a.p], ());
  }

  lemma AimAccounts(s: State, a: Action)
    requires ShapeOk(s) && Accounts(s) && Enabled(s, a) && (a.Aim? || a.AimCoro?)
    ensures Accounts(Next(s, a).value)
  {
    var s' := Next(s, a).value;
    var q := s.next % |s.queues|;
    TallyUpdate(InFlight, s.producers, a.p, s'.producers[a.p], ());
    var job := if a.Aim? then s.producers[a.p].job else Coro(a.id);
    SetQueueAccounts(s.queues, q, Placed(s.queues[q], job));
  }

  lemma PushAccounts(s: State, p: nat)
    requires ShapeOk(s) && Accounts(s) && Enabled(s, Push(p))
    ensures Accounts(Next(s, Push(p)).value)
  {
    var q, job := s.producers[p].q, s.producers[p].job;
    TallyUpdate(InFlight, s.producers, p, Notifying(q), ());
    SetQueueAccounts(s.queues, q, Pushed(s.queues[q], job));
    TallyAppend(IsFunc, s.queues[q].tasks, [job], ());
  }

  lemma PopAccounts(s: State, w: nat)
    requires ShapeOk(s) && Accounts(s) && Enabled(s, TryPop(w))
    ensures Accounts(Next(s, TryPop(w)).value)
  {
    var q := s.workers[w].q;
    TallyUpdate(RunsFunc, s.workers, w, Next(s, TryPop(w)).value.workers[w], ());
    if s.queues[q].tasks != [] {
      SetQueueAccounts(s.queues, q, Popped(s.queues[q]));
    }
  }

  lemma FinishAccounts(s: State, w: nat)
    requires ShapeOk(s) && Accounts(s) && Enabled(s, Finish(w))
    ensures Accounts(Next(s, Finish(w)).value)
  {
    var q := s.workers[w].q;
    TallyUpdate(RunsFunc, s.workers, w, Polling(q), ());
    SetQueueAccounts(s.queues, q, s.queues[q].(executed := s.queues[q].executed + [s.workers[w].pos]));
  }

  lemma IdleAccounts(s: State, a: Action)
    requires ShapeOk(s) && Accounts(s) && Enabled(s, a) && (a.Claim? || a.Wake?)
    ensures Accounts(Next(s, a).value)
  {
    TallyUpdate(RunsFunc, s.workers, a.w, Next(s, a).value.workers[a.w], ());
  }

  lemma CleanAccounts(s: State)
    requires ShapeOk(s) && Accounts(s) && Enabled(s, Clean)
    ensures Accounts(Next(s, Clean).value)
  {
    var q := s.stopPc.q;
    SetQueueAccounts(s.queues, q, Cleared(s.queues[q]));
    TallyAppend(IsFunc, s.queues[q].discarded, s.queues[q].tasks, ());
  }

  lemma AccountsStep(s: State, a: Action)
    requires ShapeOk(s) && Accounts(s) && Enabled(s, a)
    ensures Accounts(Next(s, a).value)
  {
    match a {
      case Accept(_, _) => ProducerAccounts(s, a);
      case Bump(_) => ProducerAccounts(s, a);
      case CheckSize(_) => ProducerAccounts(s, a);
      case Notify(_) => ProducerAccounts(s, a);
      case Aim(_) => AimAccounts(s, a);
      case AimCoro(_, _) => AimAccounts(s, a);
      case Push(p) => PushAccounts(s, p);
      case TryPop(w) => PopAccounts(s, w);
      case Finish(w) => FinishAccounts(s, w);
      case Claim(_) => IdleAccounts(s, a);
      case Wake(_) => IdleAccounts(s, a);
      case Clean => CleanAccounts(s);
      case _ =>
    }
  }

  // ----- The size cap, with racing producers -----

  function PastCheck(p: Producer, q: nat): int { if p.Ready? && p.job.Func? && p.q == q then 1 else 0 }

  /** Function tasks in a queue, with those past the size check, stay below the cap plus the number of producers. */
  ghost predicate CapAt(s: State, q: nat)
    requires q < |s.queues|
  {
    Tally(IsFunc, s.queues[q].tasks, ()) + Tally(PastCheck, s.producers, q) <= s.maxQueue - 1 + |s.producers|
  }

  ghost predicate Capped(s: State) {
    s.maxQueue > 0 && forall q: nat :: q < |s.queues| ==> CapAt(s, q)
  }

  lemma CapCheck(s: State, p: nat, q: nat)
    requires ShapeOk(s) && Capped(s) && Enabled(s, CheckSize(p)) && q < |s.queues|
    ensures CapAt(Next(s, CheckSize(p)).value, q)
  {
    var s' := Next(s, CheckSize(p)).value;
    assert CapAt(s, q);
    TallyUpdate(PastCheck, s.producers, p, s'.producers[p], q);
    TallyAtMost(PastCheck, s'.producers, q, 1);
    TallyAtMost(IsFunc, s.queues[q].tasks, (), 1);
  }

  lemma CapPush(s: State, p: nat, q: nat)
    requires ShapeOk(s) && Capped(s) && Enabled(s, Push(p)) && q < |s.queues|
    ensures CapAt(Next(s, Push(p)).value, q)
  {
    assert CapAt(s, q);
    TallyUpdate(PastCheck, s.producers, p, Notifying(s.producers[p].q), q);
    TallyAppend(IsFunc, s.queues[q].tasks, [s.producers[p].job], ());
  }

  lemma CapProduce(s: State, a: Action, q: nat)
    requires ShapeOk(s) && Capped(s) && Enabled(s, a) && q < |s.queues|
    requires a.Accept? || a.Bump? || a.Aim? || a.AimCoro? || a.Notify?
    ensures CapAt(Next(s, a).value, q)
  {
    assert CapAt(s, q);
    TallyUpdate(PastCheck, s.producers, a.p, Next(s, a).value.producers[a.p], q);
  }

  lemma CapOther(s: State, a: Action, q: nat)
    requires ShapeOk(s) && Capped(s) && Enabled(s, a) && q < |s.queues|
    requires !(a.Accept? || a.Bump? || a.Aim? || a.AimCoro? || a.CheckSize? || a.Push? || a.Notify?)
    ensures CapAt(Next(s, a).value, q)
  {
    assert CapAt(s, q);
    TallyNonNegative(IsFunc, s.queues[q].tasks, ());
  }

  lemma CapStep(s: State, a: Action)
    requires ShapeOk(s) && Capped(s) && Enabled(s, a)
    ensures Capped(Next(s, a).value)
  {
    var s' := Next(s, a).value;
    ShapeStep(s, a);
    forall q: nat | q < |s'.queues| ensures CapAt(s', q) {
      match a {
        case CheckSize(p) => CapCheck(s, p, q);
        case Push(p) => CapPush(s, p, q);
        case Accept(_, _) => CapProduce(s, a, q);
        case Bump(_) => CapProduce(s, a, q);
        case Aim(_) => CapProduce(s, a, q);
        case AimCoro(_, _) => CapProduce(s, a, q);
        case Notify(_) => CapProduce(s, a, q);
        case _ => CapOther(s, a, q);
      }
    }
  }

  // ----- Round robin -----

  /** How many of the first `k` tickets fall on queue `q` of `n`. */
  function Share(k: nat, n: nat, q: nat): nat
    requires q < n
  {
    if k == 0 then 0 else Share(k - 1, n, q) + if (k - 1) % n == q then 1 else 0
  }

  lemma {:induction false} ShareIsEven(k: nat, n: nat, q: nat)
    requires q < n
    ensures Share(k, n, q) == k / n + if q < k % n then 1 else 0
  {
    if k > 0 {
      ShareIsEven(k - 1, n, q);
      NextTicket(k - 1, n);
    }
  }

  /** Any `n` consecutive tickets, from any base, fall on each of `n` queues exactly once. */
  lemma ConsecutiveTicketsCover(base: nat, n: nat, q: nat)
    requires q < n
    ensures Share(base + n, n, q) == Share(base, n, q) + 1
  {
    ShareIsEven(base, n, q);
    ShareIsEven(base + n, n, q);
    AddModulus(base, n);
  }

  ghost predicate RoundRobin(s: State) {
    forall q: nat :: q < |s.queues| ==> |s.queues[q].placed| == Share(s.next, |s.queues|, q)
  }

  lemma RoundRobinStep(s: State, a: Action)
    requires ShapeOk(s) && RoundRobin(s) && Enabled(s, a)
    ensures RoundRobin(Next(s, a).value)
  {
    ShapeStep(s, a);
    var s' := Next(s, a).value;
    forall q: nat | q < |s'.queues| ensures |s'.queues[q].placed| == Share(s'.next, |s'.queues|, q) {
      assert |s.queues[q].placed| == Share(s.next, |s.queues|, q);
    }
  }

  // ----- Which queues have a worker -----

  function Claimed(w: Worker, k: ()): int { if w.Starting? then 0 else 1 }

  /** How many of these tickets fall on queue `q` of `n`. */
  function Falling(claims: seq<nat>, n: nat, q: nat): nat
    requires n > 0
  {
    if claims == [] then 0
    else Falling(claims[..|claims| - 1], n, q) + if claims[|claims| - 1] % n == q then 1 else 0
  }

  lemma FallingNext(claims: seq<nat>, t: nat, n: nat, q: nat)
    requires n > 0
    ensures Falling(claims + [t], n, q) == Falling(claims, n, q) + if t % n == q then 1 else 0
  {
    assert (claims + [t])[..|claims|] == claims;
  }

  lemma {:induction false} FallingPositive(claims: seq<nat>, n: nat, q: nat)
    requires n > 0
    ensures Falling(claims, n, q) > 0 <==> exists k :: 0 <= k < |claims| && claims[k] % n == q
  {
    if claims != [] {
      var m := |claims| - 1;
      FallingPositive(claims[..m], n, q);
      assert forall k :: 0 <= k < m ==> claims[..m][k] == claims[k];
      if claims[m] % n != q && exists k :: 0 <= k < |claims| && claims[k] % n == q {
        var k :| 0 <= k < |claims| && claims[k] % n == q;
        assert claims[..m][k] % n == q;
      }
    }
  }

  /** Every worker took one ticket, and each queue has the workers whose tickets fall on it. */
  ghost predicate Tickets(s: State) {
    && |s.claims| == Tally(Claimed, s.workers, ())
    && forall q: nat :: q < |s.queues| ==> Tally(ServesAs, s.workers, q) == Falling(s.claims, |s.queues|, q)
  }

  lemma TicketsOfClaim(s: State, w: nat)
    requires ShapeOk(s) && Tickets(s) && Enabled(s, Claim(w))
    ensures Tickets(Next(s, Claim(w)).value)
  {
    var s' := Next(s, Claim(w)).value;
    TallyUpdate(Claimed, s.workers, w, s'.workers[w], ());
    forall q: nat | q < |s'.queues| ensures Tally(ServesAs, s'.workers, q) == Falling(s'.claims, |s'.queues|, q) {
      TallyUpdate(ServesAs, s.workers, w, s'.workers[w], q);
      FallingNext(s.claims, s.ticket, |s.queues|, q);
    }
  }

  predicate MovesWorker(a: Action) { a.TryPop? || a.Wake? || a.Finish? }

  /** A worker keeps its queue. */
  lemma QueueStays(s: State, a: Action)
    requires ShapeOk(s) && Enabled(s, a) && !a.Claim?
    ensures Next(s, a).value.claims == s.claims && |Next(s, a).value.queues| == |s.queues|
    ensures !MovesWorker(a) ==> Next(s, a).value.workers == s.workers
    ensures MovesWorker(a) ==> var to := Next(s, a).value.workers[a.w];
      && Next(s, a).value.workers == s.workers[a.w := to]
      && !to.Starting? && !s.workers[a.w].Starting? && to.q == s.workers[a.w].q
  {}

  lemma TicketsStep(s: State, a: Action)
    requires ShapeOk(s) && Tickets(s) && Enabled(s, a)
    ensures Tickets(Next(s, a).value)
  {
    if a.Claim? {
      TicketsOfClaim(s, a.w);
    } else {
      QueueStays(s, a);
      if MovesWorker(a) {
        SameQueueTallies(s.workers, a.w, Next(s, a).value.workers[a.w]);
      }
    }
  }

  lemma SameQueueTallies(workers: seq<Worker>, w: nat, to: Worker)
    requires w < |workers| && !workers[w].Starting? && !to.Starting? && to.q == workers[w].q
    ensures Tally(Claimed, workers[w := to], ()) == Tally(Claimed, workers, ())
    ensures forall q: nat :: Tally(ServesAs, workers[w := to], q) == Tally(ServesAs, workers, q)
  {
    TallyUpdate(Claimed, workers, w, to, ());
    forall q: nat ensures Tally(ServesAs, workers[w := to], q) == Tally(ServesAs, workers, q) {
      TallyUpdate(ServesAs, workers, w, to, q);
    }
  }

  // ----- Every run -----

  ghost predicate Inv(s: State) {
    && ShapeOk(s) && Logs(s) && Phases(s) && Once(s) && RunsItsJob(s) && Departures(s) && OnlyServedPops(s)
    && Fifo(s) && Accounts(s) && Capped(s) && RoundRobin(s) && Tickets(s)
  }

  lemma InitInv(s: State)
    requires Init(s)
    ensures Inv(s)
  {
    TallyZero(Waiting, s.queues, ());
    TallyZero(ThrownAway, s.queues, ());
    TallyZero(RunsFunc, s.workers, ());
    TallyZero(InFlight, s.producers, ());
    TallyZero(Claimed, s.workers, ());
    forall q: nat | q < |s.queues| ensures CapAt(s, q) && FifoAt(s, q) && Tally(ServesAs, s.workers, q) == 0 {
      TallyZero(PastCheck, s.producers, q);
      TallyZero(Busy, s.workers, q);
      TallyZero(ServesAs, s.workers, q);
    }
    forall q: nat, pos: nat | q < |s.queues| ensures OnceAt(s, q, pos) {
      TallyZero(RunsAt, s.workers, (q, pos));
    }
  }

  lemma StepInv(s: State, a: Action)
    requires Inv(s) && Enabled(s, a)
    ensures Inv(Next(s, a).value)
  {
    ShapeStep(s, a);
    LogsStep(s, a);
    PhasesStep(s, a);
    OnceStep(s, a);
    RunsItsJobStep(s, a);
    DeparturesStep(s, a);
    OnlyServedPopsStep(s, a);
    FifoStep(s, a);
    AccountsStep(s, a);
    CapStep(s, a);
    RoundRobinStep(s, a);
    TicketsStep(s, a);
  }

  lemma ReachableInv(s0: State, run: seq<Action>, s: State)
    requires Init(s0) && Exec(Next, s0, run) == Some(s)
    ensures Inv(s)
  {
    InitInv(s0);
    forall s, a | Inv(s) && Next(s, a).Some? ensures Inv(Next(s, a).value) { StepInv(s, a); }
    Invariance(Next, Inv, s0, run);
  }

  /** All workers have been joined. */
  predicate JoinedAll(s: State) { s.stopPc.Cleaning? || s.stopPc.Stopped? }

  ghost predicate ExecutedOnce(q: Queue, upTo: nat) {
    forall pos: nat :: pos < upTo ==> Count(q.executed, pos) == 1
  }

  /**
   * Once `stop` has joined the workers, the tasks pushed to a queue before the stop flag was set have
   * each been executed exactly once if and only if the queue had a worker (or there were none).
   */
  lemma DrainedIffServed(s0: State, run: seq<Action>, s: State, q: nat)
    requires Init(s0) && Exec(Next, s0, run) == Some(s) && JoinedAll(s) && q < |s.queues|
    ensures |s.early| == |s.queues|
    ensures ExecutedOnce(s.queues[q], s.early[q]) <==> Served(s, q) || s.early[q] == 0
    ensures !Served(s, q) ==> forall pos: nat :: Count(s.queues[q].executed, pos) == 0
  {
    ReachableInv(s0, run, s);
    assert s.stopFlag;
    NobodyRuns(s, q);
    if Served(s, q) {
      var w :| 0 <= w < |s.workers| && Serves(s.workers[w], q);
      assert LeftDrained(s, w);
    } else if s.early[q] > 0 {
      assert Count(s.queues[q].executed, 0) == 0;
    }
  }

  lemma NobodyRuns(s: State, q: nat)
    requires Once(s) && AllLeft(s) && q < |s.queues|
    ensures forall pos: nat :: Count(s.queues[q].executed, pos) == if pos < s.queues[q].popped then 1 else 0
  {
    forall pos: nat ensures Count(s.queues[q].executed, pos) == if pos < s.queues[q].popped then 1 else 0 {
      assert OnceAt(s, q, pos);
      TallyZero(RunsAt, s.workers, (q, pos));
    }
  }

  /**
   * At every moment a log position is executed at most once, and what cleanup throws away came after the
   * worker left.
   */
  lemma DiscardedOnlyLatecomers(s0: State, run: seq<Action>, s: State, q: nat, w: nat)
    requires Init(s0) && Exec(Next, s0, run) == Some(s) && q < |s.queues|
    ensures forall pos: nat :: Count(s.queues[q].executed, pos) <= 1
    ensures s.queues[q].popped + |s.queues[q].discarded| <= |s.queues[q].pushed|
    ensures var queue := s.queues[q];
      queue.discarded == queue.pushed[queue.popped..queue.popped + |queue.discarded|]
    ensures w < |s.workers| && s.workers[w].Exited? && s.workers[w].q == q ==> s.workers[w].seen <= s.queues[q].popped
  {
    ReachableInv(s0, run, s);
    AtMostOnce(s, q);
    assert LogOk(s.queues[q]);
    if w < |s.workers| { assert LeftDrained(s, w); }
  }

  lemma AtMostOnce(s: State, q: nat)
    requires Once(s) && q < |s.queues|
    ensures forall pos: nat :: Count(s.queues[q].executed, pos) <= 1
  {
    forall pos: nat ensures Count(s.queues[q].executed, pos) <= 1 {
      assert OnceAt(s, q, pos);
      TallyNonNegative(RunsAt, s.workers, (q, pos));
    }
  }

  /** A queue has a worker exactly when the ticket of one of this scheduler's workers falls on it. */
  lemma ServedIffTicketFalls(s0: State, run: seq<Action>, s: State, q: nat)
    requires Init(s0) && Exec(Next, s0, run) == Some(s) && q < |s.queues|
    ensures Served(s, q) <==> exists k :: 0 <= k < |s.claims| && s.claims[k] % |s.queues| == q
  {
    ReachableInv(s0, run, s);
    ServedIff(s, q);
  }

  lemma ServedIff(s: State, q: nat)
    requires Tickets(s) && q < |s.queues|
    ensures Served(s, q) <==> exists k :: 0 <= k < |s.claims| && s.claims[k] % |s.queues| == q
  {
    FallingPositive(s.claims, |s.queues|, q);
    if w: nat :| w < |s.workers| && Serves(s.workers[w], q) {
      TallyCell(ServesAs, s.workers, q, w);
    }
    if Falling(s.claims, |s.queues|, q) > 0 {
      var w := TallySource(ServesAs, s.workers, q);
    }
  }

  function JobsAt(log: seq<Job>, positions: seq<nat>): seq<Job>
    requires forall k :: 0 <= k < |positions| ==> positions[k] < |log|
  {
    seq(|positions|, k requires 0 <= k < |positions| => log[positions[k]])
  }

  lemma LogSplits(q: Queue)
    requires LogOk(q) && InOrder(q.executed) && |q.executed| <= q.popped
    ensures forall k :: 0 <= k < |q.executed| ==> q.executed[k] < |q.pushed|
    ensures q.pushed == JobsAt(q.pushed, q.executed) + q.pushed[|q.executed|..q.popped] + q.discarded + q.tasks
  {
    assert JobsAt(q.pushed, q.executed) == q.pushed[..|q.executed|];
  }

  /** With at most one worker, a queue is a FIFO log: executed, running, discarded and waiting, in push order. */
  lemma QueueIsFifoLog(s0: State, run: seq<Action>, s: State, q: nat) returns (running: seq<Job>)
    requires Init(s0) && Exec(Next, s0, run) == Some(s) && q < |s.queues| && Tally(ServesAs, s.workers, q) <= 1
    ensures forall k :: 0 <= k < |s.queues[q].executed| ==> s.queues[q].executed[k] < |s.queues[q].pushed|
    ensures s.queues[q].pushed
         == JobsAt(s.queues[q].pushed, s.queues[q].executed) + running + s.queues[q].discarded + s.queues[q].tasks
    ensures |running| <= 1
    ensures running != [] ==>
      exists w :: 0 <= w < |s.workers| && s.workers[w] == Running(q, running[0], |s.queues[q].executed|)
    ensures running == [] ==> forall w :: 0 <= w < |s.workers| && s.workers[w].Running? ==> s.workers[w].q != q
  {
    ReachableInv(s0, run, s);
    assert LogOk(s.queues[q]) && FifoAt(s, q);
    BusyAtMostServes(s.workers, q);
    LogSplits(s.queues[q]);
    running := s.queues[q].pushed[|s.queues[q].executed|..s.queues[q].popped];
    RunningNow(s, q);
  }

  lemma RunningNow(s: State, q: nat)
    requires Tally(Busy, s.workers, q) <= 1 && Once(s) && RunsItsJob(s) && q < |s.queues| && FifoAt(s, q)
    requires |s.queues[q].executed| <= s.queues[q].popped
    ensures s.queues[q].popped > |s.queues[q].executed| ==>
      exists w :: 0 <= w < |s.workers| && s.workers[w].Running? && s.workers[w].q == q
               && s.workers[w].pos == |s.queues[q].executed| < |s.queues[q].pushed|
               && s.workers[w].job == s.queues[q].pushed[|s.queues[q].executed|]
    ensures s.queues[q].popped == |s.queues[q].executed| ==>
      forall w :: 0 <= w < |s.workers| && s.workers[w].Running? ==> s.workers[w].q != q
  {
    if s.queues[q].popped > |s.queues[q].executed| {
      var w := TallySource(Busy, s.workers, q);
      OnlyOneRuns(s, q, w);
    } else {
      forall w: nat | w < |s.workers| && s.workers[w].Running? ensures s.workers[w].q != q {
        TallyCell(Busy, s.workers, q, w);
      }
    }
  }

  lemma OnlyOneRuns(s: State, q: nat, w: nat)
    requires Once(s) && RunsItsJob(s) && q < |s.queues| && FifoAt(s, q)
    requires w < |s.workers| && s.workers[w].Running? && s.workers[w].q == q
    requires s.queues[q].popped == |s.queues[q].executed| + 1
    ensures s.workers[w].pos == |s.queues[q].executed|
  {
    var done: seq<nat>, pos: nat := s.queues[q].executed, s.workers[w].pos;
    assert pos < |done| ==> done[pos] == pos;
    TallyCell(RunsAt, s.workers, (q, pos), w);
    CountPositive(done, pos);
    assert OnceAt(s, q, pos);
  }

  /** The counters always add up. */
  lemma ScheduledIsAccountedFor(s0: State, run: seq<Action>, s: State)
    requires Init(s0) && Exec(Next, s0, run) == Some(s)
    ensures Accounts(s)
    ensures (forall p :: 0 <= p < |s.producers| ==> s.producers[p].Outside?) && s.stopPc.Stopped?
            ==> s.scheduled
                == s.completed + |s.overflowed| + Tally(Waiting, s.queues, ()) + Tally(ThrownAway, s.queues, ())
  {
    ReachableInv(s0, run, s);
    if (forall p :: 0 <= p < |s.producers| ==> s.producers[p].Outside?) && s.stopPc.Stopped? {
      TallyZero(InFlight, s.producers, ());
      TallyZero(RunsFunc, s.workers, ());
    }
  }

  /** The size check and the push are separate steps: racing producers overshoot the cap, by less than their number. */
  lemma CapHolds(s0: State, run: seq<Action>, s: State, q: nat)
    requires Init(s0) && Exec(Next, s0, run) == Some(s) && q < |s.queues|
    ensures Tally(IsFunc, s.queues[q].tasks, ()) <= s.maxQueue - 1 + |s.producers|
    ensures |s.producers| <= 1 ==> Tally(IsFunc, s.queues[q].tasks, ()) <= s.maxQueue
  {
    ReachableInv(s0, run, s);
    CapBounds(s, q);
  }

  lemma CapBounds(s: State, q: nat)
    requires Capped(s) && q < |s.queues|
    ensures Tally(IsFunc, s.queues[q].tasks, ()) <= s.maxQueue - 1 + |s.producers|
  {
    assert CapAt(s, q);
    TallyNonNegative(PastCheck, s.producers, q);
  }

  /** Placement is round robin: after k placements each of n queues got floor(k / n) or one more. */
  lemma PlacementIsEven(s0: State, run: seq<Action>, s: State, q: nat)
    requires Init(s0) && Exec(Next, s0, run) == Some(s) && q < |s.queues|
    ensures |s.queues[q].placed| == s.next / |s.queues| + if q < s.next % |s.queues| then 1 else 0
  {
    ReachableInv(s0, run, s);
    ShareIsEven(s.next, |s.queues|, q);
  }
}
