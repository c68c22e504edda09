/** The work-stealing scheduler: owners pop the newest task of their deque, thieves take the oldest of another. */
module WorkStealing {
  import opened Wrappers
  import opened Runs
  import opened Folds

  /** Tasks are numbered in push order. `stolenLog` is history; the other fields are the source's. */
  datatype Deque = Deque(tasks: seq<nat>, size: int, executed: nat, stolen: nat, stolenLog: seq<nat>)

  function PushedLocal(d: Deque, task: nat): Deque {
    d.(tasks := d.tasks + [task], size := d.size + 1)
  }

  function PoppedLocal(d: Deque): Deque
    requires d.tasks != []
  {
    d.(tasks := d.tasks[..|d.tasks| - 1], size := d.size - 1)
  }

  function StolenFrom(d: Deque): Deque
    requires d.tasks != []
  {
    d.(tasks := d.tasks[1..], size := d.size - 1, stolen := d.stolen + 1, stolenLog := d.stolenLog + [d.tasks[0]])
  }

  /** The queue that a thief tries for a random draw: the drawn one, or the one after when it drew itself. */
  function VictimOf(draw: nat, self: nat, n: nat): nat
    requires n > 0
  {
    if draw == self then (draw + 1) % n else draw
  }

  /** A thief can end up at every queue but its own, and never at its own. */
  lemma VictimIsAnyOther(self: nat, n: nat, v: nat)
    requires 1 < n && self < n && v < n
    ensures v != self <==> exists draw: nat :: draw < n && VictimOf(draw, self, n) == v
  {
    if v != self {
      assert VictimOf(v, self, n) == v;
    }
  }

  datatype Worker =
    | Top                        // before the stop check
    | Looking                    // about to pop its own deque
    | Hungry                     // own deque was empty
    | Stealing(left: nat)        // total_steals counted, attempts left
    | Stole(task: nat)           // taken, successful_steals not counted yet
    | GaveUp                     // attempts used up, failed_steals not counted yet
    | Holding(task: nat)         // about to run it
    | Ran                        // task returned, executed_tasks not counted yet
    | HalfCounted                // executed_tasks counted, total_completed_ not yet
    | Waiting
    | Resetting(stage: nat)      // storing zero to the three steal counters, one by one
    | Gone

  datatype Producer =
    | Outside
    | FallingBack                // schedule_with_affinity with no valid queue: counted, then counted again
    | Counted
    | Dealing(left: nat, q: nat) // inside schedule_batch

  datatype State = State(
    deques: seq<Deque>,
    workers: seq<Worker>,
    producers: seq<Producer>,
    pushed: nat,
    completedLog: seq<nat>,
    threwLog: seq<nat>,
    stop: bool,
    scheduled: nat, completed: nat,
    totalSteals: nat, successfulSteals: nat, failedSteals: nat,
    overcounted: nat,            // fallbacks and empty batch entries
    wipedTotal: nat, wipedSuccessful: nat, wipedFailed: nat)  // what resets have zeroed

  datatype Action =
    | Schedule(p: nat)
    | Fallback(p: nat)
    | PushTo(p: nat, q: nat)
    | Batch(p: nat, full: nat, empty: nat)
    | Deal(p: nat)
    | CheckStop(w: nat)
    | PopLocal(w: nat)
    | BeginSteal(w: nat)
    | Attempt(w: nat, draw: nat)
    | CountSteal(w: nat)
    | CountFailure(w: nat)
    | Run(w: nat, throws: bool)
    | CountExecuted(w: nat)
    | CountCompleted(w: nat)
    | WakeUp(w: nat, reset: bool)
    | Reset(w: nat)
    | SetStop

  ghost predicate SizesOk(s: State) {
    |s.deques| == |s.workers| > 0 && forall q :: 0 <= q < |s.deques| ==> s.deques[q].size == |s.deques[q].tasks|
  }

  ghost predicate DealersOk(s: State) {
    forall p :: 0 <= p < |s.producers| && s.producers[p].Dealing? ==>
      s.producers[p].q < |s.deques| && s.producers[p].left > 0
  }

  ghost predicate ThievesOk(s: State) {
    forall w :: 0 <= w < |s.workers| && s.workers[w].Stealing? ==> 0 < s.workers[w].left && 1 < |s.deques|
  }

  ghost predicate ShapeOk(s: State) { SizesOk(s) && DealersOk(s) && ThievesOk(s) }

  predicate AtWorker(s: State, w: nat) { w < |s.workers| && w < |s.deques| }

  predicate Enabled(s: State, a: Action) {
    match a
    case Schedule(p) => p < |s.producers| && (s.producers[p].Outside? || s.producers[p].FallingBack?)
    case Fallback(p) => p < |s.producers| && s.producers[p].Outside?
    case PushTo(p, q) => p < |s.producers| && s.producers[p].Counted? && q < |s.deques|
    case Batch(p, full, empty) => p < |s.producers| && s.producers[p].Outside? && full + empty > 0 && |s.deques| > 0
    case Deal(p) =>
      p < |s.producers| && s.producers[p].Dealing? && s.producers[p].left > 0 && s.producers[p].q < |s.deques|
    case CheckStop(w) => AtWorker(s, w) && s.workers[w].Top?
    case PopLocal(w) => AtWorker(s, w) && s.workers[w].Looking?
    case BeginSteal(w) => AtWorker(s, w) && s.workers[w].Hungry?
    case Attempt(w, draw) => AtWorker(s, w) && s.workers[w].Stealing? && s.workers[w].left > 0 && draw < |s.deques|
    case CountSteal(w) => AtWorker(s, w) && s.workers[w].Stole?
    case CountFailure(w) => AtWorker(s, w) && s.workers[w].GaveUp?
    case Run(w, _) => AtWorker(s, w) && s.workers[w].Holding?
    case CountExecuted(w) => AtWorker(s, w) && s.workers[w].Ran?
    case CountCompleted(w) => AtWorker(s, w) && s.workers[w].HalfCounted?
    case WakeUp(w, _) => AtWorker(s, w) && s.workers[w].Waiting?
    case Reset(w) => AtWorker(s, w) && s.workers[w].Resetting?
    case SetStop => true
  }

  function Work(s: State, w: nat, to: Worker): State
    requires w < |s.workers|
  {
    s.(workers := s.workers[w := to])
  }

  function Produce(s: State, p: nat, to: Producer): State
    requires p < |s.producers|
  {
    s.(producers := s.producers[p := to])
  }

  function SetDeque(s: State, q: nat, to: Deque): State
    requires q < |s.deques|
  {
    s.(deques := s.deques[q := to])
  }

  /** One push: the next number goes to the back of deque `q`. */
  function PushNext(s: State, q: nat): State
    requires q < |s.deques|
  {
    SetDeque(s, q, PushedLocal(s.deques[q], s.pushed)).(pushed := s.pushed + 1)
  }

  function AfterAttempt(left: nat): Worker
    requires left > 0
  {
    if left == 1 then GaveUp else Stealing(left - 1)
  }

  function ResetStage(s: State, w: nat): State
    requires w < |s.workers| && s.workers[w].Resetting?
  {
    var stage := s.workers[w].stage;
    if stage == 0 then
      Work(s, w, Resetting(1)).(totalSteals := 0, wipedTotal := s.wipedTotal + s.totalSteals)
    else if stage == 1 then
      Work(s, w, Resetting(2)).(successfulSteals := 0, wipedSuccessful := s.wipedSuccessful + s.successfulSteals)
    else
      Work(s, w, Top).(failedSteals := 0, wipedFailed := s.wipedFailed + s.failedSteals)
  }

  function Next(s: State, a: Action): Option<State> {
    if !Enabled(s, a) then None
    else Some(match a
      case Schedule(p) => Produce(s, p, Counted).(scheduled := s.scheduled + 1)
      case Fallback(p) =>
        Produce(s, p, FallingBack).(scheduled := s.scheduled + 1, overcounted := s.overcounted + 1)
      case PushTo(p, q) => PushNext(Produce(s, p, Outside), q)
      case Batch(p, full, empty) =>
        Produce(s, p, if full == 0 then Outside else Dealing(full, 0))
        .(scheduled := s.scheduled + full + empty, overcounted := s.overcounted + empty)
      case Deal(p) =>
        var pr := s.producers[p];
        PushNext(Produce(s, p, if pr.left == 1 then Outside else Dealing(pr.left - 1, (pr.q + 1) % |s.deques|)), pr.q)
      case CheckStop(w) => Work(s, w, if s.stop then Gone else Looking)
      case PopLocal(w) =>
        var d := s.deques[w];
        if d.tasks == [] then Work(s, w, Hungry)
        else SetDeque(Work(s, w, Holding(d.tasks[|d.tasks| - 1])), w, PoppedLocal(d))
      case BeginSteal(w) =>
        if |s.deques| <= 1 then Work(s, w, Waiting)
        else Work(s, w, Stealing(|s.deques| - 1)).(totalSteals := s.totalSteals + 1)
      case Attempt(w, draw) =>
        var v := VictimOf(draw, w, |s.deques|);
        var d := s.deques[v];
        if d.tasks == [] then Work(s, w, AfterAttempt(s.workers[w].left))
        else SetDeque(Work(s, w, Stole(d.tasks[0])), v, StolenFrom(d))
      case CountSteal(w) => Work(s, w, Holding(s.workers[w].task)).(successfulSteals := s.successfulSteals + 1)
      case CountFailure(w) => Work(s, w, Waiting).(failedSteals := s.failedSteals + 1)
      case Run(w, throws) =>
        if throws then Work(s, w, Top).(threwLog := s.threwLog + [s.workers[w].task])
        else Work(s, w, Ran).(completedLog := s.completedLog + [s.workers[w].task])
      case CountExecuted(w) =>
        SetDeque(Work(s, w, HalfCounted), w, s.deques[w].(executed := s.deques[w].executed + 1))
      case CountCompleted(w) => Work(s, w, Top).(completed := s.completed + 1)
      case WakeUp(w, reset) => Work(s, w, if reset then Resetting(0) else Top)
      case Reset(w) => ResetStage(s, w)
      case SetStop => s.(stop := true))
  }

  predicate Init(s: State) {
    && |s.deques| == |s.workers| > 0
    && (forall q :: 0 <= q < |s.deques| ==> s.deques[q] == Deque([], 0, 0, 0, []))
    && (forall w :: 0 <= w < |s.workers| ==> s.workers[w].Top?)
    && (forall p :: 0 <= p < |s.producers| ==> s.producers[p].Outside?)
    && s.pushed == 0 && s.completedLog == [] && s.threwLog == [] && !s.stop
    && s.scheduled == s.completed == s.totalSteals == s.successfulSteals == s.failedSteals == s.overcounted == 0
    && s.wipedTotal == s.wipedSuccessful == s.wipedFailed == 0
  }

  lemma SizesStep(s: State, a: Action)
    requires SizesOk(s) && Enabled(s, a)
    ensures SizesOk(Next(s, a).value) && |Next(s, a).value.deques| == |s.deques|
  {
    DequesStay(s, a);
    forall q: nat | q < |s.deques| ensures Next(s, a).value.deques[q].size == |Next(s, a).value.deques[q].tasks| {
      SizeStep(s, a, q);
    }
  }

  lemma SizeStep(s: State, a: Action, q: nat)
    requires Enabled(s, a) && q < |s.deques| && s.deques[q].size == |s.deques[q].tasks|
    ensures |Next(s, a).value.deques| == |s.deques|
    ensures Next(s, a).value.deques[q].size == |Next(s, a).value.deques[q].tasks|
  {}

  lemma DealersStep(s: State, a: Action)
    requires DealersOk(s) && Enabled(s, a)
    ensures DealersOk(Next(s, a).value)
  {
    var s' := Next(s, a).value;
    DequesStay(s, a);
    forall p: nat | p < |s'.producers| && s'.producers[p].Dealing?
      ensures s'.producers[p].q < |s'.deques| && s'.producers[p].left > 0
    {
      DealingFrom(s, a, p);
    }
  }

  lemma DealingFrom(s: State, a: Action, p: nat)
    requires Enabled(s, a) && p < |Next(s, a).value.producers| && Next(s, a).value.producers[p].Dealing?
    ensures p < |s.producers|
    ensures var to := Next(s, a).value.producers[p];
      to == s.producers[p] || (to.q < |s.deques| && to.left > 0)
  {}

  lemma ThievesStep(s: State, a: Action)
    requires ThievesOk(s) && Enabled(s, a)
    ensures ThievesOk(Next(s, a).value)
  {
    var s' := Next(s, a).value;
    DequesStay(s, a);
    forall w: nat | w < |s'.workers| && s'.workers[w].Stealing? ensures 0 < s'.workers[w].left && 1 < |s'.deques| {
      StealingBegan(s, a, w);
    }
  }

  lemma DequesStay(s: State, a: Action)
    requires Enabled(s, a)
    ensures |Next(s, a).value.deques| == |s.deques| && |Next(s, a).value.workers| == |s.workers|
  {}

  lemma StealingBegan(s: State, a: Action, w: nat)
    requires Enabled(s, a) && w < |s.workers| && w < |Next(s, a).value.workers| && Next(s, a).value.workers[w].Stealing?
    ensures s.workers[w].Stealing? || a == BeginSteal(w)
    ensures a == BeginSteal(w) ==> |s.deques| > 1 && Next(s, a).value.workers[w].left == |s.deques| - 1
    ensures a != BeginSteal(w) ==> 0 < Next(s, a).value.workers[w].left || s.workers[w] == Next(s, a).value.workers[w]
  {}

  lemma ShapeStep(s: State, a: Action)
    requires ShapeOk(s) && Enabled(s, a)
    ensures ShapeOk(Next(s, a).value) && |Next(s, a).value.deques| == |s.deques|
  {
    SizesStep(s, a);
    DealersStep(s, a);
    ThievesStep(s, a);
  }

  // ----- Conservation -----

  function DequeHolds(d: Deque, id: nat): int { Count(d.tasks, id) }

  function WorkerHolds(w: Worker, id: nat): int {
    if (w.Stole? || w.Holding?) && w.task == id then 1 else 0
  }

  /** In how many places task `id` is: deques, workers' hands, completed, failed by exception. */
  function Places(s: State, id: nat): int {
    Tally(DequeHolds, s.deques, id) + Tally(WorkerHolds, s.workers, id)
    + Count(s.completedLog, id) + Count(s.threwLog, id)
  }

  ghost predicate Conserved(s: State) {
    forall id: nat :: Places(s, id) == if id < s.pushed then 1 else 0
  }

  lemma PushPlaces(s: State, a: Action, id: nat)
    requires ShapeOk(s) && Enabled(s, a) && (a.PushTo? || a.Deal?)
    ensures Places(Next(s, a).value, id) == Places(s, id) + if id == s.pushed then 1 else 0
    ensures Next(s, a).value.pushed == s.pushed + 1
  {
    var q := if a.PushTo? then a.q else s.producers[a.p].q;
    TallyUpdate(DequeHolds, s.deques, q, PushedLocal(s.deques[q], s.pushed), id);
    TallyAppend(Same<nat>, s.deques[q].tasks, [s.pushed], id);
  }

  /** One worker and one deque change; the logs stay. */
  lemma MovedPlaces(s: State, s': State, w: nat, to: Worker, q: nat, d: Deque, id: nat)
    requires w < |s.workers| && q < |s.deques| && s'.workers == s.workers[w := to] && s'.deques == s.deques[q := d]
    requires s'.completedLog == s.completedLog && s'.threwLog == s.threwLog
    ensures Places(s', id) == Places(s, id) - WorkerHolds(s.workers[w], id) + WorkerHolds(to, id)
                            - DequeHolds(s.deques[q], id) + DequeHolds(d, id)
  {
    TallyUpdate(WorkerHolds, s.workers, w, to, id);
    TallyUpdate(DequeHolds, s.deques, q, d, id);
  }

  lemma PoppedHolds(d: Deque, id: nat)
    requires d.tasks != []
    ensures DequeHolds(PoppedLocal(d), id) == DequeHolds(d, id) - Same(d.tasks[|d.tasks| - 1], id)
  {
    var n := |d.tasks| - 1;
    assert d.tasks == d.tasks[..n] + [d.tasks[n]];
    TallyAppend(Same<nat>, d.tasks[..n], [d.tasks[n]], id);
  }

  lemma PopPlaces(s: State, w: nat, id: nat)
    requires Enabled(s, PopLocal(w))
    ensures Places(Next(s, PopLocal(w)).value, id) == Places(s, id)
  {
    var s' := Next(s, PopLocal(w)).value;
    MovedPlaces(s, s', w, s'.workers[w], w, s'.deques[w], id);
    if s.deques[w].tasks != [] { PoppedHolds(s.deques[w], id); }
  }

  lemma StealPlaces(s: State, w: nat, draw: nat, id: nat)
    requires Enabled(s, Attempt(w, draw))
    ensures Places(Next(s, Attempt(w, draw)).value, id) == Places(s, id)
  {
    var s' := Next(s, Attempt(w, draw)).value;
    var v := VictimOf(draw, w, |s.deques|);
    MovedPlaces(s, s', w, s'.workers[w], v, s'.deques[v], id);
  }

  lemma RunPlaces(s: State, w: nat, throws: bool, id: nat)
    requires ShapeOk(s) && Enabled(s, Run(w, throws))
    ensures Places(Next(s, Run(w, throws)).value, id) == Places(s, id)
  {
    TallyUpdate(WorkerHolds, s.workers, w, if throws then Top else Ran, id);
    TallyAppend(Same<nat>, s.threwLog, [s.workers[w].task], id);
    TallyAppend(Same<nat>, s.completedLog, [s.workers[w].task], id);
  }

  lemma CountPlaces(s: State, w: nat, id: nat)
    requires Enabled(s, CountExecuted(w))
    ensures Places(Next(s, CountExecuted(w)).value, id) == Places(s, id)
  {
    var s' := Next(s, CountExecuted(w)).value;
    MovedPlaces(s, s', w, HalfCounted, w, s'.deques[w], id);
  }

  predicate MovesWorkerOnly(a: Action) {
    a.CheckStop? || a.BeginSteal? || a.CountSteal? || a.CountFailure? || a.CountCompleted? || a.WakeUp? || a.Reset?
  }

  lemma WorkerFrame(s: State, a: Action, id: nat)
    requires Enabled(s, a) && MovesWorkerOnly(a)
    ensures var s' := Next(s, a).value;
      && s'.deques == s.deques && s'.completedLog == s.completedLog && s'.threwLog == s.threwLog
      && s'.pushed == s.pushed
      && |s'.workers| == |s.workers| && s'.workers == s.workers[a.w := s'.workers[a.w]]
      && WorkerHolds(s'.workers[a.w], id) == WorkerHolds(s.workers[a.w], id)
  {}

  lemma WorkerPlaces(s: State, a: Action, id: nat)
    requires Enabled(s, a) && MovesWorkerOnly(a)
    ensures Places(Next(s, a).value, id) == Places(s, id)
  {
    WorkerFrame(s, a, id);
    var s' := Next(s, a).value;
    assert s'.deques == s.deques[a.w := s.deques[a.w]];
    MovedPlaces(s, s', a.w, s'.workers[a.w], a.w, s.deques[a.w], id);
  }

  lemma ConservedStep(s: State, a: Action)
    requires ShapeOk(s) && Conserved(s) && Enabled(s, a)
    ensures Conserved(Next(s, a).value)
  {
    var s' := Next(s, a).value;
    forall id: nat ensures Places(s', id) == if id < s'.pushed then 1 else 0 {
      assert Places(s, id) == if id < s.pushed then 1 else 0;
      match a {
        case PushTo(_, _) => PushPlaces(s, a, id);
        case Deal(_) => PushPlaces(s, a, id);
        case PopLocal(w) => PopPlaces(s, w, id);
        case Attempt(w, draw) => StealPlaces(s, w, draw, id);
        case Run(w, throws) => RunPlaces(s, w, throws, id);
        case CountExecuted(w) => CountPlaces(s, w, id);
        case Schedule(_) =>
        case Fallback(_) =>
        case Batch(_, _, _) =>
        case SetStop =>
        case _ => WorkerPlaces(s, a, id);
      }
    }
  }

  // ----- Order -----

  predicate Increasing(xs: seq<nat>) { forall i, j :: 0 <= i < j < |xs| ==> xs[i] < xs[j] }

  /** Stolen tasks, then the deque: one strictly increasing sequence of push numbers. */
  predicate DequeOrdered(d: Deque, pushed: nat) {
    && Increasing(d.stolenLog + d.tasks)
    && (forall i :: 0 <= i < |d.tasks| ==> d.tasks[i] < pushed)
    && (forall i :: 0 <= i < |d.stolenLog| ==> d.stolenLog[i] < pushed)
  }

  ghost predicate Ordered(s: State) {
    forall q :: 0 <= q < |s.deques| ==> DequeOrdered(s.deques[q], s.pushed)
  }

  lemma PushKeepsOrder(d: Deque, pushed: nat)
    requires DequeOrdered(d, pushed)
    ensures DequeOrdered(PushedLocal(d, pushed), pushed + 1)
  {
    assert d.stolenLog + (d.tasks + [pushed]) == (d.stolenLog + d.tasks) + [pushed];
    forall i | 0 <= i < |d.stolenLog + d.tasks| ensures (d.stolenLog + d.tasks)[i] < pushed {}
  }

  lemma PopKeepsOrder(d: Deque, pushed: nat)
    requires DequeOrdered(d, pushed) && d.tasks != [] && d.size == |d.tasks|
    ensures DequeOrdered(PoppedLocal(d), pushed)
    ensures forall i :: 0 <= i < |d.tasks| - 1 ==> d.tasks[i] < d.tasks[|d.tasks| - 1]
  {
    var all := d.stolenLog + d.tasks;
    assert d.stolenLog + d.tasks[..|d.tasks| - 1] == all[..|all| - 1];
    forall i | 0 <= i < |d.tasks| - 1 ensures d.tasks[i] < d.tasks[|d.tasks| - 1] {
      assert all[|d.stolenLog| + i] < all[|all| - 1];
    }
  }

  lemma StealKeepsOrder(d: Deque, pushed: nat)
    requires DequeOrdered(d, pushed) && d.tasks != [] && d.size == |d.tasks|
    ensures DequeOrdered(StolenFrom(d), pushed)
  {
    assert (d.stolenLog + [d.tasks[0]]) + d.tasks[1..] == d.stolenLog + d.tasks;
  }

  /** What one action may do to one deque. */
  ghost predicate DequeMoves(d: Deque, d': Deque, pushed: nat, pushed': nat) {
    || (d' == PushedLocal(d, pushed) && pushed' == pushed + 1)
    || (pushed <= pushed' && d' == d)
    || (pushed' == pushed && d.tasks != [] && d.size == |d.tasks| && (d' == PoppedLocal(d) || d' == StolenFrom(d)))
    || (pushed' == pushed && d' == d.(executed := d.executed + 1))
  }

  lemma DequeStep(s: State, a: Action, q: nat)
    requires ShapeOk(s) && Enabled(s, a) && q < |s.deques|
    ensures |Next(s, a).value.deques| == |s.deques|
    ensures DequeMoves(s.deques[q], Next(s, a).value.deques[q], s.pushed, Next(s, a).value.pushed)
  {}

  lemma OrderedStep(s: State, a: Action)
    requires ShapeOk(s) && Ordered(s) && Enabled(s, a)
    ensures Ordered(Next(s, a).value)
  {
    var s' := Next(s, a).value;
    ShapeStep(s, a);
    forall q: nat | q < |s'.deques| ensures DequeOrdered(s'.deques[q], s'.pushed) {
      DequeStep(s, a, q);
      var d, d' := s.deques[q], s'.deques[q];
      if d' == PushedLocal(d, s.pushed) {
        PushKeepsOrder(d, s.pushed);
      } else if d.tasks != [] && d.size == |d.tasks| {
        PopKeepsOrder(d, s.pushed);
        StealKeepsOrder(d, s.pushed);
      }
    }
  }

  // ----- Counters -----

  function ExecutedBy(d: Deque, k: ()): int { d.executed }
  function StolenOf(d: Deque, k: ()): int { d.stolen }
  function IsRan(w: Worker, k: ()): int { if w.Ran? then 1 else 0 }
  function IsHalfCounted(w: Worker, k: ()): int { if w.HalfCounted? then 1 else 0 }
  function IsStole(w: Worker, k: ()): int { if w.Stole? then 1 else 0 }
  function InAttempt(w: Worker, k: ()): int { if w.Stealing? || w.Stole? || w.GaveUp? then 1 else 0 }
  function Owed(p: Producer, k: ()): int {
    match p
    case Counted => 1
    case Dealing(left, _) => left
    case _ => 0
  }

  /** Per-queue executed counts, the global count and the log agree up to workers between the increments. */
  ghost predicate ExecutionCounts(s: State) {
    && Tally(ExecutedBy, s.deques, ()) + Tally(IsRan, s.workers, ()) == |s.completedLog|
    && s.completed + Tally(IsHalfCounted, s.workers, ()) == Tally(ExecutedBy, s.deques, ())
  }

  ghost predicate StealCounts(s: State) {
    && s.totalSteals + s.wipedTotal
       == s.successfulSteals + s.wipedSuccessful + s.failedSteals + s.wipedFailed + Tally(InAttempt, s.workers, ())
    && Tally(StolenOf, s.deques, ()) == s.successfulSteals + s.wipedSuccessful + Tally(IsStole, s.workers, ())
  }

  ghost predicate ScheduleCounts(s: State) {
    s.scheduled == s.pushed + s.overcounted + Tally(Owed, s.producers, ())
  }

  lemma RanTallies(workers: seq<Worker>, w: nat, to: Worker)
    requires w < |workers|
    ensures Tally(IsRan, workers[w := to], ()) == Tally(IsRan, workers, ()) - IsRan(workers[w], ()) + IsRan(to, ())
    ensures Tally(IsHalfCounted, workers[w := to], ())
         == Tally(IsHalfCounted, workers, ()) - IsHalfCounted(workers[w], ()) + IsHalfCounted(to, ())
  {
    TallyUpdate(IsRan, workers, w, to, ());
    TallyUpdate(IsHalfCounted, workers, w, to, ());
  }

  lemma StealTallies(workers: seq<Worker>, w: nat, to: Worker)
    requires w < |workers|
    ensures Tally(IsStole, workers[w := to], ())
         == Tally(IsStole, workers, ()) - IsStole(workers[w], ()) + IsStole(to, ())
    ensures Tally(InAttempt, workers[w := to], ())
         == Tally(InAttempt, workers, ()) - InAttempt(workers[w], ()) + InAttempt(to, ())
  {
    TallyUpdate(IsStole, workers, w, to, ());
    TallyUpdate(InAttempt, workers, w, to, ());
  }

  /** What one action does to the sums over the deques. */
  lemma DequeSums(s: State, a: Action)
    requires ShapeOk(s) && Enabled(s, a)
    ensures Tally(ExecutedBy, Next(s, a).value.deques, ())
         == Tally(ExecutedBy, s.deques, ()) + if a.CountExecuted? then 1 else 0
    ensures Tally(StolenOf, Next(s, a).value.deques, ())
         == Tally(StolenOf, s.deques, ()) + if a.Attempt? && Next(s, a).value.workers[a.w].Stole? then 1 else 0
  {
    var s' := Next(s, a).value;
    match a {
      case PushTo(p, q) => OneDequeSum(s.deques, q, s'.deques[q]);
      case Deal(p) => OneDequeSum(s.deques, s.producers[p].q, s'.deques[s.producers[p].q]);
      case PopLocal(w) => OneDequeSum(s.deques, w, s'.deques[w]);
      case CountExecuted(w) => OneDequeSum(s.deques, w, s'.deques[w]);
      case Attempt(w, draw) =>
        var v := VictimOf(draw, w, |s.deques|);
        OneDequeSum(s.deques, v, s'.deques[v]);
      case _ => NoDequeMoves(s, a);
    }
  }

  lemma NoDequeMoves(s: State, a: Action)
    requires Enabled(s, a) && !a.PushTo? && !a.Deal? && !a.PopLocal? && !a.CountExecuted? && !a.Attempt?
    ensures Next(s, a).value.deques == s.deques
  {}

  lemma OneDequeSum(deques: seq<Deque>, q: nat, to: Deque)
    requires q < |deques|
    ensures Tally(ExecutedBy, deques[q := to], ()) == Tally(ExecutedBy, deques, ()) - deques[q].executed + to.executed
    ensures Tally(StolenOf, deques[q := to], ()) == Tally(StolenOf, deques, ()) - deques[q].stolen + to.stolen
    ensures deques[q := deques[q]] == deques
  {
    TallyUpdate(ExecutedBy, deques, q, to, ());
    TallyUpdate(StolenOf, deques, q, to, ());
  }

  predicate OfWorker(a: Action) {
    MovesWorkerOnly(a) || a.PopLocal? || a.Attempt? || a.Run? || a.CountExecuted?
  }

  predicate LeavesExecutionCounters(a: Action) {
    OfWorker(a) && !a.Run? && !a.CountExecuted? && !a.CountCompleted?
  }

  lemma ExecutionFrame(s: State, a: Action)
    requires Enabled(s, a) && LeavesExecutionCounters(a)
    ensures var s' := Next(s, a).value;
      && s'.completed == s.completed && s'.completedLog == s.completedLog
      && |s'.workers| == |s.workers| && s'.workers == s.workers[a.w := s'.workers[a.w]]
      && !s.workers[a.w].Ran? && !s'.workers[a.w].Ran? && !s.workers[a.w].HalfCounted? && !s'.workers[a.w].HalfCounted?
  {}

  lemma ExecutionMoves(s: State, a: Action)
    requires ShapeOk(s) && ExecutionCounts(s) && Enabled(s, a) && (a.Run? || a.CountExecuted? || a.CountCompleted?)
    ensures ExecutionCounts(Next(s, a).value)
  {
    DequeSums(s, a);
    RanTallies(s.workers, a.w, Next(s, a).value.workers[a.w]);
  }

  lemma ExecutionCountsStep(s: State, a: Action)
    requires ShapeOk(s) && ExecutionCounts(s) && Enabled(s, a)
    ensures ExecutionCounts(Next(s, a).value)
  {
    if a.Run? || a.CountExecuted? || a.CountCompleted? {
      ExecutionMoves(s, a);
    } else {
      DequeSums(s, a);
      if OfWorker(a) {
        ExecutionFrame(s, a);
        RanTallies(s.workers, a.w, Next(s, a).value.workers[a.w]);
      } else {
        OthersCountNothing(s, a);
      }
    }
  }

  lemma OthersCountNothing(s: State, a: Action)
    requires Enabled(s, a) && !OfWorker(a)
    ensures var s' := Next(s, a).value;
      && s'.workers == s.workers && s'.completedLog == s.completedLog && s'.completed == s.completed
      && s'.totalSteals == s.totalSteals && s'.successfulSteals == s.successfulSteals
      && s'.failedSteals == s.failedSteals
      && s'.wipedTotal == s.wipedTotal && s'.wipedSuccessful == s.wipedSuccessful && s'.wipedFailed == s.wipedFailed
  {}

  predicate LeavesStealCounters(a: Action) {
    a.CheckStop? || a.PopLocal? || a.Run? || a.CountExecuted? || a.CountCompleted? || a.WakeUp?
  }

  lemma StealFrame(s: State, a: Action)
    requires Enabled(s, a) && LeavesStealCounters(a)
    ensures var s' := Next(s, a).value;
      && s'.totalSteals == s.totalSteals && s'.successfulSteals == s.successfulSteals
      && s'.failedSteals == s.failedSteals
      && s'.wipedTotal == s.wipedTotal && s'.wipedSuccessful == s.wipedSuccessful && s'.wipedFailed == s.wipedFailed
      && |s'.workers| == |s.workers| && s'.workers == s.workers[a.w := s'.workers[a.w]]
      && InAttempt(s.workers[a.w], ()) == 0 == InAttempt(s'.workers[a.w], ())
  {}

  lemma StealQuiet(s: State, a: Action)
    requires ShapeOk(s) && StealCounts(s) && Enabled(s, a) && (LeavesStealCounters(a) || !OfWorker(a))
    ensures StealCounts(Next(s, a).value)
  {
    DequeSums(s, a);
    if OfWorker(a) {
      StealFrame(s, a);
      StealTallies(s.workers, a.w, Next(s, a).value.workers[a.w]);
    } else {
      OthersCountNothing(s, a);
    }
  }

  lemma StealBegun(s: State, w: nat)
    requires ShapeOk(s) && StealCounts(s) && Enabled(s, BeginSteal(w))
    ensures StealCounts(Next(s, BeginSteal(w)).value)
  {
    StealTallies(s.workers, w, Next(s, BeginSteal(w)).value.workers[w]);
  }

  lemma StealTried(s: State, w: nat, draw: nat)
    requires ShapeOk(s) && StealCounts(s) && Enabled(s, Attempt(w, draw))
    ensures StealCounts(Next(s, Attempt(w, draw)).value)
  {
    DequeSums(s, Attempt(w, draw));
    StealTallies(s.workers, w, Next(s, Attempt(w, draw)).value.workers[w]);
  }

  lemma StealSettled(s: State, a: Action)
    requires ShapeOk(s) && StealCounts(s) && Enabled(s, a) && (a.CountSteal? || a.CountFailure?)
    ensures StealCounts(Next(s, a).value)
  {
    StealTallies(s.workers, a.w, Next(s, a).value.workers[a.w]);
  }

  /** A store of a reset moves what a counter holds to what has been wiped of it. */
  lemma ResetFrame(s: State, w: nat)
    requires Enabled(s, Reset(w))
    ensures var s' := Next(s, Reset(w)).value;
      && s'.deques == s.deques && s'.workers == s.workers[w := s'.workers[w]]
      && s'.totalSteals + s'.wipedTotal == s.totalSteals + s.wipedTotal
      && s'.successfulSteals + s'.wipedSuccessful == s.successfulSteals + s.wipedSuccessful
      && s'.failedSteals + s'.wipedFailed == s.failedSteals + s.wipedFailed
      && (s'.workers[w].Top? || s'.workers[w].Resetting?)
  {}

  lemma StealWiped(s: State, w: nat)
    requires StealCounts(s) && Enabled(s, Reset(w))
    ensures StealCounts(Next(s, Reset(w)).value)
  {
    ResetFrame(s, w);
    StealTallies(s.workers, w, Next(s, Reset(w)).value.workers[w]);
  }

  lemma StealCountsStep(s: State, a: Action)
    requires ShapeOk(s) && StealCounts(s) && Enabled(s, a)
    ensures StealCounts(Next(s, a).value)
  {
    match a {
      case BeginSteal(w) => StealBegun(s, w);
      case Attempt(w, draw) => StealTried(s, w, draw);
      case CountSteal(_) => StealSettled(s, a);
      case CountFailure(_) => StealSettled(s, a);
      case Reset(w) => StealWiped(s, w);
      case _ => StealQuiet(s, a);
    }
  }

  predicate OfProducer(a: Action) { a.Schedule? || a.Fallback? || a.PushTo? || a.Batch? || a.Deal? }

  /** What the producers' steps add to the counters is what the producer owes from then on. */
  lemma ProducerFrame(s: State, a: Action)
    requires DealersOk(s) && Enabled(s, a) && OfProducer(a)
    ensures var s' := Next(s, a).value;
      && |s'.producers| == |s.producers| && s'.producers == s.producers[a.p := s'.producers[a.p]]
      && s'.scheduled - s'.pushed - s'.overcounted - Owed(s'.producers[a.p], ())
         == s.scheduled - s.pushed - s.overcounted - Owed(s.producers[a.p], ())
  {}

  lemma OthersScheduleNothing(s: State, a: Action)
    requires Enabled(s, a) && !OfProducer(a)
    ensures var s' := Next(s, a).value;
      && s'.producers == s.producers && s'.scheduled == s.scheduled
      && s'.pushed == s.pushed && s'.overcounted == s.overcounted
  {}

  lemma ScheduleCountsStep(s: State, a: Action)
    requires ShapeOk(s) && ScheduleCounts(s) && Enabled(s, a)
    ensures ScheduleCounts(Next(s, a).value)
  {
    if OfProducer(a) {
      ProducerFrame(s, a);
      TallyUpdate(Owed, s.producers, a.p, Next(s, a).value.producers[a.p], ());
    } else {
      OthersScheduleNothing(s, a);
    }
  }

  // ----- Every run -----

  ghost predicate Inv(s: State) {
    ShapeOk(s) && Conserved(s) && Ordered(s) && ExecutionCounts(s) && StealCounts(s) && ScheduleCounts(s)
  }

  lemma InitInv(s: State)
    requires Init(s)
    ensures Inv(s)
  {
    forall id: nat ensures Places(s, id) == 0 {
      TallyZero(DequeHolds, s.deques, id);
      TallyZero(WorkerHolds, s.workers, id);
    }
    TallyZero(ExecutedBy, s.deques, ());
    TallyZero(StolenOf, s.deques, ());
    TallyZero(IsRan, s.workers, ());
    TallyZero(IsHalfCounted, s.workers, ());
    TallyZero(IsStole, s.workers, ());
    TallyZero(InAttempt, s.workers, ());
    TallyZero(Owed, s.producers, ());
  }

  lemma ReachableInv(s0: State, run: seq<Action>, s: State)
    requires Init(s0) && Exec(Next, s0, run) == Some(s)
    ensures Inv(s)
  {
    InitInv(s0);
    forall s, a | Inv(s) && Next(s, a).Some? ensures Inv(Next(s, a).value) {
      ShapeStep(s, a);
      ConservedStep(s, a);
      OrderedStep(s, a);
      ExecutionCountsStep(s, a);
      StealCountsStep(s, a);
      ScheduleCountsStep(s, a);
    }
    Invariance(Next, s => Inv(s), s0, run);
  }

  /** Every pushed task is in exactly one place, once; numbers not yet pushed are nowhere. */
  lemma TasksAreConserved(s0: State, run: seq<Action>, s: State, id: nat)
    requires Init(s0) && Exec(Next, s0, run) == Some(s)
    ensures Places(s, id) == if id < s.pushed then 1 else 0
    ensures Count(s.completedLog, id) + Count(s.threwLog, id) <= 1
    ensures forall q :: 0 <= q < |s.deques| ==> s.deques[q].size == |s.deques[q].tasks|
  {
    ReachableInv(s0, run, s);
    forall d, k ensures 0 <= DequeHolds(d, k) { CountPositive(d.tasks, k); }
    TallyNonNegative(DequeHolds, s.deques, id);
    TallyNonNegative(WorkerHolds, s.workers, id);
    assert Places(s, id) == if id < s.pushed then 1 else 0;
  }

  /** Steals leave a deque oldest first over the whole run, and each was older than everything left behind. */
  lemma StealsAreOldestFirst(s0: State, run: seq<Action>, s: State, q: nat)
    requires Init(s0) && Exec(Next, s0, run) == Some(s) && q < |s.deques|
    ensures Increasing(s.deques[q].stolenLog) && Increasing(s.deques[q].tasks)
    ensures forall i, j :: 0 <= i < |s.deques[q].stolenLog| && 0 <= j < |s.deques[q].tasks| ==>
              s.deques[q].stolenLog[i] < s.deques[q].tasks[j]
  {
    ReachableInv(s0, run, s);
    OrderSplits(s.deques[q].stolenLog, s.deques[q].tasks);
    assert DequeOrdered(s.deques[q], s.pushed);
  }

  lemma OrderSplits(xs: seq<nat>, ys: seq<nat>)
    ensures Increasing(xs + ys) ==>
      Increasing(xs) && Increasing(ys) && forall i, j :: 0 <= i < |xs| && 0 <= j < |ys| ==> xs[i] < ys[j]
  {
    var all := xs + ys;
    if Increasing(all) {
      forall i, j | 0 <= i < j < |xs| ensures xs[i] < xs[j] { assert all[i] < all[j]; }
      forall i, j | 0 <= i < j < |ys| ensures ys[i] < ys[j] { assert all[|xs| + i] < all[|xs| + j]; }
      forall i, j | 0 <= i < |xs| && 0 <= j < |ys| ensures xs[i] < ys[j] { assert all[i] < all[|xs| + j]; }
    }
  }

  /** An owner pops the last task, when there is one, and is hungry otherwise. */
  predicate Pops(s: State, s': State, w: nat)
    requires AtWorker(s, w) && AtWorker(s', w)
  {
    if s.deques[w].tasks == [] then s'.workers[w].Hungry? && s'.deques == s.deques
    else
      && s'.workers[w].Holding? && s'.deques[w].tasks + [s'.workers[w].task] == s.deques[w].tasks
      && s'.deques == s.deques[w := s'.deques[w]]
  }

  /** A thief takes the first task of its victim, when there is one, and has one attempt less otherwise. */
  predicate Steals(s: State, s': State, w: nat, v: nat)
    requires AtWorker(s, w) && AtWorker(s', w) && v < |s.deques| == |s'.deques| && s.workers[w].Stealing?
  {
    if s.deques[v].tasks == [] then
      && s'.deques == s.deques
      && s'.workers[w] == if s.workers[w].left <= 1 then GaveUp else Stealing(s.workers[w].left - 1)
    else
      && s'.workers[w].Stole? && [s'.workers[w].task] + s'.deques[v].tasks == s.deques[v].tasks
      && s'.deques == s.deques[v := s'.deques[v]]
  }

  /**
   * An owner's pop takes the newest task present, and fails iff there is none; an attempt takes the oldest task of
   * its victim, never the thief's own deque, and fails iff that has none.
   */
  lemma EndsOfTheDeque(s0: State, run: seq<Action>, s: State, a: Action)
    requires Init(s0) && Exec(Next, s0, run) == Some(s) && Enabled(s, a) && (a.PopLocal? || a.Attempt?)
    ensures |Next(s, a).value.deques| == |s.deques| && |Next(s, a).value.workers| == |s.workers|
    ensures a.PopLocal? ==> Pops(s, Next(s, a).value, a.w)
    ensures a.PopLocal? && Next(s, a).value.workers[a.w].Holding? ==>
      forall id :: id in s.deques[a.w].tasks ==> id <= Next(s, a).value.workers[a.w].task
    ensures a.Attempt? ==>
      var v := VictimOf(a.draw, a.w, |s.deques|);
      v != a.w && v < |s.deques| && Steals(s, Next(s, a).value, a.w, v)
    ensures a.Attempt? && Next(s, a).value.workers[a.w].Stole? ==>
      forall id :: id in s.deques[VictimOf(a.draw, a.w, |s.deques|)].tasks ==>
        Next(s, a).value.workers[a.w].task <= id
  {
    ReachableInv(s0, run, s);
    if a.PopLocal? {
      PopIsNewest(s, a.w);
    } else {
      StealIsOldest(s, a.w, a.draw);
    }
  }

  lemma PopIsNewest(s: State, w: nat)
    requires SizesOk(s) && Ordered(s) && Enabled(s, PopLocal(w))
    ensures var s' := Next(s, PopLocal(w)).value;
      && |s'.workers| == |s.workers| && |s'.deques| == |s.deques| && Pops(s, s', w)
      && (s'.workers[w].Holding? ==> forall id :: id in s.deques[w].tasks ==> id <= s'.workers[w].task)
  {
    assert DequeOrdered(s.deques[w], s.pushed);
    OrderSplits(s.deques[w].stolenLog, s.deques[w].tasks);
  }

  lemma StealIsOldest(s: State, w: nat, draw: nat)
    requires ShapeOk(s) && Ordered(s) && Enabled(s, Attempt(w, draw))
    ensures var v, s' := VictimOf(draw, w, |s.deques|), Next(s, Attempt(w, draw)).value;
      && |s'.workers| == |s.workers| && |s'.deques| == |s.deques|
      && v != w && v < |s.deques| && Steals(s, s', w, v)
      && (s'.workers[w].Stole? ==> forall id :: id in s.deques[v].tasks ==> s'.workers[w].task <= id)
  {
    var v := VictimOf(draw, w, |s.deques|);
    VictimIsAnyOther(w, |s.deques|, v);
    assert DequeOrdered(s.deques[v], s.pushed);
    OrderSplits(s.deques[v].stolenLog, s.deques[v].tasks);
  }

  // ----- What the run counts -----

  function ExecutesAt(a: Action, w: nat): int { if a.CountExecuted? && a.w == w then 1 else 0 }

  /** What a call counts as scheduled, and how much of it is a second count or an empty function. */
  function CountsScheduled(a: Action, k: ()): int {
    if a.Schedule? || a.Fallback? then 1 else if a.Batch? then a.full + a.empty else 0
  }

  function CountsTooMany(a: Action, k: ()): int { if a.Fallback? then 1 else if a.Batch? then a.empty else 0 }

  /** Each queue's own counters: what its worker has counted, and what thieves have taken from it. */
  ghost predicate PerQueue(s: State, run: seq<Action>) {
    && (forall q: nat :: q < |s.deques| ==>
          s.deques[q].executed == Tally(ExecutesAt, run, q) && s.deques[q].stolen == |s.deques[q].stolenLog|)
    && (forall w :: 0 <= w < |s.workers| && s.workers[w].Gone? ==> s.stop)
    && s.scheduled == Tally(CountsScheduled, run, ()) && s.overcounted == Tally(CountsTooMany, run, ())
  }

  lemma PerQueueStep(s: State, run: seq<Action>, a: Action)
    requires PerQueue(s, run) && Enabled(s, a)
    ensures PerQueue(Next(s, a).value, run + [a])
  {
    var s' := Next(s, a).value;
    GoneOnlyWhenStopped(s, a);
    TallyAppend(CountsScheduled, run, [a], ());
    TallyAppend(CountsTooMany, run, [a], ());
    CallsCount(s, a);
    forall q: nat | q < |s'.deques|
      ensures s'.deques[q].executed == Tally(ExecutesAt, run + [a], q)
      ensures s'.deques[q].stolen == |s'.deques[q].stolenLog|
    {
      TallyAppend(ExecutesAt, run, [a], q);
      QueueCounts(s, a, q);
    }
  }

  lemma QueueCounts(s: State, a: Action, q: nat)
    requires Enabled(s, a) && q < |s.deques|
    ensures |Next(s, a).value.deques| == |s.deques|
    ensures var d, d' := s.deques[q], Next(s, a).value.deques[q];
      d'.executed == d.executed + ExecutesAt(a, q) && d'.stolen - |d'.stolenLog| == d.stolen - |d.stolenLog|
  {}

  lemma CallsCount(s: State, a: Action)
    requires Enabled(s, a)
    ensures Next(s, a).value.scheduled == s.scheduled + CountsScheduled(a, ())
    ensures Next(s, a).value.overcounted == s.overcounted + CountsTooMany(a, ())
  {}

  lemma GoneOnlyWhenStopped(s: State, a: Action)
    requires Enabled(s, a) && forall w :: 0 <= w < |s.workers| && s.workers[w].Gone? ==> s.stop
    ensures |Next(s, a).value.deques| == |s.deques|
    ensures var s' := Next(s, a).value; forall w :: 0 <= w < |s'.workers| && s'.workers[w].Gone? ==> s'.stop
  {}

  lemma PerQueueAlong(s0: State, run: seq<Action>, s: State)
    requires Init(s0) && Exec(Next, s0, run) == Some(s)
    ensures PerQueue(s, run)
  {
    assert PerQueue(s0, []);
    forall s, r, a | PerQueue(s, r) && Next(s, a).Some? ensures PerQueue(Next(s, a).value, r + [a]) {
      PerQueueStep(s, r, a);
    }
    Along(Next, PerQueue, s0, [], run);
    assert [] + run == run;
  }

  lemma ChecksStop(s: State, w: nat)
    requires AtWorker(s, w) && s.workers[w].Top?
    ensures Enabled(s, CheckStop(w)) && Next(s, CheckStop(w)).value.workers[w] == if s.stop then Gone else Looking
  {}

  /**
   * The counters of a queue are its own: how often its worker counted a task, and how often a thief took one from
   * it. The scheduled count is what the calls of the run count, a fallback of an affinity twice and empty functions of
   * a batch too. And a worker leaves, at its next check, iff the scheduler was stopped.
   */
  lemma QueueCountersAreExact(s0: State, run: seq<Action>, s: State, q: nat)
    requires Init(s0) && Exec(Next, s0, run) == Some(s) && q < |s.deques|
    ensures s.deques[q].executed == Tally(ExecutesAt, run, q) && s.deques[q].stolen == |s.deques[q].stolenLog|
    ensures s.scheduled == Tally(CountsScheduled, run, ()) && s.overcounted == Tally(CountsTooMany, run, ())
    ensures |s.workers| == |s.deques| && (s.workers[q].Gone? ==> s.stop)
    ensures s.workers[q].Top? ==>
      Enabled(s, CheckStop(q)) && Next(s, CheckStop(q)).value.workers[q] == if s.stop then Gone else Looking
  {
    ReachableInv(s0, run, s);
    PerQueueAlong(s0, run, s);
    if s.workers[q].Top? { ChecksStop(s, q); }
  }

  predicate StealStatsAgree(s: State) {
    s.totalSteals == s.successfulSteals + s.failedSteals + Tally(InAttempt, s.workers, ())
  }

  function CountsSteal(a: Action, k: ()): int { if a.CountSteal? then 1 else 0 }

  function CountsFailure(a: Action, k: ()): int { if a.CountFailure? then 1 else 0 }

  /** Successes and failures that a run counts. */
  function Successes(run: seq<Action>): int { Tally(CountsSteal, run, ()) }

  function Failures(run: seq<Action>): int { Tally(CountsFailure, run, ()) }

  function InFlight(s: State): int { Tally(InAttempt, s.workers, ()) }

  predicate NoReset(run: seq<Action>) { forall k :: 0 <= k < |run| ==> !run[k].Reset? }

  /** Without a reset each outcome that is counted ends an attempt, and each attempt that begins is counted. */
  lemma DriftStep(s: State, a: Action)
    requires Enabled(s, a) && !a.Reset?
    ensures var s' := Next(s, a).value;
      && s'.successfulSteals == s.successfulSteals + CountsSteal(a, ())
      && s'.failedSteals == s.failedSteals + CountsFailure(a, ())
      && s'.totalSteals - InFlight(s') == s.totalSteals - InFlight(s) + CountsSteal(a, ()) + CountsFailure(a, ())
      && s'.wipedTotal == s.wipedTotal && s'.wipedSuccessful == s.wipedSuccessful && s'.wipedFailed == s.wipedFailed
  {
    if a.BeginSteal? {
      BeginDrift(s, a.w);
    } else if a.Attempt? {
      AttemptDrift(s, a.w, a.draw);
    } else if a.CountSteal? || a.CountFailure? {
      OutcomeDrift(s, a);
    } else if LeavesStealCounters(a) {
      StealFrame(s, a);
      StealTallies(s.workers, a.w, Next(s, a).value.workers[a.w]);
    } else {
      OthersCountNothing(s, a);
    }
  }

  lemma OutcomeDrift(s: State, a: Action)
    requires Enabled(s, a) && (a.CountSteal? || a.CountFailure?)
    ensures InFlight(Next(s, a).value) == InFlight(s) - 1
  {
    StealTallies(s.workers, a.w, Next(s, a).value.workers[a.w]);
  }

  lemma BeginDrift(s: State, w: nat)
    requires Enabled(s, BeginSteal(w))
    ensures var s' := Next(s, BeginSteal(w)).value;
      s'.totalSteals - InFlight(s') == s.totalSteals - InFlight(s)
  {
    StealTallies(s.workers, w, Next(s, BeginSteal(w)).value.workers[w]);
  }

  lemma AttemptDrift(s: State, w: nat, draw: nat)
    requires Enabled(s, Attempt(w, draw))
    ensures InFlight(Next(s, Attempt(w, draw)).value) == InFlight(s)
  {
    StealTallies(s.workers, w, Next(s, Attempt(w, draw)).value.workers[w]);
  }

  // ----- Steal statistics over whole runs, with any resets -----

  /** The action is the store of a reset to one counter: 0 the total, 1 the successes, 2 the failures. */
  predicate Stores(s: State, a: Action, c: nat) {
    a.Reset? && Enabled(s, a) && c == (if s.workers[a.w].stage < 2 then s.workers[a.w].stage else 2)
  }

  /** The run stores to the counter. */
  predicate HasStore(s: State, run: seq<Action>, c: nat)
    decreases |run|
  {
    run != [] && Enabled(s, run[0]) && (Stores(s, run[0], c) || HasStore(Next(s, run[0]).value, run[1..], c))
  }

  /** How many successes the run counts after its last store to the counter, or at all if it has none. */
  function SuccessesSince(s: State, run: seq<Action>, c: nat): int
    decreases |run|
  {
    if run == [] || !Enabled(s, run[0]) then 0
    else
      (if HasStore(s, run, c) then 0 else CountsSteal(run[0], ()))
      + SuccessesSince(Next(s, run[0]).value, run[1..], c)
  }

  function FailuresSince(s: State, run: seq<Action>, c: nat): int
    decreases |run|
  {
    if run == [] || !Enabled(s, run[0]) then 0
    else
      (if HasStore(s, run, c) then 0 else CountsFailure(run[0], ()))
      + FailuresSince(Next(s, run[0]).value, run[1..], c)
  }

  /** The attempts in flight at the run's last store to the total, or at its start if it has none. */
  function InFlightAtStore(s: State, run: seq<Action>): int
    decreases |run|
  {
    if HasStore(s, run, 0) then InFlightAtStore(Next(s, run[0]).value, run[1..]) else InFlight(s)
  }

  /** One store of a reset. */
  lemma StoreDrift(s: State, w: nat)
    requires Enabled(s, Reset(w))
    ensures var s', stage := Next(s, Reset(w)).value, s.workers[w].stage;
      && InFlight(s') == InFlight(s)
      && s'.totalSteals == (if stage == 0 then 0 else s.totalSteals)
      && s'.successfulSteals == (if stage == 1 then 0 else s.successfulSteals)
      && s'.failedSteals == (if stage >= 2 then 0 else s.failedSteals)
  {
    StealTallies(s.workers, w, ResetStage(s, w).workers[w]);
  }

  /** What a step does to the three counters, whatever it is. */
  lemma AnyDrift(s: State, a: Action)
    requires Enabled(s, a)
    ensures var s' := Next(s, a).value;
      && s'.successfulSteals == (if Stores(s, a, 1) then 0 else s.successfulSteals + CountsSteal(a, ()))
      && s'.failedSteals == (if Stores(s, a, 2) then 0 else s.failedSteals + CountsFailure(a, ()))
      && s'.totalSteals - InFlight(s') == (if Stores(s, a, 0) then 0 else s.totalSteals) - InFlight(s)
                                          + CountsSteal(a, ()) + CountsFailure(a, ())
  {
    if a.Reset? { StoreDrift(s, a.w); } else { DriftStep(s, a); }
  }

  lemma {:induction false} OutcomesOverRun(s: State, run: seq<Action>, e: State)
    requires Exec(Next, s, run) == Some(e)
    ensures e.successfulSteals == (if HasStore(s, run, 1) then 0 else s.successfulSteals) + SuccessesSince(s, run, 1)
    ensures e.failedSteals == (if HasStore(s, run, 2) then 0 else s.failedSteals) + FailuresSince(s, run, 2)
    decreases |run|
  {
    if run != [] {
      AnyDrift(s, run[0]);
      OutcomesOverRun(Next(s, run[0]).value, run[1..], e);
    }
  }

  lemma {:induction false} TotalOverRun(s: State, run: seq<Action>, e: State)
    requires Exec(Next, s, run) == Some(e)
    ensures e.totalSteals - InFlight(e)
         == (if HasStore(s, run, 0) then 0 else s.totalSteals) - InFlightAtStore(s, run)
            + SuccessesSince(s, run, 0) + FailuresSince(s, run, 0)
    decreases |run|
  {
    if run != [] {
      AnyDrift(s, run[0]);
      TotalOverRun(Next(s, run[0]).value, run[1..], e);
    }
  }

  /**
   * On every run, whatever resets overlap in it, the counters agree in the end if and only if the attempts in
   * flight at the last store to the total, with the successes and the failures counted since the last stores to
   * those counters, are as many as the outcomes counted since that store to the total.
   */
  lemma StealStatsAgreeIff(s0: State, run: seq<Action>, e: State)
    requires Init(s0) && Exec(Next, s0, run) == Some(e)
    ensures StealStatsAgree(e) <==>
      InFlightAtStore(s0, run) + SuccessesSince(s0, run, 1) + FailuresSince(s0, run, 2)
      == SuccessesSince(s0, run, 0) + FailuresSince(s0, run, 0)
  {
    OutcomesOverRun(s0, run, e);
    TotalOverRun(s0, run, e);
  }

  lemma {:induction false} NothingStored(s: State, run: seq<Action>, c: nat, e: State)
    requires Exec(Next, s, run) == Some(e) && !HasStore(s, run, c)
    ensures SuccessesSince(s, run, c) == Successes(run) && FailuresSince(s, run, c) == Failures(run)
    decreases |run|
  {
    if run != [] {
      NothingStored(Next(s, run[0]).value, run[1..], c, e);
    }
  }

  /** A store to a counter, and what follows it up to the next store considered. */
  predicate StoreAndRun(s: State, w: nat, c: nat, run: seq<Action>, e: State) {
    Stores(s, Reset(w), c) && Exec(Next, Next(s, Reset(w)).value, run) == Some(e)
  }

  /**
   * The last store to each counter, by whichever worker: with `r1` free of further stores to the total, `r2` of
   * stores to the total and the successes, and `r3` of all stores, the counters agree in the end if and only if
   * the attempts in flight at the first are as many as the successes counted before the second and the failures
   * counted before the third.
   */
  lemma LastStoresAgreeIff(s: State, w1: nat, r1: seq<Action>, m1: State, w2: nat, r2: seq<Action>, m2: State,
                           w3: nat, r3: seq<Action>, e: State)
    requires StoreAndRun(s, w1, 0, r1, m1) && StoreAndRun(m1, w2, 1, r2, m2) && StoreAndRun(m2, w3, 2, r3, e)
    requires !HasStore(Next(s, Reset(w1)).value, r1, 0)
    requires forall c :: 0 <= c <= 1 ==> !HasStore(Next(m1, Reset(w2)).value, r2, c)
    requires forall c :: 0 <= c <= 2 ==> !HasStore(Next(m2, Reset(w3)).value, r3, c)
    ensures StealStatsAgree(e) <==> InFlight(s) == Successes(r1) + Failures(r1) + Failures(r2)
  {
    TotalOverSegment(s, w1, 0, r1, m1);
    TotalOverSegment(m1, w2, 1, r2, m2);
    TotalOverSegment(m2, w3, 2, r3, e);
    SuccessesOverSegment(m1, w2, 1, r2, m2);
    SuccessesOverSegment(m2, w3, 2, r3, e);
    FailuresOverSegment(m2, w3, r3, e);
  }

  lemma TotalOverSegment(s: State, w: nat, c: nat, run: seq<Action>, e: State)
    requires StoreAndRun(s, w, c, run, e) && !HasStore(Next(s, Reset(w)).value, run, 0)
    ensures e.totalSteals - InFlight(e)
         == (if c == 0 then 0 else s.totalSteals) - InFlight(s) + Successes(run) + Failures(run)
  {
    StoreDrift(s, w);
    TotalOverRun(Next(s, Reset(w)).value, run, e);
    NothingStored(Next(s, Reset(w)).value, run, 0, e);
  }

  lemma SuccessesOverSegment(s: State, w: nat, c: nat, run: seq<Action>, e: State)
    requires StoreAndRun(s, w, c, run, e) && !HasStore(Next(s, Reset(w)).value, run, 1)
    ensures e.successfulSteals == (if c == 1 then 0 else s.successfulSteals) + Successes(run)
  {
    StoreDrift(s, w);
    OutcomesOverRun(Next(s, Reset(w)).value, run, e);
    NothingStored(Next(s, Reset(w)).value, run, 1, e);
  }

  lemma FailuresOverSegment(s: State, w: nat, run: seq<Action>, e: State)
    requires StoreAndRun(s, w, 2, run, e) && !HasStore(Next(s, Reset(w)).value, run, 2)
    ensures e.failedSteals == Failures(run)
  {
    StoreDrift(s, w);
    OutcomesOverRun(Next(s, Reset(w)).value, run, e);
    NothingStored(Next(s, Reset(w)).value, run, 2, e);
  }

  lemma {:induction false} WithoutReset(s: State, run: seq<Action>, e: State)
    requires NoReset(run) && Exec(Next, s, run) == Some(e)
    ensures forall c: nat :: !HasStore(s, run, c)
    ensures e.wipedTotal == s.wipedTotal && e.wipedSuccessful == s.wipedSuccessful && e.wipedFailed == s.wipedFailed
    decreases |run|
  {
    if run != [] {
      DriftStep(s, run[0]);
      assert forall k :: 0 <= k < |run| - 1 ==> run[1..][k] == run[k + 1];
      WithoutReset(Next(s, run[0]).value, run[1..], e);
    }
  }

  /** As long as nobody has reset them, the counters agree up to attempts in flight. */
  lemma StealStatsAgreeWithoutReset(s0: State, run: seq<Action>, s: State)
    requires Init(s0) && Exec(Next, s0, run) == Some(s) && NoReset(run)
    ensures StealStatsAgree(s) && Tally(StolenOf, s.deques, ()) == s.successfulSteals + Tally(IsStole, s.workers, ())
  {
    ReachableInv(s0, run, s);
    WithoutReset(s0, run, s);
  }

  lemma ResetOneStage(s: State, w: nat)
    requires |s.workers| == |s.deques| && w < |s.workers| && s.workers[w].Resetting?
    ensures Next(s, Reset(w)) == Some(ResetStage(s, w))
    ensures Tally(InAttempt, ResetStage(s, w).workers, ()) == Tally(InAttempt, s.workers, ())
  {
    StealTallies(s.workers, w, ResetStage(s, w).workers[w]);
  }

  /** A reset that nobody interrupts leaves the counters in agreement if and only if no attempt is in flight. */
  lemma ResetAgreesIffNobodyIsStealing(s: State, w: nat) returns (run: seq<Action>, s': State)
    requires ShapeOk(s) && w < |s.workers| && s.workers[w] == Resetting(0)
    ensures Exec(Next, s, run) == Some(s') && s'.workers == s.workers[w := Top]
    ensures s'.totalSteals == s'.successfulSteals == s'.failedSteals == 0
    ensures StealStatsAgree(s') <==> Tally(InAttempt, s.workers, ()) == 0
  {
    var s1 := ResetStage(s, w);
    ResetOneStage(s, w);
    var s2 := ResetStage(s1, w);
    ResetOneStage(s1, w);
    s' := ResetStage(s2, w);
    ResetOneStage(s2, w);
    run := [Reset(w), Reset(w), Reset(w)];
    TraceExec(Next, [s, s1, s2, s'], run);
  }

  // ----- Resets that leave the statistics inconsistent -----

  predicate NothingToDo(s: State) {
    |s.deques| == |s.workers| > 1 && !s.stop && forall q :: 0 <= q < |s.deques| ==> s.deques[q].tasks == []
  }

  lemma RoundBegins(s: State, w: nat) returns (s': State)
    requires NothingToDo(s) && w < |s.workers| && s.workers[w] == Top
    ensures Exec(Next, s, [CheckStop(w), PopLocal(w), BeginSteal(w)]) == Some(s')
    ensures s' == s.(workers := s.workers[w := Stealing(|s.workers| - 1)], totalSteals := s.totalSteals + 1)
  {
    var s1 := s.(workers := s.workers[w := Looking]);
    var s2 := s.(workers := s.workers[w := Hungry]);
    s' := s.(workers := s.workers[w := Stealing(|s.workers| - 1)], totalSteals := s.totalSteals + 1);
    assert s2.workers == s1.workers[w := Hungry] && s'.workers == s2.workers[w := Stealing(|s.workers| - 1)];
    TraceExec(Next, [s, s1, s2, s'], [CheckStop(w), PopLocal(w), BeginSteal(w)]);
  }

  function Attempts(w: nat, left: nat): seq<Action> { seq(left, _ => Attempt(w, w)) }

  lemma {:induction false} AttemptsFail(s: State, w: nat, left: nat) returns (s': State)
    requires NothingToDo(s) && w < |s.workers| && left > 0 && s.workers[w] == Stealing(left)
    ensures Exec(Next, s, Attempts(w, left)) == Some(s') && s' == s.(workers := s.workers[w := GaveUp])
    decreases left
  {
    var s1 := s.(workers := s.workers[w := AfterAttempt(left)]);
    OneStep(Next, s, Attempt(w, w), s1);
    if left == 1 {
      s' := s1;
      assert Attempts(w, 1) == [Attempt(w, w)];
    } else {
      s' := AttemptsFail(s1, w, left - 1);
      assert Attempts(w, left) == [Attempt(w, w)] + Attempts(w, left - 1);
      Then(Next, s, [Attempt(w, w)], s1, Attempts(w, left - 1), s');
      assert s'.workers == s.workers[w := GaveUp];
    }
  }

  /** A worker finds nothing in its own deque, tries the others in vain and counts the failure. */
  lemma FailedRound(s: State, w: nat) returns (run: seq<Action>, s': State)
    requires NothingToDo(s) && w < |s.workers| && s.workers[w] == Top
    ensures Exec(Next, s, run) == Some(s')
    ensures s' == s.(workers := s.workers[w := Waiting],
                     totalSteals := s.totalSteals + 1, failedSteals := s.failedSteals + 1)
  {
    var begin := [CheckStop(w), PopLocal(w), BeginSteal(w)];
    var tries := Attempts(w, |s.workers| - 1);
    var s1 := RoundBegins(s, w);
    var s2 := AttemptsFail(s1, w, |s.workers| - 1);
    s' := s2.(workers := s2.workers[w := Waiting], failedSteals := s.failedSteals + 1);
    Then(Next, s, begin, s1, tries, s2);
    OneStep(Next, s2, CountFailure(w), s');
    Then(Next, s, begin + tries, s2, [CountFailure(w)], s');
    run := begin + tries + [CountFailure(w)];
    assert s'.workers == s.workers[w := Waiting];
  }

  /** Such a round, after which the worker finds that it is time to reset. */
  lemma RoundToReset(s: State, w: nat) returns (run: seq<Action>, s': State)
    requires NothingToDo(s) && w < |s.workers| && s.workers[w] == Top
    ensures Exec(Next, s, run) == Some(s') && NothingToDo(s') && s'.workers == s.workers[w := Resetting(0)]
  {
    var r1, s1 := FailedRound(s, w);
    s' := s1.(workers := s1.workers[w := Resetting(0)]);
    OneStep(Next, s1, WakeUp(w, true), s');
    Then(Next, s, r1, s1, [WakeUp(w, true)], s');
    run := r1 + [WakeUp(w, true)];
    assert s'.workers == s.workers[w := Resetting(0)];
  }

  function Idlers(n: nat): State {
    State(seq(n, _ => Deque([], 0, 0, 0, [])), seq(n, _ => Top), [], 0, [], [], false, 0, 0, 0, 0, 0, 0, 0, 0, 0)
  }

  lemma TwoStores(s: State, w: nat) returns (e: State)
    requires NothingToDo(s) && w < |s.workers| && s.workers[w] == Resetting(1)
    ensures Exec(Next, s, [Reset(w), Reset(w)]) == Some(e)
    ensures e.workers == s.workers[w := Top] && e.totalSteals == s.totalSteals
    ensures e.successfulSteals == e.failedSteals == 0
  {
    ResetOneStage(s, w);
    var s1 := ResetStage(s, w);
    ResetOneStage(s1, w);
    e := ResetStage(s1, w);
    TwoSteps(Next, s, Reset(w), s1, Reset(w), e);
  }

  /**
   * A reset of two workers with no attempt in flight when it starts and when it ends: one that begins and fails
   * in between is counted as an attempt and not as a failure.
   */
  lemma InterruptedResetDisagrees() returns (s0: State, run: seq<Action>, s: State)
    ensures Init(s0) && Exec(Next, s0, run) == Some(s) && InFlight(s) == 0 && !StealStatsAgree(s)
  {
    s0 := Idlers(2);
    var r1, s1 := RoundToReset(s0, 0);
    var r2, e := InterruptedReset(s1);
    Then(Next, s0, r1, s1, r2, e);
    run, s := r1 + r2, e;
  }

  lemma InterruptedReset(s: State) returns (run: seq<Action>, e: State)
    requires NothingToDo(s) && s.workers == [Resetting(0), Top]
    ensures Exec(Next, s, run) == Some(e) && InFlight(e) == 0 && !StealStatsAgree(e)
  {
    ResetOneStage(s, 0);
    var s1 := ResetStage(s, 0);
    OneStep(Next, s, Reset(0), s1);
    var r2, s2 := FailedRound(s1, 1);
    e := TwoStores(s2, 0);
    Then(Next, s, [Reset(0)], s1, r2, s2);
    Then(Next, s, [Reset(0)] + r2, s2, [Reset(0), Reset(0)], e);
    run := [Reset(0)] + r2 + [Reset(0), Reset(0)];
    assert e.workers == [Top, Waiting];
    TallyZero(InAttempt, e.workers, ());
  }

  /**
   * Overlapping resets of two workers, with nothing in flight at the first store: an attempt of a third one that
   * begins before the second worker's store to the total is not counted.
   */
  lemma OverlappingResetsDisagree() returns (s0: State, run: seq<Action>, s: State)
    ensures Init(s0) && Exec(Next, s0, run) == Some(s) && InFlight(s) == 1 && !StealStatsAgree(s)
  {
    s0 := Idlers(3);
    var r1, s1 := RoundToReset(s0, 0);
    var r2, s2 := RoundToReset(s1, 1);
    Then(Next, s0, r1, s1, r2, s2);
    var r3, e := OverlappingResets(s2);
    Then(Next, s0, r1 + r2, s2, r3, e);
    run, s := r1 + r2 + r3, e;
  }

  lemma OverlappingResets(s: State) returns (run: seq<Action>, e: State)
    requires NothingToDo(s) && s.workers == [Resetting(0), Resetting(0), Top]
    ensures Exec(Next, s, run) == Some(e) && InFlight(e) == 1 && !StealStatsAgree(e)
  {
    ResetOneStage(s, 0);
    var s1 := ResetStage(s, 0);
    OneStep(Next, s, Reset(0), s1);
    var begin := [CheckStop(2), PopLocal(2), BeginSteal(2)];
    var s2 := RoundBegins(s1, 2);
    ResetOneStage(s2, 1);
    var s3 := ResetStage(s2, 1);
    OneStep(Next, s2, Reset(1), s3);
    e := TwoStores(s3, 0);
    Then(Next, s, [Reset(0)], s1, begin, s2);
    Then(Next, s, [Reset(0)] + begin, s2, [Reset(1)], s3);
    Then(Next, s, [Reset(0)] + begin + [Reset(1)], s3, [Reset(0), Reset(0)], e);
    run := [Reset(0)] + begin + [Reset(1)] + [Reset(0), Reset(0)];
    assert e.workers == [Top, Resetting(1)] + [Stealing(2)];
    TallyAppend(InAttempt, [Top, Resetting(1)], [Stealing(2)], ());
    TallyZero(InAttempt, [Top, Resetting(1)], ());
  }

  /** Executed, completed and scheduled counts, in every reachable state. */
  lemma CountersAgree(s0: State, run: seq<Action>, s: State)
    requires Init(s0) && Exec(Next, s0, run) == Some(s)
    ensures s.completed == |s.completedLog| - Tally(IsRan, s.workers, ()) - Tally(IsHalfCounted, s.workers, ())
    ensures Tally(ExecutedBy, s.deques, ()) == s.completed + Tally(IsHalfCounted, s.workers, ())
    ensures s.scheduled == s.pushed + s.overcounted + Tally(Owed, s.producers, ())
  {
    ReachableInv(s0, run, s);
  }
}
