/** The timer: a queue ordered by time point, a worker that sleeps on a condition variable, producers that notify. */
module Timer {
  import opened Wrappers
  import opened Runs
  import opened Folds
  import opened Seqs

  /** `stamp` numbers the pushes; it stands for the handle or callback. */
  datatype Event = Event(time: int, stamp: nat)

  /** `operator>` of the source. */
  predicate Later(a: Event, b: Event) { a.time > b.time }

  /** What the top of the priority queue may be: an event that none precedes. */
  predicate IsTop(queue: seq<Event>, i: nat) {
    i < |queue| && forall j :: 0 <= j < |queue| ==> !Later(queue[i], queue[j])
  }

  /** The section of `add_timer` under the mutex. */
  function Queued(queue: seq<Event>, e: Event): seq<Event> { queue + [e] }

  /** What one pass of the worker's loop under the mutex comes to; `i` is the top of the queue, if it has one. */
  datatype Pass = Leave | Sleep(until: Option<int>) | Fire(event: Event)

  predicate MayPass(queue: seq<Event>, i: nat, stop: bool) { stop || queue == [] || IsTop(queue, i) }

  function PassOf(queue: seq<Event>, i: nat, now: int, stop: bool): Pass
    requires MayPass(queue, i, stop)
  {
    if stop then Leave
    else if queue == [] then Sleep(None)
    else if now >= queue[i].time then Fire(queue[i])
    else Sleep(Some(queue[i].time))
  }

  function AfterPass(queue: seq<Event>, i: nat, now: int, stop: bool): seq<Event>
    requires MayPass(queue, i, stop)
  {
    if PassOf(queue, i, now, stop).Fire? then Without(queue, i) else queue
  }

  datatype Worker =
    | Awake                                // about to take the mutex and look
    | Dozing(until: Option<int>)           // decided to wait, still holds the mutex
    | Blocked(until: Option<int>)          // waiting; None is a wait without deadline
    | Delivering(event: Event)             // popped, mutex released, callback not handed over yet
    | Exited

  /** A producer that has pushed the event of this stamp has yet to notify. */
  datatype Producer = Outside | Notifying(stamp: nat)

  datatype Stopper = Running | FlagUp | Joining | Stopped

  /** A delivery: the event, the clock when it was popped, and how many pushes had happened by then. */
  datatype Firing = Firing(event: Event, at: int, pushedBefore: nat)

  datatype State = State(
    queue: seq<Event>,
    worker: Worker,
    producers: seq<Producer>,
    stopper: Stopper,
    now: int,
    pushed: nat,
    fired: seq<Firing>,
    delivered: seq<Event>)     // handed to a scheduler, or run in place

  datatype Action =
    | Push(p: nat, time: int)
    | Notify(p: nat)
    | Tick(to: int)
    | Look(i: nat)         // one critical section; i is the top of the queue
    | Block
    | Timeout
    | Spurious
    | Deliver
    | RaiseFlag
    | NotifyAll
    | Join

  predicate HoldsMutex(w: Worker) { w.Dozing? }

  predicate StopFlag(s: State) { !s.stopper.Running? }

  predicate Enabled(s: State, a: Action) {
    match a
    case Push(p, _) => p < |s.producers| && s.producers[p].Outside? && !HoldsMutex(s.worker)
    case Notify(p) => p < |s.producers| && s.producers[p].Notifying?
    case Tick(to) => to >= s.now
    case Look(i) => s.worker.Awake? && MayPass(s.queue, i, StopFlag(s))
    case Block => s.worker.Dozing?
    case Timeout => s.worker.Blocked? && s.worker.until.Some? && s.now >= s.worker.until.value
    case Spurious => s.worker.Blocked?
    case Deliver => s.worker.Delivering?
    case RaiseFlag => s.stopper.Running?
    case NotifyAll => s.stopper.FlagUp?
    case Join => s.stopper.Joining? && s.worker.Exited?
  }

  function Woken(w: Worker): Worker { if w.Blocked? then Awake else w }

  function Next(s: State, a: Action): Option<State> {
    if !Enabled(s, a) then None
    else Some(match a
      case Push(p, time) =>
        s.(queue := Queued(s.queue, Event(time, s.pushed)), pushed := s.pushed + 1,
           producers := s.producers[p := Notifying(s.pushed)])
      case Notify(p) => s.(worker := Woken(s.worker), producers := s.producers[p := Outside])
      case Tick(to) => s.(now := to)
      case Look(i) =>
        var queue := AfterPass(s.queue, i, s.now, StopFlag(s));
        (match PassOf(s.queue, i, s.now, StopFlag(s))
         case Leave => s.(worker := Exited)
         case Sleep(until) => s.(worker := Dozing(until))
         case Fire(e) =>
           s.(worker := Delivering(e), queue := queue, fired := s.fired + [Firing(e, s.now, s.pushed)]))
      case Block => s.(worker := Blocked(s.worker.until))
      case Timeout => s.(worker := Awake)
      case Spurious => s.(worker := Awake)
      case Deliver => s.(worker := Awake, delivered := s.delivered + [s.worker.event])
      case RaiseFlag => s.(stopper := FlagUp)
      case NotifyAll => s.(stopper := Joining, worker := Woken(s.worker))
      case Join => s.(stopper := Stopped))
  }

  predicate Init(s: State) {
    && s.queue == [] && s.worker.Awake? && s.stopper.Running? && s.pushed == 0 && s.fired == []
    && s.delivered == []
    && (forall p :: 0 <= p < |s.producers| ==> s.producers[p].Outside?)
  }

  // ----- No oversleeping -----

  /** The deadline a sleeping worker has; none is later than anything. */
  predicate NotAfter(until: Option<int>, time: int) { until.Some? && until.value <= time }

  ghost predicate NoticePending(s: State, stamp: nat) {
    exists p :: 0 <= p < |s.producers| && s.producers[p] == Notifying(stamp)
  }

  /** An event due before the worker's deadline is one whose own producer has yet to notify. */
  ghost predicate NoOversleep(s: State) {
    && (s.worker.Dozing? ==> forall i :: 0 <= i < |s.queue| ==> NotAfter(s.worker.until, s.queue[i].time))
    && (s.worker.Blocked? ==> forall i :: 0 <= i < |s.queue| ==>
          NotAfter(s.worker.until, s.queue[i].time) || NoticePending(s, s.queue[i].stamp))
  }

  lemma NoOversleepStep(s: State, a: Action)
    requires NoOversleep(s) && Enabled(s, a)
    ensures NoOversleep(Next(s, a).value)
  {
    var s' := Next(s, a).value;
    if s'.worker.Blocked? {
      forall i | 0 <= i < |s'.queue|
        ensures NotAfter(s'.worker.until, s'.queue[i].time) || NoticePending(s', s'.queue[i].stamp)
      {
        if a.Push? {
          if i == |s.queue| {
            assert s'.producers[a.p] == Notifying(s'.queue[i].stamp);
          } else if !NotAfter(s.worker.until, s.queue[i].time) {
            var p :| 0 <= p < |s.producers| && s.producers[p] == Notifying(s.queue[i].stamp);
            assert s'.producers[p] == Notifying(s.queue[i].stamp);
          }
        } else if !a.Block? {
          assert s'.queue == s.queue && s'.worker == s.worker && s'.producers == s.producers;
        }
      }
    }
  }

  // ----- Nothing lost, nothing early, nothing twice -----

  function StampIs(e: Event, k: nat): int { Same(e.stamp, k) }

  function FiredStamp(f: Firing, k: nat): int { Same(f.event.stamp, k) }

  /** Every pushed event is in the queue or was fired, once. */
  ghost predicate Conserved(s: State) {
    forall k: nat :: Tally(StampIs, s.queue, k) + Tally(FiredStamp, s.fired, k) == if k < s.pushed then 1 else 0
  }

  lemma ConservedStep(s: State, a: Action)
    requires Conserved(s) && Enabled(s, a)
    ensures Conserved(Next(s, a).value)
  {
    var s' := Next(s, a).value;
    forall k: nat
      ensures Tally(StampIs, s'.queue, k) + Tally(FiredStamp, s'.fired, k) == if k < s'.pushed then 1 else 0
    {
      if a.Push? {
        TallyAppend(StampIs, s.queue, [Event(a.time, s.pushed)], k);
      } else if a.Look? && |s'.fired| > |s.fired| {
        TallyWithout(StampIs, s.queue, a.i, k);
        TallyAppend(FiredStamp, s.fired, [s'.fired[|s.fired|]], k);
      }
    }
  }

  predicate FiringOk(f: Firing, now: int, pushed: nat) {
    f.event.time <= f.at <= now && f.event.stamp < f.pushedBefore <= pushed
  }

  /** What was fired earlier was due no later than anything that was waiting beside it. */
  predicate BeforeWaiting(f: Firing, e: Event) { e.stamp < f.pushedBefore ==> f.event.time <= e.time }

  ghost predicate FiredInOrder(s: State) {
    && (forall i :: 0 <= i < |s.queue| ==> s.queue[i].stamp < s.pushed)
    && (forall k :: 0 <= k < |s.fired| ==> FiringOk(s.fired[k], s.now, s.pushed))
    && (forall k, i :: 0 <= k < |s.fired| && 0 <= i < |s.queue| ==> BeforeWaiting(s.fired[k], s.queue[i]))
    && (forall k, m :: 0 <= k < m < |s.fired| ==> BeforeWaiting(s.fired[k], s.fired[m].event))
  }

  lemma FireInOrder(s: State, i: nat)
    requires FiredInOrder(s) && Enabled(s, Look(i)) && |Next(s, Look(i)).value.fired| > |s.fired|
    ensures FiredInOrder(Next(s, Look(i)).value)
  {
    var s' := Next(s, Look(i)).value;
    assert !Later(s.queue[i], s.queue[i]);
    forall j | 0 <= j < |s'.queue| ensures s'.queue[j] in s.queue && s.queue[i].time <= s'.queue[j].time {
      if j < i { assert s'.queue[j] == s.queue[j]; } else { assert s'.queue[j] == s.queue[j + 1]; }
    }
  }

  lemma FiredInOrderStep(s: State, a: Action)
    requires FiredInOrder(s) && Enabled(s, a)
    ensures FiredInOrder(Next(s, a).value)
  {
    var s' := Next(s, a).value;
    if a.Look? && |s'.fired| > |s.fired| {
      FireInOrder(s, a.i);
    }
  }

  // ----- What was asked for -----

  /** The time points that the calls of `add_timer` in a run ask for, in the order of the calls. */
  function Requested(run: seq<Action>): seq<int>
    decreases |run|
  {
    if run == [] then [] else (if run[0].Push? then [run[0].time] else []) + Requested(run[1..])
  }

  /** The event of the k-th request carries the k-th time. */
  predicate AsRequested(e: Event, asked: seq<int>) { e.stamp < |asked| && e.time == asked[e.stamp] }

  predicate AllAsRequested(s: State, asked: seq<int>) {
    && s.pushed == |asked|
    && (forall i :: 0 <= i < |s.queue| ==> AsRequested(s.queue[i], asked))
    && (forall m :: 0 <= m < |s.fired| ==> AsRequested(s.fired[m].event, asked))
  }

  lemma AsRequestedStep(s: State, a: Action, asked: seq<int>)
    requires AllAsRequested(s, asked) && Enabled(s, a)
    ensures AllAsRequested(Next(s, a).value, asked + if a.Push? then [a.time] else [])
  {}

  lemma {:induction false} AsRequestedAfter(s: State, run: seq<Action>, e: State, asked: seq<int>)
    requires AllAsRequested(s, asked) && Exec(Next, s, run) == Some(e)
    ensures AllAsRequested(e, asked + Requested(run))
    decreases |run|
  {
    if run == [] {
      assert asked + [] == asked;
    } else {
      var first := if run[0].Push? then [run[0].time] else [];
      AsRequestedStep(s, run[0], asked);
      AsRequestedAfter(Next(s, run[0]).value, run[1..], e, asked + first);
      assert asked + Requested(run) == (asked + first) + Requested(run[1..]);
    }
  }

  ghost predicate WasFired(s: State, k: nat) { exists m :: 0 <= m < |s.fired| && s.fired[m].event.stamp == k }

  /** A request not fired yet waits in the queue. */
  lemma NotFiredWaits(s: State, asked: seq<int>, k: nat) returns (i: nat)
    requires Conserved(s) && AllAsRequested(s, asked) && k < |asked| && !WasFired(s, k)
    ensures i < |s.queue| && s.queue[i] == Event(asked[k], k)
  {
    TallyZero(FiredStamp, s.fired, k);
    i := TallySource(StampIs, s.queue, k);
  }

  /** Nor does one wait that was fired. */
  lemma FiredIsGone(s: State, i: nat)
    requires Conserved(s) && i < |s.queue|
    ensures !WasFired(s, s.queue[i].stamp)
  {
    var k := s.queue[i].stamp;
    TallyCell(StampIs, s.queue, k, i);
    if m :| 0 <= m < |s.fired| && s.fired[m].event.stamp == k {
      TallyCell(FiredStamp, s.fired, k, m);
    }
  }

  // ----- Every run -----

  /** What was fired has been delivered, in order, or is just being delivered; the worker leaves only for `stop`. */
  predicate HandedOver(s: State) {
    && |s.fired| == |s.delivered| + (if s.worker.Delivering? then 1 else 0)
    && (forall m :: 0 <= m < |s.delivered| ==> s.delivered[m] == s.fired[m].event)
    && (s.worker.Delivering? ==> s.worker.event == s.fired[|s.delivered|].event)
    && (s.worker.Exited? ==> StopFlag(s))
  }

  ghost predicate Inv(s: State) { NoOversleep(s) && Conserved(s) && FiredInOrder(s) && HandedOver(s) }

  lemma ReachableInv(s0: State, run: seq<Action>, s: State)
    requires Init(s0) && Exec(Next, s0, run) == Some(s)
    ensures Inv(s) && AllAsRequested(s, Requested(run))
  {
    forall s, a | Inv(s) && Next(s, a).Some? ensures Inv(Next(s, a).value) {
      NoOversleepStep(s, a);
      ConservedStep(s, a);
      FiredInOrderStep(s, a);
    }
    Invariance(Next, s => Inv(s), s0, run);
    AsRequestedAfter(s0, run, s, []);
    assert [] + Requested(run) == Requested(run);
  }

  /**
   * A new timer never leaves the worker asleep too long: while it is blocked, any request not fired yet and due
   * before its deadline has its own producer between its push and its notify; with none pending, it wakes in time.
   */
  lemma NeverOversleeps(s0: State, run: seq<Action>, s: State)
    requires Init(s0) && Exec(Next, s0, run) == Some(s) && s.worker.Blocked?
    ensures forall k: nat :: k < |Requested(run)| ==>
              WasFired(s, k) || NotAfter(s.worker.until, Requested(run)[k]) || NoticePending(s, k)
    ensures (forall p :: 0 <= p < |s.producers| ==> s.producers[p].Outside?) ==>
              forall k: nat :: k < |Requested(run)| ==> WasFired(s, k) || NotAfter(s.worker.until, Requested(run)[k])
  {
    ReachableInv(s0, run, s);
    forall k: nat | k < |Requested(run)| && !WasFired(s, k)
      ensures NotAfter(s.worker.until, Requested(run)[k]) || NoticePending(s, k)
    {
      var i := NotFiredWaits(s, Requested(run), k);
    }
  }

  /**
   * Every request waits or was fired, once, never before the time it asked for, never ahead of an earlier one that
   * waited; and what was fired is delivered in that order.
   */
  lemma FiredOnceInOrderNeverEarly(s0: State, run: seq<Action>, s: State)
    requires Init(s0) && Exec(Next, s0, run) == Some(s)
    ensures forall k: nat :: Tally(StampIs, s.queue, k) + Tally(FiredStamp, s.fired, k)
                             == if k < |Requested(run)| then 1 else 0
    ensures forall m :: 0 <= m < |s.fired| ==>
              && s.fired[m].event.stamp < |Requested(run)|
              && s.fired[m].event.time == Requested(run)[s.fired[m].event.stamp] <= s.fired[m].at
    ensures forall m, n :: 0 <= m < n < |s.fired| && s.fired[n].event.stamp < s.fired[m].pushedBefore ==>
              s.fired[m].event.time <= s.fired[n].event.time
    ensures HandedOver(s)
  {
    ReachableInv(s0, run, s);
    forall m | 0 <= m < |s.fired|
      ensures AsRequested(s.fired[m].event, Requested(run)) && s.fired[m].event.time <= s.fired[m].at
    {
      assert FiringOk(s.fired[m], s.now, s.pushed);
    }
    forall m, n | 0 <= m < n < |s.fired| && s.fired[n].event.stamp < s.fired[m].pushedBefore
      ensures s.fired[m].event.time <= s.fired[n].event.time
    {
      assert BeforeWaiting(s.fired[m], s.fired[n].event);
    }
  }

  /** A request not fired yet whose time has come. */
  ghost predicate IsDue(s: State, asked: seq<int>, k: nat) { k < |asked| && !WasFired(s, k) && asked[k] <= s.now }

  /** A look under the mutex fires iff some request is due and `stop` was not called; and then the earliest one. */
  lemma LookFiresTheEarliest(s0: State, run: seq<Action>, s: State, i: nat, s': State)
    requires Init(s0) && Exec(Next, s0, run) == Some(s) && Next(s, Look(i)) == Some(s')
    ensures s'.worker.Delivering? <==> !StopFlag(s) && exists k: nat :: IsDue(s, Requested(run), k)
    ensures s'.worker.Delivering? ==>
      && IsDue(s, Requested(run), s'.worker.event.stamp)
      && s'.fired == s.fired + [Firing(s'.worker.event, s.now, s.pushed)]
      && forall k: nat :: k < |Requested(run)| && !WasFired(s, k) ==>
           Requested(run)[s'.worker.event.stamp] <= Requested(run)[k]
    ensures s'.worker.Exited? <==> StopFlag(s)
  {
    ReachableInv(s0, run, s);
    if s.queue != [] && !StopFlag(s) {
      FiredIsGone(s, i);
      assert AsRequested(s.queue[i], Requested(run));
      assert s.now >= s.queue[i].time ==> IsDue(s, Requested(run), s.queue[i].stamp);
    }
    forall k: nat | k < |Requested(run)| && !WasFired(s, k) && !StopFlag(s)
      ensures s.queue != [] && s.queue[i].time <= Requested(run)[k]
    {
      var j := NotFiredWaits(s, Requested(run), k);
      assert !Later(s.queue[i], s.queue[j]);
    }
  }

  predicate Works(a: Action) { a.Notify? || a.Look? || a.Block? || a.Timeout? || a.Deliver? }

  /** From where the worker is, without a spurious wake-up, it comes to look again once a request is due. */
  lemma ComesToLook(s0: State, before: seq<Action>, s: State, k: nat) returns (run: seq<Action>, s': State)
    requires Init(s0) && Exec(Next, s0, before) == Some(s)
    requires IsDue(s, Requested(before), k) && !StopFlag(s)
    ensures Exec(Next, s, run) == Some(s') && |run| <= 2 && forall a :: a in run ==> Works(a)
    ensures s'.worker.Awake? && s'.queue == s.queue && s'.fired == s.fired && s'.now == s.now && !StopFlag(s')
  {
    ReachableInv(s0, before, s);
    var i := NotFiredWaits(s, Requested(before), k);
    match s.worker {
      case Awake => run, s' := [], s;
      case Dozing(_) =>
        var s1 := Next(s, Block).value;
        s' := Next(s1, Timeout).value;
        TwoSteps(Next, s, Block, s1, Timeout, s');
        run := [Block, Timeout];
      case Blocked(until) =>
        var a := Timeout;
        if !NotAfter(until, Requested(before)[k]) {
          var p :| 0 <= p < |s.producers| && s.producers[p] == Notifying(k);
          a := Notify(p);
        }
        s' := Next(s, a).value;
        OneStep(Next, s, a, s');
        run := [a];
      case Delivering(_) =>
        s' := Next(s, Deliver).value;
        OneStep(Next, s, Deliver, s');
        run := [Deliver];
    }
  }

  /** Whenever a request is due and nobody has called `stop`, the timer's own steps and pending notices fire one. */
  lemma DueRequestsFire(s0: State, before: seq<Action>, s: State, k: nat) returns (run: seq<Action>, s': State)
    requires Init(s0) && Exec(Next, s0, before) == Some(s)
    requires IsDue(s, Requested(before), k) && !StopFlag(s)
    ensures Exec(Next, s, run) == Some(s') && |run| <= 3 && forall a :: a in run ==> Works(a)
    ensures |s'.fired| == |s.fired| + 1
  {
    var r1, s1 := ComesToLook(s0, before, s, k);
    ReachableInv(s0, before, s);
    var j := NotFiredWaits(s, Requested(before), k);
    var i := TopExists(s1.queue);
    assert !Later(s1.queue[i], s1.queue[j]);
    s' := Next(s1, Look(i)).value;
    OneStep(Next, s1, Look(i), s');
    Then(Next, s, r1, s1, [Look(i)], s');
    run := r1 + [Look(i)];
  }

  // ----- Stopping -----

  /** Nothing but a push, a timeout or a spurious wake-up can move this state on. */
  predicate StopHangs(s: State) {
    s.stopper.Joining? && s.worker == Blocked(None) && forall p :: 0 <= p < |s.producers| ==> s.producers[p].Outside?
  }

  /**
   * `stop` raises its flag and notifies without the mutex: when it does so between the worker's look and
   * its wait, the notification is lost and `stop` waits for a worker that nobody will wake.
   */
  lemma StopCanMissTheWorker() returns (s0: State, run: seq<Action>, s: State)
    ensures Init(s0) && Exec(Next, s0, run) == Some(s) && StopHangs(s)
    ensures forall a :: Enabled(s, a) ==> a.Push? || a.Tick? || a.Spurious?
  {
    s0 := State([], Awake, [], Running, 0, 0, [], []);
    var s1 := s0.(worker := Dozing(None));
    var s2 := s1.(stopper := FlagUp);
    var s3 := s2.(stopper := Joining);
    s := s3.(worker := Blocked(None));
    TwoSteps(Next, s0, Look(0), s1, RaiseFlag, s2);
    TwoSteps(Next, s2, NotifyAll, s3, Block, s);
    Then(Next, s0, [Look(0), RaiseFlag], s2, [NotifyAll, Block], s);
    run := [Look(0), RaiseFlag] + [NotifyAll, Block];
  }

  /** That window is the only way: unless it was dozing, the worker of a joining `stop` is awake, delivering or gone. */
  ghost predicate StopIsHeard(s: State) {
    s.stopper.Joining? || s.stopper.Stopped? ==> s.worker.Awake? || s.worker.Delivering? || s.worker.Exited?
  }

  lemma NotifiedOutsideTheWindow(s: State, run: seq<Action>, s': State)
    requires s.stopper.FlagUp? && !s.worker.Dozing?
    requires Exec(Next, Next(s, NotifyAll).value, run) == Some(s')
    ensures s'.worker.Awake? || s'.worker.Delivering? || s'.worker.Exited?
  {
    var s1 := Next(s, NotifyAll).value;
    assert StopIsHeard(s1) && (s1.stopper.Joining? || s1.stopper.Stopped?);
    forall s, a | StopIsHeard(s) && StopFlag(s) && !s.stopper.FlagUp? && Next(s, a).Some?
      ensures StopIsHeard(Next(s, a).value) && StopFlag(Next(s, a).value) && !Next(s, a).value.stopper.FlagUp?
    {}
    Invariance(Next, s => StopIsHeard(s) && StopFlag(s) && !s.stopper.FlagUp?, s1, run);
  }

  /** Exactly when the worker is inside the window can it still go to sleep after `stop` has notified it. */
  lemma StopMissedIffInsideTheWindow(s: State)
    requires s.stopper.FlagUp?
    ensures s.worker.Dozing? <==>
      exists run, s' :: Exec(Next, Next(s, NotifyAll).value, run) == Some(s') && s'.worker.Blocked?
  {
    var s1 := Next(s, NotifyAll).value;
    if s.worker.Dozing? {
      var s2 := Next(s1, Block).value;
      OneStep(Next, s1, Block, s2);
      assert s2.worker.Blocked?;
    } else {
      forall run, s' | Exec(Next, s1, run) == Some(s') ensures !s'.worker.Blocked? {
        NotifiedOutsideTheWindow(s, run, s');
      }
    }
  }

  // ----- The object -----

  lemma {:induction false} TopExists(queue: seq<Event>) returns (i: nat)
    requires queue != []
    ensures IsTop(queue, i)
  {
    if |queue| == 1 {
      i := 0;
    } else {
      i := TopExists(queue[..|queue| - 1]);
      forall j | 0 <= j < |queue| - 1 ensures !Later(queue[i], queue[j]) {
        assert queue[..|queue| - 1][j] == queue[j];
      }
      if Later(queue[i], queue[|queue| - 1]) {
        i := |queue| - 1;
      }
    }
  }

  class TimerObject {
    var queue: seq<Event>
    var stopFlag: bool
    var started: bool

    constructor ()
      ensures queue == [] && !stopFlag && !started
    {
      queue, stopFlag, started := [], false, false;
    }

    /** True when the caller is to spawn the worker. */
    method Start() returns (spawn: bool)
      modifies this
      ensures spawn == !old(started) && started && queue == old(queue)
      ensures stopFlag == if spawn then false else old(stopFlag)
    {
      spawn := !started;
      started := true;
      if spawn {
        stopFlag := false;
      }
    }

    /** True when the caller is to notify and join the worker. */
    method Stop() returns (join: bool)
      modifies this
      ensures join == old(started) && !started && queue == old(queue)
      ensures stopFlag == if join then true else old(stopFlag)
    {
      join := started;
      started := false;
      if join {
        stopFlag := true;
      }
    }

    method AddTimer(e: Event)
      modifies this
      ensures queue == Queued(old(queue), e) == old(queue) + [e]
      ensures stopFlag == old(stopFlag) && started == old(started)
    {
      queue := queue + [e];
    }

    /** A sleep is no longer than the earliest event allows. */
    method WorkerPass(now: int) returns (r: Pass, ghost i: nat)
      modifies this
      ensures stopFlag == old(stopFlag) && started == old(started)
      ensures MayPass(old(queue), i, stopFlag)
      ensures r == PassOf(old(queue), i, now, stopFlag) && queue == AfterPass(old(queue), i, now, stopFlag)
      ensures r.Leave? <==> stopFlag
      ensures r.Sleep? ==> forall j :: 0 <= j < |queue| ==> NotAfter(r.until, queue[j].time) && now < queue[j].time
      ensures r.Fire? ==> i < |old(queue)| && r.event == old(queue)[i] && queue == Without(old(queue), i)
      ensures r.Fire? ==> r.event.time <= now && forall j :: 0 <= j < |queue| ==> r.event.time <= queue[j].time
      ensures !r.Fire? ==> queue == old(queue)
    {
      i := 0;
      if stopFlag {
        return Leave, i;
      }
      if queue == [] {
        return Sleep(None), i;
      }
      ghost var t := TopExists(queue);
      var k: nat :| k < |queue| && IsTop(queue, k);
      i := k;
      assert IsTop(queue, i) && forall j :: 0 <= j < |queue| ==> !Later(queue[i], queue[j]);
      var top := queue[k];
      if now >= top.time {
        queue := Without(queue, k);
        r := Fire(top);
      } else {
        r := Sleep(Some(top.time));
      }
    }
  }
}
