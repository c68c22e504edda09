/** The priority order of the advanced scheduler, and tasks on their way from a producer through a queue to a worker. */
module AdvancedScheduler {
  import opened Wrappers
  import opened Runs
  import opened Folds
  import opened Seqs

  datatype TaskPriority = LOW | NORMAL | HIGH | CRITICAL

  datatype PriorityTask = PriorityTask(priority: TaskPriority, submitTime: int, taskId: nat)

  function Rank(p: TaskPriority): nat {
    match p
    case LOW => 0
    case NORMAL => 1
    case HIGH => 2
    case CRITICAL => 3
  }

  /** The source's `operator<`: `a` runs after `b`. */
  predicate Below(a: PriorityTask, b: PriorityTask) {
    if a.priority != b.priority then Rank(a.priority) < Rank(b.priority) else a.submitTime > b.submitTime
  }

  /** `t` is below none of `xs`. */
  predicate Tops(t: PriorityTask, xs: seq<PriorityTask>) { forall j :: 0 <= j < |xs| ==> !Below(t, xs[j]) }

  /** A `std::priority_queue` keeps a bag, here in no particular order; its top is an element below no other. */
  predicate IsTop(q: seq<PriorityTask>, i: nat) { i < |q| && Tops(q[i], q) }

  lemma {:induction false} TopExists(q: seq<PriorityTask>) returns (i: nat)
    requires q != []
    ensures IsTop(q, i)
  {
    var n := |q| - 1;
    if n == 0 {
      i := 0;
    } else {
      i := TopExists(q[..n]);
      assert forall j :: 0 <= j < n ==> q[..n][j] == q[j];
      if Below(q[i], q[n]) { i := n; }
    }
  }

  lemma WithoutBag<T>(q: seq<T>, i: nat)
    requires i < |q|
    ensures multiset(Without(q, i)) == multiset(q) - multiset{q[i]} && q[i] in multiset(q)
  {
    assert q == q[..i] + [q[i]] + q[i + 1..];
  }

  lemma PartsOf<T>(a: multiset<T>, b: multiset<T>, all: multiset<T>, t: T)
    requires t in all && a + b == all - multiset{t}
    ensures a <= all && b <= all && multiset{t} + a + b == all
  {
    assert multiset{t} + a + b == multiset{t} + (a + b) == all;
    forall x ensures a[x] <= all[x] && b[x] <= all[x] {
      assert (a + b)[x] == (all - multiset{t})[x];
    }
  }

  // ----- Draining a queue -----

  /** `out` is what popping the top of `q` until it is empty can give. */
  ghost predicate Drains(q: seq<PriorityTask>, out: seq<PriorityTask>)
    decreases |q|
  {
    if q == [] then out == []
    else out != [] && exists i: nat :: IsTop(q, i) && out[0] == q[i] && Drains(Without(q, i), out[1..])
  }

  /** No task comes after one that is below it: higher priority first, then earlier submission. */
  predicate Sorted(out: seq<PriorityTask>) { forall i, j :: 0 <= i < j < |out| ==> Before(out[i], out[j]) }

  predicate Before(a: PriorityTask, b: PriorityTask) {
    Higher(a.priority, b.priority) || (a.priority == b.priority && a.submitTime <= b.submitTime)
  }

  /** The order of the four priorities, written out. */
  predicate Higher(p: TaskPriority, q: TaskPriority) {
    match p
    case CRITICAL => q != CRITICAL
    case HIGH => q == NORMAL || q == LOW
    case NORMAL => q == LOW
    case LOW => false
  }

  lemma TopsPart(t: PriorityTask, xs: seq<PriorityTask>, ys: seq<PriorityTask>)
    requires Tops(t, xs) && multiset(ys) <= multiset(xs)
    ensures Tops(t, ys)
  {
    forall j | 0 <= j < |ys| ensures !Below(t, ys[j]) {
      assert ys[j] in multiset(ys);
      assert ys[j] in multiset(xs);
    }
  }

  lemma SortedCons(t: PriorityTask, xs: seq<PriorityTask>)
    ensures Sorted([t] + xs) <==> Tops(t, xs) && Sorted(xs)
  {
    var all := [t] + xs;
    if Sorted(all) {
      forall j | 0 <= j < |xs| ensures !Below(t, xs[j]) {
        assert all[0] == t && all[j + 1] == xs[j] && Before(all[0], all[j + 1]);
      }
      forall i, j | 0 <= i < j < |xs| ensures !Below(xs[i], xs[j]) {
        assert all[i + 1] == xs[i] && all[j + 1] == xs[j];
      }
    }
  }

  /** Nothing taken was below something that stayed. */
  predicate NoneBelow(taken: seq<PriorityTask>, left: seq<PriorityTask>) {
    forall i, j :: 0 <= i < |taken| && 0 <= j < |left| ==> !Below(taken[i], left[j])
  }

  lemma HeadFirst(q: seq<PriorityTask>, i: nat, rest: seq<PriorityTask>)
    requires IsTop(q, i) && multiset(rest) == multiset(Without(q, i)) && Sorted(rest)
    ensures multiset([q[i]] + rest) == multiset(q) && Sorted([q[i]] + rest)
  {
    var none: seq<PriorityTask> := [];
    assert multiset(rest) + multiset(none) == multiset(rest);
    TakenFirst(q, i, rest, none);
    assert multiset([q[i]] + rest) + multiset(none) == multiset([q[i]] + rest);
  }

  lemma TakenFirst(q: seq<PriorityTask>, i: nat, more: seq<PriorityTask>, left: seq<PriorityTask>)
    requires IsTop(q, i) && multiset(more) + multiset(left) == multiset(Without(q, i))
    requires Sorted(more) && NoneBelow(more, left)
    ensures multiset([q[i]] + more) + multiset(left) == multiset(q)
    ensures Sorted([q[i]] + more) && NoneBelow([q[i]] + more, left)
  {
    WithoutBag(q, i);
    PartsOf(multiset(more), multiset(left), multiset(q), q[i]);
    TopsPart(q[i], q, more);
    TopsPart(q[i], q, left);
    SortedCons(q[i], more);
  }

  /** Draining gives the permutations of the contents that are sorted, and only those. */
  lemma {:induction false} DrainsIffSortedPermutation(q: seq<PriorityTask>, out: seq<PriorityTask>)
    ensures Drains(q, out) <==> multiset(out) == multiset(q) && Sorted(out)
    decreases |q|
  {
    if q == [] {
      assert out != [] ==> out[0] in multiset(out);
    } else {
      if Drains(q, out) { DrainedIsSorted(q, out); }
      if multiset(out) == multiset(q) && Sorted(out) { SortedIsDrained(q, out); }
    }
  }

  lemma {:induction false} DrainedIsSorted(q: seq<PriorityTask>, out: seq<PriorityTask>)
    requires q != [] && Drains(q, out)
    ensures multiset(out) == multiset(q) && Sorted(out)
    decreases |q|, 0
  {
    var i: nat :| IsTop(q, i) && out[0] == q[i] && Drains(Without(q, i), out[1..]);
    DrainsIffSortedPermutation(Without(q, i), out[1..]);
    assert out == [q[i]] + out[1..];
    HeadFirst(q, i, out[1..]);
  }

  lemma {:induction false} SortedIsDrained(q: seq<PriorityTask>, out: seq<PriorityTask>)
    requires q != [] && multiset(out) == multiset(q) && Sorted(out)
    ensures Drains(q, out)
    decreases |q|, 0
  {
    assert q[0] in multiset(q);
    assert out != [];
    assert out[0] in multiset(out);
    var i: nat :| i < |q| && q[i] == out[0];
    assert out == [q[i]] + out[1..];
    SortedCons(q[i], out[1..]);
    assert Tops(q[i], out);
    TopsPart(q[i], out, q);
    WithoutBag(q, i);
    DrainsIffSortedPermutation(Without(q, i), out[1..]);
  }

  // ----- Runs -----

  datatype Worker = Idle | Holding(task: PriorityTask) | Gone

  /** `pending` are tasks that have their id but are not yet in a queue; the logs of task ids are history. */
  datatype State = State(
    queues: seq<seq<PriorityTask>>, pending: seq<PriorityTask>, workers: seq<Worker>, issued: nat,
    executed: seq<nat>, failed: seq<nat>, stop: bool)

  datatype Action =
    | Submit(priority: TaskPriority, now: int)
    | Push(k: nat, v: nat)            // the producer of pending task k pushes it to queue v
    | Take(w: nat, v: nat, i: nat)    // a worker takes the top of queue v, its own or a victim's
    | Finish(w: nat)
    | Fail(w: nat)
    | Leave(w: nat)
    | SetStop

  predicate Enabled(s: State, a: Action) {
    match a
    case Submit(_, _) => true
    case Push(k, v) => k < |s.pending| && v < |s.queues|
    case Take(w, v, i) => w < |s.workers| && s.workers[w].Idle? && v < |s.queues| && IsTop(s.queues[v], i)
    case Finish(w) => w < |s.workers| && s.workers[w].Holding?
    case Fail(w) => w < |s.workers| && s.workers[w].Holding?
    case Leave(w) => w < |s.workers| && s.workers[w].Idle? && s.stop
    case SetStop => true
  }

  function Work(s: State, w: nat, to: Worker): State
    requires w < |s.workers|
  {
    s.(workers := s.workers[w := to])
  }

  function After(s: State, a: Action): State
    requires Enabled(s, a)
  {
    match a
    case Submit(priority, now) =>
      s.(pending := s.pending + [PriorityTask(priority, now, s.issued)], issued := s.issued + 1)
    case Push(k, v) =>
      s.(pending := Without(s.pending, k), queues := s.queues[v := s.queues[v] + [s.pending[k]]])
    case Take(w, v, i) =>
      Work(s, w, Holding(s.queues[v][i])).(queues := s.queues[v := Without(s.queues[v], i)])
    case Finish(w) => Work(s, w, Idle).(executed := s.executed + [s.workers[w].task.taskId])
    case Fail(w) => Work(s, w, Idle).(failed := s.failed + [s.workers[w].task.taskId])
    case Leave(w) => Work(s, w, Gone)
    case SetStop => s.(stop := true)
  }

  function Next(s: State, a: Action): Option<State> { if Enabled(s, a) then Some(After(s, a)) else None }

  predicate Init(s: State) {
    && s.pending == [] && s.issued == 0 && s.executed == [] && s.failed == [] && !s.stop
    && (forall v :: 0 <= v < |s.queues| ==> s.queues[v] == [])
    && (forall w :: 0 <= w < |s.workers| ==> s.workers[w].Idle?)
  }

  // ----- Conservation -----

  function HasId(t: PriorityTask, id: nat): int { if t.taskId == id then 1 else 0 }

  function QueueHolds(q: seq<PriorityTask>, id: nat): int { Tally(HasId, q, id) }

  function WorkerHolds(w: Worker, id: nat): int { if w.Holding? && w.task.taskId == id then 1 else 0 }

  /** In how many places task `id` is: with its producer, in a queue, with a worker, executed, failed. */
  function Places(s: State, id: nat): int {
    Tally(HasId, s.pending, id) + Tally(QueueHolds, s.queues, id) + Tally(WorkerHolds, s.workers, id)
    + Count(s.executed, id) + Count(s.failed, id)
  }

  ghost predicate Conserved(s: State) { forall id: nat :: Places(s, id) == if id < s.issued then 1 else 0 }

  lemma SubmitPlaces(s: State, priority: TaskPriority, now: int, id: nat)
    ensures Places(After(s, Submit(priority, now)), id) == Places(s, id) + if id == s.issued then 1 else 0
  {
    TallyAppend(HasId, s.pending, [PriorityTask(priority, now, s.issued)], id);
  }

  lemma PushPlaces(s: State, k: nat, v: nat, id: nat)
    requires Enabled(s, Push(k, v))
    ensures Places(After(s, Push(k, v)), id) == Places(s, id)
  {
    TallyWithout(HasId, s.pending, k, id);
    TallyAppend(HasId, s.queues[v], [s.pending[k]], id);
    TallyUpdate(QueueHolds, s.queues, v, s.queues[v] + [s.pending[k]], id);
  }

  lemma TakePlaces(s: State, w: nat, v: nat, i: nat, id: nat)
    requires Enabled(s, Take(w, v, i))
    ensures Places(After(s, Take(w, v, i)), id) == Places(s, id)
  {
    TallyWithout(HasId, s.queues[v], i, id);
    TallyUpdate(QueueHolds, s.queues, v, Without(s.queues[v], i), id);
    TallyUpdate(WorkerHolds, s.workers, w, Holding(s.queues[v][i]), id);
  }

  lemma WorkerPlaces(s: State, a: Action, id: nat)
    requires Enabled(s, a) && (a.Finish? || a.Fail? || a.Leave?)
    ensures Places(After(s, a), id) == Places(s, id)
  {
    TallyUpdate(WorkerHolds, s.workers, a.w, After(s, a).workers[a.w], id);
    if !a.Leave? {
      TallyAppend(Same<nat>, s.executed, [s.workers[a.w].task.taskId], id);
      TallyAppend(Same<nat>, s.failed, [s.workers[a.w].task.taskId], id);
    }
  }

  lemma ConservedStep(s: State, a: Action)
    requires Conserved(s) && Enabled(s, a)
    ensures Conserved(After(s, a))
  {
    forall id: nat ensures Places(After(s, a), id) == if id < After(s, a).issued then 1 else 0 {
      assert Places(s, id) == if id < s.issued then 1 else 0;
      match a {
        case Submit(priority, now) => SubmitPlaces(s, priority, now, id);
        case Push(k, v) => PushPlaces(s, k, v, id);
        case Take(w, v, i) => TakePlaces(s, w, v, i, id);
        case SetStop =>
        case _ => WorkerPlaces(s, a, id);
      }
    }
  }

  /** After every run each task that got an id is in exactly one place, so it runs at most once. */
  lemma EveryTaskIsInOnePlace(s0: State, run: seq<Action>, s: State, id: nat)
    requires Init(s0) && Exec(Next, s0, run) == Some(s)
    ensures Places(s, id) == if id < s.issued then 1 else 0
    ensures Count(s.executed, id) + Count(s.failed, id) <= 1
  {
    forall id: nat ensures Places(s0, id) == 0 {
      TallyZero(QueueHolds, s0.queues, id);
      TallyZero(WorkerHolds, s0.workers, id);
    }
    forall s1, a | Conserved(s1) && Next(s1, a).Some? ensures Conserved(Next(s1, a).value) { ConservedStep(s1, a); }
    Invariance(Next, Conserved, s0, run);
    forall q, k ensures 0 <= QueueHolds(q, k) { TallyNonNegative(HasId, q, k); }
    TallyNonNegative(HasId, s.pending, id);
    TallyNonNegative(QueueHolds, s.queues, id);
    TallyNonNegative(WorkerHolds, s.workers, id);
    assert Places(s, id) == if id < s.issued then 1 else 0;
  }

  // ----- Tasks stay what they were submitted as -----

  /** The tasks that a run submits; the k-th one has id k. */
  function Submitted(run: seq<Action>): seq<PriorityTask>
    decreases |run|
  {
    if run == [] then []
    else
      var a, before := run[|run| - 1], Submitted(run[..|run| - 1]);
      if a.Submit? then before + [PriorityTask(a.priority, a.now, |before|)] else before
  }

  predicate IsSubmitted(t: PriorityTask, all: seq<PriorityTask>) { t.taskId < |all| && t == all[t.taskId] }

  predicate AllSubmitted(s: State, all: seq<PriorityTask>) {
    && s.issued == |all|
    && (forall k :: 0 <= k < |s.pending| ==> IsSubmitted(s.pending[k], all))
    && (forall v, i :: 0 <= v < |s.queues| && 0 <= i < |s.queues[v]| ==> IsSubmitted(s.queues[v][i], all))
    && (forall w :: 0 <= w < |s.workers| && s.workers[w].Holding? ==> IsSubmitted(s.workers[w].task, all))
  }

  function Finishes(a: Action, k: ()): int { if a.Finish? then 1 else 0 }

  function Fails(a: Action, k: ()): int { if a.Fail? then 1 else 0 }

  /** Each task keeps its priority and time wherever it is, and the logs have one entry a finished or failed task. */
  ghost predicate Follows(s: State, run: seq<Action>) {
    && AllSubmitted(s, Submitted(run))
    && |s.executed| == Tally(Finishes, run, ()) && |s.failed| == Tally(Fails, run, ())
  }

  lemma SubmittedStep(s: State, a: Action, all: seq<PriorityTask>)
    requires AllSubmitted(s, all) && Enabled(s, a)
    ensures AllSubmitted(After(s, a), if a.Submit? then all + [PriorityTask(a.priority, a.now, |all|)] else all)
  {
    var more := if a.Submit? then all + [PriorityTask(a.priority, a.now, |all|)] else all;
    assert forall t :: IsSubmitted(t, all) ==> IsSubmitted(t, more);
  }

  lemma FollowsStep(s: State, run: seq<Action>, a: Action)
    requires Follows(s, run) && Enabled(s, a)
    ensures Follows(After(s, a), run + [a])
  {
    SubmittedStep(s, a, Submitted(run));
    assert (run + [a])[..|run|] == run;
    TallyAppend(Finishes, run, [a], ());
    TallyAppend(Fails, run, [a], ());
  }

  lemma TasksAreAsSubmitted(s0: State, run: seq<Action>, s: State)
    requires Init(s0) && Exec(Next, s0, run) == Some(s)
    ensures Follows(s, run)
  {
    assert Follows(s0, []);
    forall s1, r, a | Follows(s1, r) && Next(s1, a).Some? ensures Follows(Next(s1, a).value, r + [a]) {
      FollowsStep(s1, r, a);
    }
    Along(Next, Follows, s0, [], run);
    assert [] + run == run;
  }

  // ----- Order over whole runs -----

  /** The tasks that a run takes from queue `v`, whoever takes them. */
  function TakenFrom(s: State, run: seq<Action>, v: nat): seq<PriorityTask>
    decreases |run|
  {
    if run == [] || !Enabled(s, run[0]) then []
    else TakenBy(s, run[0], v) + TakenFrom(After(s, run[0]), run[1..], v)
  }

  function TakenBy(s: State, a: Action, v: nat): seq<PriorityTask>
    requires Enabled(s, a)
  {
    if a.Take? && a.v == v then [s.queues[v][a.i]] else []
  }

  lemma OtherQueuesStay(s: State, a: Action, v: nat)
    requires Enabled(s, a) && v < |s.queues| && !((a.Push? || a.Take?) && a.v == v)
    ensures |After(s, a).queues| == |s.queues| && After(s, a).queues[v] == s.queues[v]
  {}

  predicate NoPushTo(run: seq<Action>, v: nat) {
    forall k :: 0 <= k < |run| ==> !(run[k].Push? && run[k].v == v)
  }

  /**
   * While nothing is pushed to a queue, its owner and the thieves together take its tasks in order: what was
   * taken so far is sorted, nothing of it is below what is left, and the two make up what was there.
   */
  lemma {:induction false} TakenInOrder(s: State, run: seq<Action>, e: State, v: nat)
    requires Exec(Next, s, run) == Some(e) && NoPushTo(run, v) && v < |s.queues|
    ensures |e.queues| == |s.queues|
    ensures multiset(TakenFrom(s, run, v)) + multiset(e.queues[v]) == multiset(s.queues[v])
    ensures Sorted(TakenFrom(s, run, v)) && NoneBelow(TakenFrom(s, run, v), e.queues[v])
    decreases |run|
  {
    if run != [] {
      var a := run[0];
      var s1, rest := After(s, a), run[1..];
      assert NoPushTo(rest, v) by {
        assert forall k :: 0 <= k < |rest| ==> rest[k] == run[k + 1];
      }
      var more := TakenFrom(s1, rest, v);
      assert TakenFrom(s, run, v) == TakenBy(s, a, v) + more;
      if a.Take? && a.v == v {
        TakenInOrder(s1, rest, e, v);
        TakenFirst(s.queues[v], a.i, more, e.queues[v]);
      } else {
        OtherQueuesStay(s, a, v);
        TakenInOrder(s1, rest, e, v);
        assert TakenFrom(s, run, v) == more;
      }
    }
  }

  /** A queue that is emptied with no new pushes is drained, by the owner and the thieves together. */
  lemma EmptiedMeansDrained(s: State, run: seq<Action>, e: State, v: nat)
    requires Exec(Next, s, run) == Some(e) && NoPushTo(run, v) && v < |s.queues|
    requires v < |e.queues| && e.queues[v] == []
    ensures Drains(s.queues[v], TakenFrom(s, run, v))
  {
    TakenInOrder(s, run, e, v);
    DrainsIffSortedPermutation(s.queues[v], TakenFrom(s, run, v));
  }

  // ----- Every drain can happen -----

  function IdsOf(tasks: seq<PriorityTask>): seq<nat> { seq(|tasks|, k requires 0 <= k < |tasks| => tasks[k].taskId) }

  lemma TakesAndFinishes(s: State, w: nat, v: nat, i: nat) returns (e: State)
    requires Enabled(s, Take(w, v, i))
    ensures Exec(Next, s, [Take(w, v, i), Action.Finish(w)]) == Some(e)
    ensures e == s.(queues := s.queues[v := Without(s.queues[v], i)],
                    executed := s.executed + [s.queues[v][i].taskId])
  {
    var s1 := After(s, Take(w, v, i));
    e := After(s1, Action.Finish(w));
    TwoSteps(Next, s, Take(w, v, i), s1, Action.Finish(w), e);
    assert e.workers == s.workers;
  }

  lemma {:induction false} TakenOver(s: State, r1: seq<Action>, m: State, r2: seq<Action>, v: nat)
    requires Exec(Next, s, r1) == Some(m)
    ensures TakenFrom(s, r1 + r2, v) == TakenFrom(s, r1, v) + TakenFrom(m, r2, v)
    decreases |r1|
  {
    if r1 == [] {
      assert r1 + r2 == r2;
    } else {
      assert (r1 + r2)[0] == r1[0] && (r1 + r2)[1..] == r1[1..] + r2;
      TakenOver(After(s, r1[0]), r1[1..], m, r2, v);
    }
  }

  lemma TakenOnce(s: State, w: nat, v: nat, i: nat)
    requires Enabled(s, Take(w, v, i))
    ensures TakenFrom(s, [Take(w, v, i), Action.Finish(w)], v) == [s.queues[v][i]]
  {
    var s1 := After(s, Take(w, v, i));
    assert TakenFrom(s1, [Action.Finish(w)], v) == [];
    assert [Take(w, v, i), Action.Finish(w)][1..] == [Action.Finish(w)];
  }

  predicate IsDrain(q: seq<PriorityTask>, out: seq<PriorityTask>) { multiset(out) == multiset(q) && Sorted(out) }

  lemma TakesFirst(s: State, w: nat, v: nat, out: seq<PriorityTask>) returns (once: seq<Action>, e: State)
    requires w < |s.workers| && s.workers[w].Idle? && v < |s.queues| && out != [] && IsDrain(s.queues[v], out)
    ensures Exec(Next, s, once) == Some(e) && TakenFrom(s, once, v) == [out[0]]
    ensures |e.queues| == |s.queues| && IsDrain(e.queues[v], out[1..])
    ensures e == s.(queues := s.queues[v := e.queues[v]], executed := s.executed + [out[0].taskId])
  {
    DrainsIffSortedPermutation(s.queues[v], out);
    var i: nat :| IsTop(s.queues[v], i) && out[0] == s.queues[v][i] && Drains(Without(s.queues[v], i), out[1..]);
    e := TakesAndFinishes(s, w, v, i);
    TakenOnce(s, w, v, i);
    once := [Take(w, v, i), Action.Finish(w)];
    DrainsIffSortedPermutation(e.queues[v], out[1..]);
  }

  lemma NothingToDrain(q: seq<PriorityTask>)
    requires IsDrain(q, [])
    ensures q == []
  {
    assert |q| == |multiset(q)|;
  }

  lemma IdsNext(out: seq<PriorityTask>)
    requires out != []
    ensures IdsOf(out) == [out[0].taskId] + IdsOf(out[1..])
  {}

  /** Queue `v` is drained and its tasks are executed in this order; nothing else changes. */
  ghost predicate Drained(s: State, e: State, v: nat, out: seq<PriorityTask>) {
    v < |s.queues| && e == s.(queues := s.queues[v := []], executed := s.executed + IdsOf(out))
  }

  ghost predicate DrainedBy(s: State, run: seq<Action>, e: State, v: nat, out: seq<PriorityTask>) {
    Exec(Next, s, run) == Some(e) && TakenFrom(s, run, v) == out && Drained(s, e, v, out)
  }

  lemma OneMoreDrained(s: State, m: State, e: State, v: nat, out: seq<PriorityTask>)
    requires v < |s.queues| == |m.queues| && out != [] && Drained(m, e, v, out[1..])
    requires m == s.(queues := s.queues[v := m.queues[v]], executed := s.executed + [out[0].taskId])
    ensures Drained(s, e, v, out)
  {
    IdsNext(out);
  }

  lemma TakenInTurn(s: State, once: seq<Action>, m: State, more: seq<Action>, e: State, v: nat, t: PriorityTask)
    requires Exec(Next, s, once) == Some(m) && TakenFrom(s, once, v) == [t] && Exec(Next, m, more) == Some(e)
    ensures Exec(Next, s, once + more) == Some(e)
    ensures TakenFrom(s, once + more, v) == [t] + TakenFrom(m, more, v)
  {
    Then(Next, s, once, m, more, e);
    TakenOver(s, once, m, more, v);
  }

  /** One idle worker can drain a queue in each of its sorted orders, and executes what it takes. */
  lemma {:induction false} EveryDrainHappens(s: State, w: nat, v: nat, out: seq<PriorityTask>)
      returns (run: seq<Action>, e: State)
    requires w < |s.workers| && s.workers[w].Idle? && v < |s.queues| && IsDrain(s.queues[v], out)
    ensures DrainedBy(s, run, e, v, out)
    decreases |out|
  {
    if out == [] {
      run, e := [], s;
      NothingToDrain(s.queues[v]);
      assert s.queues[v := []] == s.queues;
    } else {
      var once, m := TakesFirst(s, w, v, out);
      var more;
      more, e := EveryDrainHappens(m, w, v, out[1..]);
      TakenInTurn(s, once, m, more, e, v, out[0]);
      OneMoreDrained(s, m, e, v, out);
      run := once + more;
    }
  }
}

/** Placement on the least loaded queue: producers read the counters one by one, without a lock, and then push. */
module AdvancedPlacement {
  import opened Wrappers
  import opened Runs
  import opened Folds
  import opened Modular

  /** The queue that the scan picks: the first of the shortest. */
  predicate IsFirstLeast(loads: seq<nat>, m: nat) {
    && m < |loads|
    && (forall j :: 0 <= j < |loads| ==> loads[m] <= loads[j])
    && (forall j :: 0 <= j < m ==> loads[m] < loads[j])
  }

  ghost predicate SpreadAtMost(loads: seq<nat>, d: nat) {
    forall i, j :: 0 <= i < |loads| && 0 <= j < |loads| ==> loads[i] <= loads[j] + d
  }

  // ----- One placement at a time -----

  function Placed(loads: seq<nat>, m: nat): seq<nat>
    requires m < |loads|
  {
    loads[m := loads[m] + 1]
  }

  /** A placement raises the spread above its old value exactly when all loads were equal, and then to one. */
  lemma SpreadGrowsIffLevel(loads: seq<nat>, m: nat, d: nat)
    requires IsFirstLeast(loads, m) && |loads| > 1
    requires SpreadAtMost(loads, d) && (d > 0 ==> !SpreadAtMost(loads, d - 1))
    ensures SpreadAtMost(Placed(loads, m), if d == 0 then 1 else d)
    ensures !SpreadAtMost(Placed(loads, m), d) <==> SpreadAtMost(loads, 0)
  {
    var placed := Placed(loads, m);
    assert SpreadAtMost(loads, 0) ==> forall e: nat :: SpreadAtMost(loads, e);
    if SpreadAtMost(loads, 0) {
      var j := if m == 0 then 1 else 0;
      assert loads[j] <= loads[m] + 0 && loads[m] <= loads[j] + 0;
      assert placed[j] == loads[j] && placed[m] == loads[m] + 1;
      assert !(placed[m] <= placed[j] + 0);
    } else if d == 0 {
      assert false;
    }
  }

  /** The loads after `k` placements dealt round robin to `n` empty queues. */
  function Level(k: nat, n: nat): (loads: seq<nat>)
    requires n > 0
    ensures |loads| == n
  {
    seq(n, i requires 0 <= i < n => k / n + if i < k % n then 1 else 0)
  }

  /** From empty queues and without removals, the k-th placement goes to queue k mod n. */
  lemma {:induction false} GreedyIsRoundRobin(n: nat, loads: seq<seq<nat>>, targets: seq<nat>)
    requires n > 0 && |loads| == |targets| + 1 && loads[0] == seq(n, _ => 0)
    requires forall k :: 0 <= k < |targets| ==> IsFirstLeast(loads[k], targets[k])
    requires forall k :: 0 <= k < |targets| ==> targets[k] < |loads[k]| && loads[k + 1] == Placed(loads[k], targets[k])
    ensures forall k :: 0 <= k < |targets| ==> targets[k] == k % n
    ensures forall k :: 0 <= k < |loads| ==> loads[k] == Level(k, n)
  {
    if targets == [] {
      assert loads[0] == Level(0, n);
    } else {
      var t := |targets| - 1;
      GreedyIsRoundRobin(n, loads[..t + 1], targets[..t]);
      assert loads[t] == loads[..t + 1][t] == Level(t, n);
      LevelPlaced(t, n, targets[t]);
      forall k | 0 <= k < |targets| ensures targets[k] == k % n {
        if k < t { assert targets[..t][k] == k % n; }
      }
      forall k | 0 <= k < |loads| ensures loads[k] == Level(k, n) {
        if k <= t { assert loads[..t + 1][k] == Level(k, n); }
      }
    }
  }

  lemma LevelPlaced(k: nat, n: nat, m: nat)
    requires n > 0 && IsFirstLeast(Level(k, n), m)
    ensures m == k % n && Placed(Level(k, n), m) == Level(k + 1, n)
  {
    var r := k % n;
    assert Level(k, n)[r] == k / n;
    assert forall i :: 0 <= i < r ==> Level(k, n)[i] == k / n + 1;
    NextTicket(k, n);
    forall i | 0 <= i < n ensures Placed(Level(k, n), m)[i] == Level(k + 1, n)[i] {}
  }

  // ----- Racing producers -----

  /** `best` is the candidate, `seen` its load when it was read, and `next` the queue to read next. */
  datatype Producer = Outside | Scanning(best: nat, seen: nat, next: nat)

  datatype State = State(loads: seq<nat>, producers: seq<Producer>)

  datatype Action = Begin(p: nat) | Look(p: nat) | Push(p: nat)

  predicate Enabled(s: State, a: Action) {
    a.p < |s.producers| && s.loads != [] &&
    match a
    case Begin(p) => s.producers[p].Outside?
    case Look(p) => s.producers[p].Scanning? && s.producers[p].next < |s.loads|
    case Push(p) => s.producers[p].Scanning? && s.producers[p].next >= |s.loads| && s.producers[p].best < |s.loads|
  }

  function Looked(pr: Producer, load: nat): Producer
    requires pr.Scanning?
  {
    if load < pr.seen then Scanning(pr.next, load, pr.next + 1) else pr.(next := pr.next + 1)
  }

  function Next(s: State, a: Action): Option<State> {
    if !Enabled(s, a) then None
    else Some(match a
      case Begin(p) => s.(producers := s.producers[p := Scanning(0, s.loads[0], 1)])
      case Look(p) => s.(producers := s.producers[p := Looked(s.producers[p], s.loads[s.producers[p].next])])
      case Push(p) => State(Placed(s.loads, s.producers[p].best), s.producers[p := Outside]))
  }

  // ----- A producer by itself -----

  function Looks(p: nat, k: nat): seq<Action> { seq(k, _ => Look(p)) }

  /** It has looked at the first `k + 1` queues, and its candidate is the first of the shortest of these. */
  ghost predicate HasScanned(s: State, p: nat, k: nat, e: State) {
    && p < |s.producers| == |e.producers| && k < |s.loads| && e == s.(producers := s.producers[p := e.producers[p]])
    && e.producers[p].Scanning? && e.producers[p].next == k + 1
    && IsFirstLeast(s.loads[..k + 1], e.producers[p].best) && e.producers[p].seen == s.loads[e.producers[p].best]
  }

  lemma {:induction false} ScansUpTo(s: State, p: nat, k: nat) returns (e: State)
    requires Enabled(s, Begin(p)) && k < |s.loads|
    ensures Exec(Next, s, [Begin(p)] + Looks(p, k)) == Some(e) && |e.producers| == |s.producers|
    ensures HasScanned(s, p, k, e)
  {
    if k == 0 {
      e := Next(s, Begin(p)).value;
      OneStep(Next, s, Begin(p), e);
      assert [Begin(p)] + Looks(p, 0) == [Begin(p)];
    } else {
      var m := ScansUpTo(s, p, k - 1);
      e := Next(m, Look(p)).value;
      OneStep(Next, m, Look(p), e);
      Then(Next, s, [Begin(p)] + Looks(p, k - 1), m, [Look(p)], e);
      assert [Begin(p)] + Looks(p, k) == [Begin(p)] + Looks(p, k - 1) + [Look(p)];
      assert e.producers == s.producers[p := e.producers[p]];
      assert forall j :: 0 <= j < k ==> s.loads[..k + 1][j] == s.loads[..k][j];
    }
  }

  /** A producer that nobody interferes with places its task on the first of the shortest queues. */
  lemma PlaceAlone(s: State, p: nat) returns (e: State, m: nat)
    requires Enabled(s, Begin(p))
    ensures Exec(Next, s, [Begin(p)] + Looks(p, |s.loads| - 1) + [Push(p)]) == Some(e)
    ensures IsFirstLeast(s.loads, m) && e == s.(loads := s.loads[m := s.loads[m] + 1])
  {
    var n := |s.loads| - 1;
    var s1 := ScansUpTo(s, p, n);
    m := s1.producers[p].best;
    assert s.loads[..n + 1] == s.loads;
    e := Next(s1, Push(p)).value;
    OneStep(Next, s1, Push(p), e);
    Then(Next, s, [Begin(p)] + Looks(p, n), s1, [Push(p)], e);
    assert e.producers == s.producers;
  }

  // ----- Producers that race -----

  /** The producer's candidate is queue `k.0`, read when its load was at most `k.1`. */
  function Aims(pr: Producer, k: (nat, nat)): int {
    if pr.Scanning? && pr.best == k.0 && pr.seen <= k.1 then 1 else 0
  }

  /** What a producer has read is at most the present load of every queue it has read. */
  ghost predicate ScansOk(s: State) {
    forall p :: 0 <= p < |s.producers| && s.producers[p].Scanning? ==>
      && s.producers[p].best < s.producers[p].next <= |s.loads|
      && (forall j :: 0 <= j < s.producers[p].next ==> s.producers[p].seen <= s.loads[j])
  }

  ghost predicate SomeAtMost(loads: seq<nat>, x: nat) { exists j :: 0 <= j < |loads| && loads[j] <= x }

  /**
   * However far queue `m` is above a level `x` that some queue has not passed, its excess and the producers
   * that still aim at it since it was at `x` are together at most `b`.
   */
  ghost predicate Excess(s: State, m: nat, x: nat, b: nat) {
    m < |s.loads| && x <= s.loads[m] && SomeAtMost(s.loads, x) ==>
      s.loads[m] - x + Tally(Aims, s.producers, (m, x)) <= b
  }

  ghost predicate Inv(s: State, b: nat) {
    |s.producers| <= b && ScansOk(s) && forall m: nat, x: nat :: Excess(s, m, x, b)
  }

  lemma AimsAtMost(s: State, m: nat, x: nat)
    ensures 0 <= Tally(Aims, s.producers, (m, x)) <= |s.producers|
  {
    TallyNonNegative(Aims, s.producers, (m, x));
    TallyAtMost(Aims, s.producers, (m, x), 1);
  }

  lemma ScanStep(s: State, a: Action)
    requires ScansOk(s) && Enabled(s, a)
    ensures ScansOk(Next(s, a).value)
  {}

  lemma ReadStep(s: State, a: Action, m: nat, x: nat, b: nat)
    requires Inv(s, b) && Enabled(s, a) && !a.Push?
    ensures Excess(Next(s, a).value, m, x, b)
  {
    var s' := Next(s, a).value;
    assert Excess(s, m, x, b);
    TallyUpdate(Aims, s.producers, a.p, s'.producers[a.p], (m, x));
    AimsAtMost(s', m, x);
  }

  lemma PushStep(s: State, p: nat, m: nat, x: nat, b: nat)
    requires Inv(s, b) && Enabled(s, Push(p))
    ensures Excess(Next(s, Push(p)).value, m, x, b)
  {
    var s' := Next(s, Push(p)).value;
    var pr := s.producers[p];
    assert Excess(s, m, x, b);
    TallyUpdate(Aims, s.producers, p, Outside, (m, x));
    AimsAtMost(s', m, x);
    if m < |s.loads| && x <= s'.loads[m] && SomeAtMost(s'.loads, x) {
      var j :| 0 <= j < |s'.loads| && s'.loads[j] <= x;
      assert s.loads[j] <= x;
      assert pr.seen <= s.loads[j];
    }
  }

  lemma InvStep(s: State, a: Action, b: nat)
    requires Inv(s, b) && Enabled(s, a)
    ensures Inv(Next(s, a).value, b)
  {
    ScanStep(s, a);
    forall m: nat, x: nat ensures Excess(Next(s, a).value, m, x, b) {
      if a.Push? { PushStep(s, a.p, m, x, b); } else { ReadStep(s, a, m, x, b); }
    }
  }

  predicate AllOutside(s: State) { forall p :: 0 <= p < |s.producers| ==> s.producers[p].Outside? }

  /**
   * With any number of racing producers and no removals, no interleaving of their reads and pushes raises the
   * spread of the loads above the larger of its old value and the number of producers.
   */
  lemma SpreadUnderRaces(s0: State, run: seq<Action>, s: State, d: nat)
    requires AllOutside(s0) && SpreadAtMost(s0.loads, d) && Exec(Next, s0, run) == Some(s)
    ensures SpreadAtMost(s.loads, if d < |s0.producers| then |s0.producers| else d)
  {
    var b := if d < |s0.producers| then |s0.producers| else d;
    forall m: nat, x: nat ensures Excess(s0, m, x, b) {
      TallyZero(Aims, s0.producers, (m, x));
    }
    forall s1, a | Inv(s1, b) && Next(s1, a).Some? ensures Inv(Next(s1, a).value, b) { InvStep(s1, a, b); }
    Invariance(Next, s1 => Inv(s1, b), s0, run);
    forall i, j | 0 <= i < |s.loads| && 0 <= j < |s.loads| ensures s.loads[i] <= s.loads[j] + b {
      var x := s.loads[j];
      assert SomeAtMost(s.loads, x);
      assert Excess(s, i, x, b);
      AimsAtMost(s, i, x);
    }
  }

  // ----- The bound is reached -----

  function Scanned(n: nat, p: nat): seq<Producer> { seq(n, i => if i < p then Scanning(0, 0, 2) else Outside) }

  function Done(n: nat, p: nat): seq<Producer> { seq(n, i => if i < p then Outside else Scanning(0, 0, 2)) }

  lemma {:induction false} ScanAll(n: nat, p: nat) returns (run: seq<Action>)
    requires p <= n
    ensures Exec(Next, State([0, 0], Scanned(n, p)), run) == Some(State([0, 0], Scanned(n, n)))
    decreases n - p
  {
    if p == n {
      run := [];
    } else {
      var s := State([0, 0], Scanned(n, p));
      var s1 := s.(producers := s.producers[p := Scanning(0, 0, 1)]);
      var s2 := State([0, 0], Scanned(n, p + 1));
      assert s2.producers == s1.producers[p := Scanning(0, 0, 2)];
      TwoSteps(Next, s, Begin(p), s1, Look(p), s2);
      run := ScanAll(n, p + 1);
      Then(Next, s, [Begin(p), Look(p)], s2, run, State([0, 0], Scanned(n, n)));
      run := [Begin(p), Look(p)] + run;
    }
  }

  lemma {:induction false} PushAll(n: nat, p: nat) returns (run: seq<Action>)
    requires p <= n
    ensures Exec(Next, State([p, 0], Done(n, p)), run) == Some(State([n, 0], Done(n, n)))
    decreases n - p
  {
    if p == n {
      run := [];
    } else {
      var s, s1 := State([p, 0], Done(n, p)), State([p + 1, 0], Done(n, p + 1));
      assert s1.producers == s.producers[p := Outside] && s1.loads == Placed(s.loads, 0);
      OneStep(Next, s, Push(p), s1);
      run := PushAll(n, p + 1);
      Then(Next, s, [Push(p)], s1, run, State([n, 0], Done(n, n)));
      run := [Push(p)] + run;
    }
  }

  /** For every number of producers the spread can get as far as that: all read before any pushes. */
  lemma RaceReachesTheBound(n: nat) returns (s0: State, run: seq<Action>, s: State)
    requires n > 0
    ensures AllOutside(s0) && |s0.producers| == n && SpreadAtMost(s0.loads, 0)
    ensures Exec(Next, s0, run) == Some(s) && AllOutside(s) && s.loads == [n, 0]
    ensures SpreadAtMost(s.loads, n) && !SpreadAtMost(s.loads, n - 1)
  {
    s0, s := State([0, 0], Scanned(n, 0)), State([n, 0], Done(n, n));
    var scan := ScanAll(n, 0);
    var push := PushAll(n, 0);
    assert Scanned(n, n) == Done(n, 0);
    Then(Next, s0, scan, State([0, 0], Scanned(n, n)), push, s);
    run := scan + push;
    assert !(s.loads[0] <= s.loads[1] + (n - 1));
  }
}

/** The advanced scheduler's objects: a priority queue with its counter, placement, and the steal. */
module AdvancedObjects {
  import opened Seqs
  import opened Wrappers

  import A = AdvancedScheduler
  import P = AdvancedPlacement

  class ThreadQueue {
    var tasks: seq<A.PriorityTask>
    var taskCount: nat

    ghost predicate Valid()
      reads this
    {
      taskCount == |tasks|
    }

    constructor ()
      ensures Valid() && tasks == []
    {
      tasks, taskCount := [], 0;
    }

    method Push(t: A.PriorityTask)
      requires Valid()
      modifies this
      ensures Valid() && tasks == old(tasks) + [t]
    {
      tasks := tasks + [t];
      taskCount := taskCount + 1;
    }

    /** `top` and `pop`: any of the tasks that are below no other. */
    method Pop() returns (t: A.PriorityTask, ghost i: nat)
      requires Valid() && tasks != []
      modifies this
      ensures Valid() && A.IsTop(old(tasks), i) && t == old(tasks)[i] && tasks == Without(old(tasks), i)
    {
      ghost var top := A.TopExists(tasks);
      var k: nat :| k < |tasks| && A.IsTop(tasks, k);
      t, i := tasks[k], k;
      tasks := Without(tasks, k);
      taskCount := taskCount - 1;
    }
  }

  class AdvancedScheduler {
    const queues: seq<ThreadQueue>
    var nextTaskId: nat
    var stealing: bool

    ghost predicate Valid()
      reads this, queues
    {
      && queues != []
      && (forall i :: 0 <= i < |queues| ==> queues[i].Valid())
      && (forall i, j :: 0 <= i < j < |queues| ==> queues[i] != queues[j])
    }

    ghost function Loads(): seq<nat>
      reads this, queues
    {
      seq(|queues|, i requires 0 <= i < |queues| reads this, queues => |queues[i].tasks|)
    }

    method LeastLoaded() returns (m: nat)
      requires Valid()
      ensures P.IsFirstLeast(Loads(), m)
    {
      m := 0;
      var minLoad := queues[0].taskCount;
      for i := 1 to |queues|
        invariant m < i && minLoad == |queues[m].tasks|
        invariant forall j :: 0 <= j < i ==> minLoad <= |queues[j].tasks|
        invariant forall j :: 0 <= j < m ==> minLoad < |queues[j].tasks|
      {
        var load := queues[i].taskCount;
        if load < minLoad {
          minLoad := load;
          m := i;
        }
      }
    }

    /** The new task, with the next id, goes to the first of the shortest queues and to no other. */
    method ScheduleWithPriority(priority: A.TaskPriority, now: int) returns (m: nat)
      requires Valid()
      modifies this, queues
      ensures Valid() && nextTaskId == old(nextTaskId) + 1 && stealing == old(stealing)
      ensures P.IsFirstLeast(old(Loads()), m) && Loads() == P.Placed(old(Loads()), m)
      ensures queues[m].tasks == old(queues[m].tasks) + [A.PriorityTask(priority, now, old(nextTaskId))]
      ensures forall i :: 0 <= i < |queues| && i != m ==> queues[i].tasks == old(queues[i].tasks)
    {
      ghost var loads := Loads();
      var t := A.PriorityTask(priority, now, nextTaskId);
      nextTaskId := nextTaskId + 1;
      assert Loads() == loads;
      m := LeastLoaded();
      assert Loads() == loads;
      queues[m].Push(t);
      assert Loads() == P.Placed(loads, m);
    }

    /** `std::shuffle`: callers know no more than that it permutes. */
    method Shuffle(xs: seq<nat>) returns (ys: seq<nat>)
      ensures multiset(ys) == multiset(xs)
    {
      ys := xs;
    }

    /** `free` tells which queue mutexes `try_to_lock` gets. */
    method TrySteal(thief: nat, free: seq<bool>) returns (task: Option<A.PriorityTask>, ghost from: nat, ghost top: nat)
      requires Valid() && |free| == |queues|
      modifies queues
      ensures Valid()
      ensures task.Some? ==> from < |queues| && from != thief && free[from] && |old(queues[from].tasks)| > 1
      ensures task.Some? ==> A.IsTop(old(queues[from].tasks), top) && task.value == old(queues[from].tasks)[top]
      ensures task.Some? ==> queues[from].tasks == Without(old(queues[from].tasks), top)
      ensures forall i :: 0 <= i < |queues| && (task.None? || i != from) ==> queues[i].tasks == old(queues[i].tasks)
      ensures task.None? <==> forall i :: 0 <= i < |queues| && i != thief && free[i] ==> |old(queues[i].tasks)| <= 1
    {
      var candidates: seq<nat> := [];
      for i := 0 to |queues|
        invariant forall c: nat :: c in candidates <==> c < i && c != thief && |queues[c].tasks| > 1
      {
        if i != thief && queues[i].taskCount > 1 {
          candidates := candidates + [i];
        }
      }
      from, top := 0, 0;
      var shuffled := Shuffle(candidates);
      assert forall c: nat :: c in shuffled <==> c in candidates by {
        assert forall c: nat :: c in shuffled <==> c in multiset(shuffled);
        assert forall c: nat :: c in candidates <==> c in multiset(candidates);
      }
      for k := 0 to |shuffled|
        invariant Valid() && forall i :: 0 <= i < |queues| ==> queues[i].tasks == old(queues[i].tasks)
        invariant forall j :: 0 <= j < k ==> shuffled[j] < |free| && !free[shuffled[j]]
      {
        var victim := shuffled[k];
        assert victim in candidates;
        if free[victim] && queues[victim].tasks != [] {
          var t;
          t, top := queues[victim].Pop();
          from := victim;
          return Some(t), from, top;
        }
      }
      task := None;
      assert forall i: nat :: i < |queues| && i in shuffled ==> !free[i];
      assert forall i: nat :: i < |queues| && i != thief && i !in shuffled ==> |queues[i].tasks| <= 1;
    }

    /** One round of the worker loop up to running the task: its own queue first, then a steal if enabled. */
    method NextTask(self: nat, free: seq<bool>) returns (task: Option<A.PriorityTask>, ghost from: nat, ghost top: nat)
      requires Valid() && self < |queues| && |free| == |queues|
      modifies queues
      ensures Valid()
      ensures task.Some? ==> from < |queues| && A.IsTop(old(queues[from].tasks), top)
      ensures task.Some? ==> task.value == old(queues[from].tasks)[top]
      ensures task.Some? ==> queues[from].tasks == Without(old(queues[from].tasks), top)
      ensures forall i :: 0 <= i < |queues| && (task.None? || i != from) ==> queues[i].tasks == old(queues[i].tasks)
      ensures old(queues[self].tasks) != [] ==> task.Some? && from == self
      ensures old(queues[self].tasks) == [] && task.Some? ==> stealing && from != self && |old(queues[from].tasks)| > 1
      ensures task.None? && stealing ==>
        forall i :: 0 <= i < |queues| && i != self && free[i] ==> |old(queues[i].tasks)| <= 1
    {
      if queues[self].tasks != [] {
        var t;
        t, top := queues[self].Pop();
        return Some(t), self, top;
      }
      if stealing {
        task, from, top := TrySteal(self, free);
      } else {
        task, from, top := None, 0, 0;
      }
    }
  }
}
