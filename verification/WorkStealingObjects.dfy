/** The work-stealing scheduler's objects: the deque under its mutex, placement, batches and the steal loop. */
module WorkStealingObjects {
  import opened Wrappers
  import opened Runs
  import W = WorkStealing
  import M = Modular

  /** Every n-th element of `xs`, starting with the one at `q`. */
  function Dealt<T>(xs: seq<T>, q: nat, n: nat): seq<T>
    requires n > 0
    decreases |xs|
  {
    if xs == [] then []
    else Dealt(xs[..|xs| - 1], q, n) + if (|xs| - 1) % n == q then [xs[|xs| - 1]] else []
  }

  /** The functions of a batch that are not empty. */
  function Present<T>(batch: seq<Option<T>>): seq<T> {
    if batch == [] then []
    else Present(batch[..|batch| - 1]) + if batch[|batch| - 1].Some? then [batch[|batch| - 1].value] else []
  }

  lemma DealtNext<T>(xs: seq<T>, x: T, q: nat, n: nat)
    requires n > 0
    ensures Dealt(xs + [x], q, n) == Dealt(xs, q, n) + if |xs| % n == q then [x] else []
  {
    assert (xs + [x])[..|xs|] == xs;
  }

  lemma PresentNext<T>(batch: seq<Option<T>>, k: nat)
    requires k < |batch|
    ensures Present(batch[..k + 1]) == Present(batch[..k]) + if batch[k].Some? then [batch[k].value] else []
  {
    assert batch[..k + 1][..k] == batch[..k];
  }

  lemma AllOf<T>(batch: seq<Option<T>>)
    ensures batch[..|batch|] == batch
  {}

  /** Dealing is even: every queue gets floor or ceiling of its share. */
  lemma {:induction false} DealtCount<T>(xs: seq<T>, q: nat, n: nat)
    requires q < n
    ensures |Dealt(xs, q, n)| == |xs| / n + if q < |xs| % n then 1 else 0
  {
    if xs != [] {
      DealtCount(xs[..|xs| - 1], q, n);
      M.NextTicket(|xs| - 1, n);
    }
  }

  // ----- Placement in the concurrent system -----

  /** A single push goes to the back of the deque that the producer aims at, and to no other. */
  lemma PushLands(s: W.State, p: nat, q: nat)
    requires W.Enabled(s, W.PushTo(p, q))
    ensures var s' := W.Next(s, W.PushTo(p, q)).value;
      && s'.pushed == s.pushed + 1 && |s'.deques| == |s.deques|
      && forall i :: 0 <= i < |s.deques| ==>
           s'.deques[i].tasks == s.deques[i].tasks + if i == q then [s.pushed] else []
  {}

  /** `k` push numbers from `first` on. */
  function Numbers(first: nat, k: nat): seq<nat> { seq(k, i requires 0 <= i < k => first + i) }

  function Deals(p: nat, k: nat): seq<W.Action> { seq(k, _ => W.Deal(p)) }

  ghost predicate DealtUpTo(s: W.State, p: nat, full: nat, k: nat, e: W.State) {
    && k <= full && |e.deques| == |s.deques| > 0 && e.pushed == s.pushed + k && e.scheduled == s.scheduled
    && p < |e.producers|
    && e.producers[p] == (if k == full then W.Outside else W.Dealing(full - k, k % |s.deques|))
    && forall q: nat :: q < |s.deques| ==>
         e.deques[q].tasks == s.deques[q].tasks + Dealt(Numbers(s.pushed, k), q, |s.deques|)
  }

  lemma DealOne(s: W.State, p: nat, full: nat, k: nat, m: W.State) returns (e: W.State)
    requires DealtUpTo(s, p, full, k, m) && k < full
    ensures Exec(W.Next, m, [W.Deal(p)]) == Some(e) && DealtUpTo(s, p, full, k + 1, e)
  {
    var n := |s.deques|;
    e := W.Next(m, W.Deal(p)).value;
    OneStep(W.Next, m, W.Deal(p), e);
    M.NextResidue(k, n);
    assert Numbers(s.pushed, k + 1) == Numbers(s.pushed, k) + [s.pushed + k];
    forall q: nat | q < n
      ensures e.deques[q].tasks == s.deques[q].tasks + Dealt(Numbers(s.pushed, k + 1), q, n)
    {
      DealtNext(Numbers(s.pushed, k), s.pushed + k, q, n);
      assert m.deques[q].tasks == s.deques[q].tasks + Dealt(Numbers(s.pushed, k), q, n);
    }
  }

  lemma {:induction false} DealMany(s: W.State, p: nat, full: nat, k: nat) returns (e: W.State)
    requires DealtUpTo(s, p, full, 0, s) && k <= full
    ensures Exec(W.Next, s, Deals(p, k)) == Some(e) && DealtUpTo(s, p, full, k, e)
  {
    if k == 0 {
      e := s;
    } else {
      var m := DealMany(s, p, full, k - 1);
      e := DealOne(s, p, full, k - 1, m);
      Then(W.Next, s, Deals(p, k - 1), m, [W.Deal(p)], e);
      assert Deals(p, k) == Deals(p, k - 1) + [W.Deal(p)];
    }
  }

  /** One producer stepping alone through `schedule_batch` deals its tasks as the method does. */
  lemma BatchAlone(s: W.State, p: nat, full: nat, empty: nat) returns (e: W.State)
    requires W.Enabled(s, W.Batch(p, full, empty))
    ensures Exec(W.Next, s, [W.Batch(p, full, empty)] + Deals(p, full)) == Some(e)
    ensures |e.deques| == |s.deques| && p < |e.producers| && e.producers[p].Outside?
    ensures e.pushed == s.pushed + full && e.scheduled == s.scheduled + full + empty
    ensures forall q: nat :: q < |s.deques| ==>
      e.deques[q].tasks == s.deques[q].tasks + Dealt(Numbers(s.pushed, full), q, |s.deques|)
  {
    var s1 := W.Next(s, W.Batch(p, full, empty)).value;
    OneStep(W.Next, s, W.Batch(p, full, empty), s1);
    assert DealtUpTo(s1, p, full, 0, s1);
    e := DealMany(s1, p, full, full);
    Then(W.Next, s, [W.Batch(p, full, empty)], s1, Deals(p, full), e);
  }

  class WorkStealingQueue {
    var tasks: seq<nat>
    var size: int
    var executedTasks: nat
    var stolenTasks: nat
    var failedSteals: nat
    ghost var stolenLog: seq<nat>

    ghost function Contents(): W.Deque
      reads this
    {
      W.Deque(tasks, size, executedTasks, stolenTasks, stolenLog)
    }

    constructor ()
      ensures Contents() == W.Deque([], 0, 0, 0, []) && failedSteals == 0
    {
      tasks, size, executedTasks, stolenTasks, failedSteals, stolenLog := [], 0, 0, 0, 0, [];
    }

    method PushLocal(task: nat)
      modifies this
      ensures Contents() == W.PushedLocal(old(Contents()), task) && failedSteals == old(failedSteals)
      ensures tasks == old(tasks) + [task] && size == old(size) + 1
    {
      tasks := tasks + [task];
      size := size + 1;
    }

    method PopLocal() returns (task: Option<nat>)
      modifies this
      ensures failedSteals == old(failedSteals)
      ensures task.None? ==> old(tasks) == [] && Contents() == old(Contents())
      ensures task.Some? ==> tasks + [task.value] == old(tasks) && size == old(size) - 1
      ensures task.Some? ==> Contents() == W.PoppedLocal(old(Contents()))
    {
      if tasks == [] {
        return None;
      }
      task := Some(tasks[|tasks| - 1]);
      tasks := tasks[..|tasks| - 1];
      size := size - 1;
    }

    method Steal() returns (task: Option<nat>)
      modifies this
      ensures task.None? ==> old(tasks) == [] && Contents() == old(Contents()) && failedSteals == old(failedSteals) + 1
      ensures task.Some? ==> [task.value] + tasks == old(tasks) && size == old(size) - 1
      ensures task.Some? ==> stolenTasks == old(stolenTasks) + 1 && stolenLog == old(stolenLog) + [task.value]
      ensures task.Some? ==> Contents() == W.StolenFrom(old(Contents())) && failedSteals == old(failedSteals)
    {
      if tasks == [] {
        failedSteals := failedSteals + 1;
        return None;
      }
      task := Some(tasks[0]);
      stolenLog := stolenLog + [tasks[0]];
      tasks := tasks[1..];
      size := size - 1;
      stolenTasks := stolenTasks + 1;
    }
  }

  class WorkStealingScheduler {
    const queues: seq<WorkStealingQueue>
    var totalScheduled: nat
    var totalSteals: nat
    var successfulSteals: nat
    var failedSteals: nat

    ghost predicate Valid()
      reads this, queues
    {
      && queues != []
      && (forall i :: 0 <= i < |queues| ==> queues[i].size == |queues[i].tasks|)
      && (forall i, j :: 0 <= i < j < |queues| ==> queues[i] != queues[j])
    }

    /** The scan of `schedule` when the calling thread has no queue: the first of the shortest queues. */
    method LeastLoaded() returns (m: nat)
      requires Valid()
      ensures m < |queues|
      ensures forall i :: 0 <= i < |queues| ==> |queues[m].tasks| <= |queues[i].tasks|
      ensures forall i :: 0 <= i < m ==> |queues[m].tasks| < |queues[i].tasks|
    {
      m := 0;
      var minLoad := queues[0].size;
      for i := 1 to |queues|
        invariant m < i && minLoad == |queues[m].tasks|
        invariant forall j :: 0 <= j < i ==> minLoad <= |queues[j].tasks|
        invariant forall j :: 0 <= j < m ==> minLoad < |queues[j].tasks|
      {
        if queues[i].size < minLoad {
          minLoad := queues[i].size;
          m := i;
        }
      }
    }

    /** `home` is the calling thread's queue index, if it has one. */
    method Schedule(task: Option<nat>, home: Option<nat>) returns (target: Option<nat>)
      requires Valid()
      modifies this, queues
      ensures Valid() && (target.None? <==> task.None?)
      ensures totalScheduled == old(totalScheduled) + if task.Some? then 1 else 0
      ensures forall i :: 0 <= i < |queues| ==>
        queues[i].tasks == old(queues[i].tasks) + if target == Some(i) then [task.value] else []
      ensures task.Some? && home.Some? && home.value < |queues| ==> target == home
      ensures task.Some? ==> target.value < |queues|
      ensures task.Some? && (home.None? || home.value >= |queues|) ==>
        forall i :: 0 <= i < |queues| ==> |old(queues[target.value].tasks)| <= |old(queues[i].tasks)|
    {
      if task.None? {
        return None;
      }
      totalScheduled := totalScheduled + 1;
      if home.Some? && home.value < |queues| {
        target := home;
      } else {
        var m := LeastLoaded();
        target := Some(m);
      }
      queues[target.value].PushLocal(task.value);
    }

    /** Without a valid preference the task goes through `Schedule`, and is counted twice. */
    method ScheduleWithAffinity(task: Option<nat>, preferred: nat, home: Option<nat>) returns (target: Option<nat>)
      requires Valid()
      modifies this, queues
      ensures Valid() && (target.None? <==> task.None?)
      ensures totalScheduled == old(totalScheduled)
        + if task.None? then 0 else if preferred < |queues| then 1 else 2
      ensures forall i :: 0 <= i < |queues| ==>
        queues[i].tasks == old(queues[i].tasks) + if target == Some(i) then [task.value] else []
      ensures task.Some? && preferred < |queues| ==> target == Some(preferred)
    {
      if task.None? {
        return None;
      }
      totalScheduled := totalScheduled + 1;
      if preferred >= |queues| {
        target := Schedule(task, home);
        return;
      }
      queues[preferred].PushLocal(task.value);
      target := Some(preferred);
    }

    ghost predicate HasDealt(before: seq<seq<nat>>, items: seq<nat>)
      reads this, queues
    {
      |before| == |queues| > 0 &&
      forall i :: 0 <= i < |queues| ==> queues[i].tasks == before[i] + Dealt(items, i, |queues|)
    }

    method DealNext(idx: nat, task: nat, ghost before: seq<seq<nat>>, ghost items: seq<nat>) returns (next: nat)
      requires Valid() && HasDealt(before, items) && idx == |items| % |queues|
      modifies queues
      ensures Valid() && HasDealt(before, items + [task]) && next == (|items| + 1) % |queues|
    {
      queues[idx].PushLocal(task);
      next := (idx + 1) % |queues|;
      M.NextResidue(|items|, |queues|);
      forall i: nat | i < |queues| ensures queues[i].tasks == before[i] + Dealt(items + [task], i, |queues|) {
        DealtNext(items, task, i, |queues|);
      }
    }

    /** Deals the non-empty functions round robin from queue 0, and counts the empty ones as well. */
    method ScheduleBatch(batch: seq<Option<nat>>)
      requires Valid()
      modifies this, queues
      ensures Valid() && totalScheduled == old(totalScheduled) + |batch|
      ensures forall i :: 0 <= i < |queues| ==>
        queues[i].tasks == old(queues[i].tasks) + Dealt(Present(batch), i, |queues|)
    {
      if batch == [] {
        return;
      }
      totalScheduled := totalScheduled + |batch|;
      ghost var before := seq(|queues|, i requires 0 <= i < |queues| reads this, queues => queues[i].tasks);
      ghost var items: seq<nat> := [];
      var idx := 0;
      for k := 0 to |batch|
        invariant Valid() && totalScheduled == old(totalScheduled) + |batch|
        invariant items == Present(batch[..k]) && HasDealt(before, items) && idx == |items| % |queues|
      {
        PresentNext(batch, k);
        if batch[k].Some? {
          idx := DealNext(idx, batch[k].value, before, items);
          items := items + [batch[k].value];
        }
      }
      AllOf(batch);
    }

    /**
     * One round of stealing with the given random draws: it takes the oldest task of the first non-empty
     * victim, which is never the thief's own queue, and touches no other queue.
     */
    method TrySteal(self: nat, draws: seq<nat>) returns (task: Option<nat>, ghost from: nat)
      requires Valid() && self < |queues| && |draws| == |queues| - 1
      requires forall k :: 0 <= k < |draws| ==> draws[k] < |queues|
      modifies this, queues
      ensures Valid() && totalScheduled == old(totalScheduled) && successfulSteals == old(successfulSteals)
      ensures totalSteals == old(totalSteals) + if |queues| > 1 then 1 else 0
      ensures failedSteals == old(failedSteals) + if |queues| > 1 && task.None? then 1 else 0
      ensures task.Some? ==> from < |queues| && from != self
      ensures task.Some? ==> [task.value] + queues[from].tasks == old(queues[from].tasks)
      ensures forall i :: 0 <= i < |queues| && (task.None? || i != from) ==> queues[i].tasks == old(queues[i].tasks)
      ensures task.None? ==> forall k :: 0 <= k < |draws| ==> queues[W.VictimOf(draws[k], self, |queues|)].tasks == []
    {
      from := 0;
      if |queues| <= 1 {
        return None, from;
      }
      totalSteals := totalSteals + 1;
      for k := 0 to |queues| - 1
        invariant Valid() && totalScheduled == old(totalScheduled) && successfulSteals == old(successfulSteals)
        invariant totalSteals == old(totalSteals) + 1 && failedSteals == old(failedSteals)
        invariant forall i :: 0 <= i < |queues| ==> queues[i].tasks == old(queues[i].tasks)
        invariant forall j :: 0 <= j < k ==> queues[W.VictimOf(draws[j], self, |queues|)].tasks == []
      {
        var victim := draws[k];
        if victim == self {
          victim := (victim + 1) % |queues|;
        }
        W.VictimIsAnyOther(self, |queues|, victim);
        task := queues[victim].Steal();
        if task.Some? {
          from := victim;
          return;
        }
      }
      failedSteals := failedSteals + 1;
      task := None;
    }
  }
}
