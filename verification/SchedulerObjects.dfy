/** The base scheduler's objects: the queue under its mutex, `schedule`, `is_idle`, the worker loop and the cleanup. */
module SchedulerObjects {
  import opened Wrappers
  import opened Runs
  import B = BaseScheduler

  /** `log` is the queue of the concurrent system, with its history. */
  class WorkerQueue {
    var tasks: seq<B.Job>
    var size: nat
    ghost var log: B.Queue

    ghost predicate Valid()
      reads this
    {
      size == |tasks| && log.tasks == tasks
    }

    constructor ()
      ensures Valid() && log == B.EMPTY
    {
      tasks, size, log := [], 0, B.EMPTY;
    }

    method Push(task: B.Job)
      requires Valid()
      modifies this
      ensures Valid() && log == B.Pushed(old(log), task) && tasks == old(tasks) + [task]
    {
      tasks := tasks + [task];
      size := size + 1;
      log := B.Pushed(log, task);
    }

    method TryPop() returns (task: Option<B.Job>)
      requires Valid()
      modifies this
      ensures Valid() && (task.None? <==> old(tasks) == [])
      ensures task.None? ==> log == old(log) && tasks == []
      ensures task.Some? ==> log == B.Popped(old(log)) && [task.value] + tasks == old(tasks)
    {
      if tasks == [] {
        return None;
      }
      log := B.Popped(log);
      task := Some(tasks[0]);
      tasks := tasks[1..];
      size := size - 1;
    }

    /** Pops a task and runs it. */
    method RunNext() returns (task: Option<B.Job>)
      requires Valid()
      modifies this
      ensures Valid() && (task.None? <==> old(tasks) == [])
      ensures task.None? ==> log == old(log) && tasks == []
      ensures task.Some? ==> [task.value] + tasks == old(tasks)
      ensures task.Some? ==> log == B.Executed(B.Popped(old(log)), old(log).popped)
    {
      task := TryPop();
      if task.Some? {
        log := B.Executed(log, log.popped - 1);
      }
    }

    method Empty() returns (e: bool)
      ensures e <==> tasks == []
    {
      e := tasks == [];
    }

    /** The final cleanup of one queue. */
    method Clear()
      requires Valid()
      modifies this
      ensures Valid() && log == B.Cleared(old(log)) && tasks == []
    {
      log := B.Cleared(log);
      while tasks != []
        invariant log == B.Cleared(old(log))
        decreases |tasks|
      {
        tasks := tasks[1..];
      }
      size := 0;
    }
  }

  /** What a caller of the scheduler's public methods can tell apart. */
  datatype View = View(tasks: seq<seq<B.Job>>, maxQueue: nat, next: nat, stopped: bool, scheduled: nat)

  /** `schedule(std::function)` when nobody interferes. */
  function ScheduledFunc(v: View, id: nat): View
    requires v.tasks != []
  {
    if v.stopped then v
    else
      var q := v.next % |v.tasks|;
      var counted := v.(next := v.next + 1, scheduled := v.scheduled + 1);
      if |v.tasks[q]| >= v.maxQueue then counted
      else counted.(tasks := v.tasks[q := v.tasks[q] + [B.Func(id)]])
  }

  /** `schedule(Task&&)` when nobody interferes: no stop check, no cap, no counting. */
  function ScheduledCoro(v: View, id: nat): View
    requires v.tasks != []
  {
    var q := v.next % |v.tasks|;
    v.(next := v.next + 1, tasks := v.tasks[q := v.tasks[q] + [B.Coro(id)]])
  }

  ghost function ViewOf(s: B.State): View {
    View(TasksOf(s.queues), s.maxQueue, s.next, s.stopFlag, s.scheduled)
  }

  function TasksOf(queues: seq<B.Queue>): seq<seq<B.Job>> {
    seq(|queues|, q requires 0 <= q < |queues| => queues[q].tasks)
  }

  lemma AcceptAndBump(s: B.State, p: nat, id: nat) returns (s2: B.State)
    requires |s.queues| > 0 && p < |s.producers| && s.producers[p].Outside? && !s.stopFlag
    ensures Exec(B.Next, s, [B.Accept(p, id), B.Bump(p)]) == Some(s2)
    ensures s2 == s.(producers := s2.producers, scheduled := s.scheduled + 1)
    ensures |s2.producers| == |s.producers| && s2.producers[p] == B.Counted(B.Func(id))
  {
    var s1 := s.(producers := s.producers[p := B.Accepted(B.Func(id))]);
    s2 := s1.(producers := s1.producers[p := B.Counted(B.Func(id))], scheduled := s.scheduled + 1);
    TwoSteps(B.Next, s, B.Accept(p, id), s1, B.Bump(p), s2);
  }

  lemma AimAndCheck(s: B.State, p: nat) returns (s2: B.State)
    requires |s.queues| > 0 && p < |s.producers| && s.producers[p].Counted?
    ensures Exec(B.Next, s, [B.Aim(p), B.CheckSize(p)]) == Some(s2)
    ensures |s2.producers| == |s.producers| && |s2.queues| == |s.queues| && TasksOf(s2.queues) == TasksOf(s.queues)
    ensures s2.maxQueue == s.maxQueue && s2.next == s.next + 1
    ensures s2.stopFlag == s.stopFlag && s2.scheduled == s.scheduled
    ensures var q := s.next % |s.queues|;
      s2.producers[p] == if |s.queues[q].tasks| >= s.maxQueue then B.Outside else B.Ready(s.producers[p].job, q)
  {
    var q := s.next % |s.queues|;
    var s1 := B.Next(s, B.Aim(p)).value;
    assert s1.producers[p] == B.Aimed(s.producers[p].job, q);
    assert s1.queues == s.queues[q := B.Placed(s.queues[q], s.producers[p].job)];
    s2 := B.Next(s1, B.CheckSize(p)).value;
    TwoSteps(B.Next, s, B.Aim(p), s1, B.CheckSize(p), s2);
    assert TasksOf(s2.queues) == TasksOf(s.queues);
  }

  lemma PushAndNotify(s: B.State, p: nat) returns (s2: B.State)
    requires |s.queues| > 0 && p < |s.producers| && s.producers[p].Ready? && s.producers[p].q < |s.queues|
    ensures Exec(B.Next, s, [B.Push(p), B.Notify(p)]) == Some(s2)
    ensures |s2.producers| == |s.producers| && s2.producers[p].Outside?
    ensures ViewOf(s2) == var q := s.producers[p].q;
      ViewOf(s).(tasks := TasksOf(s.queues)[q := s.queues[q].tasks + [s.producers[p].job]])
  {
    var q, job := s.producers[p].q, s.producers[p].job;
    var s1 := s.(producers := s.producers[p := B.Notifying(q)], queues := s.queues[q := B.Pushed(s.queues[q], job)]);
    s2 := s1.(producers := s1.producers[p := B.Outside]);
    TwoSteps(B.Next, s, B.Push(p), s1, B.Notify(p), s2);
    assert TasksOf(s2.queues) == TasksOf(s.queues)[q := s.queues[q].tasks + [job]];
  }

  /** The steps of `schedule`: none when stopped; the push only when there is room. */
  function StepsOfSchedule(s: B.State, p: nat, id: nat): seq<B.Action>
    requires |s.queues| > 0
  {
    if s.stopFlag then []
    else
      [B.Accept(p, id), B.Bump(p)] + [B.Aim(p), B.CheckSize(p)]
      + if |s.queues[s.next % |s.queues|].tasks| < s.maxQueue then [B.Push(p), B.Notify(p)] else []
  }

  /** One producer stepping alone through `schedule` does to the concurrent system what the method does. */
  lemma ScheduleAlone(s: B.State, p: nat, id: nat) returns (s': B.State)
    requires |s.queues| > 0 && p < |s.producers| && s.producers[p].Outside?
    ensures s.stopFlag <==> B.Next(s, B.Accept(p, id)) == None
    ensures Exec(B.Next, s, StepsOfSchedule(s, p, id)) == Some(s') && ViewOf(s') == ScheduledFunc(ViewOf(s), id)
    ensures |s'.producers| == |s.producers| && s'.producers[p].Outside?
  {
    if s.stopFlag {
      return s;
    }
    var s2 := AcceptAndBump(s, p, id);
    var s4 := AimAndCheck(s2, p);
    var run := [B.Accept(p, id), B.Bump(p)] + [B.Aim(p), B.CheckSize(p)];
    Then(B.Next, s, [B.Accept(p, id), B.Bump(p)], s2, [B.Aim(p), B.CheckSize(p)], s4);
    var q := s.next % |s.queues|;
    assert TasksOf(s4.queues)[q] == s.queues[q].tasks;
    if s4.producers[p].Outside? {
      s' := s4;
      assert run + [] == run;
    } else {
      s' := PushAndNotify(s4, p);
      Then(B.Next, s, run, s4, [B.Push(p), B.Notify(p)], s');
    }
  }

  lemma ScheduleCoroAlone(s: B.State, p: nat, id: nat) returns (s': B.State)
    requires |s.queues| > 0 && p < |s.producers| && s.producers[p].Outside?
    ensures Exec(B.Next, s, [B.AimCoro(p, id)] + [B.Push(p), B.Notify(p)]) == Some(s')
    ensures ViewOf(s') == ScheduledCoro(ViewOf(s), id)
    ensures |s'.producers| == |s.producers| && s'.producers[p].Outside?
  {
    var q := s.next % |s.queues|;
    var s1 := s.(producers := s.producers[p := B.Ready(B.Coro(id), q)],
                 queues := s.queues[q := B.Placed(s.queues[q], B.Coro(id))], next := s.next + 1);
    OneStep(B.Next, s, B.AimCoro(p, id), s1);
    assert TasksOf(s1.queues) == TasksOf(s.queues);
    s' := PushAndNotify(s1, p);
    Then(B.Next, s, [B.AimCoro(p, id)], s1, [B.Push(p), B.Notify(p)], s');
  }

  /** The queue after its first `n` tasks were popped and executed, one after the other. */
  ghost function Worked(q: B.Queue, n: nat): (r: B.Queue)
    requires n <= |q.tasks|
    ensures r.tasks == q.tasks[n..] && r.popped == q.popped + n
  {
    if n == 0 then q
    else
      var before := Worked(q, n - 1);
      B.Executed(B.Popped(before), before.popped)
  }

  class Scheduler {
    const queues: seq<WorkerQueue>
    const maxQueueSize: nat
    var nextQueue: nat
    var stopFlag: bool
    var totalScheduled: nat
    var activeCoroutines: nat

    ghost predicate Valid()
      reads this, queues
    {
      && queues != []
      && (forall i :: 0 <= i < |queues| ==> queues[i].Valid())
      && (forall i, j :: 0 <= i < j < |queues| ==> queues[i] != queues[j])
    }

    ghost function Contents(): View
      reads this, queues
    {
      View(seq(|queues|, i requires 0 <= i < |queues| reads this, queues => queues[i].tasks),
           maxQueueSize, nextQueue, stopFlag, totalScheduled)
    }

    /** A thread count of zero is taken as one; the cap is the library's. */
    constructor (threadCount: nat)
      ensures Valid() && fresh(queues)
      ensures |queues| == if threadCount == 0 then 1 else threadCount
      ensures maxQueueSize == 500000 && nextQueue == 0 && !stopFlag && totalScheduled == 0 && activeCoroutines == 0
      ensures forall i :: 0 <= i < |queues| ==> queues[i].tasks == []
    {
      var n := if threadCount == 0 then 1 else threadCount;
      var qs: seq<WorkerQueue> := [];
      while |qs| < n
        invariant |qs| <= n
        invariant forall i :: 0 <= i < |qs| ==> fresh(qs[i]) && qs[i].Valid() && qs[i].tasks == []
        invariant forall i, j :: 0 <= i < j < |qs| ==> qs[i] != qs[j]
      {
        var q := new WorkerQueue();
        qs := qs + [q];
      }
      queues := qs;
      maxQueueSize, nextQueue, stopFlag, totalScheduled, activeCoroutines := 500000, 0, false, 0, 0;
    }

    method Schedule(func: Option<nat>)
      requires Valid()
      modifies this, queues
      ensures Valid()
      ensures Contents() == if func.None? then old(Contents()) else ScheduledFunc(old(Contents()), func.value)
      ensures stopFlag == old(stopFlag) && activeCoroutines == old(activeCoroutines)
      ensures func.None? || stopFlag ==> nextQueue == old(nextQueue) && totalScheduled == old(totalScheduled)
      ensures func.None? || stopFlag ==> forall i :: 0 <= i < |queues| ==> queues[i].tasks == old(queues[i].tasks)
      ensures func.Some? && !stopFlag ==> nextQueue == old(nextQueue) + 1 && totalScheduled == old(totalScheduled) + 1
      ensures func.Some? && !stopFlag ==>
        forall i :: 0 <= i < |queues| ==>
          var room := i == old(nextQueue) % |queues| && |old(queues[i].tasks)| < maxQueueSize;
          queues[i].tasks == old(queues[i].tasks) + if room then [B.Func(func.value)] else []
    {
      if func.None? {
        return;
      }
      if stopFlag {
        return;
      }
      totalScheduled := totalScheduled + 1;
      var idx := nextQueue % |queues|;
      nextQueue := nextQueue + 1;
      if queues[idx].size >= maxQueueSize {
        return;
      }
      queues[idx].Push(B.Func(func.value));
    }

    method ScheduleTask(id: nat)
      requires Valid()
      modifies this, queues
      ensures Valid() && Contents() == ScheduledCoro(old(Contents()), id)
      ensures stopFlag == old(stopFlag) && activeCoroutines == old(activeCoroutines)
      ensures nextQueue == old(nextQueue) + 1 && totalScheduled == old(totalScheduled)
      ensures forall i :: 0 <= i < |queues| ==>
        queues[i].tasks == old(queues[i].tasks) + if i == old(nextQueue) % |queues| then [B.Coro(id)] else []
    {
      var idx := nextQueue % |queues|;
      nextQueue := nextQueue + 1;
      queues[idx].Push(B.Coro(id));
    }

    method IsIdle() returns (idle: bool)
      requires Valid()
      ensures idle <==> activeCoroutines == 0 && forall i :: 0 <= i < |queues| ==> queues[i].tasks == []
    {
      for i := 0 to |queues|
        invariant forall j :: 0 <= j < i ==> queues[j].tasks == []
      {
        var e := queues[i].Empty();
        if !e {
          return false;
        }
      }
      idle := activeCoroutines == 0;
    }

    /**
     * A worker's loop while nobody pushes, watched until its wait has timed out `waits` times: it executes what is
     * queued, position after position, and leaves at a wait exactly when the stop flag is up.
     */
    method WorkerThread(idx: nat, waits: nat) returns (ran: seq<B.Job>, left: bool)
      requires Valid() && idx < |queues|
      modifies queues[idx]
      ensures Valid() && ran == old(queues[idx].tasks) && queues[idx].tasks == []
      ensures queues[idx].log == Worked(old(queues[idx].log), |ran|)
      ensures left <==> stopFlag && waits > 0
    {
      ran, left := [], false;
      var queue, timeouts := queues[idx], 0;
      ghost var before := queue.log;
      while true
        invariant queue.Valid() && |ran| <= |before.tasks| && ran == before.tasks[..|ran|]
        invariant queue.log == Worked(before, |ran|)
        invariant !left && timeouts <= waits && (timeouts > 0 ==> !stopFlag)
        decreases |queue.tasks| + waits - timeouts
      {
        var task := queue.RunNext();
        if task.Some? {
          ran := ran + [task.value];
          continue;
        }
        if timeouts == waits {
          break;
        }
        timeouts := timeouts + 1;
        var e := queue.Empty();
        if stopFlag && e {
          left := true;
          break;
        }
      }
    }

    /** The last part of `stop`: what is left in any queue is thrown away. */
    method DiscardLeftovers()
      requires Valid()
      modifies queues
      ensures Valid() && forall i :: 0 <= i < |queues| ==> queues[i].tasks == []
      ensures forall i :: 0 <= i < |queues| ==> queues[i].log == B.Cleared(old(queues[i].log))
    {
      for i := 0 to |queues|
        invariant Valid()
        invariant forall j :: 0 <= j < i ==> queues[j].tasks == []
        invariant forall j :: 0 <= j < i ==> queues[j].log == B.Cleared(old(queues[j].log))
        invariant forall j :: i <= j < |queues| ==> queues[j].log == old(queues[j].log)
      {
        queues[i].Clear();
      }
    }
  }
}
