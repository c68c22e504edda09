/**
 * When the global map and the threads' tables agree: `add_event` chooses the thread, and nothing makes it choose
 * the one that has the descriptor already.
 */
module IoAgreement {
  import opened Wrappers
  import opened Runs
  import opened IoRegistry

  /** The map sends a descriptor to thread `t` exactly when the descriptor is in its table. */
  predicate AgreesAt(s: State, t: nat, fd: int)
    requires t < |s.threads|
  {
    fd in s.threads[t].table <==> fd in s.owner && s.owner[fd] == t
  }

  /** Map and tables agree on every thread whose mutex is free. */
  ghost predicate MapAgrees(s: State) {
    forall t: nat, fd :: t < |s.threads| && Free(s, t) ==> AgreesAt(s, t, fd)
  }

  /** The guard that the source does not have: no other thread has the descriptor or is just erasing it. */
  ghost predicate Disciplined(s: State, a: Action) {
    a.Add? ==> forall u: nat :: u < |s.threads| && u != a.t ==> a.fd !in s.threads[u].table && !BeingErased(s, u, a.fd)
  }

  ghost function NextDisciplined(s: State, a: Action): Option<State> {
    if Disciplined(s, a) then Next(s, a) else None
  }

  predicate BeingAdded(s: State, t: nat, fd: int) {
    exists c :: 0 <= c < |s.calls| && s.calls[c] == Adding(t, fd)
  }

  predicate EntryKnown(s: State, t: nat, fd: int) { (fd in s.owner && s.owner[fd] == t) || BeingAdded(s, t, fd) }

  /** Every table entry is in the map or just being added. */
  ghost predicate Entered(s: State) {
    forall t: nat, fd :: t < |s.threads| && fd in s.threads[t].table ==> EntryKnown(s, t, fd)
  }

  /** No descriptor is in two tables, or in one while it is being erased from another. */
  ghost predicate Alone(s: State) {
    forall t: nat, u: nat, fd :: t < |s.threads| && u < |s.threads| && t != u && fd in s.threads[t].table ==>
      fd !in s.threads[u].table && !BeingErased(s, u, fd)
  }

  ghost predicate Agreeing(s: State) { Entered(s) && Alone(s) }

  lemma StillAdded(s: State, a: Action, t: nat, fd: int)
    requires Enabled(s, a) && BeingAdded(s, t, fd)
    ensures EntryKnown(Next(s, a).value, t, fd)
  {
    var c :| 0 <= c < |s.calls| && s.calls[c] == Adding(t, fd);
    if a != Publish(c) {
      assert Next(s, a).value.calls[c] == Adding(t, fd);
    }
  }

  lemma ThreadsStay(s: State, a: Action)
    requires Enabled(s, a)
    ensures |Next(s, a).value.threads| == |s.threads|
  {}

  lemma TableEntryFrom(s: State, a: Action, t: nat, fd: int)
    requires Enabled(s, a) && t < |s.threads|
    ensures |Next(s, a).value.threads| == |s.threads|
    ensures fd in Next(s, a).value.threads[t].table ==> fd in s.threads[t].table || (a.Add? && a.t == t && a.fd == fd)
  {}

  lemma ErasedFrom(s: State, a: Action, t: nat, fd: int)
    requires HoldersKnow(s) && Enabled(s, a) && BeingErased(Next(s, a).value, t, fd)
    ensures BeingErased(s, t, fd) || (t < |s.threads| && fd in s.threads[t].table)
  {
    var s' := Next(s, a).value;
    var c :| 0 <= c < |s'.calls| && s'.calls[c] == Erasing(t, fd);
    if !(a.Remove? && a.c == c) {
      assert s.calls[c] == Erasing(t, fd);
    }
  }

  lemma ForgottenIsNowhere(s: State, c: nat, t: nat)
    requires Inv(s) && Agreeing(s) && Enabled(s, Forget(c)) && t < |s.threads|
    ensures s.calls[c].fd !in s.threads[t].table
  {
    assert BeingErased(s, s.calls[c].t, s.calls[c].fd);
  }

  lemma EnteredStep(s: State, a: Action, t: nat, fd: int)
    requires Inv(s) && Agreeing(s) && Enabled(s, a) && t < |s.threads|
    requires |Next(s, a).value.threads| == |s.threads| && fd in Next(s, a).value.threads[t].table
    ensures EntryKnown(Next(s, a).value, t, fd)
  {
    var s' := Next(s, a).value;
    TableEntryFrom(s, a, t, fd);
    if a.Forget? { ForgottenIsNowhere(s, a.c, t); }
    if a.Publish? { assert s.calls[a.c].fd in s.threads[s.calls[a.c].t].table; }
    if a.Add? && a.t == t && a.fd == fd {
      assert s'.calls[a.c] == Adding(t, fd);
    } else {
      assert EntryKnown(s, t, fd);
      if BeingAdded(s, t, fd) { StillAdded(s, a, t, fd); }
    }
  }

  lemma AloneStep(s: State, a: Action, t: nat, u: nat, fd: int)
    requires Inv(s) && Agreeing(s) && Enabled(s, a) && Disciplined(s, a) && t < |s.threads| && u < |s.threads| && t != u
    requires |Next(s, a).value.threads| == |s.threads| && fd in Next(s, a).value.threads[t].table
    ensures fd !in Next(s, a).value.threads[u].table && !BeingErased(Next(s, a).value, u, fd)
  {
    TableEntryFrom(s, a, t, fd);
    TableEntryFrom(s, a, u, fd);
    if BeingErased(Next(s, a).value, u, fd) { ErasedFrom(s, a, u, fd); }
  }

  lemma DisciplinedStep(s: State, a: Action)
    requires Inv(s) && Agreeing(s) && Enabled(s, a) && Disciplined(s, a)
    ensures Agreeing(Next(s, a).value)
  {
    var s' := Next(s, a).value;
    ThreadsStay(s, a);
    forall t: nat, fd | t < |s'.threads| && fd in s'.threads[t].table ensures EntryKnown(s', t, fd) {
      EnteredStep(s, a, t, fd);
    }
    forall t: nat, u: nat, fd | t < |s'.threads| && u < |s'.threads| && t != u && fd in s'.threads[t].table
      ensures fd !in s'.threads[u].table && !BeingErased(s', u, fd)
    {
      AloneStep(s, a, t, u, fd);
    }
  }

  /** The other thread that makes an `Add` undisciplined: the descriptor is there, or being erased, after it too. */
  lemma UndisciplinedAdd(s: State, a: Action) returns (u: nat)
    requires Inv(s) && Enabled(s, a) && !Disciplined(s, a)
    ensures a.Add? && u < |s.threads| && u != a.t
    ensures var s' := Next(s, a).value;
      && |s'.threads| == |s.threads| && a.fd in s'.threads[a.t].table && s'.calls == s.calls[a.c := Adding(a.t, a.fd)]
      && (a.fd in s'.threads[u].table || BeingErased(s', u, a.fd))
  {
    u :| u < |s.threads| && u != a.t && (a.fd in s.threads[u].table || BeingErased(s, u, a.fd));
    if BeingErased(s, u, a.fd) { StillErased(s, a, u, a.fd); }
  }

  /** One step keeps the agreement if and only if it is disciplined. */
  lemma AgreementIffDisciplined(s: State, a: Action)
    requires Inv(s) && Agreeing(s) && Enabled(s, a)
    ensures Agreeing(Next(s, a).value) <==> Disciplined(s, a)
  {
    if Disciplined(s, a) {
      DisciplinedStep(s, a);
    } else {
      var u := UndisciplinedAdd(s, a);
    }
  }

  lemma AgreeingMapAgrees(s: State)
    requires Inv(s) && Agreeing(s)
    ensures MapAgrees(s)
  {
    forall t: nat, fd | t < |s.threads| && Free(s, t) ensures AgreesAt(s, t, fd) {
      assert !BeingAdded(s, t, fd) && !BeingErased(s, t, fd);
    }
  }

  lemma DisciplinedRun(s0: State, run: seq<Action>, s: State)
    requires Inv(s0) && Agreeing(s0) && Exec(NextDisciplined, s0, run) == Some(s)
    ensures Inv(s) && Agreeing(s)
  {
    forall s, a | Inv(s) && Agreeing(s) && NextDisciplined(s, a).Some?
      ensures Inv(NextDisciplined(s, a).value) && Agreeing(NextDisciplined(s, a).value)
    {
      StepInv(s, a);
      DisciplinedStep(s, a);
    }
    Invariance(NextDisciplined, s => Inv(s) && Agreeing(s), s0, run);
  }

  // ----- What an undisciplined Add leads to -----

  lemma Publishing(s: State, c: nat) returns (s': State)
    requires Enabled(s, Publish(c))
    ensures NextDisciplined(s, Publish(c)) == Some(s')
    ensures s' == s.(calls := s.calls[c := Outside], owner := s.owner[s.calls[c].fd := s.calls[c].t])
  {
    s' := Next(s, Publish(c)).value;
  }

  lemma Forgetting(s: State, c: nat) returns (s': State)
    requires Enabled(s, Forget(c))
    ensures NextDisciplined(s, Forget(c)) == Some(s')
    ensures s' == s.(calls := s.calls[c := Outside], owner := s.owner - {s.calls[c].fd})
  {
    s' := Next(s, Forget(c)).value;
  }

  /** Whoever holds the mutex of `u` can finish; no table changes. */
  lemma Release(s: State, c: nat, u: nat) returns (run: seq<Action>, s': State)
    requires OneHolder(s) && c < |s.calls| && s.calls[c].Adding? && s.calls[c].t != u
    ensures Exec(NextDisciplined, s, run) == Some(s') && Free(s', u)
    ensures s'.threads == s.threads && |s'.calls| == |s.calls| && s'.calls[c] == s.calls[c]
  {
    if Free(s, u) {
      run, s' := [], s;
    } else {
      var d: nat :| d < |s.calls| && Locks(s.calls[d], u);
      if s.calls[d].Adding? {
        s' := Publishing(s, d);
        run := [Publish(d)];
      } else {
        s' := Forgetting(s, d);
        run := [Forget(d)];
      }
      OneStep(NextDisciplined, s, run[0], s');
      assert run == [run[0]];
    }
  }

  /** The descriptor is in two tables: the map can name only one of them. */
  lemma TwoTablesDisagree(s: State, c: nat, u: nat) returns (run: seq<Action>, s': State)
    requires OneHolder(s) && c < |s.calls| && s.calls[c].Adding? && s.calls[c].t != u && u < |s.threads|
    requires s.calls[c].fd in s.threads[u].table
    ensures Exec(NextDisciplined, s, run) == Some(s') && !MapAgrees(s')
  {
    var fd := s.calls[c].fd;
    var r1, mid := Release(s, c, u);
    s' := Publishing(mid, c);
    OneStep(NextDisciplined, mid, Publish(c), s');
    Then(NextDisciplined, s, r1, mid, [Publish(c)], s');
    run := r1 + [Publish(c)];
    assert Free(s', u);
    assert !AgreesAt(s', u, fd);
  }

  /** The descriptor is being erased elsewhere: the erasure takes the new entry out of the map. */
  lemma ErasureDisagrees(s: State, c: nat, u: nat) returns (run: seq<Action>, s': State)
    requires OneHolder(s) && c < |s.calls| && s.calls[c].Adding? && s.calls[c].t < |s.threads|
    requires s.calls[c].fd in s.threads[s.calls[c].t].table && BeingErased(s, u, s.calls[c].fd)
    ensures Exec(NextDisciplined, s, run) == Some(s') && !MapAgrees(s')
  {
    var t, fd := s.calls[c].t, s.calls[c].fd;
    var d :| 0 <= d < |s.calls| && s.calls[d] == Erasing(u, fd);
    assert Locks(s.calls[c], t);
    assert forall e :: 0 <= e < |s.calls| && e != c ==> !Locks(s.calls[e], t);
    var mid := Publishing(s, c);
    s' := Forgetting(mid, d);
    TwoSteps(NextDisciplined, s, Publish(c), mid, Forget(d), s');
    run := [Publish(c), Forget(d)];
    assert Free(s', t);
    assert !AgreesAt(s', t, fd);
  }

  /**
   * In every state that a disciplined run reaches, a step is disciplined if and only if map and tables agree,
   * on every thread with a free mutex, after whatever disciplined run comes next.
   */
  lemma MapAgreesIffDisciplined(s0: State, run: seq<Action>, s: State, a: Action)
    requires Init(s0) && Exec(NextDisciplined, s0, run) == Some(s) && Enabled(s, a)
    ensures MapAgrees(s)
    ensures Disciplined(s, a) <==>
      forall more, s' :: Exec(NextDisciplined, Next(s, a).value, more) == Some(s') ==> MapAgrees(s')
  {
    InitInv(s0);
    DisciplinedRun(s0, run, s);
    AgreeingMapAgrees(s);
    StepInv(s, a);
    var s1 := Next(s, a).value;
    if Disciplined(s, a) {
      DisciplinedStep(s, a);
      forall more, s' | Exec(NextDisciplined, s1, more) == Some(s') ensures MapAgrees(s') {
        DisciplinedRun(s1, more, s');
        AgreeingMapAgrees(s');
      }
    } else {
      var u := UndisciplinedAdd(s, a);
      var more, s';
      if a.fd in s1.threads[u].table {
        more, s' := TwoTablesDisagree(s1, a.c, u);
      } else {
        more, s' := ErasureDisagrees(s1, a.c, u);
      }
    }
  }

  // ----- One thread a descriptor -----

  /** Each descriptor is only ever added to one thread. */
  predicate HomedRun(home: int -> nat, run: seq<Action>) {
    forall k :: 0 <= k < |run| && run[k].Add? ==> run[k].t == home(run[k].fd)
  }

  ghost predicate Homed(s: State, home: int -> nat) {
    && (forall t: nat, fd :: t < |s.threads| && fd in s.threads[t].table ==> t == home(fd))
    && (forall c :: 0 <= c < |s.calls| && s.calls[c].Erasing? ==> s.calls[c].t == home(s.calls[c].fd))
  }

  lemma HomedStep(s: State, a: Action, home: int -> nat)
    requires Homed(s, home) && Enabled(s, a) && (a.Add? ==> a.t == home(a.fd))
    ensures Homed(Next(s, a).value, home) && Disciplined(s, a)
  {
    ThreadsStay(s, a);
    forall t: nat, fd | t < |s.threads| && fd in Next(s, a).value.threads[t].table ensures t == home(fd) {
      TableEntryFrom(s, a, t, fd);
    }
  }

  lemma {:induction false} HomedRunKeeps(s: State, home: int -> nat, run: seq<Action>, e: State)
    requires Inv(s) && Agreeing(s) && Homed(s, home) && HomedRun(home, run) && Exec(Next, s, run) == Some(e)
    ensures Inv(e) && Agreeing(e)
    decreases |run|
  {
    if run != [] {
      var a, rest := run[0], run[1..];
      assert Enabled(s, a);
      StepInv(s, a);
      HomedStep(s, a, home);
      DisciplinedStep(s, a);
      assert forall k :: 0 <= k < |rest| ==> rest[k] == run[k + 1];
      HomedRunKeeps(Next(s, a).value, home, rest, e);
    }
  }

  /** Such runs are disciplined: map and tables agree both ways. */
  lemma OneThreadPerDescriptorAgrees(s0: State, home: int -> nat, run: seq<Action>, s: State, t: nat, fd: int)
    requires Init(s0) && Exec(Next, s0, run) == Some(s) && HomedRun(home, run) && t < |s.threads| && Free(s, t)
    ensures fd in s.threads[t].table <==> fd in s.owner && s.owner[fd] == t
  {
    InitInv(s0);
    HomedRunKeeps(s0, home, run, s);
    AgreeingMapAgrees(s);
    assert AgreesAt(s, t, fd);
  }

  /**
   * Without that, `del_event` reaches only the thread it finds in the map: here the descriptor was added to
   * two threads, and after its deletion the first still holds, and resumes, a registration.
   */
  lemma TwoThreadsOrphanARegistration() returns (s0: State, run: seq<Action>, s: State)
    ensures Init(s0) && Exec(Next, s0, run) == Some(s)
    ensures 7 !in s.owner && |s.threads| == 2 && Free(s, 0) && Slot(s.threads[0], 7, Reading) == Some(0)
  {
    s0 := State([Ctx(map[], map[], 0), Ctx(map[], map[], 0)], map[], [Outside], [], [], map[]);
    var r4, s4 := AddTwice(s0);
    var r7, s7 := DeleteOnce(s4);
    Then(Next, s0, r4, s4, r7, s7);
    run, s := r4 + r7, s7;
  }

  lemma AddTwice(s0: State) returns (run: seq<Action>, s: State)
    requires s0 == State([Ctx(map[], map[], 0), Ctx(map[], map[], 0)], map[], [Outside], [], [], map[])
    ensures Exec(Next, s0, run) == Some(s) && |s.threads| == 2 && s.calls == [Outside]
    ensures s.owner == map[7 := 1] && Slot(s.threads[0], 7, Reading) == Some(0)
    ensures s.threads[1].table == map[7 := Waiting(Some(1), None)]
  {
    var s1 := Next(s0, Add(0, 0, 7, true, false)).value;
    var s2 := Next(s1, Publish(0)).value;
    var s3 := Next(s2, Add(0, 1, 7, true, false)).value;
    s := Next(s3, Publish(0)).value;
    run := [Add(0, 0, 7, true, false), Publish(0), Add(0, 1, 7, true, false), Publish(0)];
    TraceExec(Next, [s0, s1, s2, s3, s], run);
  }

  lemma DeleteOnce(s4: State) returns (run: seq<Action>, s: State)
    requires |s4.threads| == 2 && s4.calls == [Outside] && s4.owner == map[7 := 1]
    requires Slot(s4.threads[0], 7, Reading) == Some(0) && s4.threads[1].table == map[7 := Waiting(Some(1), None)]
    ensures Exec(Next, s4, run) == Some(s)
    ensures 7 !in s.owner && |s.threads| == 2 && Free(s, 0) && Slot(s.threads[0], 7, Reading) == Some(0)
  {
    var s5 := Next(s4, Find(0, 7, true, false)).value;
    var s6 := Next(s5, Remove(0)).value;
    s := Next(s6, Forget(0)).value;
    run := [Find(0, 7, true, false), Remove(0), Forget(0)];
    TraceExec(Next, [s4, s5, s6, s], run);
  }
}
