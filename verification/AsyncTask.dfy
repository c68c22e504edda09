/** One `AsyncTask`: completions racing with the registration of awaiting coroutines. */
module AsyncTask {
  import opened Wrappers
  import opened Runs
  import opened Folds

  type Handle = nat
  type SchedulerId = nat

  datatype Completion = Value(v: int) | Error(e: int)

  /** A stored result; reading it moves it out and leaves an unspecified value behind. */
  datatype Payload = Whole(v: int) | MovedFrom

  /** What `await_resume` does for a non-void task. */
  datatype Outcome = Returned(p: Payload) | Threw(e: int) | NotCompleted | ResultNotSet

  /** The fields of the shared state, as one value. */
  datatype Shared = Shared(
    value: Option<Payload>,
    exception: Option<int>,
    continuation: Option<Handle>,
    scheduler: Option<SchedulerId>,
    completed: bool)

  const FRESH := Shared(None, None, None, None, false)

  /** The critical section shared by `set_value` and `set_exception`. */
  function Completed(sh: Shared, c: Completion): Shared {
    var stored := match c
      case Value(v) => sh.(value := Some(Whole(v)))
      case Error(e) => sh.(exception := Some(e));
    stored.(completed := true, continuation := None, scheduler := None)
  }

  function TargetOf(sh: Shared, own: Option<SchedulerId>): Option<SchedulerId> {
    if sh.scheduler.Some? then sh.scheduler else own
  }

  /** The critical section of `register_continuation` when it wins. */
  function Registered(sh: Shared, h: Handle, sched: Option<SchedulerId>): Shared {
    sh.(continuation := Some(h), scheduler := if sh.scheduler.Some? then sh.scheduler else sched)
  }

  function ResumeOutcome(sh: Shared): Outcome {
    if !sh.completed then NotCompleted
    else if sh.exception.Some? then Threw(sh.exception.value)
    else if sh.value.Some? then Returned(sh.value.value)
    else ResultNotSet
  }

  /** Reading takes the value out, also when an exception is thrown instead of returning it. */
  function AfterRead(sh: Shared): Shared {
    if sh.completed && sh.value.Some? then sh.(value := Some(MovedFrom)) else sh
  }

  /** The object behind the `shared_ptr`; each method is one section under its mutex. */
  class SharedState {
    var value: Option<Payload>
    var exception: Option<int>
    var continuation: Option<Handle>
    var scheduler: Option<SchedulerId>
    var completed: bool

    ghost function Contents(): Shared
      reads this
    {
      Shared(value, exception, continuation, scheduler, completed)
    }

    constructor ()
      ensures Contents() == FRESH
    {
      value, exception, continuation, scheduler, completed := None, None, None, None, false;
    }

    /** Hands back the continuation to dispatch, and where to. */
    method SetValue(v: int, own: Option<SchedulerId>)
      returns (h: Option<Handle>, target: Option<SchedulerId>)
      modifies this
      ensures Contents() == Completed(old(Contents()), Value(v))
      ensures h == old(continuation) && target == TargetOf(old(Contents()), own)
    {
      value := Some(Whole(v));
      completed := true;
      h := continuation;
      target := if scheduler.Some? then scheduler else own;
      continuation := None;
      scheduler := None;
    }

    method SetException(e: int, own: Option<SchedulerId>)
      returns (h: Option<Handle>, target: Option<SchedulerId>)
      modifies this
      ensures Contents() == Completed(old(Contents()), Error(e))
      ensures h == old(continuation) && target == TargetOf(old(Contents()), own)
    {
      exception := Some(e);
      completed := true;
      h := continuation;
      target := if scheduler.Some? then scheduler else own;
      continuation := None;
      scheduler := None;
    }

    method RegisterContinuation(h: Handle, sched: Option<SchedulerId>) returns (won: bool)
      modifies this
      ensures won == !old(completed)
      ensures Contents() == if won then Registered(old(Contents()), h, sched) else old(Contents())
    {
      if completed {
        return false;
      }
      continuation := Some(h);
      if scheduler.None? {
        scheduler := sched;
      }
      won := true;
    }

    method AwaitResume() returns (r: Outcome)
      modifies this
      ensures r == ResumeOutcome(old(Contents())) && Contents() == AfterRead(old(Contents()))
    {
      if !completed {
        return NotCompleted;
      }
      var result := value;
      if value.Some? {
        value := Some(MovedFrom);
      }
      if exception.Some? {
        return Threw(exception.value);
      }
      if result.Some? {
        return Returned(result.value);
      }
      r := ResultNotSet;
    }
  }

  // ----- The protocol: any number of awaiting coroutines and of completions -----

  datatype AwaiterPc =
    | Fresh              // about to call await_ready
    | Suspending         // await_ready said no; about to register
    | Refused            // registration lost: completed already; must dispatch itself
    | Waiting            // registered
    | Posted             // handed to a scheduler
    | Reading(dispatched: bool)   // resumed, or never suspended; about to call await_resume
    | Finished(dispatched: bool, outcome: Outcome)

  datatype Awaiter = Awaiter(pc: AwaiterPc, sched: Option<SchedulerId>)

  datatype Completer =
    | Before(what: Completion, own: Option<SchedulerId>)
    | Taken(h: Option<Handle>, target: Option<SchedulerId>)
    | Over

  /**
   * One hand-over, by a completer or by the awaiter itself: `schedule` on `target`, or `schedule_coroutine_task` when
   * there is none.
   */
  datatype Post = Post(h: Handle, target: Option<SchedulerId>, completer: Option<nat>)

  datatype State = State(
    shared: Shared,
    awaiters: seq<Awaiter>,
    completers: seq<Completer>,
    posts: seq<Post>,
    history: seq<Completion>,  // completions so far, in the order of the mutex
    overwritten: seq<Handle>,  // continuations replaced by a later registration
    readAt: seq<nat>)           // for each await_resume, how many completions there had been

  datatype Action =
    | AskReady(i: nat)
    | Register(i: nat)
    | SelfDispatch(i: nat)
    | Complete(j: nat)
    | Dispatch(j: nat)
    | Resume(i: nat)
    | Read(i: nat)

  predicate Enabled(s: State, a: Action) {
    match a
    case AskReady(i) => i < |s.awaiters| && s.awaiters[i].pc.Fresh?
    case Register(i) => i < |s.awaiters| && s.awaiters[i].pc.Suspending?
    case SelfDispatch(i) => i < |s.awaiters| && s.awaiters[i].pc.Refused?
    case Complete(j) => j < |s.completers| && s.completers[j].Before?
    case Dispatch(j) => j < |s.completers| && s.completers[j].Taken?
    case Resume(i) => i < |s.awaiters| && s.awaiters[i].pc.Posted?
    case Read(i) => i < |s.awaiters| && s.awaiters[i].pc.Reading?
  }

  function Move(awaiters: seq<Awaiter>, i: nat, pc: AwaiterPc): seq<Awaiter> {
    if i < |awaiters| then awaiters[i := awaiters[i].(pc := pc)] else awaiters
  }

  function Next(s: State, a: Action): Option<State> {
    if !Enabled(s, a) then None
    else Some(match a
      case AskReady(i) =>
        s.(awaiters := Move(s.awaiters, i, if s.shared.completed then Reading(false) else Suspending))
      case Register(i) =>
        if s.shared.completed then s.(awaiters := Move(s.awaiters, i, Refused))
        else s.(awaiters := Move(s.awaiters, i, Waiting),
                shared := Registered(s.shared, i, s.awaiters[i].sched),
                overwritten := s.overwritten + Stored(s.shared))
      case SelfDispatch(i) =>
        s.(awaiters := Move(s.awaiters, i, Posted),
           posts := s.posts + [Post(i, s.awaiters[i].sched, None)])
      case Complete(j) =>
        s.(shared := Completed(s.shared, s.completers[j].what),
           completers := s.completers[j := Taken(s.shared.continuation, TargetOf(s.shared, s.completers[j].own))],
           history := s.history + [s.completers[j].what])
      case Dispatch(j) =>
        (match s.completers[j].h
        case None => s.(completers := s.completers[j := Over])
        case Some(h) =>
          s.(completers := s.completers[j := Over],
             awaiters := Move(s.awaiters, h, Posted),
             posts := s.posts + [Post(h, s.completers[j].target, Some(j))]))
      case Resume(i) => s.(awaiters := Move(s.awaiters, i, Reading(true)))
      case Read(i) =>
        s.(awaiters := Move(s.awaiters, i, Finished(s.awaiters[i].pc.dispatched, ResumeOutcome(s.shared))),
           shared := AfterRead(s.shared), readAt := s.readAt + [|s.history|]))
  }

  function Stored(sh: Shared): seq<Handle> {
    if sh.continuation.Some? then [sh.continuation.value] else []
  }

  predicate Init(s: State) {
    && s.shared == FRESH
    && (forall i :: 0 <= i < |s.awaiters| ==> s.awaiters[i].pc.Fresh?)
    && (forall j :: 0 <= j < |s.completers| ==> s.completers[j].Before?)
    && s.posts == [] && s.history == [] && s.overwritten == [] && s.readAt == []
  }

  // ----- Who holds each registered continuation -----

  function HeldBy(h: Option<Handle>, k: Handle): int {
    if h == Some(k) then 1 else 0
  }

  function CompleterHolds(c: Completer, k: Handle): int {
    if c.Taken? then HeldBy(c.h, k) else 0
  }

  /** Registered copies of `k`: in the shared state, in completers' hands, or overwritten. */
  function Held(s: State, k: Handle): int {
    HeldBy(s.shared.continuation, k) + Tally(CompleterHolds, s.completers, k) + Count(s.overwritten, k)
  }

  function Posts(p: Post, k: Handle): int { if p.h == k then 1 else 0 }

  /** How often `k` has been handed over. */
  function Dispatches(s: State, k: Handle): int { Tally(Posts, s.posts, k) }

  predicate IsWaiting(s: State, h: Handle) {
    h < |s.awaiters| && s.awaiters[h].pc.Waiting?
  }

  predicate WasDispatched(s: State, h: Handle) {
    h < |s.awaiters| &&
    match s.awaiters[h].pc
    case Posted => true
    case Reading(d) => d
    case Finished(d, _) => d
    case _ => false
  }

  /** Every waiting awaiter is held in one place, once; nobody else is held. */
  ghost predicate HeldOnce(s: State) {
    forall h: Handle :: Held(s, h) == if IsWaiting(s, h) then 1 else 0
  }

  ghost predicate DispatchedOnce(s: State) {
    forall h: Handle :: Dispatches(s, h) == if WasDispatched(s, h) then 1 else 0
  }

  /** Nothing is stored, refused, read or dispatched out of order with completion. */
  ghost predicate Ordered(s: State) {
    && (s.shared.completed ==> s.shared.continuation.None?)
    && (s.shared.completed <==> s.history != [])
    && (s.posts != [] ==> s.shared.completed)
    && (forall j :: 0 <= j < |s.completers| && !s.completers[j].Before? ==> s.shared.completed)
    && (forall i :: 0 <= i < |s.awaiters| && s.awaiters[i].pc.Reading? ==> s.shared.completed)
    && (forall i :: 0 <= i < |s.awaiters| && s.awaiters[i].pc.Refused? ==> s.shared.completed)
    && (forall i :: 0 <= i < |s.awaiters| && s.awaiters[i].pc.Posted? ==> s.shared.completed)
  }

  /** The reference meaning of a history of completions: the last error if there is one, else the last value. */
  function LastValue(history: seq<Completion>): Option<int> {
    if history == [] then None
    else match history[|history| - 1]
      case Value(v) => Some(v)
      case Error(_) => LastValue(history[..|history| - 1])
  }

  function LastError(history: seq<Completion>): Option<int> {
    if history == [] then None
    else match history[|history| - 1]
      case Error(e) => Some(e)
      case Value(_) => LastError(history[..|history| - 1])
  }

  predicate Reports(o: Outcome, history: seq<Completion>) {
    match LastError(history)
    case Some(e) => o == Threw(e)
    case None => LastValue(history).Some? && o == Returned(Whole(LastValue(history).value))
  }

  /** What a later reader of the same task can get: the value may have been moved out before. */
  predicate ReportsOrMoved(o: Outcome, history: seq<Completion>) {
    Reports(o, history) || (LastError(history).None? && LastValue(history).Some? && o == Returned(MovedFrom))
  }

  /** The last read came after the last value. */
  predicate ReadSinceLastValue(history: seq<Completion>, readAt: seq<nat>) {
    readAt != [] && readAt[|readAt| - 1] <= |history| && LastValue(history[readAt[|readAt| - 1]..]).None?
  }

  /** What the shared state is after these completions and reads. */
  predicate IsLatest(sh: Shared, history: seq<Completion>, readAt: seq<nat>) {
    && (readAt != [] ==> readAt[|readAt| - 1] <= |history|)
    && sh.exception == LastError(history)
    && (match LastValue(history)
        case None => sh.value.None?
        case Some(v) => sh.value == Some(if ReadSinceLastValue(history, readAt) then MovedFrom else Whole(v)))
  }

  predicate Latest(s: State) { IsLatest(s.shared, s.history, s.readAt) }

  /** Whoever has read its result read what a non-empty prefix of the history means. */
  ghost predicate OutcomesReported(s: State) {
    forall i :: 0 <= i < |s.awaiters| && s.awaiters[i].pc.Finished? ==>
      exists n :: 0 < n <= |s.history| && ReportsOrMoved(s.awaiters[i].pc.outcome, s.history[..n])
  }

  ghost predicate Inv(s: State) {
    HeldOnce(s) && DispatchedOnce(s) && Ordered(s) && Latest(s) && OutcomesReported(s)
  }

  lemma InitInv(s: State)
    requires Init(s)
    ensures Inv(s)
  {
    forall h: Handle ensures Held(s, h) == 0 && Dispatches(s, h) == 0 {
      TallyZero(CompleterHolds, s.completers, h);
    }
  }

  lemma HeldStep(s: State, a: Action, h: Handle)
    requires HeldOnce(s) && Ordered(s) && Enabled(s, a)
    ensures Held(Next(s, a).value, h) == if IsWaiting(Next(s, a).value, h) then 1 else 0
  {
    var s' := Next(s, a).value;
    assert Held(s, h) == if IsWaiting(s, h) then 1 else 0;
    match a {
      case Register(i) =>
        TallyAppend(Same<Handle>, s.overwritten, Stored(s.shared), h);
      case Complete(j) =>
        TallyUpdate(CompleterHolds, s.completers, j, s'.completers[j], h);
      case Dispatch(j) =>
        TallyUpdate(CompleterHolds, s.completers, j, Over, h);
        TallyCell(CompleterHolds, s.completers, h, j);
        TallyNonNegative(Same<Handle>, s.overwritten, h);
      case _ =>
    }
  }

  lemma DispatchedStep(s: State, a: Action, h: Handle)
    requires HeldOnce(s) && DispatchedOnce(s) && Enabled(s, a)
    ensures Dispatches(Next(s, a).value, h) == if WasDispatched(Next(s, a).value, h) then 1 else 0
  {
    var s' := Next(s, a).value;
    assert Dispatches(s, h) == if WasDispatched(s, h) then 1 else 0;
    if |s'.posts| > |s.posts| {
      TallyAppend(Posts, s.posts, [s'.posts[|s.posts|]], h);
      if a.Dispatch? { OnlyWaitingIsTaken(s, a.j); }
    }
  }

  lemma OrderedStep(s: State, a: Action)
    requires Ordered(s) && Enabled(s, a)
    ensures Ordered(Next(s, a).value)
  {}

  lemma CompletedIsLatest(sh: Shared, history: seq<Completion>, readAt: seq<nat>, what: Completion)
    requires IsLatest(sh, history, readAt)
    ensures IsLatest(Completed(sh, what), history + [what], readAt)
  {
    assert (history + [what])[..|history|] == history;
    if readAt != [] {
      var last := readAt[|readAt| - 1];
      var since := history[last..] + [what];
      assert (history + [what])[last..] == since && since[..|since| - 1] == history[last..];
    }
  }

  lemma ReadIsLatest(sh: Shared, history: seq<Completion>, readAt: seq<nat>)
    requires IsLatest(sh, history, readAt) && sh.completed
    ensures IsLatest(AfterRead(sh), history, readAt + [|history|])
  {
    assert history[|history|..] == [];
  }

  lemma LatestFrame(s: State, a: Action)
    requires Enabled(s, a) && !a.Complete? && !a.Read?
    ensures Next(s, a).value.history == s.history && Next(s, a).value.readAt == s.readAt
    ensures Next(s, a).value.shared.value == s.shared.value && Next(s, a).value.shared.exception == s.shared.exception
  {}

  lemma LatestStep(s: State, a: Action)
    requires Latest(s) && Ordered(s) && Enabled(s, a)
    ensures Latest(Next(s, a).value)
  {
    match a {
      case Complete(j) => CompletedIsLatest(s.shared, s.history, s.readAt, s.completers[j].what);
      case Read(i) => ReadIsLatest(s.shared, s.history, s.readAt);
      case _ => LatestFrame(s, a);
    }
  }

  lemma {:induction false} SomethingToReport(history: seq<Completion>)
    requires history != []
    ensures LastValue(history).Some? || LastError(history).Some?
  {}

  lemma OutcomeMeans(s: State)
    requires Ordered(s) && Latest(s) && s.shared.completed
    ensures ReportsOrMoved(ResumeOutcome(s.shared), s.history)
    ensures ResumeOutcome(s.shared) == Returned(MovedFrom)
       <==> LastError(s.history).None? && ReadSinceLastValue(s.history, s.readAt)
    ensures s.shared.value != Some(MovedFrom) ==> Reports(ResumeOutcome(s.shared), s.history)
  {
    SomethingToReport(s.history);
  }

  lemma OutcomesStep(s: State, a: Action)
    requires Inv(s) && Enabled(s, a)
    ensures OutcomesReported(Next(s, a).value)
  {
    var s' := Next(s, a).value;
    forall i | 0 <= i < |s'.awaiters| && s'.awaiters[i].pc.Finished?
      ensures exists n :: 0 < n <= |s'.history| && ReportsOrMoved(s'.awaiters[i].pc.outcome, s'.history[..n])
    {
      if a == Read(i) {
        OutcomeMeans(s);
        assert s'.history[..|s.history|] == s.history;
        assert ReportsOrMoved(s'.awaiters[i].pc.outcome, s'.history[..|s.history|]);
      } else {
        var n :| 0 < n <= |s.history| && ReportsOrMoved(s.awaiters[i].pc.outcome, s.history[..n]);
        assert s'.history[..n] == s.history[..n];
      }
    }
  }

  lemma StepInv(s: State, a: Action)
    requires Inv(s) && Enabled(s, a)
    ensures Inv(Next(s, a).value)
  {
    forall h: Handle ensures Held(Next(s, a).value, h) == if IsWaiting(Next(s, a).value, h) then 1 else 0 {
      HeldStep(s, a, h);
    }
    forall h: Handle ensures Dispatches(Next(s, a).value, h) == if WasDispatched(Next(s, a).value, h) then 1 else 0 {
      DispatchedStep(s, a, h);
    }
    OrderedStep(s, a);
    LatestStep(s, a);
    OutcomesStep(s, a);
  }

  lemma ReachableInv(s0: State, run: seq<Action>)
    requires Init(s0)
    ensures Exec(Next, s0, run).Some? ==> Inv(Exec(Next, s0, run).value)
  {
    InitInv(s0);
    forall s, a | Inv(s) && Next(s, a).Some? ensures Inv(Next(s, a).value) { StepInv(s, a); }
    Invariance(Next, s => Inv(s), s0, run);
  }

  // ----- What every run guarantees -----

  ghost predicate Terminal(s: State) { forall a :: !Enabled(s, a) }

  /** Never twice, and only after completion: over every run, whatever the number of awaiters. */
  lemma DispatchedAtMostOnce(s0: State, run: seq<Action>, s: State)
    requires Init(s0) && Exec(Next, s0, run) == Some(s)
    ensures forall h: Handle :: Dispatches(s, h) <= 1
    ensures s.posts != [] ==> s.shared.completed && s.history != []
    ensures forall h: Handle :: IsWaiting(s, h) ==> Dispatches(s, h) == 0
  {
    ReachableInv(s0, run);
    forall h: Handle ensures Dispatches(s, h) <= 1 && (IsWaiting(s, h) ==> Dispatches(s, h) == 0) {
      assert Dispatches(s, h) == if WasDispatched(s, h) then 1 else 0;
    }
  }

  /**
   * When a run with a completion has no step left, an awaiter has finished if and only if its
   * continuation was not overwritten by a later registration.
   */
  lemma FinishedIffNotOverwritten(s0: State, run: seq<Action>, s: State)
    requires Init(s0) && Exec(Next, s0, run) == Some(s) && Terminal(s) && s.completers != []
    ensures forall i :: 0 <= i < |s.awaiters| ==> (s.awaiters[i].pc.Finished? <==> i !in s.overwritten)
  {
    ReachableInv(s0, run);
    assert !Enabled(s, Complete(0)) && !Enabled(s, Dispatch(0));
    forall j | 0 <= j < |s.completers| ensures s.completers[j].Over? {
      assert !Enabled(s, Complete(j)) && !Enabled(s, Dispatch(j));
    }
    forall i: nat | i < |s.awaiters| ensures s.awaiters[i].pc.Finished? <==> i !in s.overwritten {
      NoStepOfOneAwaiter(s, i);
      NobodyHolds(s.completers, i);
      assert Held(s, i) == if IsWaiting(s, i) then 1 else 0;
      CountPositive(s.overwritten, i);
    }
  }

  lemma NoStepOfOneAwaiter(s: State, i: nat)
    requires Terminal(s) && i < |s.awaiters|
    ensures s.awaiters[i].pc.Waiting? || s.awaiters[i].pc.Finished?
  {
    assert !Enabled(s, AskReady(i)) && !Enabled(s, Register(i)) && !Enabled(s, SelfDispatch(i));
    assert !Enabled(s, Resume(i)) && !Enabled(s, Read(i));
  }

  lemma {:induction false} NobodyHolds(completers: seq<Completer>, h: Handle)
    requires forall j :: 0 <= j < |completers| ==> completers[j].Over?
    ensures Tally(CompleterHolds, completers, h) == 0
  {
    TallyZero(CompleterHolds, completers, h);
  }

  /** Whoever has read its result read what the completions up to some moment mean, or that it had been moved out. */
  lemma EveryOutcomeIsReported(s0: State, run: seq<Action>, s: State, i: nat)
    requires Init(s0) && Exec(Next, s0, run) == Some(s) && i < |s.awaiters| && s.awaiters[i].pc.Finished?
    ensures exists n :: 0 < n <= |s.history| && ReportsOrMoved(s.awaiters[i].pc.outcome, s.history[..n])
  {
    ReachableInv(s0, run);
  }

  // ----- The history is the run's -----

  /** What the completions of a run bring, in order; `cs` are the completers at the start. */
  function CompletionsOf(cs: seq<Completer>, run: seq<Action>): seq<Completion>
    decreases |run|
  {
    if run == [] then []
    else
      var a, before := run[|run| - 1], CompletionsOf(cs, run[..|run| - 1]);
      if a.Complete? && a.j < |cs| && cs[a.j].Before? then before + [cs[a.j].what] else before
  }

  /** For each read of a run, how many completions came before it. */
  function ReadsOf(cs: seq<Completer>, run: seq<Action>): seq<nat>
    decreases |run|
  {
    if run == [] then []
    else
      var a, before := run[|run| - 1], run[..|run| - 1];
      ReadsOf(cs, before) + if a.Read? then [|CompletionsOf(cs, before)|] else []
  }

  ghost predicate Follows(s: State, cs: seq<Completer>, run: seq<Action>) {
    && s.history == CompletionsOf(cs, run) && s.readAt == ReadsOf(cs, run) && |s.completers| == |cs|
    && (forall j :: 0 <= j < |cs| && s.completers[j].Before? ==> s.completers[j] == cs[j])
  }

  lemma CompletersStay(s: State, a: Action)
    requires Enabled(s, a)
    ensures var s' := Next(s, a).value;
      && |s'.completers| == |s.completers|
      && (forall j :: 0 <= j < |s.completers| && s'.completers[j].Before? ==> s'.completers[j] == s.completers[j])
      && s'.history == s.history + (if a.Complete? then [s.completers[a.j].what] else [])
      && s'.readAt == s.readAt + (if a.Read? then [|s.history|] else [])
  {}

  lemma FollowsStep(s: State, cs: seq<Completer>, run: seq<Action>, a: Action)
    requires Follows(s, cs, run) && Enabled(s, a)
    ensures Follows(Next(s, a).value, cs, run + [a])
  {
    CompletersStay(s, a);
    assert (run + [a])[..|run|] == run && (run + [a])[|run|] == a;
  }

  /** The history by which outcomes are judged is what the run's completers brought, and when its reads happened. */
  lemma HistoryIsTheRuns(s0: State, run: seq<Action>, s: State)
    requires Init(s0) && Exec(Next, s0, run) == Some(s)
    ensures s.history == CompletionsOf(s0.completers, run) && s.readAt == ReadsOf(s0.completers, run)
  {
    var cs := s0.completers;
    var inv := (s: State, r: seq<Action>) => Follows(s, cs, r);
    assert inv(s0, []);
    forall s: State, r, a | inv(s, r) && Next(s, a).Some? ensures inv(Next(s, a).value, r + [a]) {
      FollowsStep(s, cs, r, a);
    }
    Along(Next, inv, s0, [], run);
    assert [] + run == run;
  }

  /** An awaiter goes on without suspending iff some completion came before, and is refused later iff one came since. */
  lemma ReadyIffCompleted(s0: State, run: seq<Action>, s: State, a: Action)
    requires Init(s0) && Exec(Next, s0, run) == Some(s) && Enabled(s, a) && (a.AskReady? || a.Register?)
    ensures |Next(s, a).value.awaiters| == |s.awaiters|
    ensures var pc := Next(s, a).value.awaiters[a.i].pc;
      if CompletionsOf(s0.completers, run) != [] then pc == if a.AskReady? then Reading(false) else Refused
      else pc == if a.AskReady? then Suspending else Waiting
  {
    ReachableInv(s0, run);
    HistoryIsTheRuns(s0, run, s);
  }

  /**
   * A read finds the value moved out if and only if no exception is set and there was a read since the last
   * completion with a value; otherwise it returns what the completions so far mean.
   */
  lemma MovedOutIffReadSince(s0: State, run: seq<Action>, s: State, i: nat)
    requires Init(s0) && Exec(Next, s0, run) == Some(s) && Enabled(s, Read(i))
    ensures var o := Next(s, Read(i)).value.awaiters[i].pc.outcome;
      && (o == Returned(MovedFrom) <==> LastError(s.history).None? && ReadSinceLastValue(s.history, s.readAt))
      && (o != Returned(MovedFrom) ==> Reports(o, s.history))
  {
    ReachableInv(s0, run);
    OutcomeMeans(s);
  }

  /** Two awaiters of a task that completes once: the second one to read finds the value moved out. */
  lemma SecondReaderFindsItMoved() returns (s0: State, run: seq<Action>, s: State)
    ensures Init(s0) && Exec(Next, s0, run) == Some(s) && |s.awaiters| == 2
    ensures s.awaiters[0].pc == Finished(false, Returned(Whole(7)))
    ensures s.awaiters[1].pc == Finished(false, Returned(MovedFrom))
  {
    s0 := State(FRESH, [Awaiter(Fresh, None), Awaiter(Fresh, None)], [Before(Value(7), None)], [], [], [], []);
    var s1 := Next(s0, Complete(0)).value;
    var s2 := Next(s1, AskReady(0)).value;
    var s3 := Next(s2, AskReady(1)).value;
    var s4 := Next(s3, Read(0)).value;
    s := Next(s4, Read(1)).value;
    run := [Complete(0), AskReady(0), AskReady(1), Read(0), Read(1)];
    TraceExec(Next, [s0, s1, s2, s3, s4, s], run);
  }

  // ----- One awaiter -----

  /** The scheduler that a completer brings along, before it has completed. */
  predicate Brings(c: Completer, own: Option<SchedulerId>) { c.Before? ==> c.own == own }

  /** Where the one awaiter goes: to its own scheduler, or else to the one of the completer that hands it over. */
  function HomeFor(home: Option<SchedulerId>, completer: Option<nat>, cs: seq<Completer>): Option<SchedulerId> {
    if home.Some? then home
    else if completer.Some? && completer.value < |cs| && cs[completer.value].Before? then cs[completer.value].own
    else None
  }

  /** With one awaiter nothing is overwritten; `cs` are the completers as they were at the start. */
  ghost predicate OneHome(s: State, cs: seq<Completer>) {
    && |s.awaiters| == 1 && s.overwritten == [] && |s.completers| == |cs|
    && (match s.shared.continuation
        case Some(h) => h == 0 && s.shared.scheduler == s.awaiters[0].sched
        case None => s.shared.scheduler.None?)
    && (forall j :: 0 <= j < |cs| ==> cs[j].Before? && Brings(s.completers[j], cs[j].own))
    && (forall j: nat :: j < |s.completers| ==> TakesHome(s.completers[j], s.awaiters[0].sched, j, cs))
    && (forall k :: 0 <= k < |s.posts| ==> GoesHome(s.posts[k], s.awaiters[0].sched, cs))
  }

  /** Nobody but the one awaiter moves the value out. */
  ghost predicate OneReader(s: State) {
    && |s.awaiters| == 1
    && (s.shared.value == Some(MovedFrom) ==> s.awaiters[0].pc.Finished?)
    && (s.awaiters[0].pc.Finished? ==>
          exists n :: 0 < n <= |s.history| && Reports(s.awaiters[0].pc.outcome, s.history[..n]))
  }

  ghost predicate OneAwaiter(s: State, cs: seq<Completer>) { OneHome(s, cs) && OneReader(s) }

  predicate TakesHome(c: Completer, home: Option<SchedulerId>, j: nat, cs: seq<Completer>) {
    c.Taken? && c.h.Some? ==> c.h.value == 0 && c.target == HomeFor(home, Some(j), cs)
  }

  predicate GoesHome(p: Post, home: Option<SchedulerId>, cs: seq<Completer>) {
    p.h == 0 && p.target == HomeFor(home, p.completer, cs)
  }

  lemma OneHomeTakes(s: State, a: Action, cs: seq<Completer>)
    requires OneHome(s, cs) && Enabled(s, a)
    ensures var s' := Next(s, a).value;
      && |s'.completers| == |cs| && |s'.awaiters| == 1 && s'.awaiters[0].sched == s.awaiters[0].sched
      && (forall j :: 0 <= j < |cs| ==> Brings(s'.completers[j], cs[j].own))
      && (forall j: nat :: j < |s'.completers| ==> TakesHome(s'.completers[j], s.awaiters[0].sched, j, cs))
  {}

  lemma OneHomeGoes(s: State, a: Action, cs: seq<Completer>)
    requires OneHome(s, cs) && Enabled(s, a)
    ensures var s' := Next(s, a).value; forall k :: 0 <= k < |s'.posts| ==>
      GoesHome(s'.posts[k], s.awaiters[0].sched, cs)
  {
    if a.Dispatch? { assert TakesHome(s.completers[a.j], s.awaiters[0].sched, a.j, cs); }
  }

  lemma OneHomeStep(s: State, a: Action, cs: seq<Completer>)
    requires Inv(s) && OneHome(s, cs) && Enabled(s, a)
    ensures OneHome(Next(s, a).value, cs)
  {
    OneHomeTakes(s, a, cs);
    OneHomeGoes(s, a, cs);
    OneHomeShared(s, a, cs);
  }

  lemma OneHomeShared(s: State, a: Action, cs: seq<Completer>)
    requires HeldOnce(s) && OneHome(s, cs) && Enabled(s, a)
    ensures var s' := Next(s, a).value;
      && |s'.awaiters| == 1 && s'.overwritten == []
      && match s'.shared.continuation
         case Some(h) => h == 0 && s'.shared.scheduler == s'.awaiters[0].sched
         case None => s'.shared.scheduler.None?
  {
    TallyNonNegative(CompleterHolds, s.completers, 0);
    assert Held(s, 0) == if IsWaiting(s, 0) then 1 else 0;
  }

  lemma OneReaderStep(s: State, a: Action)
    requires Inv(s) && OneReader(s) && Enabled(s, a)
    ensures OneReader(Next(s, a).value)
  {
    if a.Dispatch? && s.completers[a.j].h.Some? {
      OnlyWaitingIsTaken(s, a.j);
    }
    if Next(s, a).value.awaiters[0].pc.Finished? {
      OneOutcomeStep(s, a);
    }
  }

  lemma OneAwaiterStep(s: State, a: Action, cs: seq<Completer>)
    requires Inv(s) && OneAwaiter(s, cs) && Enabled(s, a)
    ensures OneAwaiter(Next(s, a).value, cs)
  {
    OneHomeStep(s, a, cs);
    OneReaderStep(s, a);
  }

  lemma OnlyWaitingIsTaken(s: State, j: nat)
    requires HeldOnce(s) && j < |s.completers| && s.completers[j].Taken? && s.completers[j].h.Some?
    ensures IsWaiting(s, s.completers[j].h.value)
  {
    var h := s.completers[j].h.value;
    TallyCell(CompleterHolds, s.completers, h, j);
    TallyNonNegative(Same<Handle>, s.overwritten, h);
    assert Held(s, h) == if IsWaiting(s, h) then 1 else 0;
  }

  lemma OneOutcomeStep(s: State, a: Action)
    requires Inv(s) && OneReader(s) && Enabled(s, a) && Next(s, a).value.awaiters[0].pc.Finished?
    ensures exists n :: 0 < n <= |Next(s, a).value.history| &&
                        Reports(Next(s, a).value.awaiters[0].pc.outcome, Next(s, a).value.history[..n])
  {
    var s' := Next(s, a).value;
    if a == Read(0) {
      OutcomeMeans(s);
      assert s'.history[..|s.history|] == s.history;
      assert Reports(s'.awaiters[0].pc.outcome, s'.history[..|s.history|]);
    } else {
      var n :| 0 < n <= |s.history| && Reports(s.awaiters[0].pc.outcome, s.history[..n]);
      assert s'.history[..n] == s.history[..n];
    }
  }

  /**
   * One awaiter, any number of completions, any interleaving: the continuation is handed over at
   * most once, only after completion, on the awaiter's own scheduler when it has one and otherwise on the one that
   * its completer brought; and when no step is left after a completion, the awaiter has been resumed and has read a
   * result.
   */
  lemma HandedOverExactlyOnce(s0: State, run: seq<Action>, s: State)
    requires Init(s0) && |s0.awaiters| == 1 && Exec(Next, s0, run) == Some(s)
    ensures |s.awaiters| == 1 && |s.posts| == if WasDispatched(s, 0) then 1 else 0
    ensures s.posts != [] ==> s.shared.completed && GoesHome(s.posts[0], s.awaiters[0].sched, s0.completers)
    ensures Terminal(s) && s.completers != [] ==>
      s.awaiters[0].pc.Finished? &&
      exists n :: 0 < n <= |s.history| && Reports(s.awaiters[0].pc.outcome, s.history[..n])
  {
    InitInv(s0);
    var cs := s0.completers;
    forall s, a | Inv(s) && OneAwaiter(s, cs) && Next(s, a).Some?
      ensures Inv(Next(s, a).value) && OneAwaiter(Next(s, a).value, cs)
    {
      StepInv(s, a);
      OneAwaiterStep(s, a, cs);
    }
    Invariance(Next, s => Inv(s) && OneAwaiter(s, cs), s0, run);
    assert Dispatches(s, 0) == if WasDispatched(s, 0) then 1 else 0;
    AllPosts(s.posts, s.awaiters[0].sched, cs);
    if Terminal(s) && s.completers != [] {
      FinishedIffNotOverwritten(s0, run, s);
    }
  }

  lemma {:induction false} AllPosts(posts: seq<Post>, home: Option<SchedulerId>, cs: seq<Completer>)
    requires forall k :: 0 <= k < |posts| ==> GoesHome(posts[k], home, cs)
    ensures Tally(Posts, posts, 0) == |posts|
  {
    if posts != [] { AllPosts(posts[1..], home, cs); }
  }

  /** It suspended: await_ready said no, and it has not gone on without a hand-over since. */
  predicate HasSuspended(s: State) {
    |s.awaiters| == 1 &&
    match s.awaiters[0].pc
    case Fresh => false
    case Reading(d) => d
    case Finished(d, _) => d
    case _ => true
  }

  lemma StaysSuspended(s: State, a: Action)
    requires HasSuspended(s) && Enabled(s, a)
    ensures HasSuspended(Next(s, a).value)
  {}

  /** An awaiter that suspended is handed over exactly once by the time no step is left after a completion. */
  lemma SuspendedIsPostedOnce(s0: State, run: seq<Action>, s: State, more: seq<Action>, last: State)
    requires Init(s0) && |s0.awaiters| == 1 && Exec(Next, s0, run) == Some(s) && s.awaiters != []
    requires s.awaiters[0].pc.Suspending? && Exec(Next, s, more) == Some(last)
    requires Terminal(last) && last.completers != []
    ensures last.awaiters != [] && last.awaiters[0].pc.Finished? && |last.posts| == 1
  {
    HandedOverExactlyOnce(s0, run, s);
    Then(Next, s0, run, s, more, last);
    HandedOverExactlyOnce(s0, run + more, last);
    forall s1, a | HasSuspended(s1) && Next(s1, a).Some? ensures HasSuspended(Next(s1, a).value) {
      StaysSuspended(s1, a);
    }
    Invariance(Next, HasSuspended, s, more);
  }

  // ----- Every run ends -----

  /** How many steps are left at most, for one awaiter and for one completer. */
  function StepsOfAwaiter(a: Awaiter, k: ()): int {
    match a.pc
    case Fresh => 5
    case Suspending => 4
    case Refused => 3
    case Waiting => 3
    case Posted => 2
    case Reading(_) => 1
    case Finished(_, _) => 0
  }

  function StepsOfCompleter(c: Completer, k: ()): int { if c.Before? then 2 else if c.Taken? then 1 else 0 }

  function StepsLeft(s: State): int {
    Tally(StepsOfAwaiter, s.awaiters, ()) + Tally(StepsOfCompleter, s.completers, ())
  }

  lemma AwaiterMoves(awaiters: seq<Awaiter>, i: nat, pc: AwaiterPc)
    requires i < |awaiters| && StepsOfAwaiter(Awaiter(pc, None), ()) < StepsOfAwaiter(awaiters[i], ())
    ensures Tally(StepsOfAwaiter, Move(awaiters, i, pc), ()) < Tally(StepsOfAwaiter, awaiters, ())
  {
    TallyUpdate(StepsOfAwaiter, awaiters, i, awaiters[i].(pc := pc), ());
  }

  lemma StepsStep(s: State, a: Action)
    requires HeldOnce(s) && Enabled(s, a)
    ensures StepsLeft(Next(s, a).value) < StepsLeft(s)
  {
    if a.Complete? || a.Dispatch? {
      TallyUpdate(StepsOfCompleter, s.completers, a.j, Next(s, a).value.completers[a.j], ());
      if a.Dispatch? && s.completers[a.j].h.Some? {
        OnlyWaitingIsTaken(s, a.j);
        AwaiterMoves(s.awaiters, s.completers[a.j].h.value, Posted);
      }
    } else {
      AwaiterMoves(s.awaiters, a.i, Next(s, a).value.awaiters[a.i].pc);
    }
  }

  lemma {:induction false} StepsOfRun(s: State, run: seq<Action>, e: State)
    requires Inv(s) && Exec(Next, s, run) == Some(e)
    ensures |run| + StepsLeft(e) <= StepsLeft(s)
    decreases |run|
  {
    if run != [] {
      StepInv(s, run[0]);
      StepsStep(s, run[0]);
      StepsOfRun(Next(s, run[0]).value, run[1..], e);
    }
  }

  /** No run has more than five steps an awaiter and two a completer, so that a state without a step is always near. */
  lemma EveryRunEnds(s0: State, run: seq<Action>, s: State)
    requires Init(s0) && Exec(Next, s0, run) == Some(s)
    ensures |run| <= 5 * |s0.awaiters| + 2 * |s0.completers|
  {
    InitInv(s0);
    StepsOfRun(s0, run, s);
    TallyAtMost(StepsOfAwaiter, s0.awaiters, (), 5);
    TallyAtMost(StepsOfCompleter, s0.completers, (), 2);
    TallyNonNegative(StepsOfAwaiter, s.awaiters, ());
    TallyNonNegative(StepsOfCompleter, s.completers, ());
  }

  // ----- Two awaiters -----

  lemma BothRegister(s0: State) returns (run: seq<Action>, s: State)
    requires s0.shared == FRESH && s0.awaiters == [Awaiter(Fresh, None), Awaiter(Fresh, None)] && s0.overwritten == []
    ensures Exec(Next, s0, run) == Some(s) && s.shared == FRESH.(continuation := Some(1))
    ensures s.awaiters == [Awaiter(Waiting, None), Awaiter(Waiting, None)] && s.completers == s0.completers
  {
    var s1 := s0.(awaiters := s0.awaiters[0 := Awaiter(Suspending, None)]);
    var s2 := s1.(awaiters := s1.awaiters[1 := Awaiter(Suspending, None)]);
    var s3 := s2.(awaiters := s2.awaiters[0 := Awaiter(Waiting, None)],
                  shared := FRESH.(continuation := Some(0)), overwritten := [] + []);
    s := s3.(awaiters := s3.awaiters[1 := Awaiter(Waiting, None)],
             shared := FRESH.(continuation := Some(1)), overwritten := s3.overwritten + [0]);
    run := [AskReady(0), AskReady(1), Register(0), Register(1)];
    TraceExec(Next, [s0, s1, s2, s3, s], run);
  }

  lemma SecondIsServed(s0: State) returns (run: seq<Action>, s: State)
    requires s0.shared == FRESH.(continuation := Some(1)) && s0.completers == [Before(Value(7), None)]
    requires s0.awaiters == [Awaiter(Waiting, None), Awaiter(Waiting, None)]
    ensures Exec(Next, s0, run) == Some(s) && s.shared.completed && s.completers == [Over]
    ensures |s.awaiters| == 2 && s.awaiters[0].pc.Waiting? && s.awaiters[1].pc.Finished?
  {
    var s1 := Next(s0, Complete(0)).value;
    var s2 := Next(s1, Dispatch(0)).value;
    var s3 := Next(s2, Resume(1)).value;
    s := Next(s3, Read(1)).value;
    run := [Complete(0), Dispatch(0), Resume(1), Read(1)];
    TraceExec(Next, [s0, s1, s2, s3, s], run);
  }

  /** A second awaiter is one too many: here the first is never resumed although the task completes. */
  lemma SecondAwaiterLosesTheFirst() returns (s0: State, run: seq<Action>, s: State)
    ensures Init(s0) && Exec(Next, s0, run) == Some(s) && Terminal(s)
    ensures |s.awaiters| == 2 && s.shared.completed && s.awaiters[0].pc.Waiting?
  {
    s0 := State(FRESH, [Awaiter(Fresh, None), Awaiter(Fresh, None)], [Before(Value(7), None)], [], [], [], []);
    var r4, s4 := BothRegister(s0);
    var r8, s8 := SecondIsServed(s4);
    Then(Next, s0, r4, s4, r8, s8);
    run, s := r4 + r8, s8;
  }
}
