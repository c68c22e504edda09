/** The promise of a `Task`: who continues after it, on which scheduler, and the active-coroutine counters. */
module Coroutine {
  import opened Wrappers
  import opened Runs
  import opened Folds

  type SchedulerId = nat
  type Handle = nat

  datatype Promise = Promise(continuation: Option<Handle>, scheduler: Option<SchedulerId>, counted: bool)

  function NewPromise(current: Option<SchedulerId>): Promise { Promise(None, current, false) }

  /** A scheduler captured late, when the task is awaited, only fills a gap. */
  function Inherited(p: Promise, current: Option<SchedulerId>): Promise {
    if p.scheduler.Some? then p else p.(scheduler := current)
  }

  function Awaited(p: Promise, h: Handle, current: Option<SchedulerId>): Promise {
    Inherited(p.(continuation := Some(h)), current)
  }

  /** `initial_suspend`: whose counter is bumped, and the flag. */
  function BumpedOn(p: Promise, current: Option<SchedulerId>): Option<SchedulerId> {
    if p.scheduler.Some? then current else None
  }

  function Marked(p: Promise): Promise { p.(counted := p.scheduler.Some?) }

  /** `final_suspend` takes the flag down, and decrements when it was up. */
  function Unmarked(p: Promise): Promise { p.(counted := false) }

  /** Where the decrement goes: the scheduler kept in the promise, else the thread's. */
  function ChargedTo(p: Promise, current: Option<SchedulerId>): Option<SchedulerId> {
    if p.scheduler.Some? then p.scheduler else current
  }

  function ChargeFor(was: bool, p: Promise, current: Option<SchedulerId>): Option<SchedulerId> {
    if was then ChargedTo(p, current) else None
  }

  /** How the awaiting coroutine goes on. */
  datatype Wake = Nobody | Scheduled(h: Handle) | Direct(h: Handle)

  /** Whom the final awaiter wakes, and where. */
  function WakeOf(p: Promise, current: Option<SchedulerId>): Wake {
    match p.continuation
    case None => Nobody
    case Some(h) => if ChargedTo(p, current).Some? then Scheduled(h) else Direct(h)
  }

  class PromiseObject {
    var continuation: Option<Handle>
    var scheduler: Option<SchedulerId>
    var counted: bool

    ghost function Contents(): Promise
      reads this
    {
      Promise(continuation, scheduler, counted)
    }

    constructor (current: Option<SchedulerId>)
      ensures Contents() == NewPromise(current) == Promise(None, current, false)
    {
      continuation, scheduler, counted := None, current, false;
    }

    /** Tells which scheduler's counter to bump, if any. */
    method InitialSuspend(current: Option<SchedulerId>) returns (bump: Option<SchedulerId>)
      modifies this
      ensures Contents() == Marked(old(Contents())) && bump == BumpedOn(old(Contents()), current)
      ensures counted == scheduler.Some? && continuation == old(continuation) && scheduler == old(scheduler)
    {
      if scheduler.Some? {
        bump := current;
        counted := true;
      } else {
        bump := None;
        counted := false;
      }
    }

    /** Starts the child through a scheduler unless it is done; then the awaiter goes on at once. */
    method AwaitSuspend(h: Handle, done: bool, current: Option<SchedulerId>) returns (startChild: bool)
      modifies this
      ensures Contents() == Awaited(old(Contents()), h, current) && startChild == !done
      ensures continuation == Some(h) && counted == old(counted)
      ensures scheduler == if old(scheduler).Some? then old(scheduler) else current
    {
      continuation := Some(h);
      if scheduler.None? {
        scheduler := current;
      }
      startChild := !done;
    }

    /** Tells which scheduler to decrement; the flag is taken down, so a second call decrements nothing. */
    method FinalSuspend(current: Option<SchedulerId>) returns (charge: Option<SchedulerId>)
      modifies this
      ensures Contents() == Unmarked(old(Contents())) && charge == ChargeFor(old(counted), old(Contents()), current)
      ensures !counted && continuation == old(continuation) && scheduler == old(scheduler)
      ensures charge == if !old(counted) then None else if scheduler.Some? then scheduler else current
    {
      var wasCounted := counted;
      counted := false;
      charge := None;
      if wasCounted {
        charge := if scheduler.Some? then scheduler else current;
      }
    }

    /** The continuation is scheduled when any scheduler is known, and resumed in place otherwise. */
    method FinalAwait(current: Option<SchedulerId>) returns (w: Wake)
      ensures w == WakeOf(Contents(), current)
      ensures w.Nobody? <==> continuation.None?
      ensures !w.Nobody? ==> Some(w.h) == continuation
      ensures w.Direct? ==> scheduler.None? && current.None?
      ensures w.Scheduled? ==> scheduler.Some? || current.Some?
    {
      if continuation.None? {
        return Nobody;
      }
      var target := scheduler;
      if target.None? {
        target := current;
      }
      w := if target.Some? then Scheduled(continuation.value) else Direct(continuation.value);
    }
  }

  // ----- The counters, step by step -----

  datatype Phase =
    | Unborn
    | Constructed                   // promise built, counter not bumped yet
    | Bumped                        // counter bumped, flag not set yet
    | Alive
    | Exchanged(was: bool)          // final_suspend took the flag down
    | Loaded(on: SchedulerId, v: int)  // decrement has read the counter
    | Over

  /** `addedTo` and `takenFrom` record what was done to the counters on behalf of this coroutine. */
  datatype Co = Co(promise: Promise, phase: Phase, addedTo: Option<SchedulerId>, takenFrom: seq<SchedulerId>)

  datatype State = State(cos: seq<Co>, active: seq<int>)

  datatype Action =
    | Create(c: nat, current: Option<SchedulerId>)
    | Bump(c: nat)
    | Mark(c: nat)
    | Await(c: nat, h: Handle, current: Option<SchedulerId>)
    | Exchange(c: nat)
    | Load(c: nat, current: Option<SchedulerId>)
    | Subtract(c: nat)

  predicate Known(s: State, k: Option<SchedulerId>) { k.Some? ==> k.value < |s.active| }

  predicate Enabled(s: State, a: Action) {
    a.c < |s.cos| &&
    match a
    case Create(c, current) => s.cos[c].phase.Unborn? && Known(s, current)
    case Bump(c) => s.cos[c].phase.Constructed? && Known(s, s.cos[c].promise.scheduler)
    case Mark(c) => s.cos[c].phase.Bumped?
    case Await(c, _, current) => Known(s, current) &&
      (s.cos[c].phase.Alive? || s.cos[c].phase.Exchanged? || s.cos[c].phase.Loaded?)
    case Exchange(c) => s.cos[c].phase.Alive?
    case Load(c, current) =>
      s.cos[c].phase.Exchanged? && Known(s, current) && Known(s, ChargedTo(s.cos[c].promise, current))
    case Subtract(c) => s.cos[c].phase.Loaded? && s.cos[c].phase.on < |s.active|
  }

  function SetCo(s: State, c: nat, to: Co): State
    requires c < |s.cos|
  {
    s.(cos := s.cos[c := to])
  }

  /** A change of one counter. */
  function Add(active: seq<int>, k: nat, d: int): seq<int>
    requires k < |active|
  {
    active[k := active[k] + d]
  }

  function Next(s: State, a: Action): Option<State> {
    if !Enabled(s, a) then None
    else
      var co := s.cos[a.c];
      Some(match a
      case Create(c, current) => SetCo(s, c, Co(NewPromise(current), Constructed, None, []))
      case Bump(c) =>
        // The thread is the one that constructed the promise, so that its scheduler is the promise's.
        (match BumpedOn(co.promise, co.promise.scheduler)
        case None => SetCo(s, c, co.(phase := Alive, promise := Marked(co.promise)))
        case Some(k) => SetCo(s, c, co.(phase := Bumped, addedTo := Some(k))).(active := Add(s.active, k, 1)))
      case Mark(c) => SetCo(s, c, co.(phase := Alive, promise := Marked(co.promise)))
      case Await(c, h, current) => SetCo(s, c, co.(promise := Awaited(co.promise, h, current)))
      case Exchange(c) =>
        SetCo(s, c, co.(phase := Exchanged(co.promise.counted), promise := Unmarked(co.promise)))
      case Load(c, current) =>
        (match ChargeFor(co.phase.was, co.promise, current)
        case None => SetCo(s, c, co.(phase := Over))
        case Some(k) => SetCo(s, c, co.(phase := Loaded(k, s.active[k]))))
      case Subtract(c) =>
        if co.phase.v > 0
        then
          SetCo(s, c, co.(phase := Over, takenFrom := co.takenFrom + [co.phase.on]))
          .(active := Add(s.active, co.phase.on, -1))
        else SetCo(s, c, co.(phase := Over)))
  }

  predicate Init(s: State) {
    && (forall c :: 0 <= c < |s.cos| ==> s.cos[c] == Co(Promise(None, None, false), Unborn, None, []))
    && (forall k :: 0 <= k < |s.active| ==> s.active[k] == 0)
  }

  /** A coroutine added to counter `k` and not yet taken off it. */
  function Owes(co: Co, k: SchedulerId): int {
    if co.addedTo == Some(k) && !co.phase.Over? then 1 else 0
  }

  /** What the phases know about the promise and about the books. */
  predicate CoOk(co: Co) {
    match co.phase
    case Unborn => co.addedTo.None? && co.takenFrom == []
    case Constructed => co.addedTo.None? && co.takenFrom == [] && !co.promise.counted
    case Bumped => co.addedTo.Some? && co.addedTo == co.promise.scheduler && co.takenFrom == []
    case Alive => co.takenFrom == [] && co.promise.counted == co.addedTo.Some?
                  && (co.addedTo.Some? ==> co.addedTo == co.promise.scheduler)
    case Exchanged(was) => co.takenFrom == [] && was == co.addedTo.Some?
                  && (co.addedTo.Some? ==> co.addedTo == co.promise.scheduler)
    case Loaded(on, v) => co.takenFrom == [] && v > 0 && co.addedTo == Some(on)
    case Over => co.takenFrom == if co.addedTo.Some? then [co.addedTo.value] else []
  }

  ghost predicate Inv(s: State) {
    && (forall c :: 0 <= c < |s.cos| ==> CoOk(s.cos[c]))
    && (forall c: nat :: c < |s.cos| ==> Known(s, s.cos[c].addedTo))
    && (forall k: nat :: k < |s.active| ==> s.active[k] == Tally(Owes, s.cos, k))
  }

  /** Whoever still owes a decrement finds its counter positive. */
  lemma OwedCounterIsPositive(s: State, c: nat, k: nat)
    requires Inv(s) && c < |s.cos| && Owes(s.cos[c], k) == 1
    ensures k < |s.active| && s.active[k] > 0
  {
    TallyCell(Owes, s.cos, k, c);
    assert Known(s, s.cos[c].addedTo);
  }

  lemma BooksStep(s: State, a: Action)
    requires Inv(s) && Enabled(s, a)
    ensures CoOk(Next(s, a).value.cos[a.c]) && Known(Next(s, a).value, Next(s, a).value.cos[a.c].addedTo)
  {
    var co := s.cos[a.c];
    assert CoOk(co);
    if a.Load? && co.phase.was {
      OwedCounterIsPositive(s, a.c, co.addedTo.value);
    }
  }

  lemma CounterStep(s: State, a: Action, k: nat)
    requires Inv(s) && Enabled(s, a) && k < |s.active|
    ensures |Next(s, a).value.active| == |s.active|
    ensures Next(s, a).value.active[k] == Tally(Owes, Next(s, a).value.cos, k)
  {
    assert CoOk(s.cos[a.c]);
    TallyUpdate(Owes, s.cos, a.c, Next(s, a).value.cos[a.c], k);
  }

  lemma OthersKept(s: State, a: Action)
    requires Enabled(s, a)
    ensures |Next(s, a).value.cos| == |s.cos| && |Next(s, a).value.active| == |s.active|
    ensures forall c :: 0 <= c < |s.cos| && c != a.c ==> Next(s, a).value.cos[c] == s.cos[c]
  {}

  lemma StepInv(s: State, a: Action)
    requires Inv(s) && Enabled(s, a)
    ensures Inv(Next(s, a).value)
  {
    OthersKept(s, a);
    BooksStep(s, a);
    forall k: nat | k < |s.active| ensures Next(s, a).value.active[k] == Tally(Owes, Next(s, a).value.cos, k) {
      CounterStep(s, a, k);
    }
  }

  lemma InitInv(s: State)
    requires Init(s)
    ensures Inv(s)
  {
    forall k: nat | k < |s.active| ensures s.active[k] == Tally(Owes, s.cos, k) {
      TallyZero(Owes, s.cos, k);
    }
  }

  lemma ReachableInv(s0: State, run: seq<Action>, s: State)
    requires Init(s0) && Exec(Next, s0, run) == Some(s)
    ensures Inv(s)
  {
    InitInv(s0);
    forall s, a | Inv(s) && Next(s, a).Some? ensures Inv(Next(s, a).value) { StepInv(s, a); }
    Invariance(Next, s => Inv(s), s0, run);
  }

  /**
   * Although a decrement loads, tests and subtracts in separate steps, no counter ever goes below zero:
   * it is the number of coroutines added to it and not yet taken off, so every test succeeds, and who is
   * over was taken off exactly the counter it was added to, once.
   */
  lemma CounterIsExact(s0: State, run: seq<Action>, s: State, k: nat)
    requires Init(s0) && Exec(Next, s0, run) == Some(s) && k < |s.active|
    ensures 0 <= s.active[k] == Tally(Owes, s.cos, k)
    ensures forall c :: 0 <= c < |s.cos| && s.cos[c].phase.Loaded? ==> s.cos[c].phase.v > 0
    ensures forall c :: 0 <= c < |s.cos| && s.cos[c].phase.Over? ==>
              s.cos[c].takenFrom == if s.cos[c].addedTo.Some? then [s.cos[c].addedTo.value] else []
  {
    ReachableInv(s0, run, s);
    TallyNonNegative(Owes, s.cos, k);
    assert forall c :: 0 <= c < |s.cos| ==> CoOk(s.cos[c]);
  }

  /** The counter that `is_idle` and `stop` look at is zero exactly when every coroutine added to it is over. */
  lemma ZeroIffAllOver(s0: State, run: seq<Action>, s: State, k: nat)
    requires Init(s0) && Exec(Next, s0, run) == Some(s) && k < |s.active|
    ensures s.active[k] == 0 <==> forall c :: 0 <= c < |s.cos| && s.cos[c].addedTo == Some(k) ==> s.cos[c].phase.Over?
  {
    ReachableInv(s0, run, s);
    if s.active[k] == 0 {
      forall c: nat | c < |s.cos| && s.cos[c].addedTo == Some(k) ensures s.cos[c].phase.Over? {
        TallyCell(Owes, s.cos, k, c);
      }
    } else if forall c :: 0 <= c < |s.cos| && s.cos[c].addedTo == Some(k) ==> s.cos[c].phase.Over? {
      TallyZero(Owes, s.cos, k);
    }
  }

  // ----- The promise as its run made it -----

  /** Who awaited `c` last, since it was created. */
  function LastAwaiter(run: seq<Action>, c: nat): Option<Handle>
    decreases |run|
  {
    if run == [] then None
    else
      var a, before := run[|run| - 1], run[..|run| - 1];
      if a.c == c && a.Create? then None
      else if a.c == c && a.Await? then Some(a.h)
      else LastAwaiter(before, c)
  }

  /** The scheduler of the thread that created `c`. */
  function CreatedOn(run: seq<Action>, c: nat): Option<SchedulerId>
    decreases |run|
  {
    if run == [] then None
    else
      var a, before := run[|run| - 1], run[..|run| - 1];
      if a.c == c && a.Create? then a.current else CreatedOn(before, c)
  }

  /** That one, or else the first that an awaiter of `c` brought. */
  function HomeOf(run: seq<Action>, c: nat): Option<SchedulerId>
    decreases |run|
  {
    if run == [] then None
    else
      var a, before := run[|run| - 1], run[..|run| - 1];
      if a.c == c && a.Create? then a.current
      else if a.c == c && a.Await? && HomeOf(before, c).None? then a.current
      else HomeOf(before, c)
  }

  /** The promise and the books of `c` are what the run says. */
  ghost predicate Follows(co: Co, run: seq<Action>, c: nat) {
    && co.promise.continuation == LastAwaiter(run, c) && co.promise.scheduler == HomeOf(run, c)
    && (co.phase.Constructed? || co.phase.Bumped? ==> HomeOf(run, c) == CreatedOn(run, c))
    && co.addedTo == if co.phase.Unborn? || co.phase.Constructed? then None else CreatedOn(run, c)
  }

  lemma OneMore(run: seq<Action>, a: Action, c: nat)
    ensures (run + [a])[|run|] == a && (run + [a])[..|run|] == run
    ensures a.c != c || !(a.Create? || a.Await?) ==>
      && LastAwaiter(run + [a], c) == LastAwaiter(run, c) && HomeOf(run + [a], c) == HomeOf(run, c)
      && CreatedOn(run + [a], c) == CreatedOn(run, c)
  {}

  /** The phases after its creation bump and charge; the promise changes only when it is created or awaited. */
  lemma FollowsQuiet(s: State, run: seq<Action>, a: Action)
    requires Enabled(s, a) && !a.Create? && !a.Await? && Follows(s.cos[a.c], run, a.c)
    ensures Follows(Next(s, a).value.cos[a.c], run + [a], a.c)
  {
    OneMore(run, a, a.c);
  }

  lemma FollowsStep(s: State, run: seq<Action>, a: Action, c: nat)
    requires Enabled(s, a) && c < |s.cos| && Follows(s.cos[c], run, c)
    ensures Follows(Next(s, a).value.cos[c], run + [a], c)
  {
    OneMore(run, a, c);
    if a.c != c {
      OthersKept(s, a);
    } else if !a.Create? && !a.Await? {
      FollowsQuiet(s, run, a);
    }
  }

  lemma FollowsAlong(s0: State, run: seq<Action>, s: State, c: nat)
    requires Init(s0) && Exec(Next, s0, run) == Some(s) && c < |s0.cos|
    ensures c < |s.cos| && Follows(s.cos[c], run, c)
  {
    var inv := (s: State, r: seq<Action>) => c < |s.cos| && Follows(s.cos[c], r, c);
    forall s: State, r, a | inv(s, r) && Next(s, a).Some? ensures inv(Next(s, a).value, r + [a]) {
      OthersKept(s, a);
      FollowsStep(s, r, a, c);
    }
    assert inv(s0, []);
    Along(Next, inv, s0, [], run);
    assert [] + run == run;
  }

  /**
   * Whoever awaited a coroutine last is the one its final awaiter wakes: through a scheduler when one is known, from
   * its creation, from an awaiter, or from the finishing thread, and in place otherwise.
   */
  lemma LastAwaiterIsWoken(s0: State, run: seq<Action>, s: State, c: nat, current: Option<SchedulerId>)
    requires Init(s0) && Exec(Next, s0, run) == Some(s) && c < |s0.cos|
    ensures c < |s.cos|
    ensures WakeOf(s.cos[c].promise, current)
         == match LastAwaiter(run, c)
            case None => Nobody
            case Some(h) => if HomeOf(run, c).Some? || current.Some? then Scheduled(h) else Direct(h)
  {
    FollowsAlong(s0, run, s, c);
  }

  /**
   * Every coroutine that got past the bump was added to the counter of the scheduler that it was created on, and to
   * none when it was created outside of any; when it is over it was taken off that counter, once.
   */
  lemma CountedWhereCreated(s0: State, run: seq<Action>, s: State, c: nat)
    requires Init(s0) && Exec(Next, s0, run) == Some(s) && c < |s0.cos|
    ensures c < |s.cos|
    ensures s.cos[c].addedTo
         == if s.cos[c].phase.Unborn? || s.cos[c].phase.Constructed? then None else CreatedOn(run, c)
    ensures s.cos[c].phase.Over? ==>
      s.cos[c].takenFrom == match CreatedOn(run, c) case None => [] case Some(k) => [k]
  {
    FollowsAlong(s0, run, s, c);
    ReachableInv(s0, run, s);
    assert CoOk(s.cos[c]);
  }
}
