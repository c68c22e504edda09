/** A cancellation source: cancel racing with register and unregister, callbacks invoked outside the mutex. */
module Cancellation {
  import opened Wrappers
  import opened Runs
  import opened Seqs
  import opened Folds

  datatype Phase = NotCancelled | Requested | Cancelled

  /** The fields of the source; callbacks are kept by id, from 1, and are numbers themselves. */
  datatype Source = Source(phase: Phase, callbacks: map<nat, nat>, nextId: nat)

  const NEW_SOURCE := Source(NotCancelled, map[], 1)

  /** What `is_cancelled` says: true from the request on. */
  predicate Cancelling(src: Source) { src.phase != NotCancelled }

  /** The section of `cancel` under the mutex. */
  function CancelRequested(src: Source): Source {
    if src.phase.NotCancelled? then src.(phase := Requested, callbacks := map[]) else src
  }

  /** The last store of `cancel`. */
  function CancelFinished(src: Source): Source { src.(phase := Cancelled) }

  function CallbackRegistered(src: Source, callback: nat): Source {
    if Cancelling(src) then src
    else src.(callbacks := src.callbacks[src.nextId := callback], nextId := src.nextId + 1)
  }

  /** The id of a new registration, or 0 when the callback is run at once instead. */
  function RegistrationId(src: Source): nat { if Cancelling(src) then 0 else src.nextId }

  function CallbackErased(src: Source, id: nat): Source { src.(callbacks := src.callbacks - {id}) }

  /** A stored callback with its id. */
  datatype Call = Call(id: nat, callback: nat)

  function Ids(calls: seq<Call>): seq<nat> { seq(|calls|, k requires 0 <= k < |calls| => calls[k].id) }

  /** The stored callbacks in the order in which the map is walked. */
  function CallsOf(src: Source, order: seq<nat>): seq<Call>
    requires forall id :: id in order ==> id in src.callbacks
  {
    seq(|order|, k requires 0 <= k < |order| => Call(order[k], src.callbacks[order[k]]))
  }

  datatype Canceller =
    | Before
    | Invoking(todo: seq<Call>)  // won the exchange, runs the collected callbacks
    | Returned(won: bool)

  /** A registration object holds an id, or 0. The fields after `cancellers` are history. */
  datatype State = State(
    src: Source,
    regs: seq<nat>,
    cancellers: seq<Canceller>,
    collected: seq<Call>,
    invoked: seq<Call>,
    erased: set<nat>,      // unregistered while stored
    disowned: set<nat>,    // ids lost by move-assigning over their registration
    late: seq<nat>,        // callbacks run inside register_callback, after cancellation
    winner: Option<nat>)

  datatype Action =
    | Cancel(c: nat, order: seq<nat>)   // `order` is the order in which the map is walked
    | Invoke(c: nat)
    | Store(c: nat)
    | Register(callback: nat)
    | Unregister(i: nat)
    | MoveConstruct(i: nat)
    | MoveAssign(i: nat, j: nat)

  ghost predicate Lists(xs: seq<nat>, ids: set<nat>) { NoRepeats(xs) && forall id :: id in xs <==> id in ids }

  predicate Enabled(s: State, a: Action) {
    match a
    case Cancel(c, order) => c < |s.cancellers| && s.cancellers[c].Before? && NoRepeats(order)
                             && (forall id :: id in order ==> id in s.src.callbacks)
                             && (forall id :: id in s.src.callbacks ==> id in order)
    case Invoke(c) => c < |s.cancellers| && s.cancellers[c].Invoking? && s.cancellers[c].todo != []
    case Store(c) => c < |s.cancellers| && s.cancellers[c] == Invoking([])
    case Register(_) => true
    case Unregister(i) => i < |s.regs|
    case MoveConstruct(i) => i < |s.regs|
    case MoveAssign(i, j) => i < |s.regs| && j < |s.regs| && i != j
  }

  function SetCanceller(s: State, c: nat, to: Canceller): State
    requires c < |s.cancellers|
  {
    s.(cancellers := s.cancellers[c := to])
  }

  function Next(s: State, a: Action): Option<State> {
    if !Enabled(s, a) then None
    else Some(match a
      case Cancel(c, order) =>
        if !s.src.phase.NotCancelled? then SetCanceller(s, c, Returned(false)).(src := CancelRequested(s.src))
        else
          var calls := CallsOf(s.src, order);
          SetCanceller(s, c, Invoking(calls)).(src := CancelRequested(s.src), collected := calls, winner := Some(c))
      case Invoke(c) =>
        var todo := s.cancellers[c].todo;
        SetCanceller(s, c, Invoking(todo[1..])).(invoked := s.invoked + [todo[0]])
      case Store(c) => SetCanceller(s, c, Returned(true)).(src := CancelFinished(s.src))
      case Register(callback) =>
        s.(src := CallbackRegistered(s.src, callback), regs := s.regs + [RegistrationId(s.src)],
           late := if Cancelling(s.src) then s.late + [callback] else s.late)
      case Unregister(i) =>
        var id := s.regs[i];
        s.(src := CallbackErased(s.src, id), regs := s.regs[i := 0],
           erased := if id in s.src.callbacks then s.erased + {id} else s.erased)
      case MoveConstruct(i) => s.(regs := s.regs[i := 0] + [s.regs[i]])
      case MoveAssign(i, j) =>
        s.(regs := s.regs[i := s.regs[j]][j := 0],
           disowned := if s.regs[i] != 0 then s.disowned + {s.regs[i]} else s.disowned))
  }

  predicate Init(s: State) {
    && s.src == NEW_SOURCE && s.regs == []
    && (forall c :: 0 <= c < |s.cancellers| ==> s.cancellers[c].Before?)
    && s.collected == [] && s.invoked == [] && s.erased == {} && s.disowned == {} && s.late == [] && s.winner.None?
  }

  // ----- Invariants -----

  /** Every id ever given out is stored, erased or collected, and only one of these. */
  ghost predicate IdsSplit(s: State) {
    && (forall id :: 1 <= id < s.src.nextId <==> id in s.src.callbacks || id in s.erased || id in Ids(s.collected))
    && s.src.callbacks.Keys !! s.erased
    && (forall id :: id in Ids(s.collected) ==> id !in s.src.callbacks && id !in s.erased)
    && NoRepeats(Ids(s.collected))
    && (!s.src.phase.NotCancelled? ==> s.src.callbacks == map[])
    && (s.src.phase.NotCancelled? ==> s.collected == [])
  }

  /** One canceller wins; the state is Requested just while it runs the collected callbacks in order. */
  ghost predicate OneWinner(s: State) {
    && (forall c :: 0 <= c < |s.cancellers| && s.winner != Some(c) ==>
          s.cancellers[c].Before? || s.cancellers[c] == Returned(false))
    && match s.winner
       case None =>
         && s.src.phase.NotCancelled? && s.invoked == []
         && (forall c :: 0 <= c < |s.cancellers| ==> s.cancellers[c].Before?)
       case Some(w) =>
         && w < |s.cancellers| && !s.src.phase.NotCancelled?
         && (match s.cancellers[w]
             case Before => false
             case Invoking(todo) => s.src.phase.Requested? && s.invoked + todo == s.collected
             case Returned(won) => won && s.src.phase.Cancelled? && s.invoked == s.collected)
  }

  lemma OneWinnerStep(s: State, a: Action)
    requires OneWinner(s) && Enabled(s, a)
    ensures OneWinner(Next(s, a).value)
  {
    if a.Invoke? {
      var todo := s.cancellers[a.c].todo;
      assert s.invoked + todo == (s.invoked + [todo[0]]) + todo[1..];
    }
  }

  lemma IdsSplitStep(s: State, a: Action)
    requires IdsSplit(s) && OneWinner(s) && s.src.nextId >= 1 && Enabled(s, a)
    ensures IdsSplit(Next(s, a).value)
  {
    var s' := Next(s, a).value;
    if a.Cancel? && s.src.phase.NotCancelled? {
      assert Ids(CallsOf(s.src, a.order)) == a.order;
    }
    if !s'.src.phase.NotCancelled? {
      assert forall id :: id !in s'.src.callbacks;
    }
  }

  /** An id is in at most one registration object; a stored callback has one unless it was disowned. */
  ghost predicate Owners(s: State) {
    && s.src.nextId >= 1
    && (forall i :: 0 <= i < |s.regs| ==> s.regs[i] < s.src.nextId && s.regs[i] !in s.disowned)
    && (forall i, j :: 0 <= i < j < |s.regs| && s.regs[i] != 0 ==> s.regs[i] != s.regs[j])
    && (forall id :: id in s.src.callbacks ==> 0 < id < s.src.nextId && (id in s.regs || id in s.disowned))
    && (forall id :: id in s.disowned ==> 0 < id < s.src.nextId)
  }

  lemma MovedInto(regs: seq<nat>, regs': seq<nat>, i: nat, id: nat)
    requires id in regs && (forall k :: 0 <= k < |regs| && k != i ==> k < |regs'| && regs'[k] == regs[k])
    ensures id in regs' || (i < |regs| && regs[i] == id)
  {
    var k :| 0 <= k < |regs| && regs[k] == id;
    if k != i { assert regs'[k] == id; }
  }

  lemma OwnersOfConstruct(s: State, i: nat)
    requires Owners(s) && Enabled(s, MoveConstruct(i))
    ensures Owners(Next(s, MoveConstruct(i)).value)
  {
    var s' := Next(s, MoveConstruct(i)).value;
    assert s'.regs[|s.regs|] == s.regs[i];
    forall id | id in s'.src.callbacks ensures 0 < id < s'.src.nextId && (id in s'.regs || id in s'.disowned) {
      if id in s.regs { MovedInto(s.regs, s'.regs, i, id); }
    }
  }

  lemma OwnersOfAssign(s: State, i: nat, j: nat)
    requires Owners(s) && Enabled(s, MoveAssign(i, j))
    ensures Owners(Next(s, MoveAssign(i, j)).value)
  {
    var s' := Next(s, MoveAssign(i, j)).value;
    assert s'.regs[i] == s.regs[j];
    forall id | id in s'.src.callbacks ensures 0 < id < s'.src.nextId && (id in s'.regs || id in s'.disowned) {
      if id !in s.disowned {
        var k :| 0 <= k < |s.regs| && s.regs[k] == id;
        if k != i && k != j { assert s'.regs[k] == id; }
      }
    }
  }

  lemma OwnersStep(s: State, a: Action)
    requires Owners(s) && Enabled(s, a)
    ensures Owners(Next(s, a).value)
  {
    var s' := Next(s, a).value;
    if a.MoveConstruct? {
      OwnersOfConstruct(s, a.i);
    } else if a.MoveAssign? {
      OwnersOfAssign(s, a.i, a.j);
    } else {
      forall id | id in s'.src.callbacks ensures 0 < id < s'.src.nextId && (id in s'.regs || id in s'.disowned) {
        if a.Register? {
          assert s'.regs[|s.regs|] == if s.src.phase.NotCancelled? then s.src.nextId else 0;
          if id in s.src.callbacks && id in s.regs { MovedInto(s.regs, s'.regs, |s.regs|, id); }
        } else if a.Unregister? {
          if id in s.regs { MovedInto(s.regs, s'.regs, a.i, id); }
        }
      }
    }
  }

  ghost predicate Inv(s: State) { IdsSplit(s) && OneWinner(s) && Owners(s) }

  /** The callbacks that a run registers, in the order of the calls. */
  function Registered(run: seq<Action>): seq<nat>
    decreases |run|
  {
    if run == [] then []
    else if run[0].Register? then [run[0].callback] + Registered(run[1..])
    else Registered(run[1..])
  }

  /** An id is the number of a registration, and its callback the registered one. */
  predicate RunsAs(call: Call, asked: seq<nat>, stored: nat) {
    1 <= call.id <= stored <= |asked| && call.callback == asked[call.id - 1]
  }

  lemma {:induction false} RegisteredNext(run: seq<Action>, a: Action)
    ensures Registered(run + [a]) == Registered(run) + Registered([a])
    decreases |run|
  {
    if run == [] {
      assert run + [a] == [a];
    } else {
      assert (run + [a])[1..] == run[1..] + [a];
      RegisteredNext(run[1..], a);
    }
  }

  /** The calls with an id are the first ones, and the id tells which; the others came too late to be stored. */
  ghost predicate AsRegistered(src: Source, late: seq<nat>, collected: seq<Call>, asked: seq<nat>) {
    && src.nextId >= 1 && |asked| == src.nextId - 1 + |late| && asked[src.nextId - 1..] == late
    && (src.phase.NotCancelled? ==> late == [])
    && (forall id :: id in src.callbacks ==> RunsAs(Call(id, src.callbacks[id]), asked, src.nextId - 1))
    && (forall k :: 0 <= k < |collected| ==> RunsAs(collected[k], asked, src.nextId - 1))
  }

  lemma StillRunsAs(call: Call, asked: seq<nat>, stored: nat, callback: nat)
    requires RunsAs(call, asked, stored)
    ensures RunsAs(call, asked + [callback], stored) && RunsAs(call, asked + [callback], stored + 1)
  {}

  lemma RegisterFollows(src: Source, late: seq<nat>, collected: seq<Call>, asked: seq<nat>, callback: nat)
    requires AsRegistered(src, late, collected, asked)
    ensures var late' := if Cancelling(src) then late + [callback] else late;
      AsRegistered(CallbackRegistered(src, callback), late', collected, asked + [callback])
  {
    var src', n := CallbackRegistered(src, callback), src.nextId - 1;
    assert (asked + [callback])[n..] == asked[n..] + [callback];
    forall id | id in src'.callbacks
      ensures RunsAs(Call(id, src'.callbacks[id]), asked + [callback], src'.nextId - 1)
    {
      if Cancelling(src) || id != src.nextId {
        StillRunsAs(Call(id, src.callbacks[id]), asked, n, callback);
      }
    }
    forall k | 0 <= k < |collected| ensures RunsAs(collected[k], asked + [callback], src'.nextId - 1) {
      StillRunsAs(collected[k], asked, n, callback);
    }
  }

  lemma RegisteredFrame(s: State, a: Action)
    requires Enabled(s, a) && !a.Register?
    ensures var s' := Next(s, a).value;
      && s'.late == s.late && s'.src.nextId == s.src.nextId
      && (s'.src.phase.NotCancelled? ==> s.src.phase.NotCancelled?)
      && (forall id :: id in s'.src.callbacks ==>
            id in s.src.callbacks && s'.src.callbacks[id] == s.src.callbacks[id])
      && (s'.collected == s.collected || (a.Cancel? && s'.collected == CallsOf(s.src, a.order)))
  {
    if a.Store? { assert s.cancellers[a.c].Invoking?; }
  }

  lemma AsRegisteredStep(s: State, a: Action, asked: seq<nat>)
    requires AsRegistered(s.src, s.late, s.collected, asked) && Enabled(s, a)
    ensures var s' := Next(s, a).value; AsRegistered(s'.src, s'.late, s'.collected, asked + Registered([a]))
  {
    if a.Register? {
      RegisterFollows(s.src, s.late, s.collected, asked, a.callback);
    } else {
      RegisteredFrame(s, a);
      assert asked + [] == asked;
    }
  }

  ghost predicate Follows(s: State, run: seq<Action>) {
    AsRegistered(s.src, s.late, s.collected, Registered(run))
  }

  lemma FollowsStep(s: State, run: seq<Action>, a: Action)
    requires Follows(s, run) && Enabled(s, a)
    ensures Follows(Next(s, a).value, run + [a])
  {
    AsRegisteredStep(s, a, Registered(run));
    RegisteredNext(run, a);
  }

  lemma AsRegisteredAlong(s0: State, run: seq<Action>, s: State)
    requires Init(s0) && Exec(Next, s0, run) == Some(s)
    ensures AsRegistered(s.src, s.late, s.collected, Registered(run))
  {
    assert Follows(s0, []);
    forall s: State, r, a | Follows(s, r) && Next(s, a).Some? ensures Follows(Next(s, a).value, r + [a]) {
      FollowsStep(s, r, a);
    }
    Along(Next, Follows, s0, [], run);
    assert [] + run == run;
  }

  lemma ReachableInv(s0: State, run: seq<Action>, s: State)
    requires Init(s0) && Exec(Next, s0, run) == Some(s)
    ensures Inv(s)
  {
    forall s, a | Inv(s) && Next(s, a).Some? ensures Inv(Next(s, a).value) {
      IdsSplitStep(s, a);
      OneWinnerStep(s, a);
      OwnersStep(s, a);
    }
    Invariance(Next, s => Inv(s), s0, run);
  }

  // ----- What every run guarantees -----

  lemma {:induction false} NoRepeatsCount(xs: seq<nat>, id: nat)
    requires NoRepeats(xs)
    ensures Count(xs, id) == if id in xs then 1 else 0
  {
    if xs != [] {
      NoRepeatsCount(xs[1..], id);
      assert xs == [xs[0]] + xs[1..];
      forall i | 0 <= i < |xs[1..]| ensures xs[1..][i] != xs[0] { assert xs[1..][i] == xs[i + 1]; }
    }
  }

  lemma PrefixHasNoRepeats(xs: seq<nat>, ys: seq<nat>)
    requires NoRepeats(xs + ys)
    ensures NoRepeats(xs) && forall id :: id in xs ==> id in xs + ys
  {
    forall i, j | 0 <= i < j < |xs| ensures xs[i] != xs[j] { assert (xs + ys)[i] != (xs + ys)[j]; }
  }

  /** At every moment each callback has been invoked at most once, and never if it was unregistered while stored. */
  lemma InvokedAtMostOnce(s0: State, run: seq<Action>, s: State, id: nat)
    requires Init(s0) && Exec(Next, s0, run) == Some(s)
    ensures Count(Ids(s.invoked), id) <= 1
    ensures id in s.erased ==> Count(Ids(s.invoked), id) == 0
    ensures s.src.callbacks != map[] ==> s.src.phase.NotCancelled?
  {
    ReachableInv(s0, run, s);
    var rest :=
      if s.winner.Some? && s.cancellers[s.winner.value].Invoking? then s.cancellers[s.winner.value].todo else [];
    assert s.invoked + rest == s.collected;
    assert Ids(s.invoked) + Ids(rest) == Ids(s.collected);
    PrefixHasNoRepeats(Ids(s.invoked), Ids(rest));
    NoRepeatsCount(Ids(s.invoked), id);
  }

  /** Once the state is CANCELLED, a registered callback has been invoked, once, iff it was not unregistered before. */
  lemma CancelledMeansInvoked(s0: State, run: seq<Action>, s: State, id: nat)
    requires Init(s0) && Exec(Next, s0, run) == Some(s) && s.src.phase.Cancelled? && 1 <= id < s.src.nextId
    ensures Count(Ids(s.invoked), id) == if id in s.erased then 0 else 1
  {
    ReachableInv(s0, run, s);
    NoRepeatsCount(Ids(s.invoked), id);
  }

  /**
   * Each call runs the callback that was registered under its id: the first registrations of the run, numbered from
   * 1, were stored under their numbers, and all later ones were run at once, in order.
   */
  lemma CallbacksRunAsRegistered(s0: State, run: seq<Action>, s: State)
    requires Init(s0) && Exec(Next, s0, run) == Some(s)
    ensures s.src.nextId >= 1 && |Registered(run)| == s.src.nextId - 1 + |s.late|
    ensures Registered(run)[s.src.nextId - 1..] == s.late
    ensures s.src.phase.NotCancelled? ==> s.late == []
    ensures forall k :: 0 <= k < |s.invoked| ==> RunsAs(s.invoked[k], Registered(run), s.src.nextId - 1)
    ensures forall id :: id in s.src.callbacks ==>
      RunsAs(Call(id, s.src.callbacks[id]), Registered(run), s.src.nextId - 1)
  {
    ReachableInv(s0, run, s);
    AsRegisteredAlong(s0, run, s);
    InvokedIsCollected(s);
  }

  lemma InvokedIsCollected(s: State)
    requires OneWinner(s)
    ensures s.invoked <= s.collected || (s.winner.None? && s.invoked == [])
  {
    if s.winner.Some? && s.cancellers[s.winner.value].Invoking? {
      assert s.invoked + s.cancellers[s.winner.value].todo == s.collected;
    }
  }

  /** A callback unregistered while it is stored is not run by any continuation. */
  lemma UnregisteredIsNeverRun(s0: State, run: seq<Action>, s: State, i: nat, more: seq<Action>, e: State)
    requires Init(s0) && Exec(Next, s0, run) == Some(s) && i < |s.regs| && s.regs[i] in s.src.callbacks
    requires Exec(Next, s, [Unregister(i)] + more) == Some(e)
    ensures Count(Ids(e.invoked), s.regs[i]) == 0 && s.regs[i] !in e.src.callbacks
  {
    var id := s.regs[i];
    var s1 := Next(s, Unregister(i)).value;
    assert ([Unregister(i)] + more)[1..] == more;
    assert id in s1.erased;
    forall m: State, a | id in m.erased && Next(m, a).Some? ensures id in Next(m, a).value.erased {}
    Invariance(Next, (m: State) => id in m.erased, s1, more);
    Then(Next, s0, run, s, [Unregister(i)] + more, e);
    InvokedAtMostOnce(s0, run + ([Unregister(i)] + more), e, id);
    ReachableInv(s0, run + ([Unregister(i)] + more), e);
  }

  function Rank(p: Phase): nat {
    match p
    case NotCancelled => 0
    case Requested => 1
    case Cancelled => 2
  }

  /** The state only moves forward. */
  lemma PhaseOnlyAdvances(s0: State, run: seq<Action>, s: State, more: seq<Action>, later: State)
    requires Init(s0) && Exec(Next, s0, run) == Some(s) && Exec(Next, s, more) == Some(later)
    ensures Rank(s.src.phase) <= Rank(later.src.phase)
  {
    ReachableInv(s0, run, s);
    var low := Rank(s.src.phase);
    forall s, a | OneWinner(s) && low <= Rank(s.src.phase) && Next(s, a).Some?
      ensures OneWinner(Next(s, a).value) && low <= Rank(Next(s, a).value.src.phase)
    {
      OneWinnerStep(s, a);
    }
    Invariance(Next, s => OneWinner(s) && low <= Rank(s.src.phase), s, more);
  }

  /**
   * When all the cancellers there were (an explicit cancel, the timeout thread, the destructor) have
   * returned, and there was one, the state is CANCELLED.
   */
  lemma AllReturnedMeansCancelled(s0: State, run: seq<Action>, s: State)
    requires Init(s0) && Exec(Next, s0, run) == Some(s) && s.cancellers != []
    requires forall c :: 0 <= c < |s.cancellers| ==> s.cancellers[c].Returned?
    ensures s.src.phase.Cancelled?
  {
    ReachableInv(s0, run, s);
    assert s.cancellers[0].Returned?;
  }

  /**
   * One returned call alone says less: a `cancel` returns before the state is CANCELLED if and only if it is
   * REQUESTED on entry, and it returns with callbacks still to run if and only if another one is running them.
   */
  lemma EarlyReturnIffRequested(s0: State, run: seq<Action>, s: State, c: nat, order: seq<nat>)
    requires Init(s0) && Exec(Next, s0, run) == Some(s) && Enabled(s, Cancel(c, order))
    ensures var s' := Next(s, Cancel(c, order)).value;
      s'.cancellers[c].Returned? && !s'.src.phase.Cancelled? <==> s.src.phase.Requested?
    ensures var s' := Next(s, Cancel(c, order)).value;
      s'.cancellers[c].Returned? ==>
        (s'.invoked != s'.collected <==> exists w :: 0 <= w < |s.cancellers| && StillRunning(s.cancellers[w]))
  {
    ReachableInv(s0, run, s);
    if s.src.phase.Requested? {
      var todo := s.cancellers[s.winner.value].todo;
      assert s.invoked + todo == s.collected && (todo != [] ==> |s.invoked| < |s.collected|);
    }
  }

  predicate StillRunning(c: Canceller) { c.Invoking? && c.todo != [] }

  function InvokeAll(c: nat, n: nat): seq<Action> { seq(n, _ => Invoke(c)) }

  lemma {:induction false} InvokesAll(s: State, c: nat, todo: seq<Call>) returns (e: State)
    requires c < |s.cancellers| && s.cancellers[c] == Invoking(todo)
    ensures Exec(Next, s, InvokeAll(c, |todo|)) == Some(e)
    ensures e == s.(cancellers := s.cancellers[c := Invoking([])], invoked := s.invoked + todo)
    decreases |todo|
  {
    if todo == [] {
      e := s;
    } else {
      var s1 := s.(cancellers := s.cancellers[c := Invoking(todo[1..])], invoked := s.invoked + [todo[0]]);
      OneStep(Next, s, Invoke(c), s1);
      e := InvokesAll(s1, c, todo[1..]);
      Then(Next, s, [Invoke(c)], s1, InvokeAll(c, |todo| - 1), e);
      assert InvokeAll(c, |todo|) == [Invoke(c)] + InvokeAll(c, |todo| - 1);
    }
  }

  lemma RunsAndStores(s: State, c: nat, todo: seq<Call>) returns (e: State)
    requires c < |s.cancellers| && s.cancellers[c] == Invoking(todo)
    ensures Exec(Next, s, InvokeAll(c, |todo|) + [Store(c)]) == Some(e)
    ensures e == s.(cancellers := s.cancellers[c := Returned(true)], invoked := s.invoked + todo,
                    src := CancelFinished(s.src))
  {
    var s1 := InvokesAll(s, c, todo);
    e := s1.(cancellers := s1.cancellers[c := Returned(true)], src := CancelFinished(s1.src));
    OneStep(Next, s1, Store(c), e);
    Then(Next, s, InvokeAll(c, |todo|), s1, [Store(c)], e);
  }

  /** A `cancel` that comes first and is left alone runs every stored callback, in its order, and sets CANCELLED. */
  lemma CancelAlone(s: State, c: nat, order: seq<nat>) returns (e: State)
    requires Enabled(s, Cancel(c, order)) && s.src.phase.NotCancelled?
    ensures Exec(Next, s, [Cancel(c, order)] + (InvokeAll(c, |order|) + [Store(c)])) == Some(e)
    ensures e.src.phase.Cancelled? && e.src.callbacks == map[] && e.cancellers == s.cancellers[c := Returned(true)]
    ensures |order| == |s.src.callbacks| && e.invoked == s.invoked + CallsOf(s.src, order)
  {
    var s1 := Next(s, Cancel(c, order)).value;
    OneStep(Next, s, Cancel(c, order), s1);
    e := RunsAndStores(s1, c, CallsOf(s.src, order));
    Then(Next, s, [Cancel(c, order)], s1, InvokeAll(c, |order|) + [Store(c)], e);
    ListsSize(order, s.src.callbacks);
  }

  /** A list of all the keys has as many entries as the map. */
  lemma {:induction false} ListsSize(order: seq<nat>, m: map<nat, nat>)
    requires NoRepeats(order) && (forall id :: id in order ==> id in m) && (forall id :: id in m ==> id in order)
    ensures |order| == |m|
    decreases |order|
  {
    if order == [] {
      assert m == map[];
    } else {
      var id := order[0];
      Smaller(m, id);
      assert order == [id] + order[1..];
      forall k | 0 <= k < |order| - 1 ensures order[1..][k] != id { assert order[1..][k] == order[k + 1]; }
      ListsSize(order[1..], m - {id});
    }
  }

  /** Once some `cancel` has returned, all callbacks have been run iff the one that runs them has returned. */
  lemma CancelledIffWinnerReturned(s0: State, run: seq<Action>, s: State, c: nat)
    requires Init(s0) && Exec(Next, s0, run) == Some(s) && c < |s.cancellers| && s.cancellers[c].Returned?
    ensures s.src.phase.Cancelled? <==> exists w :: 0 <= w < |s.cancellers| && s.cancellers[w] == Returned(true)
    ensures s.src.phase.Cancelled? ==> s.invoked == s.collected
    ensures !s.src.phase.Cancelled? ==>
      exists w, todo :: 0 <= w < |s.cancellers| && s.cancellers[w] == Invoking(todo) && s.invoked + todo == s.collected
  {
    ReachableInv(s0, run, s);
    var w := s.winner.value;
    if s.cancellers[w].Invoking? {
      assert s.cancellers[w] == Invoking(s.cancellers[w].todo);
    }
  }

  /** A run to such a moment: the second `cancel` returns while the first still has a callback to run. */
  lemma LosingCancelReturnsEarly() returns (s0: State, run: seq<Action>, s: State)
    ensures Init(s0) && Exec(Next, s0, run) == Some(s)
    ensures |s.cancellers| == 2 && s.cancellers[1].Returned? && s.src.phase.Requested?
    ensures s.invoked == [] && s.collected == [Call(1, 5)]
  {
    s0 := State(NEW_SOURCE, [], [Before, Before], [], [], {}, {}, [], None);
    var s1 := s0.(src := CallbackRegistered(s0.src, 5), regs := s0.regs + [1]);
    var s2 := s1.(cancellers := s1.cancellers[0 := Invoking([Call(1, 5)])], src := CancelRequested(s1.src),
                  collected := [Call(1, 5)], winner := Some(0));
    s := s2.(cancellers := s2.cancellers[1 := Returned(false)]);
    assert CallsOf(s1.src, [1]) == [Call(1, 5)];
    run := [Register(5), Cancel(0, [1]), Cancel(1, [])];
    TraceExec(Next, [s0, s1, s2, s], run);
  }

  /** While stored, a callback can still be unregistered by its registration iff no move was assigned over that. */
  lemma UnregistrableIffNotDisowned(s0: State, run: seq<Action>, s: State, id: nat)
    requires Init(s0) && Exec(Next, s0, run) == Some(s) && id in s.src.callbacks
    ensures (exists i :: 0 <= i < |s.regs| && s.regs[i] == id) <==> id !in s.disowned
    ensures forall i, j :: 0 <= i < j < |s.regs| && s.regs[i] == id ==> s.regs[j] != id
  {
    ReachableInv(s0, run, s);
  }

  /** A stored callback without a registration is reached by assigning one registration over another. */
  lemma DisownedIsReachable() returns (s0: State, run: seq<Action>, s: State)
    ensures Init(s0) && Exec(Next, s0, run) == Some(s)
    ensures 1 in s.src.callbacks && 1 in s.disowned && forall i :: 0 <= i < |s.regs| ==> s.regs[i] != 1
  {
    s0 := State(NEW_SOURCE, [], [], [], [], {}, {}, [], None);
    var s1 := Next(s0, Register(5)).value;
    var s2 := Next(s1, Register(6)).value;
    s := Next(s2, MoveAssign(0, 1)).value;
    run := [Register(5), Register(6), MoveAssign(0, 1)];
    TraceExec(Next, [s0, s1, s2, s], run);
  }

  // ----- The objects -----

  class CancellationSource {
    var phase: Phase
    var callbacks: map<nat, nat>
    var nextId: nat

    ghost function Contents(): Source
      reads this
    {
      Source(phase, callbacks, nextId)
    }

    constructor ()
      ensures Contents() == NEW_SOURCE
    {
      phase, callbacks, nextId := NotCancelled, map[], 1;
    }

    /** The section of `cancel` under the mutex: the loser gets nothing, the winner every stored callback, once. */
    method Collect() returns (won: bool, ids: seq<nat>, toCall: seq<nat>)
      modifies this
      ensures won == old(phase).NotCancelled? && Contents() == CancelRequested(old(Contents()))
      ensures !won ==> ids == toCall == []
      ensures won ==> Lists(ids, old(callbacks).Keys) && |toCall| == |ids|
      ensures won ==> forall k :: 0 <= k < |ids| ==> ids[k] in old(callbacks) && toCall[k] == old(callbacks)[ids[k]]
    {
      ids, toCall := [], [];
      if phase != NotCancelled {
        return false, [], [];
      }
      won := true;
      phase := Requested;
      var left := callbacks.Keys;
      while left != {}
        invariant won && phase == Requested && nextId == old(nextId) && callbacks == old(callbacks)
        invariant left <= callbacks.Keys && Lists(ids, callbacks.Keys - left) && |toCall| == |ids|
        invariant forall k :: 0 <= k < |ids| ==> ids[k] in callbacks && toCall[k] == callbacks[ids[k]]
      {
        var id :| id in left;
        ids := ids + [id];
        toCall := toCall + [callbacks[id]];
        left := left - {id};
      }
      callbacks := map[];
    }

    method Finish()
      modifies this
      ensures Contents() == CancelFinished(old(Contents()))
    {
      phase := Cancelled;
    }

    method IsCancelled() returns (b: bool)
      ensures b <==> phase != NotCancelled
    {
      b := phase != NotCancelled;
    }

    method RegisterCallback(callback: nat) returns (id: nat, runNow: bool)
      modifies this
      ensures Contents() == CallbackRegistered(old(Contents()), callback) && id == RegistrationId(old(Contents()))
      ensures runNow <==> old(phase) != NotCancelled
      ensures runNow ==> id == 0 && Contents() == old(Contents())
      ensures !runNow ==> id == old(nextId) && nextId == id + 1 && callbacks == old(callbacks)[id := callback]
    {
      var cancelled := IsCancelled();
      if cancelled {
        return 0, true;
      }
      id, runNow := nextId, false;
      nextId := nextId + 1;
      callbacks := callbacks[id := callback];
    }

    method UnregisterCallback(id: nat)
      modifies this
      ensures Contents() == CallbackErased(old(Contents()), id)
    {
      callbacks := callbacks - {id};
    }
  }

  class CancellationRegistration {
    var source: CancellationSource?
    var callbackId: nat

    constructor (source: CancellationSource?, id: nat)
      ensures this.source == source && callbackId == id
    {
      this.source, callbackId := source, id;
    }

    constructor MovedFrom(other: CancellationRegistration)
      modifies other
      ensures callbackId == old(other.callbackId) && source == old(other.source) && other.callbackId == 0
    {
      source, callbackId := other.source, other.callbackId;
      new;
      other.callbackId := 0;
    }

    method MoveAssign(other: CancellationRegistration)
      modifies this, other
      ensures other == this ==> callbackId == old(callbackId) && source == old(source)
      ensures other != this ==>
        callbackId == old(other.callbackId) && source == old(other.source) && other.callbackId == 0
    {
      if this != other {
        source := other.source;
        callbackId := other.callbackId;
        other.callbackId := 0;
      }
    }

    /** A second call finds no id and does nothing. */
    method Unregister()
      modifies this, source
      ensures callbackId == 0 && source == old(source)
      ensures source != null && old(callbackId) == 0 ==> source.Contents() == old(source.Contents())
      ensures source != null && old(callbackId) != 0 ==>
        source.Contents() == CallbackErased(old(source.Contents()), old(callbackId))
    {
      if callbackId != 0 {
        if source != null {
          source.UnregisterCallback(callbackId);
        }
        callbackId := 0;
      }
    }
  }
}
