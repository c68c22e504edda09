/**
 * The IO manager's event registry: a table of waiting handles and a kernel interest set for each IO thread,
 * each under its own mutex, and one global map from file descriptors to threads under another.
 */
module IoRegistry {
  import opened Wrappers
  import opened Runs
  import opened Folds

  datatype Waiting = Waiting(read: Option<nat>, write: Option<nat>)

  /** The events the kernel reports for a descriptor. */
  datatype Mask = Mask(read: bool, write: bool)

  /** One thread's context; `errors` counts the epoll_ctl calls that the kernel would refuse. */
  datatype Ctx = Ctx(table: map<int, Waiting>, kernel: map<int, Mask>, errors: nat)

  const NOBODY := Waiting(None, None)

  function At(c: Ctx, fd: int): Waiting {
    if fd in c.table then c.table[fd] else NOBODY
  }

  /** add_event under the mutex: `rd` and `wr` are what to store, when asked to. */
  function Added(c: Ctx, fd: int, rd: Option<nat>, wr: Option<nat>): Ctx {
    var was := At(c, fd);
    var now := Waiting(if rd.Some? then rd else was.read, if wr.Some? then wr else was.write);
    var mask := Mask(rd.Some?, wr.Some?);
    var refused := (fd in c.table) != (fd in c.kernel);   // MOD of an absent descriptor or ADD of a present one
    if refused then Ctx(c.table[fd := now], c.kernel, c.errors + 1)
    else Ctx(c.table[fd := now], c.kernel[fd := mask], c.errors)
  }

  function Fresh(b: bool, n: nat): Option<nat> { if b then Some(n) else None }

  function Cleared(wt: Waiting, r: bool, w: bool): Waiting {
    Waiting(if r then None else wt.read, if w then None else wt.write)
  }

  /** del_event under the mutex. */
  function Removed(c: Ctx, fd: int, r: bool, w: bool): Ctx {
    if fd !in c.table then c
    else
      var left := Cleared(c.table[fd], r, w);
      if left != NOBODY then c.(table := c.table[fd := left])
      else Ctx(c.table - {fd}, c.kernel - {fd}, if fd in c.kernel then c.errors else c.errors + 1)
  }

  /** One reported event under the mutex: who is resumed, reader first, and what is left. */
  function Resumed(c: Ctx, fd: int, ev: Mask): seq<nat> {
    (if ev.read && At(c, fd).read.Some? then [At(c, fd).read.value] else [])
    + (if ev.write && At(c, fd).write.Some? then [At(c, fd).write.value] else [])
  }

  function Delivered(c: Ctx, fd: int, ev: Mask): Ctx {
    if fd !in c.table then c else c.(table := c.table[fd := Cleared(c.table[fd], ev.read, ev.write)])
  }

  class IOThreadContext {
    var fdContexts: map<int, Waiting>
    var eventsProcessed: nat
    ghost var kernel: map<int, Mask>   // the epoll instance

    ghost function Contents(): Ctx
      reads this
    {
      Ctx(fdContexts, kernel, 0)
    }

    ghost predicate Valid()
      reads this
    {
      fdContexts.Keys == kernel.Keys
    }

    constructor ()
      ensures Valid() && Contents() == Ctx(map[], map[], 0) && eventsProcessed == 0
    {
      fdContexts, eventsProcessed, kernel := map[], 0, map[];
    }

    // The kernel refuses to add a present descriptor, and to modify or delete an absent one.

    ghost method EpollAdd(fd: int, mask: Mask)
      requires fd !in kernel
      modifies this`kernel
      ensures kernel == old(kernel)[fd := mask]
    {
      kernel := kernel[fd := mask];
    }

    ghost method EpollMod(fd: int, mask: Mask)
      requires fd in kernel
      modifies this`kernel
      ensures kernel == old(kernel)[fd := mask]
    {
      kernel := kernel[fd := mask];
    }

    ghost method EpollDel(fd: int)
      requires fd in kernel
      modifies this`kernel
      ensures kernel == old(kernel) - {fd}
    {
      kernel := kernel - {fd};
    }

    /** The kernel refuses nothing here: ADD only for absent descriptors, MOD for present ones. */
    method AddEvent(fd: int, r: bool, w: bool, handle: nat)
      requires Valid()
      modifies this
      ensures Valid() && eventsProcessed == old(eventsProcessed)
      ensures Contents() == Added(old(Contents()), fd, Fresh(r, handle), Fresh(w, handle))
    {
      assert fd in fdContexts <==> fd in kernel;
      var isNew := fd !in fdContexts;
      var ctx := if isNew then NOBODY else fdContexts[fd];
      if r {
        ctx := ctx.(read := Some(handle));
      }
      if w {
        ctx := ctx.(write := Some(handle));
      }
      fdContexts := fdContexts[fd := ctx];
      if isNew {
        EpollAdd(fd, Mask(r, w));
      } else {
        EpollMod(fd, Mask(r, w));
      }
    }

    /** Tells whether the descriptor was erased, so that the global map has to forget it. */
    method DelEvent(fd: int, r: bool, w: bool) returns (erased: bool)
      requires Valid()
      modifies this
      ensures Valid() && Contents() == Removed(old(Contents()), fd, r, w) && eventsProcessed == old(eventsProcessed)
      ensures erased <==> fd in old(fdContexts) && fd !in fdContexts
    {
      if fd !in fdContexts {
        return false;
      }
      assert fd in kernel;
      var ctx := fdContexts[fd];
      if r {
        ctx := ctx.(read := None);
      }
      if w {
        ctx := ctx.(write := None);
      }
      erased := ctx == NOBODY;
      if erased {
        EpollDel(fd);
        fdContexts := fdContexts - {fd};
      } else {
        fdContexts := fdContexts[fd := ctx];
      }
    }

    /** One reported event; the handles are returned in the order in which they are resumed. */
    method Deliver(fd: int, ev: Mask) returns (resumed: seq<nat>)
      requires Valid()
      modifies this
      ensures Valid() && Contents() == Delivered(old(Contents()), fd, ev) && resumed == Resumed(old(Contents()), fd, ev)
      ensures eventsProcessed == old(eventsProcessed) + |resumed|
      ensures fd !in old(fdContexts) ==> resumed == []
      ensures fd in old(fdContexts) ==>
        var rd, wr := old(fdContexts)[fd].read, old(fdContexts)[fd].write;
        resumed == (if ev.read && rd.Some? then [rd.value] else []) + (if ev.write && wr.Some? then [wr.value] else [])
    {
      resumed := [];
      if fd !in fdContexts {
        return;
      }
      var ctx := fdContexts[fd];
      if ev.read && ctx.read.Some? {
        resumed := resumed + [ctx.read.value];
        ctx := ctx.(read := None);
        eventsProcessed := eventsProcessed + 1;
      }
      if ev.write && ctx.write.Some? {
        resumed := resumed + [ctx.write.value];
        ctx := ctx.(write := None);
        eventsProcessed := eventsProcessed + 1;
      }
      fdContexts := fdContexts[fd := ctx];
    }
  }

  // ----- All threads together -----

  datatype Side = Reading | Writing

  /** What became of one stored registration. */
  datatype Fate = Stored(t: nat, fd: int, side: Side) | Woken | Deleted | Overwritten

  /** A call in progress; Adding and Erasing hold the mutex of thread `t`. */
  datatype Call =
    | Outside
    | Adding(t: nat, fd: int)
    | Deleting(t: nat, fd: int, r: bool, w: bool)   // has read the global map, not locked yet
    | Erasing(t: nat, fd: int)

  /**
   * Tables hold registration numbers: each slot that add_event fills gets the next one. `latest` records, for a
   * thread and a descriptor, the first number that the last add_event of the descriptor there gave out.
   */
  datatype State = State(
    threads: seq<Ctx>,
    owner: map<int, nat>,
    calls: seq<Call>,
    fates: seq<Fate>,
    resumed: seq<nat>,
    latest: map<(nat, int), nat>)

  datatype Action =
    | Add(c: nat, t: nat, fd: int, r: bool, w: bool)
    | Publish(c: nat)
    | Find(c: nat, fd: int, r: bool, w: bool)
    | Remove(c: nat)
    | Forget(c: nat)
    | Deliver(t: nat, fd: int, ev: Mask)

  predicate Locks(call: Call, t: nat) { (call.Adding? || call.Erasing?) && call.t == t }

  /** The mutex of thread `t` is free. */
  predicate Free(s: State, t: nat) { forall c :: 0 <= c < |s.calls| ==> !Locks(s.calls[c], t) }

  predicate Enabled(s: State, a: Action) {
    match a
    case Add(c, t, _, _, _) => c < |s.calls| && s.calls[c].Outside? && t < |s.threads| && Free(s, t)
    case Publish(c) => c < |s.calls| && s.calls[c].Adding?
    case Find(c, fd, _, _) => c < |s.calls| && s.calls[c].Outside? && fd in s.owner
    case Remove(c) => c < |s.calls| && s.calls[c].Deleting? && s.calls[c].t < |s.threads| && Free(s, s.calls[c].t)
    case Forget(c) => c < |s.calls| && s.calls[c].Erasing?
    case Deliver(t, _, _) => t < |s.threads| && Free(s, t)
  }

  function SetCall(s: State, c: nat, to: Call): State
    requires c < |s.calls|
  {
    s.(calls := s.calls[c := to])
  }

  /** The fate of a registration that a slot held. */
  function Settle(fates: seq<Fate>, slot: Option<nat>, to: Fate): seq<Fate> {
    if slot.Some? && slot.value < |fates| then fates[slot.value := to] else fates
  }

  function If(b: bool, slot: Option<nat>): Option<nat> { if b then slot else None }

  /** The two slots of one descriptor are emptied, as asked, and their registrations settled. */
  function Emptied(fates: seq<Fate>, c: Ctx, fd: int, r: bool, w: bool, to: Fate): seq<Fate> {
    Settle(Settle(fates, If(r, At(c, fd).read), to), If(w, At(c, fd).write), to)
  }

  /** A registration for reading, if asked, and then one for writing, if asked. */
  function Registered(fates: seq<Fate>, t: nat, fd: int, r: bool, w: bool): seq<Fate> {
    var first := if r then fates + [Stored(t, fd, Reading)] else fates;
    if w then first + [Stored(t, fd, Writing)] else first
  }

  function Next(s: State, a: Action): Option<State> {
    if !Enabled(s, a) then None
    else Some(match a
      case Add(c, t, fd, r, w) =>
        var ctx := s.threads[t];
        var n := |s.fates|;
        var kept := Emptied(s.fates, ctx, fd, r, w, Overwritten);
        SetCall(s, c, Adding(t, fd)).(
          threads := s.threads[t := Added(ctx, fd, Fresh(r, n), Fresh(w, if r then n + 1 else n))],
          fates := Registered(kept, t, fd, r, w),
          latest := s.latest[(t, fd) := n])
      case Publish(c) => SetCall(s, c, Outside).(owner := s.owner[s.calls[c].fd := s.calls[c].t])
      case Find(c, fd, r, w) => SetCall(s, c, Deleting(s.owner[fd], fd, r, w))
      case Remove(c) =>
        var call := s.calls[c];
        var ctx := s.threads[call.t];
        var ctx' := Removed(ctx, call.fd, call.r, call.w);
        SetCall(s, c, if call.fd in ctx.table && call.fd !in ctx'.table then Erasing(call.t, call.fd) else Outside).(
          threads := s.threads[call.t := ctx'],
          fates := Emptied(s.fates, ctx, call.fd, call.r, call.w, Deleted))
      case Forget(c) => SetCall(s, c, Outside).(owner := s.owner - {s.calls[c].fd})
      case Deliver(t, fd, ev) =>
        var ctx := s.threads[t];
        s.(threads := s.threads[t := Delivered(ctx, fd, ev)],
           fates := Emptied(s.fates, ctx, fd, ev.read, ev.write, Woken),
           resumed := s.resumed + Resumed(ctx, fd, ev)))
  }

  predicate Init(s: State) {
    && (forall t :: 0 <= t < |s.threads| ==> s.threads[t] == Ctx(map[], map[], 0))
    && (forall c :: 0 <= c < |s.calls| ==> s.calls[c].Outside?)
    && s.owner == map[] && s.fates == [] && s.resumed == [] && s.latest == map[]
  }

  // ----- Tables, kernels and the global map -----

  predicate Mirrored(c: Ctx) { c.table.Keys == c.kernel.Keys && c.errors == 0 }

  ghost predicate KernelsMirror(s: State) {
    forall t :: 0 <= t < |s.threads| ==> Mirrored(s.threads[t])
  }

  lemma AddedMirrors(c: Ctx, fd: int, rd: Option<nat>, wr: Option<nat>)
    requires Mirrored(c)
    ensures Mirrored(Added(c, fd, rd, wr)) && Added(c, fd, rd, wr).table.Keys == c.table.Keys + {fd}
  {
    assert fd in c.table <==> fd in c.kernel;
  }

  lemma RemovedMirrors(c: Ctx, fd: int, r: bool, w: bool)
    requires Mirrored(c)
    ensures Mirrored(Removed(c, fd, r, w))
    ensures Removed(c, fd, r, w).table.Keys == c.table.Keys || Removed(c, fd, r, w).table.Keys == c.table.Keys - {fd}
  {
    assert fd in c.table <==> fd in c.kernel;
  }

  lemma DeliveredMirrors(c: Ctx, fd: int, ev: Mask)
    requires Mirrored(c)
    ensures Mirrored(Delivered(c, fd, ev)) && Delivered(c, fd, ev).table.Keys == c.table.Keys
  {}

  lemma KernelsStep(s: State, a: Action)
    requires KernelsMirror(s) && Enabled(s, a)
    ensures KernelsMirror(Next(s, a).value) && |Next(s, a).value.threads| == |s.threads|
  {
    match a {
      case Add(c, t, fd, r, w) =>
        AddedMirrors(s.threads[t], fd, Fresh(r, |s.fates|), Fresh(w, if r then |s.fates| + 1 else |s.fates|));
      case Remove(c) => RemovedMirrors(s.threads[s.calls[c].t], s.calls[c].fd, s.calls[c].r, s.calls[c].w);
      case Deliver(t, fd, ev) => DeliveredMirrors(s.threads[t], fd, ev);
      case _ =>
    }
  }

  /** A mutex has one holder. */
  ghost predicate OneHolder(s: State) {
    forall c, d, t :: 0 <= c < d < |s.calls| && Locks(s.calls[c], t) ==> !Locks(s.calls[d], t)
  }

  /** The holder's call knows whether the descriptor is in the table. */
  ghost predicate HoldersKnow(s: State) {
    && (forall c :: 0 <= c < |s.calls| && s.calls[c].Adding? ==>
          s.calls[c].t < |s.threads| && s.calls[c].fd in s.threads[s.calls[c].t].table)
    && (forall c :: 0 <= c < |s.calls| && s.calls[c].Erasing? ==>
          s.calls[c].t < |s.threads| && s.calls[c].fd !in s.threads[s.calls[c].t].table)
  }

  ghost predicate CallsOk(s: State) { OneHolder(s) && HoldersKnow(s) }

  lemma OneHolderStep(s: State, a: Action)
    requires OneHolder(s) && Enabled(s, a)
    ensures OneHolder(Next(s, a).value)
  {}

  lemma HoldersKnowStep(s: State, a: Action)
    requires CallsOk(s) && Enabled(s, a)
    ensures HoldersKnow(Next(s, a).value)
  {}

  lemma CallsStep(s: State, a: Action)
    requires CallsOk(s) && Enabled(s, a)
    ensures CallsOk(Next(s, a).value)
  {
    OneHolderStep(s, a);
    HoldersKnowStep(s, a);
  }

  predicate BeingErased(s: State, t: nat, fd: int) {
    exists c :: 0 <= c < |s.calls| && s.calls[c] == Erasing(t, fd)
  }

  /** The map's word is good unless the entry is just being erased. */
  ghost predicate OwnersOk(s: State) {
    forall fd :: fd in s.owner ==>
      s.owner[fd] < |s.threads| && (fd in s.threads[s.owner[fd]].table || BeingErased(s, s.owner[fd], fd))
  }

  lemma StillErased(s: State, a: Action, t: nat, fd: int)
    requires Enabled(s, a) && BeingErased(s, t, fd)
    ensures BeingErased(Next(s, a).value, t, fd) || (a.Forget? && s.calls[a.c].fd == fd)
  {
    var c :| 0 <= c < |s.calls| && s.calls[c] == Erasing(t, fd);
    if !(a.Forget? && a.c == c) {
      assert Next(s, a).value.calls[c] == Erasing(t, fd);
    }
  }

  lemma OwnersOfRemove(s: State, c: nat, fd: int)
    requires OwnersOk(s) && Enabled(s, Remove(c)) && fd in s.owner
    ensures var s' := Next(s, Remove(c)).value;
      s'.owner[fd] < |s'.threads| && (fd in s'.threads[s'.owner[fd]].table || BeingErased(s', s'.owner[fd], fd))
  {
    var s' := Next(s, Remove(c)).value;
    var t := s.owner[fd];
    if fd in s.threads[t].table {
      if fd !in s'.threads[t].table {
        assert s'.calls[c] == Erasing(t, fd);
      }
    } else {
      StillErased(s, Remove(c), t, fd);
    }
  }

  lemma OwnersStep(s: State, a: Action)
    requires OwnersOk(s) && CallsOk(s) && Enabled(s, a)
    ensures OwnersOk(Next(s, a).value)
  {
    var s' := Next(s, a).value;
    forall fd | fd in s'.owner
      ensures s'.owner[fd] < |s'.threads| && (fd in s'.threads[s'.owner[fd]].table || BeingErased(s', s'.owner[fd], fd))
    {
      if a.Remove? {
        OwnersOfRemove(s, a.c, fd);
      } else if a.Publish? && s.calls[a.c].fd == fd {
        assert fd in s'.threads[s'.owner[fd]].table;
      } else {
        assert fd in s.owner && s'.owner[fd] == s.owner[fd];
        if fd !in s.threads[s.owner[fd]].table {
          StillErased(s, a, s.owner[fd], fd);
        }
      }
    }
  }

  // ----- Registrations -----

  function Slot(c: Ctx, fd: int, side: Side): Option<nat> {
    if side.Reading? then At(c, fd).read else At(c, fd).write
  }

  /** A slot holds a registration exactly when the registration's fate says so. */
  ghost predicate Fated(s: State) {
    && (forall t, fd, side, k: nat :: 0 <= t < |s.threads| && Slot(s.threads[t], fd, side) == Some(k) ==>
          k < |s.fates| && s.fates[k] == Stored(t, fd, side))
    && (forall k :: 0 <= k < |s.fates| && s.fates[k].Stored? ==>
          s.fates[k].t < |s.threads| && Slot(s.threads[s.fates[k].t], s.fates[k].fd, s.fates[k].side) == Some(k))
  }

  /** The log of resumptions lists the woken registrations, each once. */
  ghost predicate Logged(s: State) {
    forall k: nat :: Count(s.resumed, k) == if k < |s.fates| && s.fates[k].Woken? then 1 else 0
  }

  lemma SlotsOfAdded(c: Ctx, fd: int, rd: Option<nat>, wr: Option<nat>, fd': int)
    ensures Slot(Added(c, fd, rd, wr), fd', Reading) == if fd' == fd && rd.Some? then rd else Slot(c, fd', Reading)
    ensures Slot(Added(c, fd, rd, wr), fd', Writing) == if fd' == fd && wr.Some? then wr else Slot(c, fd', Writing)
  {}

  lemma SlotsOfRemoved(c: Ctx, fd: int, r: bool, w: bool, fd': int)
    ensures Slot(Removed(c, fd, r, w), fd', Reading) == if fd' == fd && r then None else Slot(c, fd', Reading)
    ensures Slot(Removed(c, fd, r, w), fd', Writing) == if fd' == fd && w then None else Slot(c, fd', Writing)
  {}

  lemma SlotsOfDelivered(c: Ctx, fd: int, ev: Mask, fd': int)
    ensures Slot(Delivered(c, fd, ev), fd', Reading) == if fd' == fd && ev.read then None else Slot(c, fd', Reading)
    ensures Slot(Delivered(c, fd, ev), fd', Writing) == if fd' == fd && ev.write then None else Slot(c, fd', Writing)
  {}

  /** A registration in one of the slots that are to be emptied. */
  predicate Asked(f: Fate, t: nat, fd: int, r: bool, w: bool) {
    (r && f == Stored(t, fd, Reading)) || (w && f == Stored(t, fd, Writing))
  }

  lemma EmptiedFates(s: State, t: nat, fd: int, r: bool, w: bool, to: Fate)
    requires Fated(s) && t < |s.threads| && !to.Stored?
    ensures var fates := Emptied(s.fates, s.threads[t], fd, r, w, to);
      && |fates| == |s.fates|
      && (forall k :: 0 <= k < |fates| ==> fates[k] == if Asked(s.fates[k], t, fd, r, w) then to else s.fates[k])
  {
    assert Slot(s.threads[t], fd, Reading) == At(s.threads[t], fd).read;
    assert Slot(s.threads[t], fd, Writing) == At(s.threads[t], fd).write;
  }

  lemma FatedAfterEmptying(s: State, s': State, t: nat, fd: int, r: bool, w: bool, to: Fate)
    requires Fated(s) && t < |s.threads| && !to.Stored?
    requires |s'.threads| == |s.threads| && s'.threads == s.threads[t := s'.threads[t]]
    requires forall fd' ::
      Slot(s'.threads[t], fd', Reading) == if fd' == fd && r then None else Slot(s.threads[t], fd', Reading)
    requires forall fd' ::
      Slot(s'.threads[t], fd', Writing) == if fd' == fd && w then None else Slot(s.threads[t], fd', Writing)
    requires s'.fates == Emptied(s.fates, s.threads[t], fd, r, w, to)
    ensures Fated(s')
  {
    EmptiedFates(s, t, fd, r, w, to);
    forall t', fd', side, k: nat | 0 <= t' < |s'.threads| && Slot(s'.threads[t'], fd', side) == Some(k)
      ensures k < |s'.fates| && s'.fates[k] == Stored(t', fd', side)
    {
      assert side == Reading || side == Writing;
      assert Slot(s.threads[t'], fd', side) == Some(k);
    }
    forall k | 0 <= k < |s'.fates| && s'.fates[k].Stored?
      ensures s'.fates[k].t < |s'.threads|
      ensures Slot(s'.threads[s'.fates[k].t], s'.fates[k].fd, s'.fates[k].side) == Some(k)
    {
      assert s'.fates[k] == s.fates[k];
      assert s.fates[k].side == Reading || s.fates[k].side == Writing;
    }
  }

  lemma FatedRemove(s: State, c: nat)
    requires Fated(s) && Enabled(s, Remove(c))
    ensures Fated(Next(s, Remove(c)).value)
  {
    var call := s.calls[c];
    forall fd' { SlotsOfRemoved(s.threads[call.t], call.fd, call.r, call.w, fd'); }
    FatedAfterEmptying(s, Next(s, Remove(c)).value, call.t, call.fd, call.r, call.w, Deleted);
  }

  lemma FatedDeliver(s: State, t: nat, fd: int, ev: Mask)
    requires Fated(s) && Enabled(s, Deliver(t, fd, ev))
    ensures Fated(Next(s, Deliver(t, fd, ev)).value)
  {
    forall fd' { SlotsOfDelivered(s.threads[t], fd, ev, fd'); }
    FatedAfterEmptying(s, Next(s, Deliver(t, fd, ev)).value, t, fd, ev.read, ev.write, Woken);
  }

  ghost predicate AddedTo(s: State, s': State, t: nat, fd: int, r: bool, w: bool) {
    var n := |s.fates|;
    && t < |s.threads| && |s'.threads| == |s.threads| && s'.threads == s.threads[t := s'.threads[t]]
    && s'.threads[t] == Added(s.threads[t], fd, Fresh(r, n), Fresh(w, if r then n + 1 else n))
    && s'.fates == Registered(Emptied(s.fates, s.threads[t], fd, r, w, Overwritten), t, fd, r, w)
  }

  lemma SlotsAreFated(s: State, s': State, t: nat, fd: int, r: bool, w: bool, t': nat, fd': int, side: Side, k: nat)
    requires Fated(s) && AddedTo(s, s', t, fd, r, w)
    requires t' < |s'.threads| && Slot(s'.threads[t'], fd', side) == Some(k)
    ensures k < |s'.fates| && s'.fates[k] == Stored(t', fd', side)
  {
    var n := |s.fates|;
    SlotsOfAdded(s.threads[t], fd, Fresh(r, n), Fresh(w, if r then n + 1 else n), fd');
    EmptiedFates(s, t, fd, r, w, Overwritten);
    assert side == Reading || side == Writing;
    if !(t' == t && fd' == fd && if side.Reading? then r else w) {
      assert Slot(s.threads[t'], fd', side) == Some(k);
    }
  }

  lemma FatedAreInSlots(s: State, s': State, t: nat, fd: int, r: bool, w: bool, k: nat)
    requires Fated(s) && AddedTo(s, s', t, fd, r, w) && k < |s'.fates| && s'.fates[k].Stored?
    ensures s'.fates[k].t < |s'.threads| && Slot(s'.threads[s'.fates[k].t], s'.fates[k].fd, s'.fates[k].side) == Some(k)
  {
    var n := |s.fates|;
    SlotsOfAdded(s.threads[t], fd, Fresh(r, n), Fresh(w, if r then n + 1 else n), s'.fates[k].fd);
    EmptiedFates(s, t, fd, r, w, Overwritten);
    if k < n {
      assert s'.fates[k] == s.fates[k];
      assert s.fates[k].side == Reading || s.fates[k].side == Writing;
    }
  }

  lemma FatedAdd(s: State, c: nat, t: nat, fd: int, r: bool, w: bool)
    requires Fated(s) && Enabled(s, Add(c, t, fd, r, w))
    ensures Fated(Next(s, Add(c, t, fd, r, w)).value)
  {
    var s' := Next(s, Add(c, t, fd, r, w)).value;
    assert AddedTo(s, s', t, fd, r, w);
    forall t': nat, fd', side, k: nat | t' < |s'.threads| && Slot(s'.threads[t'], fd', side) == Some(k)
      ensures k < |s'.fates| && s'.fates[k] == Stored(t', fd', side)
    {
      SlotsAreFated(s, s', t, fd, r, w, t', fd', side, k);
    }
    forall k: nat | k < |s'.fates| && s'.fates[k].Stored?
      ensures s'.fates[k].t < |s'.threads|
      ensures Slot(s'.threads[s'.fates[k].t], s'.fates[k].fd, s'.fates[k].side) == Some(k)
    {
      FatedAreInSlots(s, s', t, fd, r, w, k);
    }
  }

  lemma FatedStep(s: State, a: Action)
    requires Fated(s) && Enabled(s, a)
    ensures Fated(Next(s, a).value)
  {
    match a {
      case Add(c, t, fd, r, w) => FatedAdd(s, c, t, fd, r, w);
      case Remove(c) => FatedRemove(s, c);
      case Deliver(t, fd, ev) => FatedDeliver(s, t, fd, ev);
      case _ =>
    }
  }

  lemma SlotIffStored(s: State, t: nat, fd: int, side: Side, k: nat)
    requires Fated(s) && t < |s.threads|
    ensures Slot(s.threads[t], fd, side) == Some(k) <==> k < |s.fates| && s.fates[k] == Stored(t, fd, side)
  {}

  lemma LoggedDeliver(s: State, t: nat, fd: int, ev: Mask)
    requires Fated(s) && Logged(s) && Enabled(s, Deliver(t, fd, ev))
    ensures Logged(Next(s, Deliver(t, fd, ev)).value)
  {
    var s' := Next(s, Deliver(t, fd, ev)).value;
    var ctx := s.threads[t];
    EmptiedFates(s, t, fd, ev.read, ev.write, Woken);
    forall k: nat ensures Count(s'.resumed, k) == if k < |s'.fates| && s'.fates[k].Woken? then 1 else 0 {
      TallyAppend(Same<nat>, s.resumed, Resumed(ctx, fd, ev), k);
      TwoResumed(ctx, fd, ev, k);
      assert Count(s.resumed, k) == if k < |s.fates| && s.fates[k].Woken? then 1 else 0;
      SlotIffStored(s, t, fd, Reading, k);
      SlotIffStored(s, t, fd, Writing, k);
      assert k < |s.fates| ==> s'.fates[k] == if Asked(s.fates[k], t, fd, ev.read, ev.write) then Woken else s.fates[k];
    }
  }

  lemma TwoResumed(c: Ctx, fd: int, ev: Mask, k: nat)
    ensures Count(Resumed(c, fd, ev), k)
         == (if ev.read && Slot(c, fd, Reading) == Some(k) then 1 else 0)
          + (if ev.write && Slot(c, fd, Writing) == Some(k) then 1 else 0)
  {
    var first: seq<nat> := if ev.read && At(c, fd).read.Some? then [At(c, fd).read.value] else [];
    var second: seq<nat> := if ev.write && At(c, fd).write.Some? then [At(c, fd).write.value] else [];
    TallyAppend(Same<nat>, first, second, k);
  }

  lemma LoggedAdd(s: State, c: nat, t: nat, fd: int, r: bool, w: bool)
    requires Fated(s) && Logged(s) && Enabled(s, Add(c, t, fd, r, w))
    ensures Logged(Next(s, Add(c, t, fd, r, w)).value)
  {
    EmptiedFates(s, t, fd, r, w, Overwritten);
  }

  lemma LoggedStep(s: State, a: Action)
    requires Fated(s) && Logged(s) && Enabled(s, a)
    ensures Logged(Next(s, a).value)
  {
    match a {
      case Add(c, t, fd, r, w) => LoggedAdd(s, c, t, fd, r, w);
      case Remove(c) => EmptiedFates(s, s.calls[c].t, s.calls[c].fd, s.calls[c].r, s.calls[c].w, Deleted);
      case Deliver(t, fd, ev) => LoggedDeliver(s, t, fd, ev);
      case _ =>
    }
  }

  // ----- Which waiters the kernel reports -----

  predicate Names(m: Mask, side: Side) { if side.Reading? then m.read else m.write }

  /** The kernel reports a stored registration's direction iff the last add_event of its descriptor stored it. */
  predicate ReportedAt(s: State, t: nat, fd: int, side: Side)
    requires t < |s.threads|
  {
    var slot, kernel := Slot(s.threads[t], fd, side), s.threads[t].kernel;
    slot.Some? ==> fd in kernel && (t, fd) in s.latest && (Names(kernel[fd], side) <==> slot.value >= s.latest[(t, fd)])
  }

  ghost predicate Reported(s: State) {
    forall t: nat, fd, side :: t < |s.threads| ==> ReportedAt(s, t, fd, side)
  }

  lemma ReportedAdd(s: State, c: nat, t: nat, fd: int, r: bool, w: bool, side: Side)
    requires KernelsMirror(s) && Fated(s) && Enabled(s, Add(c, t, fd, r, w))
    ensures ReportedAt(Next(s, Add(c, t, fd, r, w)).value, t, fd, side)
  {
    var n := |s.fates|;
    assert Mirrored(s.threads[t]) && (fd in s.threads[t].table <==> fd in s.threads[t].kernel);
    SlotsOfAdded(s.threads[t], fd, Fresh(r, n), Fresh(w, if r then n + 1 else n), fd);
    assert side == Reading || side == Writing;
    if k: nat :| Slot(s.threads[t], fd, side) == Some(k) { assert k < n; }
  }

  /** What changes no mask and only empties slots keeps the rest as it was. */
  lemma ReportedKept(s: State, s': State, t: nat, fd: int, side: Side)
    requires t < |s.threads| && t < |s'.threads| && ReportedAt(s, t, fd, side)
    requires Slot(s'.threads[t], fd, side).None? || Slot(s'.threads[t], fd, side) == Slot(s.threads[t], fd, side)
    requires Slot(s'.threads[t], fd, side).Some? && fd in s.threads[t].kernel ==>
               fd in s'.threads[t].kernel && s'.threads[t].kernel[fd] == s.threads[t].kernel[fd]
    requires (t, fd) in s.latest ==> (t, fd) in s'.latest && s'.latest[(t, fd)] == s.latest[(t, fd)]
    ensures ReportedAt(s', t, fd, side)
  {}

  lemma ReportedStep(s: State, a: Action)
    requires KernelsMirror(s) && Fated(s) && Reported(s) && Enabled(s, a)
    ensures Reported(Next(s, a).value)
  {
    var s' := Next(s, a).value;
    KernelsStep(s, a);
    forall t: nat, fd, side | t < |s'.threads| ensures ReportedAt(s', t, fd, side) {
      assert ReportedAt(s, t, fd, side);
      assert side == Reading || side == Writing;
      match a {
        case Add(c, u, f, r, w) =>
          if u == t && f == fd {
            ReportedAdd(s, c, t, fd, r, w, side);
          } else {
            if u == t {
              var n := |s.fates|;
              SlotsOfAdded(s.threads[t], f, Fresh(r, n), Fresh(w, if r then n + 1 else n), fd);
            }
            ReportedKept(s, s', t, fd, side);
          }
        case Remove(c) =>
          var call := s.calls[c];
          if call.t == t { SlotsOfRemoved(s.threads[t], call.fd, call.r, call.w, fd); }
          ReportedKept(s, s', t, fd, side);
        case Deliver(u, f, ev) =>
          if u == t { SlotsOfDelivered(s.threads[t], f, ev, fd); }
          ReportedKept(s, s', t, fd, side);
        case _ => ReportedKept(s, s', t, fd, side);
      }
    }
  }

  // ----- Every run -----

  ghost predicate Inv(s: State) {
    KernelsMirror(s) && CallsOk(s) && OwnersOk(s) && Fated(s) && Logged(s) && Reported(s)
  }

  lemma InitInv(s: State)
    requires Init(s)
    ensures Inv(s)
  {}

  lemma StepInv(s: State, a: Action)
    requires Inv(s) && Enabled(s, a)
    ensures Inv(Next(s, a).value)
  {
    KernelsStep(s, a);
    CallsStep(s, a);
    OwnersStep(s, a);
    FatedStep(s, a);
    LoggedStep(s, a);
    ReportedStep(s, a);
  }

  lemma ReachableInv(s0: State, run: seq<Action>, s: State)
    requires Init(s0) && Exec(Next, s0, run) == Some(s)
    ensures Inv(s)
  {
    InitInv(s0);
    forall s, a | Inv(s) && Next(s, a).Some? ensures Inv(Next(s, a).value) { StepInv(s, a); }
    Invariance(Next, Inv, s0, run);
  }

  /** Each thread's table and kernel interest set hold the same descriptors, and the kernel never refused a call. */
  lemma KernelMirrorsTable(s0: State, run: seq<Action>, s: State, t: nat)
    requires Init(s0) && Exec(Next, s0, run) == Some(s) && t < |s.threads|
    ensures s.threads[t].table.Keys == s.threads[t].kernel.Keys && s.threads[t].errors == 0
  {
    ReachableInv(s0, run, s);
  }

  /** While a thread's mutex is free, every descriptor that the global map sends there is in its table. */
  lemma MapPointsIntoTable(s0: State, run: seq<Action>, s: State, fd: int)
    requires Init(s0) && Exec(Next, s0, run) == Some(s) && fd in s.owner && Free(s, s.owner[fd])
    ensures s.owner[fd] < |s.threads| && fd in s.threads[s.owner[fd]].table
  {
    ReachableInv(s0, run, s);
    assert !BeingErased(s, s.owner[fd], fd);
  }

  // ----- What the three calls do to registrations -----

  /** All tables are as before, but for some slots of one descriptor on one thread. */
  ghost predicate OnlyAt(s: State, s': State, t: nat, fd: int, r: bool, w: bool) {
    && |s'.threads| == |s.threads| && t < |s.threads|
    && (forall u :: 0 <= u < |s.threads| && u != t ==> s'.threads[u] == s.threads[u])
    && (forall f :: f != fd ==> At(s'.threads[t], f) == At(s.threads[t], f))
    && (!r ==> At(s'.threads[t], fd).read == At(s.threads[t], fd).read)
    && (!w ==> At(s'.threads[t], fd).write == At(s.threads[t], fd).write)
  }

  /** The registrations in these slots come to this end, and no others come to any. */
  ghost predicate OnlyFates(s: State, s': State, t: nat, fd: int, r: bool, w: bool, to: Fate) {
    && |s.fates| <= |s'.fates|
    && forall k :: 0 <= k < |s.fates| ==> s'.fates[k] == if Asked(s.fates[k], t, fd, r, w) then to else s.fates[k]
  }

  /** `add_event` fills the slots it names with new registrations, and tells the kernel of these alone. */
  lemma AddIsStored(s0: State, run: seq<Action>, s: State, c: nat, t: nat, fd: int, r: bool, w: bool)
    requires Init(s0) && Exec(Next, s0, run) == Some(s) && Enabled(s, Add(c, t, fd, r, w))
    ensures var s', n := Next(s, Add(c, t, fd, r, w)).value, |s.fates|;
      && OnlyAt(s, s', t, fd, r, w) && OnlyFates(s, s', t, fd, r, w, Overwritten) && s'.resumed == s.resumed
      && fd in s'.threads[t].kernel && s'.threads[t].kernel[fd] == Mask(r, w)
      && (r ==> Slot(s'.threads[t], fd, Reading) == Some(n))
      && (w ==> Slot(s'.threads[t], fd, Writing) == Some(if r then n + 1 else n))
      && s'.calls[c] == Adding(t, fd) && Enabled(s', Publish(c))
      && fd in Next(s', Publish(c)).value.owner && Next(s', Publish(c)).value.owner[fd] == t
  {
    ReachableInv(s0, run, s);
    EmptiedFates(s, t, fd, r, w, Overwritten);
    assert Mirrored(s.threads[t]) && (fd in s.threads[t].table <==> fd in s.threads[t].kernel);
  }

  /** A reported event resumes the waiters of the directions it names, all of them, reader first, and no other. */
  lemma WaiterIsResumed(s0: State, run: seq<Action>, s: State, t: nat, fd: int, ev: Mask)
    requires Init(s0) && Exec(Next, s0, run) == Some(s) && Enabled(s, Deliver(t, fd, ev))
    ensures var s' := Next(s, Deliver(t, fd, ev)).value;
      && OnlyAt(s, s', t, fd, ev.read, ev.write) && OnlyFates(s, s', t, fd, ev.read, ev.write, Woken)
      && (ev.read ==> Slot(s'.threads[t], fd, Reading).None?) && (ev.write ==> Slot(s'.threads[t], fd, Writing).None?)
      && |s.resumed| <= |s'.resumed| && s'.resumed[..|s.resumed|] == s.resumed
      && var rd, wr := Slot(s.threads[t], fd, Reading), Slot(s.threads[t], fd, Writing);
      match (ev.read && rd.Some?, ev.write && wr.Some?)
      case (true, true) => s'.resumed[|s.resumed|..] == [rd.value, wr.value]
      case (true, false) => s'.resumed[|s.resumed|..] == [rd.value]
      case (false, true) => s'.resumed[|s.resumed|..] == [wr.value]
      case (false, false) => s'.resumed == s.resumed
  {
    ReachableInv(s0, run, s);
    EmptiedFates(s, t, fd, ev.read, ev.write, Woken);
  }

  /** `del_event` empties the slots it names where the map sent it, and forgets a descriptor that nobody waits for. */
  lemma DeletedIsGone(s0: State, run: seq<Action>, s: State, c: nat)
    requires Init(s0) && Exec(Next, s0, run) == Some(s) && Enabled(s, Remove(c))
    ensures var s', call := Next(s, Remove(c)).value, s.calls[c];
      && OnlyAt(s, s', call.t, call.fd, call.r, call.w)
      && OnlyFates(s, s', call.t, call.fd, call.r, call.w, Deleted) && s'.resumed == s.resumed
      && (call.r ==> Slot(s'.threads[call.t], call.fd, Reading).None?)
      && (call.w ==> Slot(s'.threads[call.t], call.fd, Writing).None?)
      && (call.fd in s'.threads[call.t].table <==>
            call.fd in s.threads[call.t].table && At(s'.threads[call.t], call.fd) != NOBODY)
      && (s'.calls[c].Erasing? <==> call.fd in s.threads[call.t].table && call.fd !in s'.threads[call.t].table)
      && (s'.calls[c].Erasing? ==> call.fd !in Next(s', Forget(c)).value.owner)
  {
    ReachableInv(s0, run, s);
    var call := s.calls[c];
    EmptiedFates(s, call.t, call.fd, call.r, call.w, Deleted);
  }

  /** A registration is resumed at most once, and not at all once it was deleted or overwritten. */
  lemma ResumedAtMostOnce(s0: State, run: seq<Action>, s: State, k: nat)
    requires Init(s0) && Exec(Next, s0, run) == Some(s) && k < |s.fates|
    ensures Count(s.resumed, k) == if s.fates[k].Woken? then 1 else 0
    ensures s.fates[k].Stored? <==>
      exists t, fd, side :: 0 <= t < |s.threads| && Slot(s.threads[t], fd, side) == Some(k)
  {
    ReachableInv(s0, run, s);
    StoredIffInSlot(s, k);
  }

  lemma StoredIffInSlot(s: State, k: nat)
    requires Fated(s) && k < |s.fates|
    ensures s.fates[k].Stored? <==>
      exists t, fd, side :: 0 <= t < |s.threads| && Slot(s.threads[t], fd, side) == Some(k)
  {}

  /**
   * In every reachable state the kernel reports the event that a stored registration waits for if and only if
   * no later add_event of the same descriptor on the same thread replaced the mask.
   */
  lemma ReportedIffNotAddedSince(s0: State, run: seq<Action>, s: State, t: nat, fd: int, side: Side, k: nat)
    requires Init(s0) && Exec(Next, s0, run) == Some(s) && t < |s.threads| && Slot(s.threads[t], fd, side) == Some(k)
    ensures fd in s.threads[t].kernel && (t, fd) in s.latest
    ensures Names(s.threads[t].kernel[fd], side) <==> k >= s.latest[(t, fd)]
  {
    ReachableInv(s0, run, s);
    assert ReportedAt(s, t, fd, side);
  }

  /** Such a waiter is reached: registered for writing, it goes unreported after an add_event for reading. */
  lemma MutedWaiterIsReachable() returns (s0: State, run: seq<Action>, s: State)
    ensures Init(s0) && Exec(Next, s0, run) == Some(s) && |s.threads| == 1
    ensures Slot(s.threads[0], 7, Writing) == Some(0)
    ensures 7 in s.threads[0].kernel && !Names(s.threads[0].kernel[7], Writing)
  {
    s0 := State([Ctx(map[], map[], 0)], map[], [Outside], [], [], map[]);
    var s1 := Next(s0, Add(0, 0, 7, false, true)).value;
    var s2 := Next(s1, Publish(0)).value;
    s := Next(s2, Add(0, 0, 7, true, false)).value;
    run := [Add(0, 0, 7, false, true), Publish(0), Add(0, 0, 7, true, false)];
    TraceExec(Next, [s0, s1, s2, s], run);
  }

  predicate Settled(s: State, k: nat, f: Fate) { k < |s.fates| && s.fates[k] == f && !f.Stored? }

  lemma FateIsFinalStep(s: State, a: Action, k: nat, f: Fate)
    requires Fated(s) && Enabled(s, a) && Settled(s, k, f)
    ensures Settled(Next(s, a).value, k, f)
  {
    match a {
      case Add(c, t, fd, r, w) => EmptiedFates(s, t, fd, r, w, Overwritten);
      case Remove(c) => EmptiedFates(s, s.calls[c].t, s.calls[c].fd, s.calls[c].r, s.calls[c].w, Deleted);
      case Deliver(t, fd, ev) => EmptiedFates(s, t, fd, ev.read, ev.write, Woken);
      case _ =>
    }
  }

  /** Nothing happens any more to a registration that was resumed, deleted or overwritten, however the run goes on. */
  lemma FateIsFinal(s0: State, run: seq<Action>, s: State, more: seq<Action>, later: State, k: nat)
    requires Init(s0) && Exec(Next, s0, run) == Some(s) && Exec(Next, s, more) == Some(later)
    requires k < |s.fates| && !s.fates[k].Stored?
    ensures k < |later.fates| && later.fates[k] == s.fates[k] && Count(later.resumed, k) == Count(s.resumed, k)
  {
    ReachableInv(s0, run, s);
    var f := s.fates[k];
    forall s, a | Fated(s) && Logged(s) && Settled(s, k, f) && Next(s, a).Some?
      ensures Fated(Next(s, a).value) && Logged(Next(s, a).value) && Settled(Next(s, a).value, k, f)
    {
      FatedStep(s, a);
      LoggedStep(s, a);
      FateIsFinalStep(s, a, k, f);
    }
    Invariance(Next, s => Fated(s) && Logged(s) && Settled(s, k, f), s, more);
  }
}
