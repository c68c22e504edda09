/** The pool of coroutine stacks: sizes clamped to a range, and a capped cache of returned stacks for each size. */
module StackPool {
  import opened Wrappers
  import opened Runs
  import opened Seqs
  import opened Folds

  const MIN_STACK_SIZE: nat := 16 * 1024
  const MAX_STACK_SIZE: nat := 128 * 1024
  const MAX_CACHED_PER_SIZE: nat := 50

  /**
   * `count` and `total` are the two counters. `live` and `owned` are history: the stacks that callers hold, and
   * the size that every live or cached stack was allocated with.
   */
  datatype Stacks = Stacks(cache: map<nat, seq<nat>>, count: int, total: int, live: set<nat>, owned: map<nat, nat>)

  function Clamp(size: nat): nat {
    if size < MIN_STACK_SIZE then MIN_STACK_SIZE else if size > MAX_STACK_SIZE then MAX_STACK_SIZE else size
  }

  function CachedFor(s: Stacks, c: nat): seq<nat> { if c in s.cache then s.cache[c] else [] }

  ghost predicate InCache(cache: map<nat, seq<nat>>, p: nat) { exists c :: c in cache && p in cache[c] }

  ghost predicate Cached(s: Stacks, p: nat) { InCache(s.cache, p) }

  function SizeOf(p: nat, size: nat): int { size }

  function BytesOf(c: nat, stack: seq<nat>): int { c * |stack| }

  /** Bytes of all stacks that are live or cached, and bytes that the cache holds. */
  ghost function OwnedBytes(owned: map<nat, nat>): int { SumMap(SizeOf, owned) }

  ghost function CacheBytes(cache: map<nat, seq<nat>>): int { SumMap(BytesOf, cache) }

  // ----- The operations -----

  function Popped(s: Stacks, c: nat): Stacks
    requires CachedFor(s, c) != []
  {
    var n := |s.cache[c]| - 1;
    s.(cache := s.cache[c := s.cache[c][..n]], count := s.count + 1, live := s.live + {s.cache[c][n]})
  }

  /** `system` is what the system allocator answers when the cache has no stack of the size. */
  function Allocated(s: Stacks, size: nat, system: Option<nat>): Stacks {
    var c := Clamp(size);
    if CachedFor(s, c) != [] then Popped(s, c)
    else match system
      case None => s
      case Some(p) => s.(count := s.count + 1, total := s.total + c, live := s.live + {p}, owned := s.owned[p := c])
  }

  function AllocatedAt(s: Stacks, size: nat, system: Option<nat>): Option<nat> {
    var stack := CachedFor(s, Clamp(size));
    if stack != [] then Some(stack[|stack| - 1]) else system
  }

  /** A returned stack is cached under the clamped size it is returned with, or freed when that cache is full. */
  function Deallocated(s: Stacks, p: nat, size: nat): Stacks {
    if p == 0 then s
    else
      var c := Clamp(size);
      var stack := CachedFor(s, c);
      if |stack| < MAX_CACHED_PER_SIZE then
        s.(cache := s.cache[c := stack + [p]], count := s.count - 1, live := s.live - {p})
      else
        s.(count := s.count - 1, total := s.total - c, live := s.live - {p}, owned := s.owned - {p})
  }

  /** Clearing frees every cached stack and subtracts the size it is cached under. */
  ghost function Cleared(s: Stacks): Stacks {
    s.(cache := map[], total := s.total - CacheBytes(s.cache),
       owned := map p | p in s.owned && !Cached(s, p) :: s.owned[p])
  }

  // ----- Runs -----

  datatype Action =
    | Allocate(size: nat, system: Option<nat>)
    | Deallocate(p: nat, size: nat)
    | Clear

  /** The system answers with an address not in use; a live stack comes back with a size that clamps to its own. */
  ghost predicate Proper(s: Stacks, a: Action) {
    match a
    case Allocate(size, system) => system.Some? ==> system.value > 0 && system.value !in s.owned
    case Deallocate(p, size) => p == 0 || (p in s.live && p in s.owned && Clamp(size) == s.owned[p])
    case Clear => true
  }

  ghost function After(s: Stacks, a: Action): Stacks {
    match a
    case Allocate(size, system) => Allocated(s, size, system)
    case Deallocate(p, size) => Deallocated(s, p, size)
    case Clear => Cleared(s)
  }

  ghost function Next(s: Stacks, a: Action): Option<Stacks> { if Proper(s, a) then Some(After(s, a)) else None }

  const EMPTY := Stacks(map[], 0, 0, {}, map[])

  // ----- What every proper run keeps -----

  /** Every owned stack is either live or cached under its own size, and once; a cache holds at most 50. */
  ghost predicate Places(s: Stacks) {
    && (forall c :: c in s.cache ==> NoRepeats(s.cache[c]) && |s.cache[c]| <= MAX_CACHED_PER_SIZE)
    && (forall c, p :: c in s.cache && p in s.cache[c] ==> p in s.owned && s.owned[p] == c && p !in s.live)
    && (forall p :: p in s.live ==> p in s.owned)
    && (forall p :: p in s.owned ==> p != 0 && (p in s.live || Cached(s, p)))
  }

  ghost predicate Inv(s: Stacks) { Places(s) && s.count == |s.live| && s.total == OwnedBytes(s.owned) }

  /** A stack is in a cache in the stack of one size or in those of the others. */
  lemma InCacheSplit(cache: map<nat, seq<nat>>, c: nat, stack: seq<nat>, p: nat)
    ensures InCache(cache[c := stack], p) <==> p in stack || InCache(cache - {c}, p)
    ensures c in cache ==> (InCache(cache, p) <==> p in cache[c] || InCache(cache - {c}, p))
    ensures c !in cache ==> cache - {c} == cache
  {
    var changed, rest := cache[c := stack], cache - {c};
    if p in stack { assert c in changed && p in changed[c]; }
    if InCache(rest, p) {
      var d :| d in rest && p in rest[d];
      assert d in changed && p in changed[d] && d in cache && p in cache[d];
    }
    if InCache(changed, p) {
      var d :| d in changed && p in changed[d];
      if d != c { assert d in rest && p in rest[d]; }
    }
    if InCache(cache, p) {
      var d :| d in cache && p in cache[d];
      if d != c { assert d in rest && p in rest[d]; }
    }
  }

  lemma PoppedPlaces(s: Stacks, c: nat)
    requires Places(s) && CachedFor(s, c) != []
    ensures Places(Popped(s, c)) && s.cache[c][|s.cache[c]| - 1] !in s.live
  {
    var stack := s.cache[c];
    var n := |stack| - 1;
    var p := stack[n];
    assert stack == stack[..n] + [p];
    assert p in stack && p !in stack[..n];
    assert forall q :: q in stack <==> q in stack[..n] || q == p;
    forall q: nat | q in s.owned ensures Cached(s, q) ==> Cached(Popped(s, c), q) || q == p {
      InCacheSplit(s.cache, c, stack[..n], q);
    }
  }

  lemma PoppedInv(s: Stacks, c: nat)
    requires Inv(s) && CachedFor(s, c) != []
    ensures Inv(Popped(s, c))
  {
    PoppedPlaces(s, c);
    var p := s.cache[c][|s.cache[c]| - 1];
    assert |s.live + {p}| == |s.live| + 1;
  }

  lemma FreshInv(s: Stacks, c: nat, p: nat)
    requires Inv(s) && p > 0 && p !in s.owned
    ensures Inv(s.(count := s.count + 1, total := s.total + c, live := s.live + {p}, owned := s.owned[p := c]))
  {
    SumWith(SizeOf, s.owned, p, c);
    var after := s.(count := s.count + 1, total := s.total + c, live := s.live + {p}, owned := s.owned[p := c]);
    forall q | q in after.owned ensures q in after.live || Cached(after, q) {
      if q != p && q !in s.live { assert Cached(s, q); }
    }
  }

  lemma CachedPlaces(s: Stacks, p: nat, c: nat)
    requires Places(s) && p in s.live && c == s.owned[p] && |CachedFor(s, c)| < MAX_CACHED_PER_SIZE
    ensures Places(s.(cache := s.cache[c := CachedFor(s, c) + [p]], live := s.live - {p}))
  {
    var stack := CachedFor(s, c);
    var after := s.(cache := s.cache[c := stack + [p]], live := s.live - {p});
    assert forall q :: q in stack + [p] <==> q in stack || q == p;
    forall q: nat | q in after.owned ensures q in after.live || Cached(after, q) {
      InCacheSplit(s.cache, c, stack + [p], q);
    }
  }

  lemma FreedPlaces(s: Stacks, p: nat)
    requires Places(s) && p in s.live
    ensures Places(s.(live := s.live - {p}, owned := s.owned - {p}))
  {
    forall q | q in s.owned && Cached(s, q) ensures q != p && q in s.owned - {p} {
      var c :| c in s.cache && q in s.cache[c];
    }
  }

  lemma FreedBytes(s: Stacks, p: nat)
    requires p in s.owned
    ensures OwnedBytes(s.owned - {p}) == OwnedBytes(s.owned) - s.owned[p]
  {
    SumWithout(SizeOf, s.owned, p);
  }

  lemma CachedInv(s: Stacks, p: nat, c: nat)
    requires Inv(s) && p in s.live && c == s.owned[p] && |CachedFor(s, c)| < MAX_CACHED_PER_SIZE
    ensures Inv(s.(cache := s.cache[c := CachedFor(s, c) + [p]], count := s.count - 1, live := s.live - {p}))
  {
    CachedPlaces(s, p, c);
    assert |s.live - {p}| == |s.live| - 1;
  }

  lemma FreedInv(s: Stacks, p: nat)
    requires Inv(s) && p in s.live
    ensures Inv(s.(count := s.count - 1, total := s.total - s.owned[p], live := s.live - {p}, owned := s.owned - {p}))
  {
    FreedPlaces(s, p);
    FreedBytes(s, p);
    assert |s.live - {p}| == |s.live| - 1;
  }

  lemma DeallocatedInv(s: Stacks, p: nat, size: nat)
    requires Inv(s) && p in s.live && Clamp(size) == s.owned[p]
    ensures Inv(Deallocated(s, p, size))
  {
    var c := Clamp(size);
    if |CachedFor(s, c)| < MAX_CACHED_PER_SIZE {
      CachedInv(s, p, c);
    } else {
      FreedInv(s, p);
    }
  }

  /** Taking the stacks of one cached size out of the owned ones takes their bytes out of the sum. */
  lemma {:induction false} WithoutStack(owned: map<nat, nat>, stack: seq<nat>, c: nat) returns (rest: map<nat, nat>)
    requires NoRepeats(stack) && forall p :: p in stack ==> p in owned && owned[p] == c
    ensures rest == map p | p in owned && p !in stack :: owned[p]
    ensures OwnedBytes(owned) == OwnedBytes(rest) + BytesOf(c, stack)
  {
    if stack == [] {
      rest := owned;
    } else {
      var p := stack[0];
      SumWithout(SizeOf, owned, p);
      forall q | q in stack[1..] ensures q in owned - {p} && owned[q] == c {
        assert q in stack;
      }
      rest := WithoutStack(owned - {p}, stack[1..], c);
      assert forall q :: q in stack <==> q == p || q in stack[1..];
      Distribute(c, |stack| - 1);
    }
  }

  /** Taking out all cached stacks takes the bytes of the cache out of the sum. */
  lemma {:induction false} WithoutCache(owned: map<nat, nat>, cache: map<nat, seq<nat>>) returns (rest: map<nat, nat>)
    requires forall c :: c in cache ==> NoRepeats(cache[c])
    requires forall c, p :: c in cache && p in cache[c] ==> p in owned && owned[p] == c
    ensures rest == map p | p in owned && !InCache(cache, p) :: owned[p]
    ensures OwnedBytes(owned) == OwnedBytes(rest) + CacheBytes(cache)
    decreases |cache|
  {
    if cache == map[] {
      rest := owned;
    } else {
      var c :| c in cache;
      var mid := WithoutStack(owned, cache[c], c);
      SumWithout(BytesOf, cache, c);
      Smaller(cache, c);
      rest := WithoutCache(mid, cache - {c});
      forall p: nat | p in owned ensures p in mid && !InCache(cache - {c}, p) <==> !InCache(cache, p) {
        OutOfRest(cache, c, p);
      }
    }
  }

  lemma OutOfRest(cache: map<nat, seq<nat>>, c: nat, p: nat)
    requires c in cache
    ensures p !in cache[c] && !InCache(cache - {c}, p) <==> !InCache(cache, p)
  {
    InCacheSplit(cache, c, [], p);
  }

  lemma ClearedInv(s: Stacks)
    requires Inv(s)
    ensures Inv(Cleared(s)) && Cleared(s).owned.Keys == s.live
  {
    var rest := WithoutCache(s.owned, s.cache);
    assert rest == Cleared(s).owned;
    assert forall p :: p in s.live ==> !Cached(s, p);
    assert forall p :: p in Cleared(s).owned <==> p in s.live;
  }

  lemma AfterInv(s: Stacks, a: Action)
    requires Inv(s) && Proper(s, a)
    ensures Inv(After(s, a))
  {
    match a {
      case Allocate(size, system) =>
        if CachedFor(s, Clamp(size)) != [] {
          PoppedInv(s, Clamp(size));
        } else if system.Some? {
          FreshInv(s, Clamp(size), system.value);
        }
      case Deallocate(p, size) => if p != 0 { DeallocatedInv(s, p, size); }
      case Clear => ClearedInv(s);
    }
  }

  lemma RunInv(run: seq<Action>)
    ensures Exec(Next, EMPTY, run).Some? ==> Inv(Exec(Next, EMPTY, run).value)
  {
    forall s, a | Inv(s) && Next(s, a).Some? ensures Inv(Next(s, a).value) { AfterInv(s, a); }
    assert Inv(EMPTY);
    Invariance(Next, Inv, EMPTY, run);
  }

  // ----- Theorems -----

  /**
   * After every proper run: the memory counter is the summed clamped sizes of live and cached stacks, the stack
   * counter is the number of live ones, no size caches more than 50, and no stack is both live and cached.
   */
  lemma BooksAreExact(run: seq<Action>, s: Stacks)
    requires Exec(Next, EMPTY, run) == Some(s)
    ensures s.total == OwnedBytes(s.owned) && s.count == |s.live|
    ensures forall p :: p in s.owned <==> p in s.live || Cached(s, p)
    ensures forall p :: !(p in s.live && Cached(s, p))
    ensures forall c :: c in s.cache ==> |s.cache[c]| <= MAX_CACHED_PER_SIZE
  {
    RunInv(run);
  }

  /** Clearing the cache after any proper run leaves exactly the live stacks, and their bytes in the counter. */
  lemma ClearLeavesTheLive(run: seq<Action>, s: Stacks)
    requires Exec(Next, EMPTY, run) == Some(s)
    ensures Cleared(s).owned.Keys == s.live && Cleared(s).live == s.live
    ensures Cleared(s).total == OwnedBytes(Cleared(s).owned)
    ensures forall p :: p in s.live ==> Cleared(s).owned[p] == s.owned[p]
  {
    RunInv(run);
    ClearedInv(s);
  }

  /**
   * A request fails, and changes nothing, iff the cache has no stack of its size and the system gave none. Otherwise
   * the stack returned was not live and is so now, and the system's memory is paid for only when it was asked.
   * The stack has between 16384 and 131072 bytes, as many as asked for when that is in the range.
   */
  lemma AllocationIsFresh(s: Stacks, size: nat, system: Option<nat>)
    requires Inv(s) && Proper(s, Allocate(size, system))
    ensures var at, after := AllocatedAt(s, size, system), After(s, Allocate(size, system));
      && (at.None? <==> CachedFor(s, Clamp(size)) == [] && system.None?)
      && (at.None? ==> after == s)
      && (at.Some? ==>
            && at.value !in s.live && after.live == s.live + {at.value} && after.count == s.count + 1
            && at.value in after.owned && 16384 <= after.owned[at.value] <= 131072
            && (16384 <= size <= 131072 ==> after.owned[at.value] == size)
            && (size <= after.owned[at.value] <==> size <= 131072)
            && (Cached(s, at.value) <==> CachedFor(s, Clamp(size)) != [])
            && (Cached(s, at.value) ==> after.total == s.total && after.owned == s.owned)
            && (!Cached(s, at.value) ==> at == system && after.total == s.total + after.owned[at.value]))
  {
    var c := Clamp(size);
    if CachedFor(s, c) != [] {
      PoppedPlaces(s, c);
      assert AllocatedAt(s, size, system).value in s.cache[c];
    }
  }

  /** A returned stack is no longer live; it stays with the pool unless 50 of its size do already. */
  lemma ReturnEndsUse(s: Stacks, p: nat, size: nat)
    requires Inv(s) && p in s.live && Proper(s, Deallocate(p, size))
    ensures var after := After(s, Deallocate(p, size));
      && after.live == s.live - {p} && after.count == s.count - 1
      && (Cached(after, p) <==> |CachedFor(s, s.owned[p])| < 50)
      && after.total == s.total - (if Cached(after, p) then 0 else s.owned[p])
      && (forall q :: q != p ==> (Cached(after, q) <==> Cached(s, q)))
  {
    var c, after := s.owned[p], After(s, Deallocate(p, size));
    if |CachedFor(s, c)| < MAX_CACHED_PER_SIZE {
      assert after.cache[c] == CachedFor(s, c) + [p];
      forall q | q != p ensures Cached(after, q) <==> Cached(s, q) {
        InCacheSplit(s.cache, c, CachedFor(s, c) + [p], q);
      }
    }
  }

  /** Returning a live stack keeps the books exactly when it is returned with a size that clamps to its own. */
  lemma ReturnKeepsBooksIffOwnSize(s: Stacks, p: nat, size: nat)
    requires Inv(s) && p in s.live
    ensures Inv(Deallocated(s, p, size)) <==> Clamp(size) == s.owned[p]
  {
    var c := Clamp(size);
    if c == s.owned[p] {
      DeallocatedInv(s, p, size);
    } else {
      var after := Deallocated(s, p, size);
      if |CachedFor(s, c)| < MAX_CACHED_PER_SIZE {
        assert after.cache[c] == CachedFor(s, c) + [p];
        assert c in after.cache && p in after.cache[c] && after.owned[p] != c;
      } else {
        SumWithout(SizeOf, s.owned, p);
      }
    }
  }

  /** A run to a return that breaks them: a stack of the least size comes back as one of 20000 bytes. */
  lemma ForeignReturnIsReachable() returns (run: seq<Action>, s: Stacks)
    ensures Exec(Next, EMPTY, run) == Some(s) && 1 in s.live && !Inv(Deallocated(s, 1, 20000))
  {
    var a := Allocate(MIN_STACK_SIZE, Some(1));
    s := After(EMPTY, a);
    run := [a];
    OneStep(Next, EMPTY, a, s);
    RunInv(run);
    ReturnKeepsBooksIffOwnSize(s, 1, 20000);
  }

  /** The next request of a size gets back the stack of that size returned last, and the counters are as before. */
  lemma ReturnedStackIsReused(s: Stacks, p: nat, size: nat, again: nat, system: Option<nat>)
    requires Inv(s) && p in s.live && Clamp(again) == Clamp(size)
    requires |CachedFor(s, Clamp(size))| < MAX_CACHED_PER_SIZE
    ensures AllocatedAt(Deallocated(s, p, size), again, system) == Some(p)
    ensures Allocated(Deallocated(s, p, size), again, system)
         == s.(cache := s.cache[Clamp(size) := CachedFor(s, Clamp(size))])
  {
    var c := Clamp(size);
    var stack := CachedFor(s, c);
    var mid := Deallocated(s, p, size);
    assert mid.cache[c] == stack + [p] && (stack + [p])[..|stack|] == stack;
    assert mid.cache[c := stack] == s.cache[c := stack];
    assert s.live - {p} + {p} == s.live;
  }

  // ----- The pool as an object -----

  class CoroutineStackPool {
    var cache: map<nat, seq<nat>>
    var count: int
    var total: int
    ghost var live: set<nat>
    ghost var owned: map<nat, nat>

    ghost function Contents(): Stacks
      reads this
    {
      Stacks(cache, count, total, live, owned)
    }

    constructor ()
      ensures Contents() == EMPTY
    {
      cache, count, total := map[], 0, 0;
      live, owned := {}, map[];
    }

    method AllocateStack(size: nat, answer: Option<nat>) returns (p: Option<nat>)
      modifies this
      ensures Contents() == Allocated(old(Contents()), size, answer)
      ensures p == AllocatedAt(old(Contents()), size, answer)
      ensures p.None? <==> answer.None? && CachedFor(old(Contents()), Clamp(size)) == []
      ensures p.Some? ==> live == old(live) + {p.value} && count == old(count) + 1
    {
      var c := Clamp(size);
      if c in cache && cache[c] != [] {
        var n := |cache[c]| - 1;
        p := Some(cache[c][n]);
        live := live + {cache[c][n]};
        cache := cache[c := cache[c][..n]];
        count := count + 1;
        return;
      }
      p := answer;
      if p.Some? {
        count := count + 1;
        total := total + c;
        live, owned := live + {p.value}, owned[p.value := c];
      }
    }

    method DeallocateStack(p: nat, size: nat)
      modifies this
      ensures Contents() == Deallocated(old(Contents()), p, size)
      ensures p != 0 ==> live == old(live) - {p} && count == old(count) - 1
      ensures p == 0 ==> Contents() == old(Contents())
    {
      if p == 0 {
        return;
      }
      var c := Clamp(size);
      if c !in cache {
        cache := cache[c := []];
      }
      if |cache[c]| < MAX_CACHED_PER_SIZE {
        cache := cache[c := cache[c] + [p]];
        count := count - 1;
      } else {
        count := count - 1;
        total := total - c;
        owned := owned - {p};
      }
      live := live - {p};
    }

    method ClearCache()
      modifies this
      ensures Contents() == Cleared(old(Contents()))
    {
      ghost var before := Contents();
      var sizes := cache.Keys;
      ghost var rest := cache;
      while sizes != {}
        invariant rest.Keys == sizes && sizes <= cache.Keys
        invariant forall c :: c in rest ==> cache[c] == rest[c]
        invariant Contents() == before.(cache := cache, total := total)
        invariant total - CacheBytes(rest) == before.total - CacheBytes(before.cache)
      {
        var c: nat :| c in sizes;
        ghost var start := total;
        while cache[c] != []
          invariant c in cache && sizes <= cache.Keys
          invariant forall d :: d in rest && d != c ==> cache[d] == rest[d]
          invariant |cache[c]| <= |rest[c]|
          invariant Contents() == before.(cache := cache, total := total)
          invariant total == start - c * (|rest[c]| - |cache[c]|)
          decreases |cache[c]|
        {
          ghost var n := |rest[c]| - |cache[c]|;
          assert c * (n + 1) == c * n + c;
          cache := cache[c := cache[c][..|cache[c]| - 1]];
          total := total - c;
        }
        SumWithout(BytesOf, rest, c);
        rest := rest - {c};
        sizes := sizes - {c};
      }
      assert rest == map[];
      cache := map[];
      owned := Cleared(before).owned;
    }
  }
}
