/**
 * The block pool: chunks of 256 blocks, a capped free list, and the test that recognises a block by its address.
 * Addresses are natural numbers and 0 is the null pointer.
 */
module MemoryPool {
  import opened Wrappers
  import opened Runs
  import opened Seqs
  import opened Modular

  const BLOCKS_PER_CHUNK: nat := 256
  const MAX_FREE_BLOCKS: nat := 512

  /**
   * `live`, `dropped` and `system` are history: blocks handed out, blocks that shrinking took off the free
   * list, and the sizes of the requests that went past the pool to the system allocator.
   */
  datatype Pool = Pool(
    blockSize: nat, chunks: seq<nat>, free: seq<nat>, used: int,
    live: set<nat>, dropped: seq<nat>, system: map<nat, nat>)

  function ChunkSize(blockSize: nat): nat { blockSize * BLOCKS_PER_CHUNK }

  function BlockAt(chunk: nat, i: nat, blockSize: nat): nat { chunk + i * blockSize }

  function BlocksOf(chunk: nat, n: nat, blockSize: nat): seq<nat> {
    seq(n, i requires 0 <= i < n => BlockAt(chunk, i, blockSize))
  }

  /** The source's test of one chunk: the address lies in its range at a multiple of the block size. */
  predicate InChunk(chunk: nat, p: nat, blockSize: nat) {
    blockSize > 0 && chunk <= p < chunk + ChunkSize(blockSize) && (p - chunk) % blockSize == 0
  }

  predicate FromPool(chunks: seq<nat>, p: nat, blockSize: nat) {
    exists k :: 0 <= k < |chunks| && InChunk(chunks[k], p, blockSize)
  }

  /** The test accepts exactly the addresses of the chunk's 256 blocks. */
  lemma InChunkIffBlock(chunk: nat, p: nat, blockSize: nat)
    requires blockSize > 0
    ensures InChunk(chunk, p, blockSize) <==> exists i: nat :: i < BLOCKS_PER_CHUNK && p == BlockAt(chunk, i, blockSize)
  {
    if InChunk(chunk, p, blockSize) {
      var i := (p - chunk) / blockSize;
      assert p - chunk == blockSize * i;
      MulGap(blockSize, BLOCKS_PER_CHUNK, i);
      assert i < BLOCKS_PER_CHUNK && p == BlockAt(chunk, i, blockSize);
    }
    forall i: nat | i < BLOCKS_PER_CHUNK && p == BlockAt(chunk, i, blockSize) ensures InChunk(chunk, p, blockSize) {
      MulGap(blockSize, i, BLOCKS_PER_CHUNK);
      assert p - chunk == blockSize * i + 0;
      DivModUnique(p - chunk, blockSize, i, 0);
    }
  }

  predicate Apart(p: nat, m: nat, q: nat, n: nat) { p + m <= q || q + n <= p }

  /** A block ends inside its chunk. */
  lemma BlockFits(c: nat, p: nat, blockSize: nat)
    requires InChunk(c, p, blockSize)
    ensures p + blockSize <= c + ChunkSize(blockSize)
  {
    InChunkIffBlock(c, p, blockSize);
    var i: nat :| i < BLOCKS_PER_CHUNK && p == BlockAt(c, i, blockSize);
    MulGap(blockSize, i, BLOCKS_PER_CHUNK);
  }

  /** Two blocks of pairwise disjoint chunks share no byte. */
  lemma BlocksApart(c: nat, p: nat, d: nat, q: nat, blockSize: nat)
    requires InChunk(c, p, blockSize) && InChunk(d, q, blockSize) && p != q
    requires c == d || Apart(c, ChunkSize(blockSize), d, ChunkSize(blockSize))
    ensures Apart(p, blockSize, q, blockSize)
  {
    BlockFits(c, p, blockSize);
    BlockFits(d, q, blockSize);
    if c == d {
      var i, j := (p - c) / blockSize, (q - c) / blockSize;
      MulGap(blockSize, i, j);
      MulGap(blockSize, j, i);
    }
  }

  // ----- The operations -----

  /** A new chunk puts its 256 blocks on the free list, in address order. */
  function Grown(pool: Pool, chunk: nat): Pool {
    pool.(chunks := pool.chunks + [chunk], free := pool.free + BlocksOf(chunk, BLOCKS_PER_CHUNK, pool.blockSize))
  }

  function Taken(pool: Pool): Pool
    requires pool.free != []
  {
    var p := pool.free[|pool.free| - 1];
    pool.(free := pool.free[..|pool.free| - 1], used := pool.used + 1, live := pool.live + {p})
  }

  /** `system` is what the system allocator answers, when it is asked: a chunk or a large block. */
  function Allocated(pool: Pool, size: nat, system: Option<nat>): Pool {
    if size > pool.blockSize then
      if system.None? then pool else pool.(system := pool.system[system.value := size])
    else if pool.free != [] then Taken(pool)
    else if system.None? then pool
    else Taken(Grown(pool, system.value))
  }

  /** The address that `allocate` returns. */
  function AllocatedAt(pool: Pool, size: nat, system: Option<nat>): Option<nat> {
    if size > pool.blockSize then system
    else if pool.free != [] then Some(pool.free[|pool.free| - 1])
    else if system.None? then None
    else Some(BlockAt(system.value, BLOCKS_PER_CHUNK - 1, pool.blockSize))
  }

  /** A pool block goes back on the free list while that is not full; anything else goes to `std::free`. */
  function Deallocated(pool: Pool, p: nat): Pool {
    if p == 0 then pool
    else if FromPool(pool.chunks, p, pool.blockSize) && |pool.free| < MAX_FREE_BLOCKS then
      pool.(free := pool.free + [p], used := pool.used - 1, live := pool.live - {p})
    else pool.(live := pool.live - {p}, system := pool.system - {p})
  }

  /** Shrinking forgets the blocks past the first half of the cap; their chunks stay. */
  function Shrunk(pool: Pool): Pool {
    var keep := MAX_FREE_BLOCKS / 2;
    if |pool.free| <= keep then pool
    else pool.(free := pool.free[..keep], dropped := pool.dropped + pool.free[keep..])
  }

  // ----- Runs -----

  datatype Action =
    | Allocate(size: nat, system: Option<nat>)
    | Deallocate(p: nat)
    | Shrink

  /** The system allocator answers with memory that overlaps nothing it has given out and not got back. */
  ghost predicate SystemGives(pool: Pool, at: nat, size: nat) {
    && at > 0
    && (forall k :: 0 <= k < |pool.chunks| ==> Apart(at, size, pool.chunks[k], ChunkSize(pool.blockSize)))
    && (forall b :: b in pool.system ==> Apart(at, size, b, pool.system[b]))
  }

  /** What a request asks of the system allocator. */
  function Asked(pool: Pool, size: nat): nat { if size > pool.blockSize then size else ChunkSize(pool.blockSize) }

  /** Frees are of null, of large blocks not yet freed, and of live blocks while the free list is below its cap. */
  ghost predicate Proper(pool: Pool, a: Action) {
    match a
    case Allocate(size, system) => system.Some? ==> SystemGives(pool, system.value, Asked(pool, size))
    case Deallocate(p) => p == 0 || p in pool.system || (p in pool.live && |pool.free| < MAX_FREE_BLOCKS)
    case Shrink => true
  }

  function After(pool: Pool, a: Action): Pool {
    match a
    case Allocate(size, system) => Allocated(pool, size, system)
    case Deallocate(p) => Deallocated(pool, p)
    case Shrink => Shrunk(pool)
  }

  ghost function Next(pool: Pool, a: Action): Option<Pool> {
    if Proper(pool, a) then Some(After(pool, a)) else None
  }

  /** The pool after construction: one chunk, when the system allocator gave it. */
  ghost predicate Init(pool: Pool) {
    pool.blockSize > 0 &&
    exists system: Option<nat> :: (system.Some? ==> system.value > 0) && pool == Constructed(pool.blockSize, system)
  }

  function Constructed(blockSize: nat, system: Option<nat>): Pool {
    var empty := Pool(blockSize, [], [], 0, {}, [], map[]);
    if system.Some? then Grown(empty, system.value) else empty
  }

  // ----- What every proper run keeps -----

  /** Chunks and large blocks are pairwise disjoint, and none of them is at null. */
  ghost predicate AreasApart(pool: Pool) {
    && pool.blockSize > 0
    && (forall k :: 0 <= k < |pool.chunks| ==> pool.chunks[k] > 0)
    && (forall i, j :: 0 <= i < j < |pool.chunks| ==>
          Apart(pool.chunks[i], ChunkSize(pool.blockSize), pool.chunks[j], ChunkSize(pool.blockSize)))
    && (forall b :: b in pool.system ==> b > 0 && pool.system[b] > pool.blockSize)
    && (forall k, b :: 0 <= k < |pool.chunks| && b in pool.system ==>
          Apart(b, pool.system[b], pool.chunks[k], ChunkSize(pool.blockSize)))
    && (forall b, c :: b in pool.system && c in pool.system && b != c ==> Apart(b, pool.system[b], c, pool.system[c]))
  }

  /** Every block of every chunk is free, live or dropped, and only one of these; nothing else is any of them. */
  ghost predicate Partition(pool: Pool) {
    && (forall p :: FromPool(pool.chunks, p, pool.blockSize) <==> p in pool.free || p in pool.live || p in pool.dropped)
    && NoRepeats(pool.free) && NoRepeats(pool.dropped)
    && (forall p :: p in pool.free ==> p !in pool.live && p !in pool.dropped)
    && (forall p :: p in pool.live ==> p !in pool.dropped)
  }

  ghost predicate Accounts(pool: Pool) {
    && pool.used == |pool.live|
    && |pool.live| + |pool.free| + |pool.dropped| == BLOCKS_PER_CHUNK * |pool.chunks|
    && |pool.free| <= MAX_FREE_BLOCKS
  }

  ghost predicate Inv(pool: Pool) { AreasApart(pool) && Partition(pool) && Accounts(pool) }

  lemma FreshBlocks(pool: Pool, chunk: nat, p: nat)
    requires AreasApart(pool) && SystemGives(pool, chunk, ChunkSize(pool.blockSize))
    ensures p in BlocksOf(chunk, BLOCKS_PER_CHUNK, pool.blockSize) <==> InChunk(chunk, p, pool.blockSize)
    ensures InChunk(chunk, p, pool.blockSize) ==> !FromPool(pool.chunks, p, pool.blockSize)
    ensures FromPool(pool.chunks + [chunk], p, pool.blockSize)
       <==> FromPool(pool.chunks, p, pool.blockSize) || InChunk(chunk, p, pool.blockSize)
  {
    InChunkIffBlock(chunk, p, pool.blockSize);
    var blocks := BlocksOf(chunk, BLOCKS_PER_CHUNK, pool.blockSize);
    forall i: nat | i < BLOCKS_PER_CHUNK && p == BlockAt(chunk, i, pool.blockSize) ensures p in blocks {
      assert blocks[i] == p;
    }
    var all := pool.chunks + [chunk];
    assert all[|pool.chunks|] == chunk;
    assert forall k :: 0 <= k < |pool.chunks| ==> all[k] == pool.chunks[k];
  }

  lemma BlocksDiffer(chunk: nat, n: nat, blockSize: nat)
    requires blockSize > 0
    ensures NoRepeats(BlocksOf(chunk, n, blockSize))
  {
    forall i, j | 0 <= i < j < n ensures BlockAt(chunk, i, blockSize) != BlockAt(chunk, j, blockSize) {
      MulGap(blockSize, i, j);
    }
  }

  lemma GrownInv(pool: Pool, chunk: nat)
    requires Inv(pool) && pool.free == [] && SystemGives(pool, chunk, ChunkSize(pool.blockSize))
    ensures Inv(Grown(pool, chunk)) && Grown(pool, chunk).free == BlocksOf(chunk, BLOCKS_PER_CHUNK, pool.blockSize)
  {
    var grown := Grown(pool, chunk);
    assert grown.free == BlocksOf(chunk, BLOCKS_PER_CHUNK, pool.blockSize);
    BlocksDiffer(chunk, BLOCKS_PER_CHUNK, pool.blockSize);
    forall p: nat
      ensures FromPool(grown.chunks, p, grown.blockSize) <==> p in grown.free || p in grown.live || p in grown.dropped
      ensures p in grown.free ==> p !in grown.live && p !in grown.dropped
    {
      FreshBlocks(pool, chunk, p);
    }
  }

  lemma TakenInv(pool: Pool)
    requires Inv(pool) && pool.free != []
    ensures Inv(Taken(pool)) && pool.free[|pool.free| - 1] !in pool.live
  {
    var last := pool.free[|pool.free| - 1];
    var rest := pool.free[..|pool.free| - 1];
    assert pool.free == rest + [last];
    assert last !in rest && last in pool.free;
    assert forall p :: p in pool.free <==> p in rest || p == last;
    assert |pool.live + {last}| == |pool.live| + 1;
  }

  lemma LargeInv(pool: Pool, at: nat, size: nat)
    requires Inv(pool) && size > pool.blockSize && SystemGives(pool, at, size)
    ensures Inv(pool.(system := pool.system[at := size]))
  {}

  /** A block of a chunk is neither null nor the address of a large block. */
  lemma NotSystem(pool: Pool, p: nat)
    requires AreasApart(pool) && FromPool(pool.chunks, p, pool.blockSize)
    ensures p !in pool.system && p != 0
  {
    var k :| 0 <= k < |pool.chunks| && InChunk(pool.chunks[k], p, pool.blockSize);
    InChunkIffBlock(pool.chunks[k], p, pool.blockSize);
  }

  lemma DeallocatedInv(pool: Pool, p: nat)
    requires Inv(pool) && p in pool.live && |pool.free| < MAX_FREE_BLOCKS
    ensures Inv(Deallocated(pool, p)) && Deallocated(pool, p).free == pool.free + [p]
  {
    assert FromPool(pool.chunks, p, pool.blockSize);
    NotSystem(pool, p);
    var free' := pool.free + [p];
    assert forall q :: q in free' <==> q in pool.free || q == p;
  }

  lemma SystemFreeInv(pool: Pool, p: nat)
    requires Inv(pool) && p in pool.system
    ensures Inv(Deallocated(pool, p)) && Deallocated(pool, p) == pool.(system := pool.system - {p})
  {
    if FromPool(pool.chunks, p, pool.blockSize) { NotSystem(pool, p); }
    assert pool.live - {p} == pool.live;
  }

  lemma AppendDiffers(xs: seq<nat>, ys: seq<nat>)
    requires NoRepeats(xs) && NoRepeats(ys) && forall y :: y in ys ==> y !in xs
    ensures NoRepeats(xs + ys)
  {
    var all := xs + ys;
    forall i, j | 0 <= i < j < |all| ensures all[i] != all[j] {
      if i < |xs| <= j { assert ys[j - |xs|] in ys && xs[i] in xs; }
    }
  }

  lemma ShrunkInv(pool: Pool)
    requires Inv(pool)
    ensures Inv(Shrunk(pool))
  {
    var half := MAX_FREE_BLOCKS / 2;
    if |pool.free| > half {
      var keep, gone := pool.free[..half], pool.free[half..];
      assert pool.free == keep + gone;
      assert forall p :: p in pool.free <==> p in keep || p in gone;
      forall p | p in keep ensures p !in gone {
        var i :| 0 <= i < |keep| && keep[i] == p;
        assert forall j :: 0 <= j < |gone| ==> gone[j] == pool.free[half + j];
      }
      AppendDiffers(pool.dropped, gone);
    }
  }

  lemma AfterInv(pool: Pool, a: Action)
    requires Inv(pool) && Proper(pool, a)
    ensures Inv(After(pool, a))
  {
    match a {
      case Allocate(size, system) =>
        if size > pool.blockSize {
          if system.Some? { LargeInv(pool, system.value, size); }
        } else if pool.free != [] {
          TakenInv(pool);
        } else if system.Some? {
          GrownInv(pool, system.value);
          TakenInv(Grown(pool, system.value));
        }
      case Deallocate(p) =>
        if p in pool.system { SystemFreeInv(pool, p); } else if p != 0 { DeallocatedInv(pool, p); }
      case Shrink => ShrunkInv(pool);
    }
  }

  lemma InitInv(pool: Pool)
    requires Init(pool)
    ensures Inv(pool)
  {
    var system: Option<nat> :| (system.Some? ==> system.value > 0) && pool == Constructed(pool.blockSize, system);
    var empty := Constructed(pool.blockSize, None);
    assert Inv(empty);
    if system.Some? { GrownInv(empty, system.value); }
  }

  lemma RunInv(pool: Pool, run: seq<Action>)
    requires Init(pool)
    ensures Exec(Next, pool, run).Some? ==> Inv(Exec(Next, pool, run).value)
  {
    InitInv(pool);
    forall s, a | Inv(s) && Next(s, a).Some? ensures Inv(Next(s, a).value) { AfterInv(s, a); }
    Invariance(Next, Inv, pool, run);
  }

  // ----- Theorems -----

  /** `n` bytes at `p` that the pool has given to a caller, as a block or as a large block. */
  ghost predicate InUse(pool: Pool, p: nat, n: nat) {
    (p in pool.live && n == pool.blockSize) || (p in pool.system && n == pool.system[p])
  }

  lemma InUseApart(pool: Pool, p: nat, m: nat, q: nat, n: nat)
    requires Inv(pool) && InUse(pool, p, m) && InUse(pool, q, n) && p != q
    ensures Apart(p, m, q, n)
  {
    if p in pool.live && q in pool.live {
      assert FromPool(pool.chunks, p, pool.blockSize) && FromPool(pool.chunks, q, pool.blockSize);
      var k :| 0 <= k < |pool.chunks| && InChunk(pool.chunks[k], p, pool.blockSize);
      var j :| 0 <= j < |pool.chunks| && InChunk(pool.chunks[j], q, pool.blockSize);
      BlocksApart(pool.chunks[k], p, pool.chunks[j], q, pool.blockSize);
    } else if p in pool.live {
      LargeApart(pool, p, q);
    } else if q in pool.live {
      LargeApart(pool, q, p);
    }
  }

  lemma LargeApart(pool: Pool, p: nat, b: nat)
    requires Inv(pool) && p in pool.live && b in pool.system
    ensures Apart(p, pool.blockSize, b, pool.system[b])
  {
    assert FromPool(pool.chunks, p, pool.blockSize);
    var k :| 0 <= k < |pool.chunks| && InChunk(pool.chunks[k], p, pool.blockSize);
    BlockFits(pool.chunks[k], p, pool.blockSize);
  }

  /** After every proper run, no byte is in use twice: blocks and large blocks occupy disjoint ranges. */
  lemma MemoryInUseIsDisjoint(pool: Pool, run: seq<Action>, last: Pool, p: nat, m: nat, q: nat, n: nat)
    requires Init(pool) && Exec(Next, pool, run) == Some(last)
    requires InUse(last, p, m) && InUse(last, q, n) && p != q
    ensures Apart(p, m, q, n)
  {
    RunInv(pool, run);
    InUseApart(last, p, m, q, n);
  }

  /**
   * After every proper run the blocks of the chunks are exactly the free, live and dropped ones, the free list
   * has no duplicates and at most 512 entries, the counter is the number of live blocks, and live, free and
   * dropped blocks add up to 256 a chunk.
   */
  lemma PoolIsSound(pool: Pool, run: seq<Action>, last: Pool)
    requires Init(pool) && Exec(Next, pool, run) == Some(last)
    ensures forall p ::
      FromPool(last.chunks, p, last.blockSize) <==> p in last.free || p in last.live || p in last.dropped
    ensures NoRepeats(last.free) && |last.free| <= MAX_FREE_BLOCKS && forall p :: p in last.free ==> p !in last.live
    ensures last.used == |last.live|
    ensures last.used + |last.free| + |last.dropped| == BLOCKS_PER_CHUNK * |last.chunks|
  {
    RunInv(pool, run);
  }

  /** How many bytes an allocated address has. */
  function Room(pool: Pool, size: nat): nat { if size > pool.blockSize then size else pool.blockSize }

  /** The request went to the system allocator: it is too large for a block, or no block is free. */
  predicate AsksSystem(pool: Pool, size: nat) { size > pool.blockSize || pool.free == [] }

  lemma BlockIsNotInUse(pool: Pool, p: nat)
    requires Inv(pool) && pool.free != [] && p == pool.free[|pool.free| - 1]
    ensures p !in pool.live && p !in pool.system
  {
    TakenInv(pool);
    assert p in pool.free;
    NotSystem(pool, p);
  }

  /** These `n` bytes were not in use, overlap nothing that was, and are in use beside it afterwards. */
  ghost predicate NewlyInUse(pool: Pool, after: Pool, at: nat, n: nat) {
    && (forall m :: !InUse(pool, at, m))
    && (forall q, m :: InUse(after, q, m) <==> InUse(pool, q, m) || (q == at && m == n))
    && (forall q, m :: InUse(pool, q, m) ==> Apart(at, n, q, m))
  }

  /**
   * A request fails, and changes nothing, iff the system allocator had to be asked and gave nothing. Otherwise the
   * address returned is newly in use with room for the request, as one more live block or as a large block.
   */
  lemma AllocationIsFresh(pool: Pool, size: nat, system: Option<nat>)
    requires Inv(pool) && Proper(pool, Allocate(size, system))
    ensures var at, after := AllocatedAt(pool, size, system), After(pool, Allocate(size, system));
      && (at.None? <==> AsksSystem(pool, size) && system.None?)
      && (at.None? ==> after == pool)
      && (at.Some? ==> size <= Room(pool, size) && NewlyInUse(pool, after, at.value, Room(pool, size)))
      && (at.Some? && size <= pool.blockSize ==>
            && after.live == pool.live + {at.value} && after.used == pool.used + 1
            && (!AsksSystem(pool, size) ==> after.free + [at.value] == pool.free)
            && after.chunks == pool.chunks + if AsksSystem(pool, size) then [system.value] else [])
      && (at.Some? && size > pool.blockSize ==>
            at == system && after.free == pool.free && after.used == pool.used && after.chunks == pool.chunks)
  {
    if size > pool.blockSize {
      if system.Some? { LargeIsFresh(pool, system.value, size); }
    } else if pool.free != [] {
      BlockIsFresh(pool, pool.free[|pool.free| - 1]);
    } else if system.Some? {
      GrownIsFresh(pool, system.value);
    }
  }

  lemma BlockIsFresh(pool: Pool, p: nat)
    requires Inv(pool) && pool.free != [] && p == pool.free[|pool.free| - 1]
    ensures NewlyInUse(pool, Taken(pool), p, pool.blockSize)
  {
    BlockIsNotInUse(pool, p);
    TakenInv(pool);
    forall q, m | InUse(pool, q, m) ensures Apart(p, pool.blockSize, q, m) {
      InUseApart(Taken(pool), p, pool.blockSize, q, m);
    }
  }

  lemma GrownIsFresh(pool: Pool, chunk: nat)
    requires Inv(pool) && pool.free == [] && SystemGives(pool, chunk, ChunkSize(pool.blockSize))
    ensures var p := BlockAt(chunk, BLOCKS_PER_CHUNK - 1, pool.blockSize);
      NewlyInUse(pool, Taken(Grown(pool, chunk)), p, pool.blockSize)
  {
    GrownInv(pool, chunk);
    var grown := Grown(pool, chunk);
    BlockIsFresh(grown, grown.free[|grown.free| - 1]);
    assert forall q, m :: InUse(grown, q, m) <==> InUse(pool, q, m);
  }

  lemma LargeIsFresh(pool: Pool, p: nat, size: nat)
    requires Inv(pool) && size > pool.blockSize && SystemGives(pool, p, size)
    ensures NewlyInUse(pool, pool.(system := pool.system[p := size]), p, size)
  {
    forall q, m | InUse(pool, q, m) ensures Apart(p, size, q, m) {
      if q in pool.live {
        LargeInv(pool, p, size);
        LargeApart(pool.(system := pool.system[p := size]), q, p);
      }
    }
    assert forall m :: InUse(pool, p, m) ==> Apart(p, size, p, m);
  }

  /** Freeing ends the use of that address, and of no other. */
  lemma FreeEndsUse(pool: Pool, p: nat)
    requires Inv(pool) && Proper(pool, Deallocate(p))
    ensures var after := After(pool, Deallocate(p));
      && (forall q, n :: InUse(after, q, n) <==> InUse(pool, q, n) && (q != p || p == 0))
      && after.chunks == pool.chunks && after.used == pool.used - (if p in pool.live then 1 else 0)
      && after.free == pool.free + (if p in pool.live then [p] else [])
  {
    if p in pool.live {
      LiveIsNotSystem(pool, p);
      DeallocatedInv(pool, p);
      assert InUse(Deallocated(pool, p), p, pool.blockSize) ==> false;
    } else if p in pool.system {
      SystemFreeInv(pool, p);
    }
  }

  /** The block freed last is the next one given out, and the pool is then as it was. */
  lemma FreedBlockIsReused(pool: Pool, p: nat, size: nat, system: Option<nat>)
    requires Inv(pool) && p in pool.live && |pool.free| < MAX_FREE_BLOCKS && size <= pool.blockSize
    ensures AllocatedAt(After(pool, Deallocate(p)), size, system) == Some(p)
    ensures After(After(pool, Deallocate(p)), Allocate(size, system)) == pool
  {
    LiveIsNotSystem(pool, p);
    assert (pool.free + [p])[..|pool.free|] == pool.free;
    assert pool.live - {p} + {p} == pool.live;
  }

  lemma LiveIsNotSystem(pool: Pool, p: nat)
    requires Inv(pool) && p in pool.live
    ensures p !in pool.system && p != 0 && FromPool(pool.chunks, p, pool.blockSize)
  {
    assert FromPool(pool.chunks, p, pool.blockSize);
    NotSystem(pool, p);
  }

  /** Shrinking keeps the first 256 free blocks, or all when there are no more, and touches nothing in use. */
  lemma ShrinkKeepsHalf(pool: Pool)
    requires Inv(pool)
    ensures var after := After(pool, Shrink);
      && |after.free| == (if |pool.free| <= 256 then |pool.free| else 256) && after.free <= pool.free
      && after.live == pool.live && after.system == pool.system && after.used == pool.used
      && after.chunks == pool.chunks && after.dropped == pool.dropped + pool.free[|after.free|..]
      && (forall p :: p in after.dropped && p !in pool.dropped ==> p in pool.free && p !in after.free)
  {
    ShrunkInv(pool);
    var after := Shrunk(pool);
    forall p | p in after.dropped && p !in pool.dropped ensures p in pool.free && p !in after.free {
      assert p in pool.free[|after.free|..];
    }
  }

  /**
   * Freeing a live block keeps the books exactly when the free list is below its cap: on a full list the block
   * is handed to `std::free`, and the count of allocated blocks stays one too high.
   */
  lemma FreeKeepsBooksIffBelowCap(pool: Pool, run: seq<Action>, last: Pool, p: nat)
    requires Init(pool) && Exec(Next, pool, run) == Some(last) && p in last.live
    ensures Inv(Deallocated(last, p)) <==> |last.free| < MAX_FREE_BLOCKS
    ensures var after := Deallocated(last, p);
      after.used == |after.live| + if |last.free| < MAX_FREE_BLOCKS then 0 else 1
  {
    RunInv(pool, run);
    if |last.free| < MAX_FREE_BLOCKS {
      DeallocatedInv(last, p);
    } else {
      assert FromPool(last.chunks, p, last.blockSize);
      NotSystem(last, p);
      assert |last.live - {p}| == |last.live| - 1;
    }
  }

  // ----- The full free list can be reached -----

  lemma {:induction false} PastChunks(chunks: seq<nat>, size: nat) returns (at: nat)
    ensures at > 0 && forall k :: 0 <= k < |chunks| ==> chunks[k] + size <= at
  {
    if chunks == [] {
      at := 1;
    } else {
      at := PastChunks(chunks[1..], size);
      assert forall k :: 1 <= k < |chunks| ==> chunks[k] == chunks[1..][k - 1];
      at := if chunks[0] + size <= at then at else chunks[0] + size;
    }
  }

  lemma {:induction false} PastLarge(system: map<nat, nat>, from: nat) returns (at: nat)
    ensures at >= from && forall b :: b in system ==> b + system[b] <= at
    decreases |system|
  {
    if system == map[] {
      at := from;
    } else {
      var b: nat :| b in system;
      var rest := system - {b};
      assert |rest| < |system| by { assert system == rest[b := system[b]]; }
      at := PastLarge(rest, if b + system[b] <= from then from else b + system[b]);
      forall c: nat | c in system ensures c + system[c] <= at {
        if c != b { assert c in rest; }
      }
    }
  }

  lemma OneMore(pool: Pool) returns (a: Action, after: Pool)
    requires Inv(pool)
    ensures Next(pool, a) == Some(after) && Inv(after) && |after.live| == |pool.live| + 1
  {
    var at := PastChunks(pool.chunks, ChunkSize(pool.blockSize));
    at := PastLarge(pool.system, at);
    a := Allocate(0, Some(at));
    assert SystemGives(pool, at, ChunkSize(pool.blockSize));
    after := After(pool, a);
    AfterInv(pool, a);
    if pool.free != [] { TakenInv(pool); } else { GrownInv(pool, at); TakenInv(Grown(pool, at)); }
  }

  lemma {:induction false} ManyLive(pool: Pool, n: nat) returns (run: seq<Action>, last: Pool)
    requires Inv(pool)
    ensures Exec(Next, pool, run) == Some(last) && Inv(last) && |last.live| >= n
    decreases n - |pool.live|
  {
    if |pool.live| >= n {
      run, last := [], pool;
    } else {
      var a, after := OneMore(pool);
      var more: seq<Action>;
      more, last := ManyLive(after, n);
      OneStep(Next, pool, a, after);
      Then(Next, pool, [a], after, more, last);
      run := [a] + more;
    }
  }

  lemma {:induction false} FillFreeList(pool: Pool) returns (run: seq<Action>, last: Pool)
    requires Inv(pool) && |pool.live| + |pool.free| > MAX_FREE_BLOCKS
    ensures Exec(Next, pool, run) == Some(last) && Inv(last) && |last.free| == MAX_FREE_BLOCKS && last.live != {}
    decreases MAX_FREE_BLOCKS - |pool.free|
  {
    if |pool.free| == MAX_FREE_BLOCKS {
      run, last := [], pool;
    } else {
      var p :| p in pool.live;
      var a := Deallocate(p);
      DeallocatedInv(pool, p);
      var after := After(pool, a);
      assert |after.live| == |pool.live| - 1;
      var more: seq<Action>;
      more, last := FillFreeList(after);
      OneStep(Next, pool, a, after);
      Then(Next, pool, [a], after, more, last);
      run := [a] + more;
    }
  }

  /** From every state of every proper run the pool can get to where the next free of a live block loses count. */
  lemma FullFreeListIsReachable(pool: Pool, run: seq<Action>, s: Pool) returns (more: seq<Action>, last: Pool, p: nat)
    requires Init(pool) && Exec(Next, pool, run) == Some(s)
    ensures Exec(Next, pool, run + more) == Some(last) && p in last.live && !Inv(Deallocated(last, p))
    ensures Deallocated(last, p).used == |Deallocated(last, p).live| + 1
  {
    RunInv(pool, run);
    var grow, mid := ManyLive(s, MAX_FREE_BLOCKS + 1);
    var fill;
    fill, last := FillFreeList(mid);
    Then(Next, s, grow, mid, fill, last);
    more := grow + fill;
    Then(Next, pool, run, s, more, last);
    p :| p in last.live;
    FreeKeepsBooksIffBelowCap(pool, run + more, last, p);
  }
}

/** The pool as the source writes it: vectors of addresses changed in place under the mutex. */
module MemoryPoolObject {
  import opened Wrappers
  import opened MemoryPool

  class PoolObject {
    const blockSize: nat
    var chunks: seq<nat>
    var free: seq<nat>
    var used: int
    ghost var live: set<nat>
    ghost var dropped: seq<nat>
    ghost var system: map<nat, nat>

    ghost function Contents(): Pool
      reads this
    {
      Pool(blockSize, chunks, free, used, live, dropped, system)
    }

    constructor (blockSize: nat, chunk: Option<nat>)
      requires blockSize > 0 && (chunk.Some? ==> chunk.value > 0)
      ensures Init(Contents()) && Contents() == Constructed(blockSize, chunk)
      ensures this.blockSize == blockSize && used == 0 && live == {}
      ensures chunk.None? ==> chunks == free == []
      ensures chunk.Some? ==> chunks == [chunk.value] && free == BlocksOf(chunk.value, 256, blockSize)
    {
      this.blockSize := blockSize;
      chunks, free, used := [], [], 0;
      live, dropped, system := {}, [], map[];
      new;
      var ok := AllocateChunk(chunk);
      assert Contents() == Constructed(blockSize, chunk);
    }

    method AllocateChunk(chunk: Option<nat>) returns (ok: bool)
      modifies this
      ensures ok == chunk.Some?
      ensures Contents() == if ok then Grown(old(Contents()), chunk.value) else old(Contents())
    {
      if chunk.None? {
        return false;
      }
      chunks := chunks + [chunk.value];
      var i := 0;
      while i < BLOCKS_PER_CHUNK
        invariant i <= BLOCKS_PER_CHUNK
        invariant Contents() == old(Contents()).(chunks := chunks, free := free)
        invariant chunks == old(chunks) + [chunk.value]
        invariant free == old(free) + BlocksOf(chunk.value, i, blockSize)
      {
        free := free + [chunk.value + i * blockSize];
        i := i + 1;
      }
      return true;
    }

    method Allocate(size: nat, answer: Option<nat>) returns (p: Option<nat>)
      modifies this
      ensures Contents() == Allocated(old(Contents()), size, answer)
      ensures p == AllocatedAt(old(Contents()), size, answer)
      ensures p.None? <==> AsksSystem(old(Contents()), size) && answer.None?
      ensures p.Some? && size <= blockSize ==> live == old(live) + {p.value} && used == old(used) + 1
      ensures p.Some? && size > blockSize ==> system == old(system)[p.value := size] && used == old(used)
    {
      if size > blockSize {
        if answer.None? {
          return None;
        }
        system := system[answer.value := size];
        return answer;
      }
      if free == [] {
        var ok := AllocateChunk(answer);
        if !ok {
          return None;
        }
      }
      p := Some(free[|free| - 1]);
      live := live + {free[|free| - 1]};
      free := free[..|free| - 1];
      used := used + 1;
    }

    method Deallocate(p: nat)
      requires blockSize > 0
      modifies this
      ensures Contents() == Deallocated(old(Contents()), p)
      ensures var pooled := p != 0 && FromPool(chunks, p, blockSize) && |old(free)| < 512;
        && free == old(free) + (if pooled then [p] else []) && used == old(used) - (if pooled then 1 else 0)
        && live == (if p == 0 then old(live) else old(live) - {p})
    {
      if p == 0 {
        return;
      }
      var fromPool := false;
      var k := 0;
      while k < |chunks| && !fromPool
        invariant k <= |chunks|
        invariant fromPool ==> FromPool(chunks, p, blockSize)
        invariant !fromPool ==> forall j :: 0 <= j < k ==> !InChunk(chunks[j], p, blockSize)
      {
        var start, end := chunks[k], chunks[k] + blockSize * BLOCKS_PER_CHUNK;
        if p >= start && p < end {
          var offset := p - start;
          if offset % blockSize == 0 {
            assert InChunk(chunks[k], p, blockSize);
            fromPool := true;
          }
        }
        k := k + 1;
      }
      live := live - {p};
      if fromPool && |free| < MAX_FREE_BLOCKS {
        free := free + [p];
        used := used - 1;
      } else {
        system := system - {p};
      }
    }

    method ShrinkToFit()
      modifies this
      ensures Contents() == Shrunk(old(Contents()))
      ensures free == if |old(free)| <= 256 then old(free) else old(free)[..256]
    {
      ghost var gone: seq<nat> := [];
      while |free| > MAX_FREE_BLOCKS / 2 && free != []
        invariant Contents() == old(Contents()).(free := free)
        invariant |old(free)| > MAX_FREE_BLOCKS / 2 ==> |free| >= MAX_FREE_BLOCKS / 2
        invariant |old(free)| <= MAX_FREE_BLOCKS / 2 ==> free == old(free)
        invariant old(free) == free + gone
      {
        gone := [free[|free| - 1]] + gone;
        free := free[..|free| - 1];
      }
      dropped := dropped + gone;
    }
  }
}
