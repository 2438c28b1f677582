/**
The fixed-size block pool: a shared free list under a mutex, one cache of free blocks per thread, and
an atomic count of the blocks handed out.

Blocks are addresses. `FixedBlockPool` is the pool with its loops, run by one thread at a time.
*/
module BlockPool {
  import opened Wrappers

  type Addr = nat

  const NULL: Addr := 0

  /** 2^64, the modulus of `std::size_t`. */
  const WORD: nat := 0x1_0000_0000_0000_0000
  /** `sizeof(void *)`. */
  const POINTER_SIZE: nat := 8

  function Max(a: nat, b: nat): nat {
    if a < b then b else a
  }

  function Min(a: nat, b: nat): nat {
    if a < b then a else b
  }

  // ---------------------------------------------------------------- moving blocks between lists

  /** The blocks of a slab that starts at `base`. */
  function SlabBlocks(base: Addr, size: nat, count: nat): seq<Addr> {
    if count == 0 then [] else SlabBlocks(base, size, count - 1) + [base + (count - 1) * size]
  }

  datatype Lists = Lists(from: seq<Addr>, to: seq<Addr>)

  /** Moves `k` blocks, one at a time, from the back of one list to the back of the other. */
  function Transfer(ls: Lists, k: nat): Lists
    requires k <= |ls.from|
    decreases k
  {
    if k == 0 then ls
    else
      var last := |ls.from| - 1;
      Transfer(Lists(ls.from[..last], ls.to + [ls.from[last]]), k - 1)
  }

  lemma {:induction false} TransferConserves(ls: Lists, k: nat)
    requires k <= |ls.from|
    ensures var r := Transfer(ls, k);
      && |r.from| == |ls.from| - k && |r.to| == |ls.to| + k
      && multiset(r.from) + multiset(r.to) == multiset(ls.from) + multiset(ls.to)
    decreases k
  {
    if k > 0 {
      var last := |ls.from| - 1;
      assert ls.from == ls.from[..last] + [ls.from[last]];
      TransferConserves(Lists(ls.from[..last], ls.to + [ls.from[last]]), k - 1);
    }
  }

  lemma {:induction false} TransferOneMore(ls: Lists, k: nat)
    requires k < |ls.from|
    ensures var r := Transfer(ls, k);
      |r.from| > 0 && Transfer(ls, k + 1) == Lists(r.from[..|r.from| - 1], r.to + [r.from[|r.from| - 1]])
    decreases k
  {
    TransferConserves(ls, k);
    if k > 0 {
      var last := |ls.from| - 1;
      TransferOneMore(Lists(ls.from[..last], ls.to + [ls.from[last]]), k - 1);
    }
  }

  // ---------------------------------------------------------------- the pool as it is written

  /** The free blocks one thread keeps for itself. */
  class LocalCache {
    var freeBlocks: seq<Addr>

    constructor ()
      ensures freeBlocks == []
    {
      freeBlocks := [];
    }
  }

  class FixedBlockPool {
    const blockSize: nat
    const blocksPerSlab: nat
    const localCacheLimit: nat
    var slabs: seq<Addr>
    var globalFreeBlocks: seq<Addr>
    var outstandingBlocks: nat
    var localCacheHits: nat
    var globalCacheHits: nat
    var slabRefills: nat

    /** None when the constructor throws. */
    static method Create(size: nat, perSlab: nat, cacheLimit: nat) returns (pool: Option<FixedBlockPool>)
      ensures pool.None? <==> perSlab == 0 || cacheLimit == 0
      ensures pool.Some? ==>
        var p := pool.value;
        && p.blockSize == Max(size, POINTER_SIZE) && p.blocksPerSlab == perSlab && p.localCacheLimit == cacheLimit
        && p.slabs == [] && p.globalFreeBlocks == [] && p.outstandingBlocks == 0
        && p.localCacheHits == 0 && p.globalCacheHits == 0 && p.slabRefills == 0
    {
      if perSlab == 0 || cacheLimit == 0 {
        return None;
      }
      var p := new FixedBlockPool(size, perSlab, cacheLimit);
      pool := Some(p);
    }

    constructor (size: nat, perSlab: nat, cacheLimit: nat)
      requires perSlab > 0 && cacheLimit > 0
      ensures blockSize == Max(size, POINTER_SIZE) && blocksPerSlab == perSlab && localCacheLimit == cacheLimit
      ensures slabs == [] && globalFreeBlocks == [] && outstandingBlocks == 0
      ensures localCacheHits == 0 && globalCacheHits == 0 && slabRefills == 0
    {
      blockSize, blocksPerSlab, localCacheLimit := Max(size, POINTER_SIZE), perSlab, cacheLimit;
      slabs, globalFreeBlocks, outstandingBlocks := [], [], 0;
      localCacheHits, globalCacheHits, slabRefills := 0, 0, 0;
    }

    /** `base` is where the new slab was placed. */
    method AllocateSlab(base: Addr)
      modifies this`slabs, this`globalFreeBlocks, this`slabRefills
      ensures slabs == old(slabs) + [base]
      ensures slabRefills == (old(slabRefills) + 1) % WORD
      ensures globalFreeBlocks == old(globalFreeBlocks) + SlabBlocks(base, blockSize, blocksPerSlab)
    {
      for offset := 0 to blocksPerSlab
        invariant globalFreeBlocks == old(globalFreeBlocks) + SlabBlocks(base, blockSize, offset)
        invariant slabs == old(slabs) && slabRefills == old(slabRefills)
      {
        globalFreeBlocks := globalFreeBlocks + [base + offset * blockSize];
      }
      slabs := slabs + [base];
      slabRefills := (slabRefills + 1) % WORD;
    }

    method RefillLocalCache(cache: LocalCache, base: Addr)
      requires blocksPerSlab > 0
      modifies this`slabs, this`globalFreeBlocks, this`globalCacheHits, this`slabRefills, cache
      ensures RefillTransition(old(globalFreeBlocks), old(cache.freeBlocks), old(slabs), base) ==
              (globalFreeBlocks, cache.freeBlocks, slabs)
      ensures globalCacheHits == (old(globalCacheHits) + (|cache.freeBlocks| - |old(cache.freeBlocks)|)) % WORD
      ensures slabRefills == if old(globalFreeBlocks) == [] then (old(slabRefills) + 1) % WORD else old(slabRefills)
    {
      hide Transfer, SlabBlocks;
      var refillTarget := Max(localCacheLimit / 2, 1);
      if |globalFreeBlocks| == 0 {
        AllocateSlab(base);
      }
      assert globalFreeBlocks == if old(globalFreeBlocks) == [] then SlabBlocks(base, blockSize, blocksPerSlab)
                                 else old(globalFreeBlocks);
      var transferCount := Min(refillTarget, |globalFreeBlocks|);
      TransferToCache(cache, transferCount);
      globalCacheHits := (globalCacheHits + transferCount) % WORD;
    }

    /** The loop of the refill. */
    method TransferToCache(cache: LocalCache, transferCount: nat)
      requires transferCount <= |globalFreeBlocks|
      modifies this`globalFreeBlocks, cache
      ensures Lists(globalFreeBlocks, cache.freeBlocks) ==
              Transfer(Lists(old(globalFreeBlocks), old(cache.freeBlocks)), transferCount)
      ensures |cache.freeBlocks| == |old(cache.freeBlocks)| + transferCount
    {
      ghost var start := Lists(globalFreeBlocks, cache.freeBlocks);
      for index := 0 to transferCount
        invariant Lists(globalFreeBlocks, cache.freeBlocks) == Transfer(start, index)
        invariant |cache.freeBlocks| == |start.to| + index
      {
        TransferOneMore(start, index);
        var last := |globalFreeBlocks| - 1;
        cache.freeBlocks := cache.freeBlocks + [globalFreeBlocks[last]];
        globalFreeBlocks := globalFreeBlocks[..last];
      }
    }

    /** What a refill does to the shared list, the cache and the slabs. */
    function RefillTransition(global: seq<Addr>, cache: seq<Addr>, slabBases: seq<Addr>, base: Addr)
      : (seq<Addr>, seq<Addr>, seq<Addr>)
    {
      Refilled(global, cache, slabBases, base, blockSize, blocksPerSlab, localCacheLimit)
    }

    method FlushLocalCache(cache: LocalCache, retainCount: nat)
      modifies this`globalFreeBlocks, cache
      ensures (cache.freeBlocks, globalFreeBlocks) == Flushed(old(cache.freeBlocks), old(globalFreeBlocks), retainCount)
    {
      ghost var start := Lists(cache.freeBlocks, globalFreeBlocks);
      ghost var moved := 0;
      while |cache.freeBlocks| > retainCount
        invariant moved <= |start.from|
        invariant Lists(cache.freeBlocks, globalFreeBlocks) == Transfer(start, moved)
        invariant |cache.freeBlocks| == |start.from| - moved
        invariant moved == 0 || |cache.freeBlocks| >= retainCount
        decreases |cache.freeBlocks|
      {
        TransferOneMore(start, moved);
        var last := |cache.freeBlocks| - 1;
        globalFreeBlocks := globalFreeBlocks + [cache.freeBlocks[last]];
        cache.freeBlocks := cache.freeBlocks[..last];
        moved := moved + 1;
      }
    }

    /** The last block of the cache, after a refill if the cache was empty. There always is one: the
        branch that throws `bad_alloc` has nothing to catch. */
    method Allocate(cache: LocalCache, base: Addr) returns (block: Addr)
      requires blocksPerSlab > 0
      modifies this, cache
      ensures var (global, filled, bases) :=
                if old(cache.freeBlocks) != [] then (old(globalFreeBlocks), old(cache.freeBlocks), old(slabs))
                else RefillTransition(old(globalFreeBlocks), [], old(slabs), base);
        && filled == cache.freeBlocks + [block]
        && globalFreeBlocks == global && slabs == bases
      ensures outstandingBlocks == (old(outstandingBlocks) + 1) % WORD
      ensures localCacheHits == if old(cache.freeBlocks) != [] then (old(localCacheHits) + 1) % WORD else old(localCacheHits)
      ensures globalCacheHits ==
              if old(cache.freeBlocks) != [] then old(globalCacheHits)
              else (old(globalCacheHits) + (|cache.freeBlocks| + 1)) % WORD
      ensures slabRefills ==
              if old(cache.freeBlocks) == [] && old(globalFreeBlocks) == [] then (old(slabRefills) + 1) % WORD
              else old(slabRefills)
    {
      if |cache.freeBlocks| > 0 {
        localCacheHits := (localCacheHits + 1) % WORD;
      } else {
        RefillLocalCache(cache, base);
        RefillFillsCache(old(globalFreeBlocks), old(slabs), base, blockSize, blocksPerSlab, localCacheLimit);
        assert |cache.freeBlocks| > 0;
      }
      var last := |cache.freeBlocks| - 1;
      block := cache.freeBlocks[last];
      assert cache.freeBlocks == cache.freeBlocks[..last] + [block];
      cache.freeBlocks := cache.freeBlocks[..last];
      outstandingBlocks := (outstandingBlocks + 1) % WORD;
    }

    method Deallocate(cache: LocalCache, block: Addr)
      modifies this, cache
      ensures var grown := old(cache.freeBlocks) + [block];
        (cache.freeBlocks, globalFreeBlocks) ==
        if block == NULL then (old(cache.freeBlocks), old(globalFreeBlocks))
        else if |grown| >= localCacheLimit then Flushed(grown, old(globalFreeBlocks), localCacheLimit / 2)
        else (grown, old(globalFreeBlocks))
      ensures slabs == old(slabs) && localCacheHits == old(localCacheHits)
      ensures globalCacheHits == old(globalCacheHits) && slabRefills == old(slabRefills)
      ensures outstandingBlocks == if block == NULL then old(outstandingBlocks) else (old(outstandingBlocks) + (WORD - 1)) % WORD
    {
      if block == NULL {
        return;
      }
      cache.freeBlocks := cache.freeBlocks + [block];
      outstandingBlocks := (outstandingBlocks + (WORD - 1)) % WORD;
      if |cache.freeBlocks| >= localCacheLimit {
        FlushLocalCache(cache, localCacheLimit / 2);
      }
    }
  }

  /** The shared list, the cache and the slab bases after a refill. */
  function Refilled(global: seq<Addr>, cache: seq<Addr>, slabs: seq<Addr>, base: Addr, size: nat, perSlab: nat, limit: nat)
    : (seq<Addr>, seq<Addr>, seq<Addr>)
  {
    var grown := if global == [] then SlabBlocks(base, size, perSlab) else global;
    var bases := if global == [] then slabs + [base] else slabs;
    var ls := Transfer(Lists(grown, cache), Min(Max(limit / 2, 1), |grown|));
    (ls.from, ls.to, bases)
  }

  /** The cache and the shared list after a flush. */
  function Flushed(cache: seq<Addr>, global: seq<Addr>, retain: nat): (seq<Addr>, seq<Addr>) {
    var ls := Transfer(Lists(cache, global), if |cache| > retain then |cache| - retain else 0);
    (ls.from, ls.to)
  }

  lemma {:induction false} SlabSize(base: Addr, size: nat, count: nat)
    ensures |SlabBlocks(base, size, count)| == count
  {
    if count > 0 {
      SlabSize(base, size, count - 1);
    }
  }

  /** After a refill the cache is neither empty nor over half its limit (or one block). */
  lemma {:induction false} RefillFillsCache(global: seq<Addr>, slabs: seq<Addr>, base: Addr, size: nat, perSlab: nat, limit: nat)
    requires perSlab > 0
    ensures 1 <= |Refilled(global, [], slabs, base, size, perSlab, limit).1| <= Max(limit / 2, 1)
  {
    SlabSize(base, size, perSlab);
    var grown := if global == [] then SlabBlocks(base, size, perSlab) else global;
    TransferConserves(Lists(grown, []), Min(Max(limit / 2, 1), |grown|));
  }

  // ---------------------------------------------------------------- what a refill and a flush move

  function Backwards(s: seq<Addr>): seq<Addr> {
    seq(|s|, i requires 0 <= i < |s| => s[|s| - 1 - i])
  }

  /** `to'` is `to` with the last `k` elements of `from` behind it, last one first, and `from'` is the others. */
  predicate MovesLast(from: seq<Addr>, to: seq<Addr>, k: nat, from': seq<Addr>, to': seq<Addr>) {
    && k <= |from|
    && from' == from[..|from| - k]
    && to' == to + Backwards(from[|from| - k..])
  }

  lemma BackwardsFirst(s: seq<Addr>)
    requires s != []
    ensures Backwards(s) == [s[|s| - 1]] + Backwards(s[..|s| - 1])
  {
  }

  lemma {:induction false} TransferMovesLast(ls: Lists, k: nat)
    requires k <= |ls.from|
    ensures MovesLast(ls.from, ls.to, k, Transfer(ls, k).from, Transfer(ls, k).to)
    decreases k
  {
    if k > 0 {
      hide Backwards;
      var last := |ls.from| - 1;
      var moved := ls.from[|ls.from| - k..];
      TransferMovesLast(Lists(ls.from[..last], ls.to + [ls.from[last]]), k - 1);
      BackwardsFirst(moved);
      assert ls.from[..last][last - (k - 1)..] == moved[..k - 1];
      assert ls.from[..last][..last - (k - 1)] == ls.from[..|ls.from| - k];
    } else {
      assert ls.from[|ls.from|..] == [] && Backwards([]) == [];
    }
  }

  /** A flush keeps the oldest blocks of the cache, as many as are retained, and shares the others, newest first. */
  lemma {:induction false} FlushMoves(cache: seq<Addr>, global: seq<Addr>, retain: nat)
    ensures var (kept, shared) := Flushed(cache, global, retain);
      && kept == cache[..Min(|cache|, retain)]
      && MovesLast(cache, global, |cache| - |kept|, kept, shared)
  {
    TransferMovesLast(Lists(cache, global), if |cache| > retain then |cache| - retain else 0);
  }

  /** A refill takes the newest shared blocks, half the limit of a cache but at least one and no more than there are.
      Only if none are shared is there a new slab, and then its blocks are those at multiples of the size. */
  lemma {:induction false} RefillMoves(global: seq<Addr>, cache: seq<Addr>, slabs: seq<Addr>, base: Addr, size: nat, perSlab: nat, limit: nat)
    ensures var (shared, filled, bases) := Refilled(global, cache, slabs, base, size, perSlab, limit);
      && bases == (if global == [] then slabs + [base] else slabs)
      && exists stock: seq<Addr> ::
           && (if global == [] then |stock| == perSlab && forall i | 0 <= i < perSlab :: stock[i] == base + i * size
               else stock == global)
           && MovesLast(stock, cache, Min(Max(limit / 2, 1), |stock|), shared, filled)
  {
    hide MovesLast;
    var stock := if global == [] then SlabBlocks(base, size, perSlab) else global;
    SlabSize(base, size, perSlab);
    TransferMovesLast(Lists(stock, cache), Min(Max(limit / 2, 1), |stock|));
    forall i | 0 <= i < perSlab ensures SlabBlocks(base, size, perSlab)[i] == base + i * size {
      SlabAt(base, size, perSlab, i);
    }
  }

  lemma {:induction false} SlabAt(base: Addr, size: nat, count: nat, i: nat)
    requires i < count
    ensures |SlabBlocks(base, size, count)| == count && SlabBlocks(base, size, count)[i] == base + i * size
  {
    SlabSize(base, size, count);
    SlabSize(base, size, count - 1);
    if i < count - 1 {
      SlabAt(base, size, count - 1, i);
    }
  }
}
