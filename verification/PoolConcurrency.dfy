/**
Many threads on one block pool: where every block is, at every step of every interleaving.

`Step` is the code of `BlockPool` run by many threads: the part under the mutex is one step, every access to
an atomic is one step, and what a thread does to its own cache in between is one step.
*/
module PoolConcurrency {
  import opened BlockPool

  /** The next action of a thread, with the block it has picked up but not handed out. */
  datatype Pc =
    | Ready
    | CountHit(block: Addr)    // allocate: local_cache_hits_ is counted next
    | Count(block: Addr)       // allocate: outstanding_blocks_ is counted next, then the block is returned
    | Refill                   // allocate: the cache was empty
    | PickUp                   // allocate: refilled
    | Uncount                  // deallocate: the block is in the cache, outstanding_blocks_ is counted next
    | CheckLimit
    | Flush

  datatype World = World(
    size: nat, perSlab: nat, limit: nat,
    slabs: seq<Addr>,
    global: seq<Addr>,
    caches: seq<seq<Addr>>,
    pcs: seq<Pc>,
    held: multiset<Addr>,      // the blocks clients hold
    outstanding: nat,
    fault: bool)               // bad_alloc was thrown

  /** What the scheduler and the clients decide: whether to free `block` or to allocate, and where the
      memory manager would put a new slab. */
  datatype Choice = Choice(free: bool, block: Addr, base: Addr)

  function Initial(n: nat, size: nat, perSlab: nat, limit: nat): World {
    World(Max(size, POINTER_SIZE), perSlab, limit, [], [], seq(n, _ => []), seq(n, _ => Ready), multiset{}, 0, false)
  }

  predicate Apart(a: Addr, b: Addr, bytes: nat) {
    a + bytes <= b || b + bytes <= a
  }

  /** Memory at `base` does not overlap any slab, as `make_unique` guarantees. */
  predicate IsFree(w: World, base: Addr) {
    base != NULL && forall i | 0 <= i < |w.slabs| :: Apart(w.slabs[i], base, w.size * w.perSlab)
  }

  function Goto(w: World, t: nat, pc: Pc): World
    requires t < |w.pcs|
  {
    w.(pcs := w.pcs[t := pc])
  }

  function SetCache(w: World, t: nat, cache: seq<Addr>): World
    requires t < |w.caches|
  {
    w.(caches := w.caches[t := cache])
  }

  ghost predicate Shaped(w: World) {
    |w.caches| == |w.pcs|
  }

  function Step(w: World, t: nat, c: Choice): World
    requires Shaped(w) && t < |w.pcs|
  {
    var cache := w.caches[t];
    match w.pcs[t]
    case Ready =>
      if c.free then
        // clients free only what they hold
        if c.block !in w.held then w
        else Goto(SetCache(w.(held := w.held - multiset{c.block}), t, cache + [c.block]), t, Uncount)
      else if cache == [] then Goto(w, t, Refill)
      else Goto(SetCache(w, t, cache[..|cache| - 1]), t, CountHit(cache[|cache| - 1]))
    case CountHit(b) => Goto(w, t, Count(b))
    case Count(b) => Goto(w.(outstanding := (w.outstanding + 1) % WORD, held := w.held + multiset{b}), t, Ready)
    case Refill =>
      if w.global == [] && !IsFree(w, c.base) then w
      else
        var (global, filled, slabs) := Refilled(w.global, cache, w.slabs, c.base, w.size, w.perSlab, w.limit);
        Goto(SetCache(w.(global := global, slabs := slabs), t, filled), t, PickUp)
    case PickUp =>
      if cache == [] then w.(fault := true)
      else Goto(SetCache(w, t, cache[..|cache| - 1]), t, Count(cache[|cache| - 1]))
    case Uncount => Goto(w.(outstanding := (w.outstanding + (WORD - 1)) % WORD), t, CheckLimit)
    case CheckLimit => Goto(w, t, if |cache| >= w.limit then Flush else Ready)
    case Flush =>
      var (kept, global) := Flushed(cache, w.global, w.limit / 2);
      Goto(SetCache(w.(global := global), t, kept), t, Ready)
  }

  // ---------------------------------------------------------------- where the blocks are

  /** How many times the caches hold block `b`. */
  ghost function Cached(caches: seq<seq<Addr>>, b: Addr): nat {
    if caches == [] then 0 else multiset(caches[0])[b] + Cached(caches[1..], b)
  }

  /** Whether a thread has taken block `b` out of its cache and not handed it out. */
  ghost function InFlight(pc: Pc, b: Addr): nat {
    if (pc.CountHit? || pc.Count?) && pc.block == b then 1 else 0
  }

  ghost function Flying(pcs: seq<Pc>, b: Addr): nat {
    if pcs == [] then 0 else InFlight(pcs[0], b) + Flying(pcs[1..], b)
  }

  ghost function Uncounted(pcs: seq<Pc>): nat {
    if pcs == [] then 0 else (if pcs[0].Uncount? then 1 else 0) + Uncounted(pcs[1..])
  }

  /** How many times block `b` is found: in the shared list, in a cache, or outstanding, that is picked up
      by a thread or held by a client. */
  ghost function Found(w: World, b: Addr): nat {
    multiset(w.global)[b] + Cached(w.caches, b) + Flying(w.pcs, b) + w.held[b]
  }

  ghost function AllBlocks(slabs: seq<Addr>, size: nat, perSlab: nat): seq<Addr> {
    if slabs == [] then []
    else AllBlocks(slabs[..|slabs| - 1], size, perSlab) + SlabBlocks(slabs[|slabs| - 1], size, perSlab)
  }

  /** A cache is below its limit between calls, and never above it. */
  ghost predicate CacheBound(w: World, t: nat)
    requires Shaped(w) && t < |w.pcs|
  {
    var n := |w.caches[t]|;
    match w.pcs[t]
    case Refill => n == 0
    case PickUp => 1 <= n <= Max(w.limit / 2, 1)
    case Uncount => n <= w.limit
    case CheckLimit => n <= w.limit
    case Flush => n <= w.limit
    case _ => n < w.limit
  }

  /** Every block of every slab is found exactly as often as it was created. */
  ghost predicate Partitioned(w: World) {
    forall b :: Found(w, b) == multiset(AllBlocks(w.slabs, w.size, w.perSlab))[b]
  }

  ghost predicate SlabsApart(w: World) {
    forall i, j | 0 <= i < j < |w.slabs| :: Apart(w.slabs[i], w.slabs[j], w.size * w.perSlab)
  }

  ghost predicate Counted(w: World) {
    w.outstanding == (|w.held| + Uncounted(w.pcs)) % WORD
  }

  ghost predicate Bounded(w: World)
    requires Shaped(w)
  {
    forall t | 0 <= t < |w.pcs| :: CacheBound(w, t)
  }

  ghost predicate Inv(w: World) {
    && Shaped(w)
    && !w.fault
    && w.size > 0 && w.perSlab > 0 && w.limit > 0
    && SlabsApart(w)
    && Partitioned(w)
    && Bounded(w)
    && Counted(w)
  }

  // ---------------------------------------------------------------- one step

  lemma {:induction false} CachedUpdate(caches: seq<seq<Addr>>, t: nat, cache: seq<Addr>, b: Addr)
    requires t < |caches|
    ensures Cached(caches[t := cache], b) + multiset(caches[t])[b] == Cached(caches, b) + multiset(cache)[b]
  {
    if t == 0 {
      assert caches[t := cache][1..] == caches[1..];
    } else {
      assert caches[t := cache][1..] == caches[1..][t - 1 := cache];
      CachedUpdate(caches[1..], t - 1, cache, b);
    }
  }

  lemma {:induction false} FlyingUpdate(pcs: seq<Pc>, t: nat, pc: Pc, b: Addr)
    requires t < |pcs|
    ensures Flying(pcs[t := pc], b) + InFlight(pcs[t], b) == Flying(pcs, b) + InFlight(pc, b)
  {
    if t == 0 {
      assert pcs[t := pc][1..] == pcs[1..];
    } else {
      assert pcs[t := pc][1..] == pcs[1..][t - 1 := pc];
      FlyingUpdate(pcs[1..], t - 1, pc, b);
    }
  }

  lemma {:induction false} UncountedUpdate(pcs: seq<Pc>, t: nat, pc: Pc)
    requires t < |pcs|
    ensures Uncounted(pcs[t := pc]) + (if pcs[t].Uncount? then 1 else 0)
         == Uncounted(pcs) + (if pc.Uncount? then 1 else 0)
  {
    if t == 0 {
      assert pcs[t := pc][1..] == pcs[1..];
    } else {
      assert pcs[t := pc][1..] == pcs[1..][t - 1 := pc];
      UncountedUpdate(pcs[1..], t - 1, pc);
    }
  }

  /** The lists a step of thread `t` can touch, seen from one block. */
  ghost function Near(w: World, t: nat, b: Addr): nat
    requires Shaped(w) && t < |w.pcs|
  {
    multiset(w.global)[b] + multiset(w.caches[t])[b] + InFlight(w.pcs[t], b) + w.held[b]
  }

  /** Only the lists of one thread, the shared list and the clients' blocks change. */
  lemma BlocksMove(w: World, w': World, t: nat, b: Addr)
    requires Shaped(w) && Shaped(w') && t < |w.pcs| == |w'.pcs|
    requires w'.pcs == w.pcs[t := w'.pcs[t]] && w'.caches == w.caches[t := w'.caches[t]]
    ensures Found(w', b) + Near(w, t, b) == Found(w, b) + Near(w', t, b)
  {
    CachedUpdate(w.caches, t, w'.caches[t], b);
    FlyingUpdate(w.pcs, t, w'.pcs[t], b);
  }

  lemma PopBack(cache: seq<Addr>, b: Addr)
    requires cache != []
    ensures multiset(cache)[b] == multiset(cache[..|cache| - 1])[b] + if cache[|cache| - 1] == b then 1 else 0
  {
    assert cache == cache[..|cache| - 1] + [cache[|cache| - 1]];
  }

  /** What leaves one list enters another; only a new slab adds blocks. */
  ghost predicate Conserves(w: World, w': World, t: nat, b: Addr)
    requires Shaped(w) && Shaped(w') && t < |w.pcs| == |w'.pcs|
  {
    Near(w', t, b) + multiset(AllBlocks(w.slabs, w.size, w.perSlab))[b]
    == Near(w, t, b) + multiset(AllBlocks(w'.slabs, w.size, w.perSlab))[b]
  }

  lemma NearConserves(w: World, t: nat, c: Choice, b: Addr)
    requires Shaped(w) && t < |w.pcs| && (w.pcs[t].PickUp? ==> w.caches[t] != [])
    ensures Conserves(w, Step(w, t, c), t, b)
  {
    hide Conserves;
    if w.pcs[t].Ready? || w.pcs[t].PickUp? {
      OneBlockConserves(w, t, c, b);
    } else if w.pcs[t].Refill? {
      RefillConserves(w, t, c, b);
    } else if w.pcs[t].Flush? {
      FlushConserves(w, t, c, b);
    } else {
      CountingConserves(w, t, c, b);
    }
  }

  lemma OneBlockConserves(w: World, t: nat, c: Choice, b: Addr)
    requires Shaped(w) && t < |w.pcs| && (w.pcs[t].Ready? || (w.pcs[t].PickUp? && w.caches[t] != []))
    ensures Conserves(w, Step(w, t, c), t, b)
  {
    hide AllBlocks, Near;
    if w.pcs[t].Ready? && c.free {
      FreeConserves(w, t, c, b);
    } else {
      TakeConserves(w, t, c, b);
    }
  }

  lemma FreeConserves(w: World, t: nat, c: Choice, b: Addr)
    requires Shaped(w) && t < |w.pcs| && w.pcs[t].Ready? && c.free
    ensures Near(Step(w, t, c), t, b) == Near(w, t, b) && Step(w, t, c).slabs == w.slabs
  {
    hide AllBlocks, Refilled, Flushed, IsFree;
    var cache := w.caches[t];
    assert multiset(cache + [c.block])[b] == multiset(cache)[b] + if c.block == b then 1 else 0;
  }

  lemma TakeConserves(w: World, t: nat, c: Choice, b: Addr)
    requires Shaped(w) && t < |w.pcs| && ((w.pcs[t].Ready? && !c.free) || (w.pcs[t].PickUp? && w.caches[t] != []))
    ensures Near(Step(w, t, c), t, b) == Near(w, t, b) && Step(w, t, c).slabs == w.slabs
  {
    hide AllBlocks, Refilled, Flushed, IsFree;
    if w.caches[t] != [] {
      PopBack(w.caches[t], b);
    }
  }

  lemma CountingConserves(w: World, t: nat, c: Choice, b: Addr)
    requires Shaped(w) && t < |w.pcs|
    requires w.pcs[t].CountHit? || w.pcs[t].Count? || w.pcs[t].Uncount? || w.pcs[t].CheckLimit?
    ensures Conserves(w, Step(w, t, c), t, b)
  {
    hide AllBlocks, Refilled, Flushed, IsFree;
  }

  lemma FlushConserves(w: World, t: nat, c: Choice, b: Addr)
    requires Shaped(w) && t < |w.pcs| && w.pcs[t].Flush?
    ensures Conserves(w, Step(w, t, c), t, b)
  {
    hide AllBlocks, Refilled, IsFree;
    var ls := Lists(w.caches[t], w.global);
    var k := if |ls.from| > w.limit / 2 then |ls.from| - w.limit / 2 else 0;
    TransferConserves(ls, k);
    var r := Transfer(ls, k);
    assert (multiset(r.from) + multiset(r.to))[b] == (multiset(ls.from) + multiset(ls.to))[b];
  }

  lemma RefillConserves(w: World, t: nat, c: Choice, b: Addr)
    requires Shaped(w) && t < |w.pcs| && w.pcs[t].Refill?
    ensures Conserves(w, Step(w, t, c), t, b)
  {
    hide Flushed, AllBlocks, SlabBlocks;
    var grown := if w.global == [] then SlabBlocks(c.base, w.size, w.perSlab) else w.global;
    var ls, k := Lists(grown, w.caches[t]), Min(Max(w.limit / 2, 1), |grown|);
    TransferConserves(ls, k);
    hide Transfer;
    var r := Transfer(ls, k);
    assert (multiset(r.from) + multiset(r.to))[b] == (multiset(ls.from) + multiset(ls.to))[b];
    SlabAdds(w.slabs, c.base, w.size, w.perSlab, b);
  }

  lemma SlabAdds(slabs: seq<Addr>, base: Addr, size: nat, perSlab: nat, b: Addr)
    ensures multiset(AllBlocks(slabs + [base], size, perSlab))[b]
         == multiset(AllBlocks(slabs, size, perSlab))[b] + multiset(SlabBlocks(base, size, perSlab))[b]
  {
    assert (slabs + [base])[..|slabs|] == slabs;
  }

  lemma StepConserves(w: World, t: nat, c: Choice)
    requires Shaped(w) && Bounded(w) && Partitioned(w) && t < |w.pcs|
    ensures Partitioned(Step(w, t, c))
  {
    var w' := Step(w, t, c);
    hide Found, AllBlocks, Step;
    forall b ensures Found(w', b) == multiset(AllBlocks(w'.slabs, w'.size, w'.perSlab))[b] {
      FoundConserves(w, t, c, b);
    }
  }

  lemma FoundConserves(w: World, t: nat, c: Choice, b: Addr)
    requires Shaped(w) && Bounded(w) && t < |w.pcs|
    requires Found(w, b) == multiset(AllBlocks(w.slabs, w.size, w.perSlab))[b]
    ensures var w' := Step(w, t, c);
      Found(w', b) == multiset(AllBlocks(w'.slabs, w'.size, w'.perSlab))[b]
  {
    assert CacheBound(w, t);
    hide Found, Near, AllBlocks, Step, Bounded, CacheBound;
    NearConserves(w, t, c, b);
    StepFrame(w, t, c);
    BlocksMove(w, Step(w, t, c), t, b);
  }

  /** A step changes one program counter and one cache, and no size or limit. */
  lemma StepFrame(w: World, t: nat, c: Choice)
    requires Shaped(w) && t < |w.pcs|
    ensures var w' := Step(w, t, c);
      && Shaped(w') && |w'.pcs| == |w.pcs|
      && w'.pcs == w.pcs[t := w'.pcs[t]]
      && w'.caches == w.caches[t := w'.caches[t]]
      && w'.size == w.size && w'.perSlab == w.perSlab && w'.limit == w.limit
  {
    hide Refilled, Flushed, IsFree;
  }

  lemma StepBounds(w: World, t: nat, c: Choice)
    requires Shaped(w) && Bounded(w) && w.limit > 0 && w.perSlab > 0 && !w.fault && t < |w.pcs|
    ensures !Step(w, t, c).fault && Bounded(Step(w, t, c))
  {
    hide Step, CacheBound;
    var w' := Step(w, t, c);
    OwnBound(w, t, c);
    StepFrame(w, t, c);
    forall u | 0 <= u < |w'.pcs| ensures CacheBound(w', u) {
      if u != t {
        assert CacheBound(w, u);
        SameBound(w, w', u);
      }
    }
  }

  lemma SameBound(w: World, w': World, u: nat)
    requires Shaped(w) && Shaped(w') && u < |w.pcs| == |w'.pcs| && CacheBound(w, u)
    requires w'.pcs[u] == w.pcs[u] && w'.caches[u] == w.caches[u] && w'.limit == w.limit
    ensures CacheBound(w', u)
  {
  }

  lemma OwnBound(w: World, t: nat, c: Choice)
    requires Shaped(w) && Bounded(w) && w.limit > 0 && w.perSlab > 0 && !w.fault && t < |w.pcs|
    ensures !Step(w, t, c).fault && CacheBound(Step(w, t, c), t)
  {
    hide IsFree;
    assert CacheBound(w, t);
    if w.pcs[t].Refill? {
      RefillFillsCache(w.global, w.slabs, c.base, w.size, w.perSlab, w.limit);
      assert w.caches[t] == [];
    } else if w.pcs[t].Flush? {
      var cache := w.caches[t];
      TransferConserves(Lists(cache, w.global), if |cache| > w.limit / 2 then |cache| - w.limit / 2 else 0);
    }
  }

  lemma StepCounts(w: World, t: nat, c: Choice)
    requires Shaped(w) && t < |w.pcs| && Counted(w)
    ensures Counted(Step(w, t, c))
  {
    hide Step;
    StepFrame(w, t, c);
    var w' := Step(w, t, c);
    UncountedUpdate(w.pcs, t, w'.pcs[t]);
    HeldCount(w, t, c);
    if w.pcs[t].Count? {
      ModUp(|w.held| + Uncounted(w.pcs));
    } else if w.pcs[t].Uncount? {
      ModDown(|w.held| + Uncounted(w.pcs));
    }
  }

  /** How the clients' blocks and the counter move together. */
  lemma HeldCount(w: World, t: nat, c: Choice)
    requires Shaped(w) && t < |w.pcs|
    ensures var w', pc, pc' := Step(w, t, c), w.pcs[t], Step(w, t, c).pcs[t];
      && (pc.Count? ==> |w'.held| == |w.held| + 1 && !pc'.Uncount? && w'.outstanding == (w.outstanding + 1) % WORD)
      && (pc.Uncount? ==> |w'.held| == |w.held| && !pc'.Uncount? && w'.outstanding == (w.outstanding + (WORD - 1)) % WORD)
      && (!pc.Count? && !pc.Uncount? ==>
            && w'.outstanding == w.outstanding
            && |w'.held| + (if pc'.Uncount? then 1 else 0) == |w.held|)
      && w'.pcs == w.pcs[t := pc']
  {
    hide Refilled, Flushed, IsFree;
  }

  lemma ModUp(n: nat)
    ensures (n % WORD + 1) % WORD == (n + 1) % WORD
  {
  }

  lemma ModDown(n: nat)
    ensures n > 0 ==> (n % WORD + (WORD - 1)) % WORD == (n - 1) % WORD
  {
  }

  lemma StepSlabs(w: World, t: nat, c: Choice)
    requires Shaped(w) && SlabsApart(w) && t < |w.pcs|
    ensures SlabsApart(Step(w, t, c))
  {
    hide Flushed, Transfer, SlabBlocks;
  }

  lemma {:induction false} StepKeeps(w: World, t: nat, c: Choice)
    requires Inv(w) && t < |w.pcs|
    ensures Inv(Step(w, t, c))
  {
    hide Partitioned, SlabsApart, Bounded, Counted;
    StepConserves(w, t, c);
    StepBounds(w, t, c);
    StepCounts(w, t, c);
    StepSlabs(w, t, c);
  }

  // ---------------------------------------------------------------- runs

  datatype Tick = Tick(thread: nat, choice: Choice)

  ghost function Run(w: World, sched: seq<Tick>): World
    requires Shaped(w) && forall i | 0 <= i < |sched| :: sched[i].thread < |w.pcs|
    decreases |sched|
  {
    if sched == [] then w
    else
      StepShape(w, sched[0].thread, sched[0].choice);
      Run(Step(w, sched[0].thread, sched[0].choice), sched[1..])
  }

  lemma StepShape(w: World, t: nat, c: Choice)
    requires Shaped(w) && t < |w.pcs|
    ensures Shaped(Step(w, t, c)) && |Step(w, t, c).pcs| == |w.pcs| && Step(w, t, c).limit == w.limit
  {
  }

  lemma {:induction false} NothingCached(n: nat, b: Addr)
    ensures Cached(seq(n, _ => []), b) == 0 && Flying(seq(n, _ => Ready), b) == 0 && Uncounted(seq(n, _ => Ready)) == 0
  {
    if n > 0 {
      var caches, pcs := seq<seq<Addr>>(n, _ => []), seq(n, _ => Ready);
      assert caches[0] == [] && caches[1..] == seq<seq<Addr>>(n - 1, _ => []);
      assert pcs[0] == Ready && pcs[1..] == seq(n - 1, _ => Ready);
      NothingCached(n - 1, b);
    }
  }

  lemma InitialInv(n: nat, size: nat, perSlab: nat, limit: nat)
    requires perSlab > 0 && limit > 0
    ensures Inv(Initial(n, size, perSlab, limit))
  {
    NothingCached(n, 0);
    forall b ensures Found(Initial(n, size, perSlab, limit), b) == 0 {
      NothingCached(n, b);
    }
  }

  lemma {:induction false} RunKeeps(w: World, sched: seq<Tick>)
    requires Inv(w) && forall i | 0 <= i < |sched| :: sched[i].thread < |w.pcs|
    ensures Inv(Run(w, sched)) && |Run(w, sched).pcs| == |w.pcs| && Run(w, sched).limit == w.limit
    decreases |sched|
  {
    if sched != [] {
      hide Step, Inv;
      StepShape(w, sched[0].thread, sched[0].choice);
      StepKeeps(w, sched[0].thread, sched[0].choice);
      RunKeeps(Step(w, sched[0].thread, sched[0].choice), sched[1..]);
    }
  }

  // ---------------------------------------------------------------- blocks do not overlap

  /** The slab a block belongs to, and its place in it. */
  lemma {:induction false} SlabOf(slabs: seq<Addr>, size: nat, perSlab: nat, i: nat) returns (k: nat, o: nat)
    requires i < |AllBlocks(slabs, size, perSlab)|
    ensures k < |slabs| && o < perSlab && AllBlocks(slabs, size, perSlab)[i] == slabs[k] + o * size
    decreases |slabs|
  {
    var last := |slabs| - 1;
    var rest := AllBlocks(slabs[..last], size, perSlab);
    if i < |rest| {
      k, o := SlabOf(slabs[..last], size, perSlab, i);
    } else {
      SlabSize(slabs[last], size, perSlab);
      k, o := last, i - |rest|;
      SlabAt(slabs[last], size, perSlab, o);
    }
  }

  lemma Offset(o: nat, size: nat, perSlab: nat)
    requires o < perSlab
    ensures o * size + size <= size * perSlab
  {
    assert (o + 1) * size <= perSlab * size;
  }

  lemma OffsetsApart(o: nat, o': nat, size: nat)
    requires o < o'
    ensures o * size + size <= o' * size
  {
    assert (o + 1) * size <= o' * size;
  }

  /** Two blocks inside two slabs that are apart, or at two places of one slab, are apart. */
  lemma InsideApart(a: Addr, b: Addr, bytes: nat, x: nat, y: nat, size: nat)
    requires Apart(a, b, bytes) && x + size <= bytes && y + size <= bytes
    ensures Apart(a + x, b + y, size)
  {
  }

  lemma TwoSlabsApart(slabs: seq<Addr>, base: Addr, size: nat, perSlab: nat, i: nat, j: nat)
    requires forall k | 0 <= k < |slabs| :: Apart(slabs[k], base, size * perSlab)
    requires i < |AllBlocks(slabs, size, perSlab)| && j < |SlabBlocks(base, size, perSlab)| == perSlab
    ensures Apart(AllBlocks(slabs, size, perSlab)[i], SlabBlocks(base, size, perSlab)[j], size)
  {
    hide Apart, AllBlocks, SlabBlocks;
    var k, o := SlabOf(slabs, size, perSlab, i);
    SlabAt(base, size, perSlab, j);
    Offset(o, size, perSlab);
    Offset(j, size, perSlab);
    InsideApart(slabs[k], base, size * perSlab, o * size, j * size, size);
  }

  lemma {:induction false} BlocksApart(slabs: seq<Addr>, size: nat, perSlab: nat, i: nat, j: nat)
    requires forall k, l | 0 <= k < l < |slabs| :: Apart(slabs[k], slabs[l], size * perSlab)
    requires i < j < |AllBlocks(slabs, size, perSlab)|
    ensures Apart(AllBlocks(slabs, size, perSlab)[i], AllBlocks(slabs, size, perSlab)[j], size)
    decreases |slabs|
  {
    var last := |slabs| - 1;
    var rest := AllBlocks(slabs[..last], size, perSlab);
    SlabSize(slabs[last], size, perSlab);
    hide Apart;
    if j < |rest| {
      BlocksApart(slabs[..last], size, perSlab, i, j);
    } else if i < |rest| {
      TwoSlabsApart(slabs[..last], slabs[last], size, perSlab, i, j - |rest|);
    } else {
      SameSlabApart(slabs[last], size, perSlab, i - |rest|, j - |rest|);
    }
  }

  lemma SameSlabApart(base: Addr, size: nat, perSlab: nat, i: nat, j: nat)
    requires i < j < perSlab && |SlabBlocks(base, size, perSlab)| == perSlab
    ensures Apart(SlabBlocks(base, size, perSlab)[i], SlabBlocks(base, size, perSlab)[j], size)
  {
    SlabAt(base, size, perSlab, i);
    SlabAt(base, size, perSlab, j);
    OffsetsApart(i, j, size);
  }

  lemma {:induction false} DistinctOnce(s: seq<Addr>, b: Addr)
    requires forall i, j | 0 <= i < j < |s| :: s[i] != s[j]
    ensures multiset(s)[b] == if b in s then 1 else 0
  {
    if s != [] {
      var last := |s| - 1;
      assert s == s[..last] + [s[last]];
      DistinctOnce(s[..last], b);
    }
  }

  // ---------------------------------------------------------------- the results

  /** In every run, every block of every slab is in exactly one of the shared list, one thread's cache, or
      outstanding, nothing else is anywhere, and two blocks never overlap. */
  lemma {:induction false} PoolPartition(n: nat, size: nat, perSlab: nat, limit: nat, sched: seq<Tick>)
    requires perSlab > 0 && limit > 0
    requires forall i | 0 <= i < |sched| :: sched[i].thread < n
    ensures var w := Run(Initial(n, size, perSlab, limit), sched);
      var blocks := AllBlocks(w.slabs, w.size, w.perSlab);
      && (forall b :: Found(w, b) == if b in blocks then 1 else 0)
      && (forall i, j | 0 <= i < j < |blocks| :: Apart(blocks[i], blocks[j], w.size))
  {
    InitialInv(n, size, perSlab, limit);
    RunKeeps(Initial(n, size, perSlab, limit), sched);
    var w := Run(Initial(n, size, perSlab, limit), sched);
    hide Run, Initial;
    PartitionOf(w);
  }

  lemma PartitionOf(w: World)
    requires Inv(w)
    ensures var blocks := AllBlocks(w.slabs, w.size, w.perSlab);
      && (forall b :: Found(w, b) == if b in blocks then 1 else 0)
      && (forall i, j | 0 <= i < j < |blocks| :: Apart(blocks[i], blocks[j], w.size))
  {
    hide AllBlocks, Found, Bounded, Counted;
    var blocks := AllBlocks(w.slabs, w.size, w.perSlab);
    forall i, j | 0 <= i < j < |blocks| ensures Apart(blocks[i], blocks[j], w.size) {
      BlocksApart(w.slabs, w.size, w.perSlab, i, j);
    }
    forall b ensures Found(w, b) == if b in blocks then 1 else 0 {
      DistinctOnce(blocks, b);
    }
  }

  /** In every run `bad_alloc` after a refill is never thrown, every cache is below its limit between
      calls, and when no call is running the count is exactly the number of blocks the clients hold. */
  lemma {:induction false} PoolBounds(n: nat, size: nat, perSlab: nat, limit: nat, sched: seq<Tick>)
    requires perSlab > 0 && limit > 0
    requires forall i | 0 <= i < |sched| :: sched[i].thread < n
    ensures var w := Run(Initial(n, size, perSlab, limit), sched);
      && !w.fault
      && |w.pcs| == |w.caches| == n
      && (forall t | 0 <= t < n && w.pcs[t].Ready? :: |w.caches[t]| < limit)
      && ((forall t | 0 <= t < n :: w.pcs[t].Ready?) ==> w.outstanding == |w.held| % WORD)
  {
    InitialInv(n, size, perSlab, limit);
    RunKeeps(Initial(n, size, perSlab, limit), sched);
    var w := Run(Initial(n, size, perSlab, limit), sched);
    hide Run;
    forall t | 0 <= t < n && w.pcs[t].Ready? ensures |w.caches[t]| < limit {
      assert CacheBound(w, t);
    }
    if forall t | 0 <= t < n :: w.pcs[t].Ready? {
      AllReady(w.pcs);
    }
  }

  lemma {:induction false} AllReady(pcs: seq<Pc>)
    requires forall t | 0 <= t < |pcs| :: pcs[t].Ready?
    ensures Uncounted(pcs) == 0
  {
    if pcs != [] {
      AllReady(pcs[1..]);
    }
  }

  // ---------------------------------------------------------------- a call that nobody interrupts

  function Repeat(t: nat, c: Choice, n: nat): seq<Tick> {
    seq(n, _ => Tick(t, c))
  }

  lemma RunOne(w: World, t: nat, c: Choice, n: nat)
    requires Shaped(w) && t < |w.pcs| && n > 0
    ensures Shaped(Step(w, t, c)) && t < |Step(w, t, c).pcs|
    ensures Run(w, Repeat(t, c, n)) == Run(Step(w, t, c), Repeat(t, c, n - 1))
  {
    StepShape(w, t, c);
    assert Repeat(t, c, n)[1..] == Repeat(t, c, n - 1);
  }

  lemma RunNone(w: World, t: nat, c: Choice)
    requires Shaped(w)
    ensures Run(w, Repeat(t, c, 0)) == w
  {
  }

  /** A call of `allocate` on a cache with blocks hands out its last one; nothing else moves. */
  lemma {:induction false} AllocateHits(w: World, t: nat, c: Choice)
    requires Shaped(w) && t < |w.pcs| && w.pcs[t].Ready? && !c.free && w.caches[t] != []
    ensures var w', cache := Run(w, Repeat(t, c, 3)), w.caches[t];
      w' == w.(caches := w.caches[t := cache[..|cache| - 1]], held := w.held + multiset{cache[|cache| - 1]},
               outstanding := (w.outstanding + 1) % WORD)
  {
    hide Step, Run;
    RunOne(w, t, c, 3);
    var w1 := Step(w, t, c);
    RunOne(w1, t, c, 2);
    var w2 := Step(w1, t, c);
    RunOne(w2, t, c, 1);
    RunNone(Step(w2, t, c), t, c);
    HitSteps(w, t, c);
  }

  lemma HitSteps(w: World, t: nat, c: Choice)
    requires Shaped(w) && t < |w.pcs| && w.pcs[t].Ready? && !c.free && w.caches[t] != []
    ensures var w', cache := Step(Step(Step(w, t, c), t, c), t, c), w.caches[t];
      w' == w.(caches := w.caches[t := cache[..|cache| - 1]], held := w.held + multiset{cache[|cache| - 1]},
               outstanding := (w.outstanding + 1) % WORD)
  {
    assert Step(Step(Step(w, t, c), t, c), t, c).pcs == w.pcs;
  }

  /** A call of `allocate` on an empty cache takes over the newest shared blocks, half the limit but at least one and
      no more than there are, and hands out the last of them. Only if none are shared is there a new slab. */
  lemma {:induction false} AllocateRefills(w: World, t: nat, c: Choice)
    requires Shaped(w) && t < |w.pcs| && w.pcs[t].Ready? && !c.free && w.caches[t] == []
    requires w.perSlab > 0 && (w.global == [] ==> IsFree(w, c.base))
    ensures var w' := Run(w, Repeat(t, c, 4));
      && |w'.caches| == |w.caches| && w'.pcs == w.pcs && w'.fault == w.fault
      && w'.slabs == (if w.global == [] then w.slabs + [c.base] else w.slabs)
      && w'.outstanding == (w.outstanding + 1) % WORD
      && exists stock: seq<Addr>, block: Addr ::
           && (if w.global == [] then |stock| == w.perSlab && forall i | 0 <= i < w.perSlab :: stock[i] == c.base + i * w.size
               else stock == w.global)
           && MovesLast(stock, [], Min(Max(w.limit / 2, 1), |stock|), w'.global, w'.caches[t] + [block])
           && w'.held == w.held + multiset{block} && w'.caches == w.caches[t := w'.caches[t]]
  {
    hide Step, Run, MovesLast;
    RunOne(w, t, c, 4);
    var w1 := Step(w, t, c);
    RunOne(w1, t, c, 3);
    var w2 := Step(w1, t, c);
    RunOne(w2, t, c, 2);
    var w3 := Step(w2, t, c);
    RunOne(w3, t, c, 1);
    RunNone(Step(w3, t, c), t, c);
    RefillSteps(w, t, c);
    RefillMoves(w.global, [], w.slabs, c.base, w.size, w.perSlab, w.limit);
  }

  lemma StillFree(w: World, w': World, base: Addr)
    requires w'.slabs == w.slabs && w'.size == w.size && w'.perSlab == w.perSlab
    ensures IsFree(w', base) <==> IsFree(w, base)
  {
  }

  lemma RefillSteps(w: World, t: nat, c: Choice)
    requires Shaped(w) && t < |w.pcs| && w.pcs[t].Ready? && !c.free && w.caches[t] == []
    requires w.perSlab > 0 && (w.global == [] ==> IsFree(w, c.base))
    ensures var w' := Step(Step(Step(Step(w, t, c), t, c), t, c), t, c);
      var (shared, filled, bases) := Refilled(w.global, [], w.slabs, c.base, w.size, w.perSlab, w.limit);
      && filled != []
      && w' == w.(global := shared, slabs := bases, caches := w.caches[t := filled[..|filled| - 1]],
                  held := w.held + multiset{filled[|filled| - 1]}, outstanding := (w.outstanding + 1) % WORD)
      && filled == w'.caches[t] + [filled[|filled| - 1]]
  {
    hide Refilled, IsFree;
    RefillFillsCache(w.global, w.slabs, c.base, w.size, w.perSlab, w.limit);
    StillFree(w, Step(w, t, c), c.base);
    var w1 := Step(w, t, c);
    var w2 := Step(w1, t, c);
    var w3 := Step(w2, t, c);
    var filled := Refilled(w.global, [], w.slabs, c.base, w.size, w.perSlab, w.limit).1;
    var block := filled[|filled| - 1];
    assert w1 == w.(pcs := w.pcs[t := Refill]);
    assert w2.caches == w.caches[t := filled] && w2.pcs == w.pcs[t := PickUp] && w2.held == w.held;
    assert w3.caches == w.caches[t := filled[..|filled| - 1]] && w3.pcs == w.pcs[t := Count(block)] && w3.held == w.held;
    assert Step(w3, t, c).pcs == w.pcs;
  }

  /** A call of `deallocate` puts the block last in the cache. If that reaches the limit, the cache keeps its oldest
      blocks, half the limit, and the others are shared, newest first; below it nothing else moves. */
  lemma {:induction false} DeallocateFlushes(w: World, t: nat, c: Choice)
    requires Shaped(w) && t < |w.pcs| && w.pcs[t].Ready? && c.free && c.block in w.held
    ensures var grown := w.caches[t] + [c.block];
      var full := |grown| >= w.limit;
      var w' := Run(w, Repeat(t, c, if full then 4 else 3));
      && |w'.caches| == |w.caches|
      && w' == w.(global := w'.global, caches := w.caches[t := w'.caches[t]], held := w.held - multiset{c.block},
                  outstanding := (w.outstanding + (WORD - 1)) % WORD)
      && w'.caches[t] == (if full then grown[..Min(|grown|, w.limit / 2)] else grown)
      && MovesLast(grown, w.global, |grown| - |w'.caches[t]|, w'.caches[t], w'.global)
  {
    hide Step, Run, MovesLast;
    var grown := w.caches[t] + [c.block];
    var n := if |grown| >= w.limit then 4 else 3;
    RunOne(w, t, c, n);
    var w1 := Step(w, t, c);
    RunOne(w1, t, c, n - 1);
    var w2 := Step(w1, t, c);
    RunOne(w2, t, c, n - 2);
    var w3 := Step(w2, t, c);
    FlushSteps(w, t, c);
    if n == 4 {
      RunOne(w3, t, c, 1);
      RunNone(Step(w3, t, c), t, c);
      FlushMoves(grown, w.global, w.limit / 2);
    } else {
      RunNone(w3, t, c);
      NothingMoves(grown, w.global);
    }
  }

  lemma NothingMoves(from: seq<Addr>, to: seq<Addr>)
    ensures MovesLast(from, to, 0, from, to)
  {
  }

  lemma FlushSteps(w: World, t: nat, c: Choice)
    requires Shaped(w) && t < |w.pcs| && w.pcs[t].Ready? && c.free && c.block in w.held
    ensures var grown, w3 := w.caches[t] + [c.block], Step(Step(Step(w, t, c), t, c), t, c);
      var (kept, shared) := Flushed(grown, w.global, w.limit / 2);
      var freed := w.(held := w.held - multiset{c.block}, outstanding := (w.outstanding + (WORD - 1)) % WORD);
      if |grown| >= w.limit then Step(w3, t, c) == freed.(global := shared, caches := w.caches[t := kept])
      else w3 == freed.(caches := w.caches[t := grown])
  {
    hide Flushed;
    var w1 := Step(w, t, c);
    var w2 := Step(w1, t, c);
    var w3 := Step(w2, t, c);
    assert w2.pcs == w.pcs[t := CheckLimit];
    assert |w.caches[t]| + 1 < w.limit ==> w3.pcs == w.pcs;
    assert |w.caches[t]| + 1 >= w.limit ==> w3.pcs == w.pcs[t := Flush] && Step(w3, t, c).pcs == w.pcs;
  }
}
