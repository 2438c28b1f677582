# An in-process exchange, modelled and proved

The repository is an exchange in one process. This project models four parts of it and proves what they
promise: the lock-free queues and the block pool underneath, the order book matching engine, the clearing
ledger, and the pipeline that takes an order through risk check, reservation, matching, settlement and release.
`dafny verify dfyconfig.toml` checks everything.

## How it is laid out

- **Multi-producer multi-consumer queue.** `MpmcQueue` is the program, one atomic action per step, with program
  counters and locals per thread, reusable addresses, weak compare-and-swaps that may fail spuriously and a
  `fault` flag raised by touching memory that is not allocated. `MpmcInvariant` records the history of nodes and
  states the invariant, `MpmcProof` and `MpmcSteps` prove it step by step, and `MpmcResults` draws the
  conclusions: linearizability to a plain sequence, and no node freed while anybody can still get at it.
  `MpmcCollection` adds the other direction: what a collection leaves, somebody active may still have needed.
- **Ring and pool.** `SpscRing` is the single-producer single-consumer ring with counters that wrap at 2^64.
  `BlockPool` is the pool with its loops; `PoolConcurrency` interleaves any number of threads on it.
- **Matching engine.** `OrderBook` is the specification: two sequences in priority order, a recursive fill, submit
  and cancel. `OrderBookLaws` proves what it promises, `OrderBookAnswers` what is answered to each order and where
  it comes to rest. `PriceMap`, `DepthBook`, `BookLevels`, `BookLevelsLaws` and `MatchingEngine` are the engine
  with its price levels, queues, id index and published depth, and its methods are proved to do what `OrderBook`
  says. A pointer to a resting order is its id, looked up in the index, so that what is written through one holder
  is seen by all. The two mirrored match loops are one method with the side as an argument.
- **Clearing ledger.** `Ledger` specifies the operations, `LedgerLaws` and `LedgerRuns` prove what one operation
  and every run keep, `LedgerAnswers` what each operation answers and moves, and `ClearingSystem` is the object
  whose methods do what `Ledger` says. `Sums` adds up over maps.
- **Pipeline.** `RiskEngine` is self-trade prevention. `Exchange` specifies the whole workflow over book, ledger
  and tracking; `ExchangeInvariant` to `ExchangeSteps` prove its stages, `ExchangeResults` and `ExchangeLedger`
  the results over whole runs, `ExchangeAnswers` what a submit leaves in journals and outbox and when it is a
  self-trade, `ExchangeOffGrid` what remains without a price grid; `ExchangeOverspending` and `ExchangeUntracked`
  run the exchange into the two limits below; and `ExchangePipeline` is the object over the three engines that
  does what `Exchange` says.

Where every single memory access interleaves with other threads, the model is a step function on a value that holds
the whole memory; where the program works alone on an object's fields, it is a class with methods and loops.
Prices, quantities and money are exact reals; counters of fixed width wrap where the program's do.

## What the pipeline results assume

One configured symbol with fixed fees, 0 <= maker <= taker <= 10000 basis points; limit prices at least one and on
a grid coarser than 1e-9; every user registered once, with no negative balance and nothing frozen; no order id that
contains `->` or for which funds were held before. Market orders may carry any price. The other risk rules are an
arbitrary answer given with each order, and the registry is visited in an arbitrary order.

Two limits are stated. Without a grid the risk rule and the match loop part ways by the tolerance
(`SelfTradeWithinTolerance`; `OwnOrderUnseen` shows why it has a condition). A market buy holds only the best ask for
its whole quantity and can therefore be matched and then not settled (`EveryReport` says precisely when,
`SettlementCanBeRejected` is a run in which it happens). After such a submit the registry still names closed orders,
and what is left of their holds stays, until the next submit that completes; the invariant, the cover of the live
orders and the absence of self-trades hold in between as well.

## Where the program and its descriptions differ

The program is followed in each case.

- A depth snapshot of zero levels returns all of them, because the count is compared only after a level was added.
- An order that joins a level publishes its own quantity instead of the level's sum, until the level is next matched
  or reduced.
- A limit fill-or-kill order for no more than 1e-9 is accepted without a trade and reported as accepted, not filled.
- The matching engine's description plans skip lists and conditional orders; the program has sorted maps and neither.
- The ledger's description promises a journal entry for every balance change; opening an account writes none, so
  replay starts from the opening snapshot.

## Model

| member | source | states |
|---|---|---|
| `MpmcResults.Linearizable` | infrastructure/lock-free-structures/mpmc_linked_queue.hpp:116-191 | Every schedule of any number of threads is explained, step by step, by a run of an atomic queue whose contents the heap holds after every step and whose calls and returns are those of the program; memory that is not allocated is never touched. |
| `MpmcResults.Refines` | infrastructure/lock-free-structures/mpmc_linked_queue.hpp:116-191 | Each load, store or compare-and-swap is one step of the atomic queue by the same thread or invisible: a push takes effect at its swap on `next`, a pop at its swap on `head_`, an empty pop has seen the queue empty at its load of `next`. |
| `MpmcResults.FirstInFirstOut` | infrastructure/lock-free-structures/mpmc_linked_queue.hpp:116-191 | In every run of the atomic queue, what was popped is a prefix of what was pushed, in push order and each value once, and the rest is still queued. |
| `MpmcResults.RunIsFifo` | infrastructure/lock-free-structures/mpmc_linked_queue.hpp:116-191 | In every run of the program: what was popped is a prefix of what was pushed, and the rest is exactly what the heap holds at the end. |
| `MpmcResults.EmptyPopSawEmpty` | infrastructure/lock-free-structures/mpmc_linked_queue.hpp:158-171 | In every run of the atomic queue, a pop that returns nothing saw the queue empty at a moment between its call and its return. |
| `MpmcResults.EmptyPopWasEmpty` | infrastructure/lock-free-structures/mpmc_linked_queue.hpp:158-171 | In every run of the program: a pop about to return nothing has seen the heap hold the empty queue at a moment since it was called. |
| `MpmcResults.HeapHoldsQueue` | infrastructure/lock-free-structures/mpmc_linked_queue.hpp:116-191 | The values linked after `head_` are exactly the abstract queue, in order. |
| `MpmcResults.HoldsUnique` | infrastructure/lock-free-structures/mpmc_linked_queue.hpp:204-214 | A heap holds at most one sequence, so what it holds is well defined. |
| `MpmcResults.TailKeepsUp` | infrastructure/lock-free-structures/mpmc_linked_queue.hpp:124-145 | In every run `head_` reaches `tail_` and at most one node is linked behind `tail_`. |
| `MpmcResults.DeletedIsUnreachable` | infrastructure/lock-free-structures/mpmc_linked_queue.hpp:316-355 | A node about to be deleted by a collection that is not forced is allocated, in the locals of no thread, and unreachable from `head_` and `tail_`. That enough is deleted is `MpmcCollection.CollectionLeaves`. |
| `MpmcResults.NoUseAfterFree` | infrastructure/lock-free-structures/mpmc_linked_queue.hpp:293-355 | The same in every run of any number of threads, although the slots are scanned one at a time and the epoch is published before the active flag. |
| `MpmcResults.SizeFollowsLength` | infrastructure/lock-free-structures/mpmc_linked_queue.hpp:135-201 | In every run `size_` is the length plus pops not yet subtracted minus pushes not yet added, modulo 2^64. |
| `MpmcResults.ShortRunsLast` | infrastructure/lock-free-structures/mpmc_linked_queue.hpp:304-314 | The one assumption of these results, that the 64-bit epoch does not run out, holds for every run of fewer than 2^64 - 2 steps. |
| `MpmcSteps.StepKeeps` | infrastructure/lock-free-structures/mpmc_linked_queue.hpp:116-355 | Every atomic action of every thread keeps the invariant that ties links, fates of nodes, announced epochs, scans and locals together. |
| `MpmcSteps.ScanKeeps` | infrastructure/lock-free-structures/mpmc_linked_queue.hpp:342-355 | A scan in progress bounds its minimum from above by the epoch of every slot it has passed that could still hold a node of the scanner, or that slot entered later. From below it is bounded by `MpmcCollection.ScanSoFar`. |
| `MpmcCollection.ScanSoFar` | infrastructure/lock-free-structures/mpmc_linked_queue.hpp:342-355 | The minimum of a scan in progress is the epoch after the one in which it began, or an epoch published by a slot seen active since. |
| `MpmcSteps.NullNextMeansEmpty` | infrastructure/lock-free-structures/mpmc_linked_queue.hpp:158-171 | A pop that loads a null `next` sees the queue empty at that very step, although it loaded `head_` earlier. |
| `MpmcSteps.SwingKeeps` | infrastructure/lock-free-structures/mpmc_linked_queue.hpp:137-144 | A successful swap on `tail_` moves it to the very next node, never past the end and never back. |
| `MpmcProof.LinkStep` | infrastructure/lock-free-structures/mpmc_linked_queue.hpp:133-141 | A successful swap on a null `next` can only happen at the last node, and appends exactly the value pushed. |
| `MpmcProof.HeadStep` | infrastructure/lock-free-structures/mpmc_linked_queue.hpp:180-186 | A successful swap on `head_` removes exactly the first value and makes the pop the one owner of the node left behind: reused addresses cannot fool it. |
| `MpmcProof.TakeStep` | infrastructure/lock-free-structures/mpmc_linked_queue.hpp:182-183 | Taking the value out of the new first node disturbs no other thread. |
| `MpmcProof.RetireStep` | infrastructure/lock-free-structures/mpmc_linked_queue.hpp:304-314 | A retired node carries an epoch no active operation that may hold it exceeds. |
| `MpmcProof.DeleteStep` | infrastructure/lock-free-structures/mpmc_linked_queue.hpp:316-340 | Deleting a retired node whose epoch lies below the scanned minimum leaves every other thread and link intact. |
| `MpmcCollection.CollectionLeaves` | infrastructure/lock-free-structures/mpmc_linked_queue.hpp:316-355 | In every run: when a collection ends, every node left in its list was retired no earlier than the epoch after the one in which its scan began, or than an epoch that a slot published which was occupied and active at some moment of that scan. |
| `MpmcCollection.LoneCollectorFreesAll` | infrastructure/lock-free-structures/mpmc_linked_queue.hpp:316-355 | If no other slot is active during the scan, nothing retired before the epoch that the collecting operation announced is left, and those nodes are out of the heap. |
| `MpmcCollection.KeptOrFreed` | infrastructure/lock-free-structures/mpmc_linked_queue.hpp:316-340 | While no other slot is active, what a thread had retired when its scan began is still in its list or out of the heap: a collection forgets no node. |
| `MpmcCollection.OwnEpoch` | infrastructure/lock-free-structures/mpmc_linked_queue.hpp:293-302 | The epoch in a slot is, through the whole operation, the global one at the load at its start. |
| `MpmcCollection.RetiresNow` | infrastructure/lock-free-structures/mpmc_linked_queue.hpp:304-314 | A popped node is retired in the epoch of that moment, and the pop collects exactly if that makes 32 or more. |
| `SpscRing.BoundedFifo` | infrastructure/lock-free-structures/spsc_ring_queue.hpp:39-78 | Under every interleaving of one producer and one consumer, pops deliver a prefix of the pushes that returned true and the occupancy stays within capacity. |
| `SpscRing.FailuresAreReal` | infrastructure/lock-free-structures/spsc_ring_queue.hpp:39-78 | A push fails exactly if the ring is full at its load of `head_`, a pop exactly if it is empty at its load of `tail_`, although both counters wrap at 2^64. |
| `SpscRing.SlotsNeverRace` | infrastructure/lock-free-structures/spsc_ring_queue.hpp:39-78 | In every run the slot being written is never the slot being emptied. |
| `SpscRing.SizeApprox` | infrastructure/lock-free-structures/spsc_ring_queue.hpp:59-64 | `size_approx` loads the two counters at different moments: it returns what was pushed by the second load and not popped by the first, modulo 2^64, and so that very count exactly if it is below 2^64; the count is never less than what the ring holds at the second load. |
| `SpscRing.ProducerKeeps` | infrastructure/lock-free-structures/spsc_ring_queue.hpp:67-78 | Every producer step keeps the wrapped counters and masked slots in line with the unbounded counts they stand for. |
| `SpscRing.ConsumerKeeps` | infrastructure/lock-free-structures/spsc_ring_queue.hpp:39-52 | So does every consumer step. |
| `SpscRing.MaskIsMod` | infrastructure/lock-free-structures/spsc_ring_queue.hpp:47-47 | Masking with a power of two less one is the remainder, bit by bit. |
| `SpscRing.CapacityIsPow2` | infrastructure/lock-free-structures/spsc_ring_queue.hpp:80-88 | Every ring that can be constructed has a power-of-two capacity between 2 and 2^63 that is at least what was asked for; less than 2 throws. |
| `SpscRing.CeilIsSmallest` | infrastructure/lock-free-structures/spsc_ring_queue.hpp:80-88 | `bit_ceil` gives the smallest such power. |
| `PoolConcurrency.PoolPartition` | infrastructure/memory-pool/fixed_block_pool.hpp:51-172 | In every run of any number of threads every block of every slab is in exactly one of the shared list, one cache, or outstanding; nothing else is anywhere; and two blocks never overlap. |
| `PoolConcurrency.PoolBounds` | infrastructure/memory-pool/fixed_block_pool.hpp:51-92 | In every run `bad_alloc` after a refill is never thrown, every cache is below its limit between calls, and the outstanding count is exact when no call is running. |
| `PoolConcurrency.StepKeeps` | infrastructure/memory-pool/fixed_block_pool.hpp:51-172 | Every step of every thread keeps partition, cache bounds and count. |
| `PoolConcurrency.AllocateHits` | infrastructure/memory-pool/fixed_block_pool.hpp:51-61 | A call of `allocate` that nobody interrupts, on a cache with blocks, hands out its last one, counts it and moves nothing else. |
| `PoolConcurrency.AllocateRefills` | infrastructure/memory-pool/fixed_block_pool.hpp:51-74 | On an empty cache it takes over the newest shared blocks, half the limit but at least one and no more than there are, from a new slab only if none are shared, and hands out the last. |
| `PoolConcurrency.DeallocateFlushes` | infrastructure/memory-pool/fixed_block_pool.hpp:76-91 | A call of `deallocate` puts the block last in the cache; at the limit, and only then, the cache keeps its oldest blocks, half the limit, and shares the others. |
| `BlockPool.TransferConserves` | infrastructure/memory-pool/fixed_block_pool.hpp:128-157 | Moving blocks between lists loses and duplicates none. |
| `BlockPool.RefillFillsCache` | infrastructure/memory-pool/fixed_block_pool.hpp:128-146 | After a refill the cache holds at least one block and at most half its limit, or one. |
| `BlockPool.FlushMoves` | infrastructure/memory-pool/fixed_block_pool.hpp:148-157 | A flush keeps the oldest blocks of the cache, as many as are retained, and appends the others to the shared list, newest first. |
| `BlockPool.RefillMoves` | infrastructure/memory-pool/fixed_block_pool.hpp:128-172 | A refill moves the newest min(max(limit / 2, 1), shared) blocks, newest first; a new slab, of blocks at multiples of the block size, is made exactly if none are shared. |
| `BlockPool.FixedBlockPool.Create` | infrastructure/memory-pool/fixed_block_pool.hpp:31-41 | A pool with an empty slab or cache cannot be made; blocks are at least pointer-sized. |
| `BlockPool.FixedBlockPool.AllocateSlab` | infrastructure/memory-pool/fixed_block_pool.hpp:159-172 | Appends the blocks of the new slab, each at its own offset, and counts the slab. |
| `BlockPool.FixedBlockPool.RefillLocalCache` | infrastructure/memory-pool/fixed_block_pool.hpp:128-146 | Its loop is the transfer that `BlockPool.RefillMoves` spells out, from a new slab if the shared list was empty, and the blocks moved are counted. |
| `BlockPool.FixedBlockPool.FlushLocalCache` | infrastructure/memory-pool/fixed_block_pool.hpp:148-157 | Its loop moves everything above the retained count to the shared list, as `BlockPool.FlushMoves` spells out. |
| `BlockPool.FixedBlockPool.Allocate` | infrastructure/memory-pool/fixed_block_pool.hpp:51-74 | Hands out the last cached block after a refill if need be, and always has one; the outstanding count and the three hit counters move as they should. |
| `BlockPool.FixedBlockPool.Deallocate` | infrastructure/memory-pool/fixed_block_pool.hpp:76-91 | Returns the block to the cache and flushes at the limit; a null block changes nothing. |
| `OrderBookLaws.NeverCrossed` | core-exchange/orderbook-matching-engine/orderbook_matching_engine.cpp:97-151 | Every book reached by any submits and cancels is sorted, has each id once and only open quantities above the tolerance, and every ask exceeds every bid by more than the tolerance. |
| `OrderBookLaws.SubmitKeeps` | core-exchange/orderbook-matching-engine/orderbook_matching_engine.cpp:97-123 | One submit keeps all of that. |
| `OrderBookLaws.CancelKeeps` | core-exchange/orderbook-matching-engine/orderbook_matching_engine.cpp:125-151 | One cancel keeps all of that and removes the order. |
| `OrderBookLaws.LeftIsOutOfReach` | core-exchange/orderbook-matching-engine/orderbook_matching_engine.cpp:466-510 | When a limit order is left with more than the tolerance, nobody remaining on the other side is within its reach. |
| `OrderBookLaws.FillOrKill` | core-exchange/orderbook-matching-engine/orderbook_matching_engine.cpp:282-364 | Fill-or-kill is accepted exactly if the match loop would leave at most the tolerance; accepted it never rests, rejected it leaves the book; it is filled unless it is a limit order for no more than the tolerance itself, which is accepted without a trade. That a rejection leaves index and depth as well is stated by `MatchingEngine.Engine.Submit`. |
| `OrderBookLaws.MarketOrder` | core-exchange/orderbook-matching-engine/orderbook_matching_engine.cpp:255-280 | A market order that is not fill-or-kill never rests, and is rejected exactly if it finds nobody, is for more than the tolerance and is not immediate-or-cancel. |
| `OrderBookLaws.SubmitConserves` | core-exchange/orderbook-matching-engine/orderbook_matching_engine.cpp:229-280 | Trades sum to what was executed, executed and remaining to what was asked; the other side loses between nothing and one tolerance more, however many makers go; no more trades than makers. |
| `OrderBookAnswers.RefusedExactly` | core-exchange/orderbook-matching-engine/orderbook_matching_engine.cpp:97-123 | For every book and request: which refusal it gets, in the order of the checks, by id, quantity, resting ids, resting prices within the tolerance of a post-only limit, and what the loop would leave a fill-or-kill; accepted exactly if none applies; a refusal reports the whole quantity and leaves the book. |
| `OrderBookAnswers.RestsInPlace` | core-exchange/orderbook-matching-engine/orderbook_matching_engine.cpp:229-253 | An accepted order rests exactly if it is a limit order, not immediate-or-cancel, with more than the tolerance left: then behind every order of the same or a better price and before every other, with what is left. Otherwise its own side is as it was. |
| `OrderBookAnswers.StatusExactly` | core-exchange/orderbook-matching-engine/orderbook_matching_engine.cpp:229-280 | The status of every accepted order by what was executed, what remains, kind and time in force; executed and remaining add up to the quantity. |
| `OrderBookAnswers.TradesExactly` | core-exchange/orderbook-matching-engine/orderbook_matching_engine.cpp:466-556 | The i-th trade is with the i-th order of the other side, at its price, past a limit by no more than the tolerance; all but the last for all it has open, and the last for that or all the taker wants; an accepted order left with more has next a maker further past its limit. |
| `OrderBookAnswers.CancelsExactly` | core-exchange/orderbook-matching-engine/orderbook_matching_engine.cpp:125-151 | A cancel is accepted exactly if the id rests, reports what that order had open and no execution, and removes that order and no other, from its place; an unknown id changes nothing. |
| `OrderBookAnswers.DistinctPricesExactly` | core-exchange/orderbook-matching-engine/orderbook_matching_engine.cpp:376-384 | The price levels of a side are exactly the prices of its orders, each once, from best to worst. |
| `OrderBook.FillIsPriceTimePriority` | core-exchange/orderbook-matching-engine/orderbook_matching_engine.cpp:466-556 | The makers traded are a prefix of the other side in price, then arrival order, each at its own price and within the limit plus the tolerance, all but the last for all they have. |
| `OrderBook.FillLeavesTail` | core-exchange/orderbook-matching-engine/orderbook_matching_engine.cpp:466-556 | What is left is the untouched tail, and at most one reduced maker before it, in which case the taker is done. |
| `OrderBook.FillConserves` | core-exchange/orderbook-matching-engine/orderbook_matching_engine.cpp:466-556 | Quantities balance up to one tolerance per match, and any dust means the taker is done. |
| `OrderBook.DryRunAgrees` | core-exchange/orderbook-matching-engine/orderbook_matching_engine.cpp:320-364 | The dry run says yes exactly if the mutating loop leaves at most the tolerance. |
| `OrderBook.FillExhausts` | core-exchange/orderbook-matching-engine/orderbook_matching_engine.cpp:466-510 | A taker left with more than the tolerance has met everybody it can reach. |
| `MatchingEngine.Engine.Submit` | core-exchange/orderbook-matching-engine/orderbook_matching_engine.cpp:97-123 | On price levels, id index and published depth, gives the book and the result of the specification, and keeps the three in agreement; the order is in the index afterwards exactly if it was accepted, is a limit order, not immediate-or-cancel, with more than the tolerance left, and then with its side, price and what is left; every level traded at publishes its sum; a rejected order of any kind, fill-or-kill included, leaves levels, index and depth untouched. |
| `MatchingEngine.Engine.Cancel` | core-exchange/orderbook-matching-engine/orderbook_matching_engine.cpp:125-151 | The same for cancel: accepted exactly if the id was in the index; then what that order had open is reported, it leaves the index, its level publishes its sum and so does every level that did before; an unknown id changes nothing. |
| `MatchingEngine.Engine.MatchAgainst` | core-exchange/orderbook-matching-engine/orderbook_matching_engine.cpp:466-556 | The loop over levels and queues equals the recursive fill of the flattened side and leaves the own side alone; every level traded at publishes its sum at the end, and without a trade nothing changes. |
| `MatchingEngine.Engine.TradeWithBest` | core-exchange/orderbook-matching-engine/orderbook_matching_engine.cpp:477-508 | One turn: the first maker trades the smaller quantity at its price and goes if no more than the tolerance is left; its level publishes its sum, and so does every level that did before. |
| `MatchingEngine.Engine.CanFillFully` | core-exchange/orderbook-matching-engine/orderbook_matching_engine.cpp:320-364 | The early-exit loop decides exactly whether enough can be reached. |
| `MatchingEngine.Engine.WouldCross` | core-exchange/orderbook-matching-engine/orderbook_matching_engine.cpp:366-374 | Compares with the best level only, and that decides for the whole side. |
| `MatchingEngine.Engine.AddRestingOrder` | core-exchange/orderbook-matching-engine/orderbook_matching_engine.cpp:396-420 | The order goes behind all of the same or a better price. |
| `MatchingEngine.Engine.RemoveRestingOrder` | core-exchange/orderbook-matching-engine/orderbook_matching_engine.cpp:422-464 | Exactly this order leaves its queue, the index and the depth; an emptied level goes; its level publishes its sum, and so does every level that did before. |
| `MatchingEngine.Engine.FinalizeLimit` | core-exchange/orderbook-matching-engine/orderbook_matching_engine.cpp:229-253 | Status as specified; a limit order, post-only or not, with more than the tolerance left and not immediate-or-cancel goes into the index with what is left, any other leaves it. |
| `MatchingEngine.Engine.FinalizeMarket` | core-exchange/orderbook-matching-engine/orderbook_matching_engine.cpp:255-280 | Status of a market order, as specified. |
| `MatchingEngine.Engine.HandleLimit` | core-exchange/orderbook-matching-engine/orderbook_matching_engine.cpp:282-302 | Post-only and fill-or-kill checks in order, then match and finalize; a remainder rests as stated for `FinalizeLimit`; traded levels publish their sums, a rejection touches nothing. |
| `MatchingEngine.Engine.HandleMarket` | core-exchange/orderbook-matching-engine/orderbook_matching_engine.cpp:304-318 | Fill-or-kill check, then match and finalize; traded levels publish their sums, a rejection touches nothing. |
| `MatchingEngine.Engine.RestingOrders` | core-exchange/orderbook-matching-engine/orderbook_matching_engine.cpp:169-187 | Lists every live order once, in the order of ids. |
| `MatchingEngine.Engine.Snapshot` | core-exchange/orderbook-matching-engine/orderbook_matching_engine.cpp:153-156 | Each side is a prefix of the published levels, all of them for a count of zero and at most the count otherwise, and its k-th level is at the k-th distinct price of the book. |
| `MatchingEngine.Engine.DepthPrices` | core-exchange/orderbook-matching-engine/orderbook_matching_engine.cpp:376-461 | In every agreeing state the published levels of a side are at exactly the distinct prices of its orders, in order. |
| `MatchingEngine.Engine.LiveRests` | core-exchange/orderbook-matching-engine/orderbook_matching_engine.cpp:79-86 | An id is live exactly if it rests on the book, on the side the index says. |
| `BookLevelsLaws.AddKeeps` | core-exchange/orderbook-matching-engine/orderbook_matching_engine.cpp:396-420 | Adding keeps levels, index and depth in agreement. |
| `BookLevelsLaws.RemoveKeeps` | core-exchange/orderbook-matching-engine/orderbook_matching_engine.cpp:422-464 | Removing keeps them in agreement and publishes the level sum. |
| `BookLevelsLaws.ReopenKeeps` | core-exchange/orderbook-matching-engine/orderbook_matching_engine.cpp:497-508 | A partial fill keeps them in agreement and publishes the level sum. |
| `BookLevelsLaws.JoinIsExactIfAlone` | core-exchange/orderbook-matching-engine/orderbook_matching_engine.cpp:416-419 | An order that joins a level publishes only its own quantity: the level sum is published if and only if nobody was there. |
| `BookLevels.PublishedIsBounded` | core-exchange/orderbook-matching-engine/orderbook_matching_engine.cpp:416-461 | In every agreeing state a level publishes a positive quantity never above its sum. |
| `BookLevels.OtherSideFrame` | core-exchange/orderbook-matching-engine/orderbook_matching_engine.cpp:396-464 | Orders of one side come, change and go without the other side noticing. |
| `PriceMap.PutUpdates` | infrastructure/market-data-push-system/depth_book.hpp:46-56 | Insertion by `[]=` keeps the price order and changes exactly one key. |
| `PriceMap.EraseRemoves` | infrastructure/market-data-push-system/depth_book.hpp:46-56 | Erasing keeps the price order and removes exactly one key. |
| `PriceMap.FirstIsBest` | core-exchange/orderbook-matching-engine/orderbook_matching_engine.cpp:376-384 | `begin()` is the best price. |
| `DepthBook.Depth.Update` | infrastructure/market-data-push-system/depth_book.hpp:20-32 | A positive quantity sets the level, any other removes it; the other side stays. |
| `DepthBook.Depth.AppendLevels` | infrastructure/market-data-push-system/depth_book.hpp:58-72 | The output is a prefix of the side, of length min(count, levels), and all of it for a count of zero. |
| `LedgerRuns.AlwaysReconciles` | core-exchange/account-clearing-system/account_clearing_system.cpp:73-231 | In every run in which accounts open once with nothing frozen or negative, fills name both holds and fees lie within 0 to 10000 basis points, every frozen balance is at least the sum of the holds on it and every account reconciles. |
| `LedgerRuns.JournalReplays` | core-exchange/account-clearing-system/account_clearing_system.cpp:295-303 | In every run, folding an account's journal over its opening snapshot gives its current balances in all six fields, also when buyer and seller are one account. |
| `LedgerRuns.WorthIsKept` | core-exchange/account-clearing-system/account_clearing_system.cpp:173-231 | Available plus frozen quote plus base cost less realized profit never changes after opening. |
| `LedgerRuns.TotalsAreKept` | core-exchange/account-clearing-system/account_clearing_system.cpp:173-231 | All accounts together keep their base, and lose exactly the fees of the settlements applied. |
| `LedgerRuns.SettledOnce` | core-exchange/account-clearing-system/account_clearing_system.cpp:173-178 | No trade id is settled twice in a run. |
| `LedgerRuns.OutboxMatchesSettled` | core-exchange/account-clearing-system/account_clearing_system.cpp:305-313 | The outbox holds exactly one message per settled trade. |
| `LedgerRuns.ReleaseNeverBreaks` | core-exchange/account-clearing-system/account_clearing_system.cpp:138-171 | A release finds the account of its hold: the invariant-violation branch is never taken. |
| `LedgerAnswers.SettlesExactly` | core-exchange/account-clearing-system/account_clearing_system.cpp:173-231 | An applied settlement between two accounts: cost left times base held before is cost times base left, profit is proceeds less the seller's fee less the cost released and is reported, both fees are those of the roles in the schedule, every other field and account moves by price times quantity and fees or not at all. |
| `LedgerAnswers.SettlesWithItself` | core-exchange/account-clearing-system/account_clearing_system.cpp:173-231 | The same when one account buys from itself: its cost is first that of what is left and then grows by what it pays. |
| `LedgerAnswers.CostIsAverage` | core-exchange/account-clearing-system/account_clearing_system.cpp:35-57 | The cost released is the average cost of what is sold, and nothing if nothing is held. |
| `LedgerAnswers.SettleRefusedExactly` | core-exchange/account-clearing-system/account_clearing_system.cpp:173-278 | Which refusal a fill gets, in the order of the checks, by balances, holds, price times quantity and fee; a refused fill changes nothing and reports zeros. |
| `LedgerAnswers.SettleRecords` | core-exchange/account-clearing-system/account_clearing_system.cpp:219-222 | An applied settlement is journalled once for each side under its trade id and time, for nobody else, and announced once with its parties. |
| `LedgerAnswers.FreezesExactly` | core-exchange/account-clearing-system/account_clearing_system.cpp:78-136 | A freeze is refused for the first of its reasons and then changes nothing; otherwise it moves the amount from available to frozen, holds exactly it and journals it. |
| `LedgerAnswers.ReleasesExactly` | core-exchange/account-clearing-system/account_clearing_system.cpp:138-171 | A release of a known hold moves back exactly what the hold has left, erases the hold and journals it. |
| `LedgerAnswers.ReconcilesExactly` | core-exchange/account-clearing-system/account_clearing_system.cpp:352-362 | An account reconciles exactly if it is known and none of its five balances is negative. |
| `LedgerAnswers.OpensExactly` | core-exchange/account-clearing-system/account_clearing_system.cpp:73-76 | Opening gives the account the snapshot, also if it was open, and changes nothing else. |
| `LedgerLaws.FreezeKeeps` | core-exchange/account-clearing-system/account_clearing_system.cpp:78-136 | A freeze keeps the ledger in order and hides no funds. |
| `LedgerLaws.ReleaseKeeps` | core-exchange/account-clearing-system/account_clearing_system.cpp:138-171 | So does a release, which fails only for an unknown hold. |
| `LedgerLaws.SettleKeeps` | core-exchange/account-clearing-system/account_clearing_system.cpp:173-231 | A settlement that names both holds, with fees between nothing and everything, keeps the ledger in order, whoever buys and sells. |
| `LedgerLaws.SettleSlack` | core-exchange/account-clearing-system/account_clearing_system.cpp:280-293 | Erasing a hold hides at most one tolerance of frozen funds, of the buyer's quote or the seller's base, and nothing else hides any. |
| `LedgerLaws.SettleTotals` | core-exchange/account-clearing-system/account_clearing_system.cpp:173-231 | An applied settlement moves base and loses the two fees; any other changes nothing. |
| `LedgerLaws.LedgerReconciles` | core-exchange/account-clearing-system/account_clearing_system.cpp:352-362 | A ledger in order reconciles for every account. |
| `ClearingSystem.AccountClearingSystem.FreezeQuote` | core-exchange/account-clearing-system/account_clearing_system.cpp:78-106 | The fields change as the specification says, in every branch. |
| `ClearingSystem.AccountClearingSystem.FreezeBase` | core-exchange/account-clearing-system/account_clearing_system.cpp:108-136 | The same for base. |
| `ClearingSystem.AccountClearingSystem.ReleaseHold` | core-exchange/account-clearing-system/account_clearing_system.cpp:138-171 | The same for releases. |
| `ClearingSystem.AccountClearingSystem.SettleSpotTrade` | core-exchange/account-clearing-system/account_clearing_system.cpp:173-231 | The fields and the result change as the specification says, which `LedgerAnswers.SettlesExactly`, `SettlesWithItself`, `SettleRefusedExactly` and `SettleRecords` spell out: checks in order, then balances, holds, journal, outbox, settled ids. |
| `ClearingSystem.AccountClearingSystem.CarryOut` | core-exchange/account-clearing-system/account_clearing_system.cpp:207-222 | Once the checks have passed: both legs, both holds, journal, outbox and settled id change as specified. |
| `ClearingSystem.AccountClearingSystem.MoveBalances` | core-exchange/account-clearing-system/account_clearing_system.cpp:207-214 | Updates through two references that may be one account equal two postings one after the other. |
| `ClearingSystem.AccountClearingSystem.ConsumeHoldAmount` | core-exchange/account-clearing-system/account_clearing_system.cpp:280-293 | A hold left with no more than the tolerance is erased. |
| `ClearingSystem.AccountClearingSystem.ValidateCoverage` | core-exchange/account-clearing-system/account_clearing_system.cpp:238-278 | Balances before holds, buyer before seller. |
| `ClearingSystem.AccountClearingSystem.ReconcileAccount` | core-exchange/account-clearing-system/account_clearing_system.cpp:352-362 | Five balances of a known account are not negative. |
| `RiskEngine.PreTradeRiskEngine.WouldSelfTrade` | core-exchange/pre-trade-risk-engine/pre_trade_risk_engine.cpp:271-293 | The loop finds a crossing order of the same user exactly if there is one; which orders cross is spelt out by `RiskEngine.VerdictExactly`. |
| `RiskEngine.PreTradeRiskEngine.ClearUserRestingOrders` | core-exchange/pre-trade-risk-engine/pre_trade_risk_engine.cpp:90-102 | Forgets exactly this user's orders of this symbol. |
| `RiskEngine.PreTradeRiskEngine.TrackRestingOrder` | core-exchange/pre-trade-risk-engine/pre_trade_risk_engine.cpp:85-88 | Adds one order to one symbol. |
| `RiskEngine.PreTradeRiskEngine.Evaluate` | core-exchange/pre-trade-risk-engine/pre_trade_risk_engine.cpp:104-131 | On the tracked orders of the symbol, gives the verdict that `RiskEngine.VerdictExactly` spells out. |
| `RiskEngine.VerdictExactly` | core-exchange/pre-trade-risk-engine/pre_trade_risk_engine.cpp:104-131 | The verdict rule by rule: malformed, unknown market, another rule, an order of the same user tracked on the other side at a price the order accepts while prevention is on, or none of these. |
| `ExchangeResults.EveryReport` | integration/exchange-pipeline/exchange_pipeline.cpp:193-248 | In every run: accepted is reported if and only if the submit completed, and only with an accepted match; it is refused by risk exactly if the verdict is not `Passed`, by clearing exactly if it passed and the funds could not be held, by matching exactly if they were held and the match was not accepted, an order refused by risk or clearing leaves the whole exchange as it was and one refused by matching leaves book and last known prices; otherwise result and book are those of the match; no invariant violation; a settlement is rejected if and only if the order is a market buy whose trades cost more than the best ask for all of it; and a completed submit has one applied settlement per trade, leaves exactly the live orders managed and tracked, and the last known prices follow the book. |
| `ExchangeAnswers.SelfTradeRefusedExactly` | core-exchange/pre-trade-risk-engine/pre_trade_risk_engine.cpp:271-293 | In every run, after a completed submit: an order is refused as a self-trade if and only if prevention is on, it is well formed for this market, the other rules pass, and an order of its user rests on the other side of the book with the order a market order or its price at or past that one. |
| `ExchangeAnswers.FundsHeldExactly` | integration/exchange-pipeline/exchange_pipeline.cpp:534-556 | In every submit for which funds are held, the first thing journalled for its user is the freeze of a sell's quantity, or of a buy's quantity at its limit, the best ask or the last one known, with the taker fee; journals only grow, each entry at its stage's time. |
| `ExchangeAnswers.TradesAnnounced` | integration/exchange-pipeline/exchange_pipeline.cpp:359-409 | In every run a completed submit announces each of its trades once, in order, with the owners of its two orders as buyer and seller, and its settlement reports price times quantity and charges each side the rate of its role. |
| `ExchangeAnswers.SettlingStops` | integration/exchange-pipeline/exchange_pipeline.cpp:359-409 | For any ledger, registry and trades: they are settled in order up to the first settlement neither applied nor a duplicate, which is a rejected settlement, or up to the first trade with an order nobody owns, which is an invariant violation; completed exactly if there is neither. |
| `ExchangeOverspending.SettlementCanBeRejected` | integration/exchange-pipeline/exchange_pipeline.cpp:534-556 | A legal run from an unused exchange, two sells at 100 and 200 and a market buy for both, whose last report is a rejected settlement. |
| `ExchangeResults.HoldsCoverOrders` | integration/exchange-pipeline/exchange_pipeline.cpp:308-326 | In every run, market buys included, every live buy has a hold of at least price times open with the taker fee, every live sell one of at least its open quantity, both of the owner. |
| `ExchangeResults.NoSelfTrade` | integration/exchange-pipeline/exchange_pipeline.cpp:606-631 | In every run with prevention on, no trade has one user as maker and taker, also after a submit that stopped halfway. |
| `ExchangeOffGrid.SelfTradeWithinTolerance` | core-exchange/pre-trade-risk-engine/pre_trade_risk_engine.cpp:271-293 | In every run at any prices in which no limit order had its settlement rejected, with prevention on: if one user is maker and taker of a trade, the taker is a limit order and the price is past its limit by more than nothing and no more than the tolerance. |
| `ExchangeUntracked.OwnOrderUnseen` | integration/exchange-pipeline/exchange_pipeline.cpp:233-243 | A run without a grid that shows why that condition is there: a limit order whose settlement is rejected rests while the sync is skipped, and its owner's market order then trades with it. |
| `ExchangeOffGrid.SubmitLoosely` | integration/exchange-pipeline/exchange_pipeline.cpp:193-248 | At any prices a submit never reports an invariant violation, keeps the ledger and the owners of live orders in order, and leaves a live order untracked only if it is a limit order whose settlement was rejected. |
| `ExchangeResults.RegistryMatchesBook` | integration/exchange-pipeline/exchange_pipeline.cpp:411-453 | After every completed submit the registry holds exactly the live ids, each with the side it rests on. |
| `ExchangeResults.NoStrandedFunds` | integration/exchange-pipeline/exchange_pipeline.cpp:411-453 | After every completed submit an account's frozen balance exceeds the holds of its live orders by between nothing and one tolerance per closed order. |
| `ExchangeResults.AccountsReconcile` | integration/exchange-pipeline/exchange_pipeline.cpp:193-248 | In every run every account reconciles. |
| `ExchangeResults.Always` | integration/exchange-pipeline/exchange_pipeline.cpp:193-248 | The invariant across book, ledger and tracking holds in every run of registrations and submits. |
| `ExchangeResults.SubmitKeeps` | integration/exchange-pipeline/exchange_pipeline.cpp:193-248 | One submit keeps it, whichever stage it ends in. |
| `ExchangeResults.RejectedKeeps` | integration/exchange-pipeline/exchange_pipeline.cpp:339-357 | A rejected match gives back what was held and forgets the order; the release cannot fail. |
| `ExchangeSteps.EnoughUnlessOverspent` | integration/exchange-pipeline/exchange_pipeline.cpp:534-556 | What is reserved is enough for all trades unless a market buy overspends, and covers what comes to rest. |
| `ExchangeSteps.ManagingKeeps` | integration/exchange-pipeline/exchange_pipeline.cpp:308-337 | Holding funds for a new order keeps the invariant, and none of its trades is settled yet. |
| `ExchangeSettling.TakerDecides` | integration/exchange-pipeline/exchange_pipeline.cpp:363-402 | Given covered makers, a trade is settled exactly if the taker's hold covers it, and is never taken for a duplicate. |
| `ExchangeSettling.TakerMustHave` | integration/exchange-pipeline/exchange_pipeline.cpp:359-409 | All trades of a match are settled, each once, exactly if the taker has what they cost in all. |
| `ExchangeSettling.RunKeeps` | integration/exchange-pipeline/exchange_pipeline.cpp:359-409 | Whether or not every trade is settled, the funds stay in order, the owners are found, and the makers left stay covered. |
| `ExchangeClosing.ClosingKeeps` | integration/exchange-pipeline/exchange_pipeline.cpp:411-453 | Releasing never fails in whatever order the registry is visited, leaves the live orders' holds alone and at most dust behind. |
| `ExchangeFunds.ReleaseFunds` | integration/exchange-pipeline/exchange_pipeline.cpp:647-656 | A residual hold can always be released, and what is not released is at most the tolerance. |
| `ExchangeInvariant.TradeIdIsInjective` | integration/exchange-pipeline/exchange_pipeline.cpp:383-383 | A trade id determines maker and taker when ids contain no arrow. |
| `ExchangeLedger.LedgerOfRun` | integration/exchange-pipeline/exchange_pipeline.cpp:193-248 | The ledger of the exchange is that of a legal run of clearing operations, with the registered snapshots and the reported fees. |
| `ExchangeLedger.ExchangeConserves` | integration/exchange-pipeline/exchange_pipeline.cpp:193-248 | In every run all accounts together hold the base they registered with, and the quote they registered with less exactly the fees reported. |
| `ExchangeLedger.AccountsReplay` | integration/exchange-pipeline/exchange_pipeline.cpp:193-248 | In every run each account's journal replays to its balances, and its worth is what it registered with. |
| `ExchangePipeline.ExchangePipeline.Create` | integration/exchange-pipeline/exchange_pipeline.cpp:161-169 | An empty symbol makes no exchange. |
| `ExchangePipeline.ExchangePipeline.Submit` | integration/exchange-pipeline/exchange_pipeline.cpp:193-248 | On the three engines, does what the specification of the whole workflow says, for some order of visiting the registry; what it reports is spelt out by `ExchangeResults.EveryReport`. |
| `ExchangePipeline.ExchangePipeline.ReserveAmount` | integration/exchange-pipeline/exchange_pipeline.cpp:534-556 | The limit price, or the best published ask, or the last one known, with the taker fee. |
| `ExchangePipeline.ExchangePipeline.ReserveOrderHold` | integration/exchange-pipeline/exchange_pipeline.cpp:308-326 | Freezes it on the side's asset under the order's hold id. |
| `ExchangePipeline.ExchangePipeline.SettleAll` | integration/exchange-pipeline/exchange_pipeline.cpp:359-409 | The loop settles in order and stops at the first failure. |
| `ExchangePipeline.ExchangePipeline.ReleaseClosedOrders` | integration/exchange-pipeline/exchange_pipeline.cpp:411-453 | The two passes over listing and registry equal the specification's scan. |
| `ExchangePipeline.ExchangePipeline.SyncRestingOrders` | integration/exchange-pipeline/exchange_pipeline.cpp:606-631 | Forget and relearn, over sets of users and a listing. |
| `ExchangePipeline.ExchangePipeline.RefreshMarketReference` | integration/exchange-pipeline/exchange_pipeline.cpp:633-645 | The last known best prices follow the book and stay when a side is empty. |
| `ExchangePipeline.ExchangePipeline.HandleRejectedMatch` | integration/exchange-pipeline/exchange_pipeline.cpp:339-357 | Release, forget, sync. |
| `ExchangePipeline.ExchangePipeline.FinishMatch` | integration/exchange-pipeline/exchange_pipeline.cpp:233-248 | Settle, close, sync, refresh, in this order, stopping at a failure; accepted is reported exactly if all went through, as `ExchangeResults.EveryReport` says. |
| `ExchangePipeline.ExchangePipeline.ReleaseResidualHold` | integration/exchange-pipeline/exchange_pipeline.cpp:647-656 | Nothing to do for no hold or dust. |

## Left out

- Weak memory orderings, cache-line alignment, backoff and yielding: atomic actions interleave sequentially consistently.
- Liveness and lock-freedom of the queue.
- Thread-local token caching, token release with its forced collection, destructors, and thread exit with a non-empty pool cache; the search for a free epoch slot is reduced to claiming the one that is found.
- Moving a value out of a node and resetting it are one step; no other thread touches that node's value.
- A run of the queue in which the 64-bit epoch counter stands on its last value; `ShortRunsLast` says how long that takes.
- Rounding of IEEE doubles, parsing and formatting of numbers and payloads, timestamps of orders and of the risk window.
- The gateway with its credentials, routes and rate windows: a workflow starts from an order that passed it and was parsed.
- Risk rules other than self-trade prevention, their copy of the balances, their audit queue and their top of book.
- Event queue, broadcaster, market data replay and the outputs copied into a workflow result.
- Dispatching of outbox messages; the outbox is an append-only sequence of messages.
- Accounts opened again over existing ones and settlements with empty hold ids in run-level results: they bypass hold accounting. The operations themselves are modelled with both.
- Reconfiguring a market, several symbols, and the limits checked when a market is configured.
- The encoding of ids: the order of ids compares characters, the program's compares bytes.
- Failure of memory allocation, and pool clients that free a block they do not hold.
- More than one producer or more than one consumer on the single-producer single-consumer ring.
- Candle aggregation, transactional wallet, saga, observability and performance tools: small bookkeeping with easier properties.
