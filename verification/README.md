# AstraExchange in Dafny

AstraExchange is a limit order book and matching engine with four order types (LIMIT, MARKET,
IOC, FOK), a multi-symbol engine in front of the books, and a benchmark that runs order streams
in three modes: sequentially, through a lock-free ring between two threads, and with orders
living in a slab pool. This project models all of these and proves what they promise.

The model has three layers.

* Objects: `OrderBooks.dfy`, `MatchingEngines.dfy`, `InvariantChecker.dfy`, `BenchmarkRunner.dfy`,
  `RingBuffer.dfy`, `MemoryPools.dfy` and `PoolRun.dfy` hold the classes with the fields the program
  updates in place. Each method is proved equal to a function on values; `RestingObjects.dfy` shows
  that the order objects an engine refers to are its resting orders, one object for each.
* Values: `Matching.dfy`, `Inspection.dfy` and `Engine.dfy` hold those functions: level lists
  with cached totals that wrap around at 2^64, the id index, the validator and the counters.
* References: `PriceTime.dfy` defines price-time priority on one flat list, and
  `Refinement.dfy` shows that every book operation is the corresponding operation on that list.

On top of them stand the laws of one book (`BookLaws.dfy`, `Totals.dfy`) and the laws of whole
runs over arbitrary request streams (`Runs.dfy`, `Conservation.dfy`, `Ledger.dfy`,
`Lifecycle.dfy`, `Priority.dfy`, `Projection.dfy`, `ExactRuns.dfy`, `WrappedTotals.dfy`).
`Answers.dfy` says what the caller is told, fill, status, reason and trades, without naming the
functions that compute it. The ring is a two-thread step system (`SpscRing.dfy`) in which each atomic load, slot access and store is one
step and a load of the other thread's index may be stale; `Pipeline.dfy` and `PipelineRun.dfy`
show that the pipelined run equals the sequential one under every interleaving.

Where comments or documentation and code differ, the model follows the code:

* the ring has capacity - 1 usable slots, not capacity (`SpscRing.PushFullIff`);
* a partly filled IOC ends `PARTIALLY_FILLED`, and a MARKET order without any fill does too
  (`Refinement.AddOrderRefines`);
* a cancel leaves the status of the order object alone (`OrderBooks.OrderBook.CancelOrder`
  modifies levels and the book, never an order);
* the book's own structural check is much weaker than its invariant
  (`Inspection.StructureIsWeaker`);
* FOK is all-or-nothing only while 64-bit sums do not wrap. `Totals.FokVerdictIff` gives the
  exact conditions in every valid book, and two reachable books show both failures: a FOK refused
  although enough quantity is on offer (`Totals.FokMissesLiquidity`) and a FOK reported `FILLED`
  with part of its quantity open (`Totals.FokReportsFilled`);
* a cached level total is the open quantity of the level only below 2^64; beyond, it is that
  quantity modulo 2^64 exactly as long as the clamp in `updateTotalQty` takes no effect
  (`WrappedTotals.AlwaysModularIff`), and the clamp is reached (`WrappedTotals.ClampReached`).

## Model

| member | source | states |
|---|---|---|
| OrderBooks.PriceLevel.AddOrder | include/core/PriceLevel.hpp:16-19 | the order goes to the back of the queue and its remainder is added to the cached total modulo 2^64 |
| OrderBooks.PriceLevel.RemoveOrder | include/core/PriceLevel.hpp:22-31 | exactly the first order with the id leaves, the others keep their order, its remainder leaves the total; found says whether there was one |
| OrderBooks.PriceLevel.PopFront | include/core/PriceLevel.hpp:37-42 | the front order leaves with its remainder; an empty level is left alone |
| OrderBooks.PriceLevel.UpdateTotalQty | include/core/PriceLevel.hpp:45-47 | the cached total drops by the filled quantity, stopping at zero |
| OrderBooks.Exchange | src/core/OrderBook.cpp:116-129 | one trade moves the same quantity into maker and taker, sets the maker's status, reduces the level's total and drops a filled maker from the queue |
| OrderBooks.OrderBook.TradeFront | src/core/OrderBook.cpp:109-131 | one pass of the loop trades the front order of the best level for the smaller remainder at the maker's price, and updates both orders, level, side map and index together; the other side and all other objects are untouched |
| OrderBooks.OrderBook.DrainSide | src/core/OrderBook.cpp:104-134 | the loop ends in the book, taker, trades and filled makers of Matching.Drain, keeps the book valid, and removes exactly the filled makers |
| OrderBooks.OrderBook.RestOrder | src/core/OrderBook.cpp:136-147 | the order is appended to its level or gets a new level at the sorted place, and is indexed; the book stays valid |
| OrderBooks.OrderBook.CancelOrder | src/core/OrderBook.cpp:20-42 | an indexed id leaves level, side map and index, an unknown id changes nothing and returns false; the book stays valid |
| OrderBooks.OrderBook.AvailableFill | src/core/OrderBook.cpp:191-201 | the wrapped running sum of the crossing levels, stopped early, without changing the book |
| OrderBooks.OrderBook.MatchLimit | src/core/OrderBook.cpp:149-174 | book, order and trades are those of the value-level submission of a LIMIT order; the invariant is kept |
| OrderBooks.OrderBook.MatchMarket | src/core/OrderBook.cpp:176-188 | the same for a MARKET order |
| OrderBooks.OrderBook.MatchIoc | src/core/OrderBook.cpp:204-226 | the same for an IOC order |
| OrderBooks.OrderBook.MatchFok | src/core/OrderBook.cpp:229-257 | the same for a FOK order, whether its scan succeeds or not |
| OrderBooks.OrderBook.AddOrder | src/core/OrderBook.cpp:9-18 | dispatch by type: book, order and trades are those of Matching.AddOrder, the book stays valid, and at most this order is new in it |
| OrderBooks.OrderBook.SpreadOf | src/core/OrderBook.cpp:58-63 | the query gives the best ask less the best bid, or nothing if a side is empty |
| OrderBooks.OrderBook.TopOf | src/core/OrderBook.cpp:65-83 | the first n levels with price, cached quantity and order count; nothing changes |
| OrderBooks.OrderBook.TotalQtyOf | src/core/OrderBook.cpp:85-95 | the wrapped sum of a side's cached quantities; nothing changes |
| OrderBooks.OrderBook.CheckInvariants | src/core/OrderBook.cpp:259-283 | on any book, valid or not, true exactly if it is uncrossed, has no order without remainder and a level at every indexed price |
| Matching.FillBookOk | src/core/OrderBook.cpp:116-131 | a fill of the front order keeps sorted non-empty levels, partial fills only at level fronts, best bid below best ask, and index and orders in exact correspondence |
| Matching.DrainOk | src/core/OrderBook.cpp:107-132 | matching keeps the strong invariant, stops only when nothing more can trade, touches neither the other side nor anything of the taker but its fill |
| Matching.NoLevelAtCrossingPrice | src/core/OrderBook.cpp:137-147 | in an uncrossed book the own side has no level at a price that crosses, so a partly filled limit order always opens a new best level |
| Matching.LimitRests | src/core/OrderBook.cpp:160-171 | the remainder of a limit order may rest: the book stays valid and uncrossed, and a partly filled one becomes the best level |
| Matching.AddOrderOk | src/core/OrderBook.cpp:9-257 | every submission keeps the strong invariant |
| Matching.CancelOk | src/core/OrderBook.cpp:20-42 | every cancel keeps the strong invariant |
| Matching.CancelCuts | src/core/OrderBook.cpp:20-42 | cancelling an indexed id cuts precisely the resting order with that id, and an emptied level |
| PriceTime.GreedyIsFair | src/core/OrderBook.cpp:104-134 | greedy consumption serves the list in order at makers' prices, fills every maker but the last whole, accounts for every unit, and stops only when the taker is filled or no accepted price is left |
| PriceTime.FairIsGreedy | src/core/OrderBook.cpp:104-134 | price-time fairness determines trades, remaining list and open quantity uniquely |
| Refinement.DrainIsGreedy | src/core/OrderBook.cpp:104-134 | the loop over levels makes exactly the trades and leaves exactly the list of greedy consumption of the flattened side |
| Refinement.RestInFlat | src/core/OrderBook.cpp:136-147 | resting inserts the order behind all orders of equal or better price |
| Refinement.AddOrderRefines | src/core/OrderBook.cpp:9-257 | a submission of any type is the submission to the flat book: remaining lists, trades, final fill and status of the order |
| Refinement.CancelRefines | src/core/OrderBook.cpp:20-42 | a cancel removes exactly that id from the flat lists and succeeds exactly if it was there |
| Refinement.IndexIsFlat | include/core/OrderBook.hpp:62-64 | the ids indexed on a side are exactly the ids of the orders resting there |
| BookLaws.FokIsIocOrNothing | src/core/OrderBook.cpp:204-257 | a FOK whose scan succeeds leaves the book and trades of an identical IOC, otherwise it leaves no trace |
| BookLaws.LimitThenCancelIsIoc | src/core/OrderBook.cpp:20-42 | LIMIT followed by CANCEL leaves the same levels, totals, index and trades as an IOC with the same parameters |
| BookLaws.RestedAndCancelled | src/core/OrderBook.cpp:136-174 | for a limit order that does not cross, submitting and cancelling it is the identity on the book |
| BookLaws.CancelUndoesRest | src/core/OrderBook.cpp:20-42 | cancel is the inverse of resting, even if a cached total wrapped around in between |
| BookLaws.IocSplits | src/core/OrderBook.cpp:204-226 | an IOC for q1 followed by one for q2 leaves the book of one IOC for q1 + q2 |
| BookLaws.IocSplitsTrades | src/core/OrderBook.cpp:204-226 | and trades the same total with every maker |
| BookLaws.GreedySplits | src/core/OrderBook.cpp:104-134 | on the flat list the split run leaves the same list and fills the same makers in the same order |
| Totals.FillFrontExact | include/core/PriceLevel.hpp:45-47 | with exact totals the saturating branch never fires and the total stays exact |
| Totals.DrainExact | src/core/OrderBook.cpp:104-134 | matching keeps every cached total equal to the sum of remainders |
| Totals.RestExactIff | include/core/PriceLevel.hpp:16-19 | resting keeps the totals exact if and only if the open quantity at the price stays below 2^64 |
| Totals.ScanShows | src/core/OrderBook.cpp:191-201 | despite its early exit the scan reaches the wanted quantity if and only if some prefix sum of the crossing levels does so modulo 2^64 |
| Totals.FokVerdictIff | src/core/OrderBook.cpp:229-257 | in every valid book, whatever its totals: FILLED is reported if and only if a prefix of the levels shows the quantity in 64 bits, the order is filled if and only if the quantity is on offer as well, a FILLED report is true if and only if what is shown is on offer, and FILLED means enough liquidity if and only if shown and on offer agree |
| Totals.FokScanIff | src/core/OrderBook.cpp:229-257 | with exact totals what is shown is always on offer, so a FOK that executes fills completely, and sufficient liquidity is enough if and only if it is shown, as it is below 2^64 |
| Totals.FokOutcome | src/core/OrderBook.cpp:229-257 | in any valid book, status and fill of a FOK in terms of the scan and the quantity on offer |
| Totals.FokAllOrNothing | src/core/OrderBook.cpp:229-257 | while less than 2^64 is on offer a FOK fills exactly, with the trades and book of an IOC, or leaves no trace |
| Totals.FokMissesLiquidity | src/core/OrderBook.cpp:194-200 | a valid book with exact totals whose scan wraps: a FOK is refused although 2^64 units are on offer |
| Totals.FokReportsFilled | src/core/OrderBook.cpp:245-256 | a valid book with an inflated total: a FOK is reported FILLED with part of its quantity open |
| Totals.TwoAsksReached | src/core/OrderBook.cpp:136-147 | the counterexample books are reached by two ordinary limit orders |
| Totals.InflatedReached | src/core/OrderBook.cpp:20-42 | the inflated book is reached by two limit orders, an IOC and a cancel |
| Answers.FillIs | src/core/OrderBook.cpp:104-257 | every order but a FOK trades what is open at the prices it takes, up to its quantity, a FOK as much or nothing; any price for MARKET, its own or a better one otherwise |
| Answers.StatusIs | src/core/OrderBook.cpp:149-257 | the final status of each order type from quantity and open quantity alone |
| Answers.MarketTakesAll | src/core/OrderBook.cpp:176-188 | a MARKET order fills from everything that rests on the other side and is FILLED if and only if that covers it |
| Answers.TradesAre | src/core/OrderBook.cpp:98-131 | the trades name the makers down the other side's list, at their prices, whole but for the last; makers traded whole end FILLED |
| Answers.CancelledIff | src/core/OrderBook.cpp:204-257 | an order comes back CANCELLED if and only if it is a FOK or IOC that traded nothing |
| Inspection.BestIsBest | src/core/OrderBook.cpp:48-63 | in a valid book no resting order beats the best price and the spread is positive |
| Inspection.SpreadIs | src/core/OrderBook.cpp:58-63 | the spread is the least difference between a resting ask and a resting bid, attained by some pair, and none if a side is empty |
| Inspection.TopShows | src/core/OrderBook.cpp:65-83 | every entry of a depth query counts the orders resting at its price, shows their open quantity if totals are exact, and has a worse price than the one before it |
| Inspection.TopComplete | src/core/OrderBook.cpp:65-83 | a resting order is missing from it only behind n better prices |
| Inspection.TotalQtyIs | src/core/OrderBook.cpp:85-95 | with exact level totals the reported volume is the open quantity modulo 2^64 |
| Inspection.StructureHolds | src/core/OrderBook.cpp:259-283 | the structural check is true of every valid book |
| Inspection.StructureIff | src/core/OrderBook.cpp:259-283 | the check fails for a crossed book, a resting order without remainder or an indexed price without a level, and for nothing else |
| Inspection.StructureIsWeaker | src/core/OrderBook.cpp:273-280 | it is also true of a book with an order no cancel can reach |
| Engine.RegisterKeeps | src/core/MatchingEngine.cpp:7-10 | registering keeps every book valid, ids disjoint between books, books and known symbols equal |
| Engine.CancelKeeps | src/core/MatchingEngine.cpp:50-60 | so does cancelling |
| Engine.SubmitKeeps | src/core/MatchingEngine.cpp:12-48 | so does every submission, accepted or not |
| Engine.SubmitRejected | src/core/MatchingEngine.cpp:20-31 | a refused order changes nothing but the submission counter and yields no trades |
| Answers.CancelAnswer | src/core/MatchingEngine.cpp:50-60 | a cancel is answered CANCELLED if and only if the order rests, otherwise REJECTED with the symbol or the order as unknown; afterwards the order rests no more, and no other book and no counter has changed |
| Answers.SubmitAnswer | src/core/MatchingEngine.cpp:12-48 | a refused order is REJECTED for the first check it fails; an accepted one comes back with its status and trades, and with a reason if and only if it is a FOK or an IOC that traded nothing |
| Answers.SubmitCancelAnswer | src/core/MatchingEngine.cpp:15-18 | a CANCEL order is answered like a cancel, counted, and left alone |
| MatchingEngines.RiskValidator.RegisterSymbol | include/core/RiskValidator.hpp:16-16 | the symbol is known from now on |
| MatchingEngines.RiskValidator.Validate | include/core/RiskValidator.hpp:18-32 | each reason if and only if its check fails and those before it pass, in the order quantity, limit price, symbol, id; none if and only if all four hold |
| MatchingEngines.RiskValidator.RecordId | include/core/RiskValidator.hpp:34-34 | the id is used from now on |
| MatchingEngines.MatchingEngine.RegisterSymbol | src/core/MatchingEngine.cpp:7-10 | a symbol gets an empty book unless it has one; all other books stay as they are |
| MatchingEngines.MatchingEngine.CancelOrder | src/core/MatchingEngine.cpp:50-60 | engine and response are those of Engine.CancelById; books of other symbols are untouched |
| MatchingEngines.MatchingEngine.Place | src/core/MatchingEngine.cpp:25-47 | the id is recorded, only the book of the symbol changes, the trade counter grows by the trades, and the reason is set as the status asks |
| MatchingEngines.MatchingEngine.SubmitOrder | src/core/MatchingEngine.cpp:12-48 | engine, order object and response are those of Engine.SubmitOrder; the engine stays valid and holds at most this one order more |
| Runs.AfterIsEngine | src/core/MatchingEngine.cpp:12-48 | the recorded history follows the engine's own submit operation |
| Runs.EveryBookOk | src/core/OrderBook.cpp:9-147 | after every run the strong invariant holds in every book: uncrossed, sorted, no empty level, only unfilled orders resting, only the front order of a level partly filled, index and orders in exact correspondence |
| Conservation.RunBalanced | src/core/OrderBook.cpp:116-226 | after every run, per symbol and side: accepted quantity = traded + resting + cancelled remainder + discarded remainder |
| Ledger.RunLedger | src/core/OrderBook.cpp:116-129 | after every run each order's fill is the sum of the trades naming it, filled, cancelled and discarded ids are used and rest nowhere, and every accepted id is counted exactly once as resting, filled, cancelled or discarded |
| Ledger.AmortisedBound | src/core/MatchingEngine.cpp:25-34 | after every run the trade counter plus the number of resting orders is at most the number of accepted ids |
| Lifecycle.DeadForever | src/core/MatchingEngine.cpp:20-25 | an id that is used and rests nowhere never rests or trades again in any continuation, and the trade log only grows |
| Lifecycle.TradesSound | include/core/RiskValidator.hpp:22-23 | no trade of any run has equal maker and taker, zero quantity or a price that is not positive |
| Priority.RunArrival | include/core/PriceLevel.hpp:16-19 | after every run every side is ordered by price and then by acceptance, whatever fills and cancels happened |
| Priority.PriorityKept | src/core/OrderBook.cpp:109-131 | if an order with priority rests, no trade reaches a later order unless an earlier trade of the same submission filled the first one completely |
| Projection.RunsProjectIff | src/core/MatchingEngine.cpp:12-60 | in any interleaved run a symbol's accepted orders are those of the run of its own requests if and only if no otherwise valid order of the symbol meets an id accepted first on another symbol, and then its book and trades are the same too |
| Projection.BooksProjectIff | src/core/MatchingEngine.cpp:12-60 | a symbol's book and trades are those of the run of its own requests after every request if and only if no order that is the symbol's first to clash with an id would have rested or traded |
| Projection.StirsIff | src/core/OrderBook.cpp:149-257 | what "rested or traded" means, read off the book before the submission: a LIMIT order always, a MARKET or IOC order if the best opposite price crosses, a FOK order if moreover its scan succeeds |
| Projection.RunsProject | src/core/MatchingEngine.cpp:12-60 | in particular accepted orders, book and trades agree if no id is submitted on two symbols |
| Projection.SharedIdIsRefused | include/core/RiskValidator.hpp:28-34 | what a clash does: an id accepted on one symbol is refused on another that would accept it alone |
| Projection.SharedIdReached | src/core/MatchingEngine.cpp:7-10 | two registered symbols suffice for a clash |
| ExactRuns.AlwaysExactIff | include/core/PriceLevel.hpp:16-47 | over any run no cached total ever differs from the sum of remainders if and only if no level ever holds 2^64 or more |
| ExactRuns.RunExact | include/core/PriceLevel.hpp:16-47 | in particular while the accepted quantity is below 2^64 |
| ExactRuns.FokOverRuns | src/core/OrderBook.cpp:229-257 | in such runs every FOK executes exactly if enough crosses, fully and like an IOC, or leaves no trace |
| WrappedTotals.ExactIffModular | include/core/PriceLevel.hpp:16-47 | totals are exact if and only if they are right modulo 2^64 and no level holds 2^64 or more |
| WrappedTotals.RestModularIff | include/core/PriceLevel.hpp:16-19 | resting neither spoils nor repairs a total modulo 2^64 |
| WrappedTotals.CutAtModular | include/core/PriceLevel.hpp:22-31 | a removal spoils none |
| WrappedTotals.FillFrontModularIff | include/core/PriceLevel.hpp:45-47 | a fill spoils a total if and only if the level keeps orders and its cached total is below the filled quantity, that is, if the clamp takes effect |
| WrappedTotals.ModularDrainIff | src/core/OrderBook.cpp:104-134 | matching keeps the totals right modulo 2^64 at every point if and only if none of its fills clamps |
| WrappedTotals.AlwaysModularIff | include/core/PriceLevel.hpp:16-47 | over any run the totals of all books are right modulo 2^64 after every request and every fill if and only if no fill of the run clamps |
| WrappedTotals.UnclampedExactIff | include/core/PriceLevel.hpp:16-47 | after such a run a side's totals are exact if and only if no level holds 2^64 or more |
| WrappedTotals.TotalQtyModular | src/core/OrderBook.cpp:85-95 | totals right modulo 2^64 report the open quantity modulo 2^64 as the volume of the side |
| WrappedTotals.SmallRunsNeverClamp | include/core/PriceLevel.hpp:45-47 | no fill clamps while the accepted quantity is below 2^64 |
| WrappedTotals.ClampReached | include/core/PriceLevel.hpp:45-47 | the clamp is reached, and it is what inflates the total of the counterexample book |
| WrappedTotals.ModularFok | src/core/OrderBook.cpp:229-257 | where the totals are right modulo 2^64 a FOK is reported FILLED if and only if it is filled |
| WrappedTotals.FokUnclamped | src/core/OrderBook.cpp:229-257 | so in every run without a clamp, whatever its quantities, no FILLED report of an accepted FOK is untrue |
| InvariantChecker.BookPasses | src/benchmark/InvariantChecker.cpp:6-63 | what passing means for a book, as an if and only if |
| InvariantChecker.TradesPass | src/benchmark/InvariantChecker.cpp:65-100 | trades pass if and only if all have positive price and nonzero quantity and, with one quote per trade, no crossed quotes |
| InvariantChecker.IdsPass | src/benchmark/InvariantChecker.cpp:102-115 | ids pass if and only if they are pairwise different |
| InvariantChecker.MergePasses | src/benchmark/InvariantChecker.cpp:117-125 | the merged report passes if and only if all reports pass |
| InvariantChecker.BookRules | src/benchmark/InvariantChecker.cpp:6-63 | a book is reported under a rule if and only if it breaks that rule |
| InvariantChecker.BookOrder | src/benchmark/InvariantChecker.cpp:6-63 | in the order crossing, bid levels, ask levels, volume, structure |
| InvariantChecker.TradeRules | src/benchmark/InvariantChecker.cpp:65-100 | a rule is reported for a symbol if and only if some trade of the symbol breaks it |
| InvariantChecker.LevelsCount | src/benchmark/InvariantChecker.cpp:23-49 | and each level is reported once under each rule it breaks |
| InvariantChecker.TradesCount | src/benchmark/InvariantChecker.cpp:65-100 | and each trade likewise |
| InvariantChecker.DuplicateRules | src/benchmark/InvariantChecker.cpp:102-115 | one violation of the uniqueness rule for every repetition and nothing else |
| InvariantChecker.MergedLists | src/benchmark/InvariantChecker.cpp:117-125 | the merged violations are those of all reports one after the other |
| InvariantChecker.ExactBookPasses | src/benchmark/InvariantChecker.cpp:6-63 | every valid book with exact totals below 2^64 passes |
| InvariantChecker.ValidBookPasses | src/benchmark/InvariantChecker.cpp:6-63 | a valid book passes if and only if no cached quantity of its first 10000 levels per side is zero and, unless it is empty, neither is the volume of both sides |
| InvariantChecker.WrappedBookFails | src/benchmark/InvariantChecker.cpp:27-31 | beyond 2^64 it may not: two resting orders of 2^63 at one price show a level of quantity zero |
| InvariantChecker.CheckBook | src/benchmark/InvariantChecker.cpp:6-63 | the report lists exactly the violations of the book, in order, and the book is unchanged |
| InvariantChecker.CheckTrades | src/benchmark/InvariantChecker.cpp:65-100 | the loop lists exactly the violations of all trades; passed means there are none |
| InvariantChecker.CheckUniqueIds | src/benchmark/InvariantChecker.cpp:102-115 | one violation for every id seen earlier in the list |
| InvariantChecker.Merge | src/benchmark/InvariantChecker.cpp:117-125 | all violations in order, and the conjunction of the verdicts |
| BenchmarkRunner.HandleOrder | src/benchmark/BenchmarkRunner.cpp:97-114 | one iteration: the order is submitted and counted as rejected, cancelled or accepted, its trades and id appended |
| BenchmarkRunner.RunBaseline | src/benchmark/BenchmarkRunner.cpp:78-122 | the loop over order objects ends with the engine, counters, trades and ids of the sequential fold |
| BenchmarkRunner.BaselineIsRun | src/benchmark/BenchmarkRunner.cpp:81-114 | the benchmark's engine and trades are those of the run of its requests, so all run laws apply |
| BenchmarkRunner.BaselineTally | src/benchmark/BenchmarkRunner.cpp:102-113 | accepted ids are different, every order is counted once, trade counters agree with the trades and the engine |
| BenchmarkRunner.BaselineReplies | src/benchmark/BenchmarkRunner.cpp:97-114 | the counters, trades and accepted ids are read off the engine's answers: REJECTED, CANCELLED or neither |
| BenchmarkRunner.Finalise | src/benchmark/BenchmarkRunner.cpp:52-72 | the report merges the checks of all registered books, all trades and the accepted ids, or passes unchecked |
| BenchmarkRunner.ReportPassesIff | src/benchmark/BenchmarkRunner.cpp:52-72 | for every stream, whatever its quantities: every listed symbol has a book, and the merged report passes if and only if none of these books shows a zero quantity where something rests |
| BenchmarkRunner.CheckerAlwaysPasses | src/benchmark/BenchmarkRunner.cpp:58-66 | for all symbols and all streams whose accepted quantity is below 2^64 the merged report passes |
| BenchmarkRunner.SmallStreamsPass | src/benchmark/BenchmarkRunner.cpp:58-66 | in particular if the submitted quantities sum to less than 2^64 |
| Bits.MaskIsMod | include/utils/SpscRingBuffer.hpp:48-48 | masking with a power of two less one is the remainder |
| Bits.SearchEndsIff | include/utils/SpscRingBuffer.hpp:90-91 | the doubling loop in 64 bits ends if and only if the request is at most 2^63 |
| Bits.NextPow2 | include/utils/SpscRingBuffer.hpp:87-97 | the least power of two that is at least n and at least 2 |
| SpscRing.StepOk | include/utils/SpscRingBuffer.hpp:46-71 | every step of either thread, with any admissible stale load, keeps the ring invariant |
| SpscRing.RingSafe | include/utils/SpscRingBuffer.hpp:46-71 | in every reachable state pops are a prefix of pushes, at most capacity - 1 items are in flight, no slot is read before it is written, overwritten before it is consumed or accessed by both threads, and each access is ordered by an acquired store |
| SpscRing.PushFullIff | include/utils/SpscRingBuffer.hpp:50-51 | push fails if and only if capacity - 1 items are in flight as far as acquired |
| SpscRing.PopEmptyIff | include/utils/SpscRingBuffer.hpp:62-63 | pop fails if and only if no further push was acquired |
| SpscRing.ApproxSizeExact | include/utils/SpscRingBuffer.hpp:80-84 | with both threads at rest the 64-bit computation gives exactly the number of items, which fill consecutive slots from the head |
| RingBuffer.SpscRingBuffer.constructor | include/utils/SpscRingBuffer.hpp:30-38 | an empty ring whose raw slots are the least power of two that is at least 2 and at least the requested number |
| RingBuffer.SpscRingBuffer.Push | include/utils/SpscRingBuffer.hpp:46-56 | uninterrupted, push appends the item unless capacity - 1 are in flight, and is the stated schedule of steps |
| RingBuffer.SpscRingBuffer.Pop | include/utils/SpscRingBuffer.hpp:59-71 | uninterrupted, pop returns the oldest item or nothing, and is the stated schedule of steps |
| RingBuffer.SpscRingBuffer.Size | include/utils/SpscRingBuffer.hpp:80-84 | the number of items pushed and not popped |
| Pipeline.PipelinedIsSequential | src/benchmark/BenchmarkRunner.cpp:252-292 | for every handler, stream, capacity and interleaving: at the sentinel the consumer holds the sequential result, before it that of a prefix |
| Pipeline.CanFinish | src/benchmark/BenchmarkRunner.cpp:255-290 | from every state of the invariant there is a schedule to the end, so the ring is never both full and empty |
| Pipeline.NeverStuck | src/benchmark/BenchmarkRunner.cpp:252-292 | every partial run can be completed, with the sequential result |
| Pipeline.RunLength | src/benchmark/BenchmarkRunner.cpp:252-292 | every schedule has at most four steps per push, six per pop and three per failed attempt, and the run is finished if and only if it has made all of them: only failing attempts can delay the end |
| PipelineRun.PipelineEqualsBaseline | src/benchmark/BenchmarkRunner.cpp:216-296 | the pipelined run's engine, counters, trades and accepted ids equal those of the baseline run |
| PipelineRun.PipelineCanEnd | src/benchmark/BenchmarkRunner.cpp:285-292 | and it can always get there |
| MemoryPools.FreshListPartitionIff | include/utils/MemoryPool.hpp:43-49 | the initial freelist names no slot twice if and only if the capacity is at most 2^32 |
| MemoryPools.MemoryPool.constructor | include/utils/MemoryPool.hpp:35-50 | for every capacity, no slot is live and the freelist names the slots in descending order cut to 32 bits; it is a valid pool if and only if the capacity is at most 2^32 |
| MemoryPools.MemoryPool.Alloc | include/utils/MemoryPool.hpp:61-67 | fails exactly on an empty freelist; otherwise constructs in the slot freed last, which was not live, and changes no other slot |
| MemoryPools.MemoryPool.Dealloc | include/utils/MemoryPool.hpp:72-82 | the slot is no longer live and is next to be used; a null pointer changes nothing |
| MemoryPools.MemoryPool.Counts | include/utils/MemoryPool.hpp:84-87 | the allocation counter is the number of live slots, live and free slots add up to the capacity |
| RestingObjects.ObjectsRest | src/core/OrderBook.cpp:20-147 | every order object the engine refers to rests in its current state in the book of its symbol, every resting order is such an object, and no id has two |
| RestingObjects.RestingIsRefused | include/core/RiskValidator.hpp:18-32 | the validator refuses the object of every resting order as a duplicate, and the status of that object is ACCEPTED or PARTIALLY_FILLED |
| RestingObjects.ObjectIds | include/core/OrderBook.hpp:62-64 | the ids of these objects are the indexed ids |
| PoolRun.SubmitResting | src/benchmark/BenchmarkRunner.cpp:160-192 | a submission changes the set of resting orders by exactly the makers it fills or the order it cancels, and itself if it rests |
| PoolRun.Take | src/benchmark/BenchmarkRunner.cpp:163-171 | a pool with a slot to spare constructs a fresh unfilled copy of the source order in a slot of its own |
| PoolRun.Collect | src/benchmark/BenchmarkRunner.cpp:172-174 | exactly the objects the engine no longer refers to are destroyed and their slots returned; the engine is untouched |
| PoolRun.RunOne | src/benchmark/BenchmarkRunner.cpp:160-192 | one iteration on objects never finds the pool full, counts its order like the sequential loop body, and leaves in the live slots exactly the order objects the engine refers to, which are the resting orders |
| PoolRun.RunPool | src/benchmark/BenchmarkRunner.cpp:138-192 | for every stream of fewer than 2^32 orders no allocation fails, engine, counters, trades and ids are those of the sequential run of the copies, the live slots hold the resting orders in their current state, one slot each, and the pool counts them |
| PoolRun.PoolEqualsBaseline | src/benchmark/BenchmarkRunner.cpp:163-171 | copying the orders into pool slots does not change the outcome |

## Left out

- CLI, CSV parsing, event log, market data feed: input, output and string formatting.
- OrderGenerator: random streams; the theorems quantify over all streams instead.
- toFixedPrice and fromFixedPrice: floating point; prices are integers, and the difference taken for the spread is unbounded.
- LatencyTimer, memory usage, printTable and saveCsv: timing and reporting only.
- Timestamps of orders and trades: no decision depends on them, so the records omit them.
- Detail texts of violations and reject reasons: violations carry symbol and rule, reasons are an enumeration.
- Hash tables and red-black trees: maps and sets are Dafny's, a price map is the sorted sequence of its levels.
- Counters of orders and trades: natural numbers instead of 64-bit ones; order ids and indices likewise.
- Exceptions thrown by constructors, destruction of a non-empty ring, and the end of the pool run, where the pool is destroyed while the engine still refers to its slots: the model of the pool run ends with the last order.
- OrderBooks.OrderBook.AddOrder: requires an order of this symbol that has not traded, is not resting and whose id is not indexed, and no CANCEL order; the engine sees to the last three before it calls the book.
- MatchingEngines.MatchingEngine.SubmitOrder: requires an order object with no fill yet that does not rest in the engine; a resting object is refused as a duplicate (`RestingObjects.RestingIsRefused`), and the source then sets REJECTED on it although it goes on resting, which the invariant on statuses does not cover.
- BenchmarkRunner.HandleOrder: requires what SubmitOrder requires of the order object.
- BenchmarkRunner.RunBaseline: requires pairwise different order objects without a fill, as the generator makes them, because a repeated object could be one that rests.
- MatchingEngines.MatchingEngine.RegisterSymbol: books of symbols that were never registered do not exist, so the engine's "no book" branch is modelled but unreachable from valid states.
- Bits.NextPow2: covers requests up to 2^63, the exact range in which the search ends.
- MemoryPools.MemoryPool.Dealloc: a pointer is a slot index of this pool; deallocating twice or from elsewhere is excluded by precondition, as in the source.
- PoolRun.RunPool: requires fewer than 2^32 orders, because beyond that the freelist repeats slots (`MemoryPools.FreshListPartitionIff`); reference counts are not modelled; an object is destroyed after the submission, in slot order, once no queue of the engine refers to it, where the source destroys filled makers during the submission, so slots may be reused in another order.
- SpscRing.RingSafe: the relaxed, acquire and release orders are modelled by stale index loads and by the acquired-store counts; torn or reordered slot accesses are not, because the invariant shows that no two unordered accesses meet.
- Pipeline.RunLength: bounds the steps that are not failing attempts; how often a scheduler lets a thread retry is not modelled.
- Projection.BooksProjectIff: agreement after every request; book and trades that agree again at the end, after a clashing order has rested and been cancelled in the symbol's own run, are not characterised.
