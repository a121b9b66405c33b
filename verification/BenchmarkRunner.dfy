/** The benchmark's run loop: one tally per order, and what its final report must say. */
module BenchmarkRunner {
  import opened Types
  import opened Matching
  import opened PriceTime
  import opened Totals
  import opened Engine
  import opened Runs
  import opened Conservation
  import opened Ledger
  import opened Lifecycle
  import opened ExactRuns
  import opened OrderBooks
  import opened InvariantChecker
  import opened MatchingEngines

  /** The counters of a run, its trades, and the ids of orders that came back neither
      rejected nor cancelled. */
  datatype Tally = Tally(engine: EngineState, accepted: nat, rejected: nat, cancels: nat, trades: nat,
                         allTrades: seq<Trade>, acceptedIds: seq<OrderId>)

  function Registered(symbols: seq<Symbol>): (e: EngineState)
    ensures EngineOk(e)
  {
    if symbols == [] then EMPTY
    else
      var e := Registered(symbols[..|symbols| - 1]);
      RegisterKeeps(e, symbols[|symbols| - 1]);
      RegisterSymbol(e, symbols[|symbols| - 1])
  }

  function Count(t: Tally, engine: EngineState, id: OrderId, r: Response): Tally {
    Tally(engine,
          if r.status == REJECTED then t.accepted else t.accepted + 1,
          if r.status == REJECTED then t.rejected + 1 else t.rejected,
          if r.status == CANCELLED then t.cancels + 1 else t.cancels,
          t.trades + |r.trades|,
          t.allTrades + r.trades,
          if r.status == REJECTED || r.status == CANCELLED then t.acceptedIds else t.acceptedIds + [id])
  }

  /** Submit one order and count its outcome. */
  function Handle(t: Tally, o: OrderState): (t': Tally)
    requires EngineOk(t.engine) && o.filled == 0
    ensures EngineOk(t'.engine)
  {
    SubmitKeeps(t.engine, o);
    var s := SubmitOrder(t.engine, o);
    Count(t, s.engine, o.id, s.response)
  }

  function Start(symbols: seq<Symbol>): Tally {
    Tally(Registered(symbols), 0, 0, 0, 0, [], [])
  }

  ghost predicate AllUnfilled(orders: seq<OrderState>) {
    forall i :: 0 <= i < |orders| ==> orders[i].filled == 0
  }

  /** The sequential run. */
  function Baseline(symbols: seq<Symbol>, orders: seq<OrderState>): (t: Tally)
    requires AllUnfilled(orders)
    ensures EngineOk(t.engine)
  {
    if orders == [] then Start(symbols)
    else Handle(Baseline(symbols, orders[..|orders| - 1]), orders[|orders| - 1])
  }

  // ---------------------------------------------------------------- a benchmark is a run of the engine

  function Requests(symbols: seq<Symbol>, orders: seq<OrderState>): (rs: seq<Request>)
    ensures AllUnfilled(orders) ==> AllFresh(rs)
  {
    seq(|symbols|, i requires 0 <= i < |symbols| => Register(symbols[i]))
    + seq(|orders|, i requires 0 <= i < |orders| => Submit(orders[i]))
  }

  lemma {:induction false} RegisteredIsRun(symbols: seq<Symbol>)
    ensures Run(Requests(symbols, [])).engine == Registered(symbols)
    ensures Run(Requests(symbols, [])) == START.(engine := Registered(symbols))
    decreases |symbols|
  {
    hide EngineOk;
    if symbols != [] {
      var n := |symbols| - 1;
      RegisteredIsRun(symbols[..n]);
      var rs := Requests(symbols, []);
      assert rs[..|rs| - 1] == Requests(symbols[..n], []);
      assert rs[|rs| - 1] == Register(symbols[n]);
    }
  }

  lemma {:induction false} BaselineIsRun(symbols: seq<Symbol>, orders: seq<OrderState>)
    requires AllUnfilled(orders)
    ensures var t, s := Baseline(symbols, orders), Run(Requests(symbols, orders));
      t.engine == s.engine && t.allTrades == s.log
    decreases |orders|
  {
    hide EngineOk, BooksOk, After, SubmitOrder;
    if orders == [] {
      RegisteredIsRun(symbols);
    } else {
      var n := |orders| - 1;
      var rs := Requests(symbols, orders);
      BaselineIsRun(symbols, orders[..n]);
      assert rs[..|rs| - 1] == Requests(symbols, orders[..n]);
      assert rs[|rs| - 1] == Submit(orders[n]);
      BooksOkOf(Run(rs[..|rs| - 1]).engine);
      AfterIsEngine(Run(rs[..|rs| - 1]), orders[n]);
    }
  }

  // ---------------------------------------------------------------- the counters

  /** The ids counted as accepted are different and recorded by the validator; every order is
      counted once; the trade counter counts the trades. */
  ghost predicate TallyOk(t: Tally, n: nat) {
    && AllDifferent(t.acceptedIds)
    && (forall i :: 0 <= i < |t.acceptedIds| ==> t.acceptedIds[i] in t.engine.usedIds)
    && t.accepted + t.rejected == n == t.engine.processed
    && |t.acceptedIds| + t.cancels == t.accepted
    && t.trades == |t.allTrades| == t.engine.tradeCount
  }

  /** An order counted as accepted carries an id that was not in use. */
  lemma CountedIdIsNew(e: EngineState, o: OrderState)
    requires EngineOk(e) && o.filled == 0
    ensures var s := SubmitOrder(e, o);
      && e.usedIds <= s.engine.usedIds && s.engine.processed == e.processed + 1
      && s.engine.tradeCount == e.tradeCount + |s.response.trades|
      && (s.response.status != REJECTED && s.response.status != CANCELLED ==> o.id !in e.usedIds && o.id in s.engine.usedIds)
  {
    hide BooksOk, BookOk, BookOf, AddOrder, CancelOrder, Incoming;
    BooksOkOf(e);
    if Accepts(e, o) {
      SubmitAccepted(e, o);
      AcceptedIncoming(e, o);
      hide SubmitOrder;
    } else {
      hide Place;
    }
  }

  lemma {:induction false} BaselineTally(symbols: seq<Symbol>, orders: seq<OrderState>)
    requires AllUnfilled(orders)
    ensures TallyOk(Baseline(symbols, orders), |orders|)
    decreases |orders|
  {
    hide EngineOk, SubmitOrder;
    if orders == [] {
      RegisteredCounts(symbols);
    } else {
      var n := |orders| - 1;
      BaselineTally(symbols, orders[..n]);
      CountedIdIsNew(Baseline(symbols, orders[..n]).engine, orders[n]);
    }
  }

  lemma {:induction false} RegisteredCounts(symbols: seq<Symbol>)
    ensures Registered(symbols).processed == 0 && Registered(symbols).tradeCount == 0
    decreases |symbols|
  {
    hide EngineOk;
    if symbols != [] { RegisteredCounts(symbols[..|symbols| - 1]); }
  }

  /** What the engine answers to each order of the run. */
  ghost function Replies(symbols: seq<Symbol>, orders: seq<OrderState>): (rs: seq<Response>)
    requires AllUnfilled(orders)
    ensures |rs| == |orders|
  {
    if orders == [] then []
    else
      var n := |orders| - 1;
      Replies(symbols, orders[..n]) + [SubmitOrder(Baseline(symbols, orders[..n]).engine, orders[n]).response]
  }

  ghost function CountOf(rs: seq<Response>, status: OrderStatus): nat {
    if rs == [] then 0 else CountOf(rs[..|rs| - 1], status) + if rs[|rs| - 1].status == status then 1 else 0
  }

  ghost predicate Stands(r: Response) {
    r.status != REJECTED && r.status != CANCELLED
  }

  ghost function TradesIn(rs: seq<Response>): seq<Trade> {
    if rs == [] then [] else TradesIn(rs[..|rs| - 1]) + rs[|rs| - 1].trades
  }

  /** Some order with this id was answered neither way. */
  ghost predicate StandsIn(orders: seq<OrderState>, rs: seq<Response>, id: OrderId)
    requires |rs| == |orders|
  {
    exists i :: 0 <= i < |orders| && orders[i].id == id && Stands(rs[i])
  }

  lemma StandsLast(orders: seq<OrderState>, rs: seq<Response>, id: OrderId)
    requires |rs| == |orders| > 0
    ensures var n := |orders| - 1;
      StandsIn(orders, rs, id) <==> StandsIn(orders[..n], rs[..n], id) || (orders[n].id == id && Stands(rs[n]))
  {
    hide Stands;
    var n := |orders| - 1;
    assert forall i :: 0 <= i < n ==> orders[..n][i] == orders[i] && rs[..n][i] == rs[i];
  }

  /** The tally is what the answers say. */
  ghost predicate Tells(t: Tally, orders: seq<OrderState>, rs: seq<Response>)
    requires |rs| == |orders|
  {
    && t.rejected == CountOf(rs, REJECTED) && t.accepted + t.rejected == |orders| && t.cancels == CountOf(rs, CANCELLED)
    && t.allTrades == TradesIn(rs)
    && (forall id :: id in t.acceptedIds <==> StandsIn(orders, rs, id))
  }

  lemma TellsStep(t: Tally, e: EngineState, orders: seq<OrderState>, rs: seq<Response>)
    requires |rs| == |orders| > 0
    requires var n := |orders| - 1; Tells(t, orders[..n], rs[..n])
    ensures var n := |orders| - 1; Tells(Count(t, e, orders[n].id, rs[n]), orders, rs)
  {
    hide StandsIn;
    var n := |orders| - 1;
    forall id ensures StandsIn(orders, rs, id) <==> StandsIn(orders[..n], rs[..n], id) || (orders[n].id == id && Stands(rs[n])) {
      StandsLast(orders, rs, id);
    }
  }

  /** The counters are those of the answers: orders answered REJECTED are rejected and all
      others accepted, those answered CANCELLED are counted as cancels, and the accepted ids are
      those of the orders answered neither way. */
  lemma {:induction false} BaselineReplies(symbols: seq<Symbol>, orders: seq<OrderState>)
    requires AllUnfilled(orders)
    ensures Tells(Baseline(symbols, orders), orders, Replies(symbols, orders))
    decreases |orders|
  {
    hide EngineOk, SubmitOrder, Count, Tells;
    if orders == [] {
      NothingTold(symbols);
    } else {
      var n := |orders| - 1;
      BaselineReplies(symbols, orders[..n]);
      var t, rs := Baseline(symbols, orders[..n]), Replies(symbols, orders);
      assert rs[..n] == Replies(symbols, orders[..n]);
      BooksOkOf(t.engine);
      TellsStep(t, SubmitOrder(t.engine, orders[n]).engine, orders, rs);
    }
  }

  lemma NothingTold(symbols: seq<Symbol>)
    ensures Tells(Start(symbols), [], [])
  {
  }

  // ---------------------------------------------------------------- the final report

  ghost function ReportOf(violations: seq<Violation>): Report {
    Report(violations == [], violations)
  }

  ghost function BookReports(e: EngineState, symbols: seq<Symbol>): seq<Report> {
    if symbols == [] then []
    else
      var n := |symbols| - 1;
      BookReports(e, symbols[..n])
      + if symbols[n] in e.books then [ReportOf(BookViolations(e.books[symbols[n]]))] else []
  }

  /** The merged report over the books of the symbols, all trades and the accepted ids. */
  ghost function FinalReport(t: Tally, symbols: seq<Symbol>): Report {
    MergeReports(BookReports(t.engine, symbols)
                 + [ReportOf(TradesViolations(t.allTrades, |t.allTrades|, []))]
                 + [ReportOf(DuplicateViolations(t.acceptedIds))])
  }

  /** Every book of a run whose accepted quantity fits in 64 bits passes its check. */
  lemma RunBookPasses(rs: seq<Request>, symbol: Symbol)
    requires AllFresh(rs) && AcceptedQty(Run(rs)) < TWO_64 && symbol in Run(rs).engine.books
    ensures BookViolations(Run(rs).engine.books[symbol]) == []
  {
    hide EngineOk, BooksOk, BookOk, AcceptedQty, RemsOk, Exact, Run, SumRem, Flatten, BookViolations;
    var s := Run(rs);
    var b := s.engine.books[symbol];
    EveryBookOk(rs, symbol);
    RunExact(rs);
    assert Exact(b.Levels(BUY)) && Exact(b.Levels(SELL));
    forall side ensures SumRem(Flatten(b.Levels(side))) < TWO_64 {
      RunBalanced(rs, symbol, side);
      OpenWithinAccepted(s, symbol, side);
    }
    assert SumRem(Flatten(b.Levels(BUY))) < TWO_64 && SumRem(Flatten(b.Levels(SELL))) < TWO_64;
    ExactBookPasses(b);
  }

  ghost predicate AllPass(rs: seq<Report>) {
    forall i :: 0 <= i < |rs| ==> rs[i].passed
  }

  lemma {:induction false} BookReportsPass(e: EngineState, symbols: seq<Symbol>)
    ensures AllPass(BookReports(e, symbols)) <==> forall s :: s in symbols && s in e.books ==> BookViolations(e.books[s]) == []
    decreases |symbols|
  {
    hide BookViolations;
    if symbols != [] {
      var n := |symbols| - 1;
      var rs, rest := BookReports(e, symbols), BookReports(e, symbols[..n]);
      BookReportsPass(e, symbols[..n]);
      assert symbols == symbols[..n] + [symbols[n]];
      if symbols[n] in e.books {
        assert rs[|rest|] == ReportOf(BookViolations(e.books[symbols[n]]));
      }
      assert forall i :: 0 <= i < |rest| ==> rs[i] == rest[i];
    }
  }

  /** Registering keeps every symbol's book and submitting keeps all books. */
  lemma {:induction false} ListedHaveBooks(symbols: seq<Symbol>, orders: seq<OrderState>)
    requires AllUnfilled(orders)
    ensures forall s :: s in symbols ==> s in Baseline(symbols, orders).engine.books
    decreases |symbols|, |orders|
  {
    hide EngineOk, SubmitOrder;
    if orders != [] {
      var n := |orders| - 1;
      ListedHaveBooks(symbols, orders[..n]);
      SubmitKeepsBooks(Baseline(symbols, orders[..n]).engine, orders[n]);
    } else if symbols != [] {
      var n := |symbols| - 1;
      ListedHaveBooks(symbols[..n], []);
      assert symbols == symbols[..n] + [symbols[n]];
    }
  }

  lemma SubmitKeepsBooks(e: EngineState, o: OrderState)
    requires EngineOk(e) && o.filled == 0
    ensures e.books.Keys <= SubmitOrder(e, o).engine.books.Keys
  {
    hide BooksOk, BookOk, BookOf, AddOrder, CancelOrder, Incoming;
    BooksOkOf(e);
    if Accepts(e, o) {
      SubmitAccepted(e, o);
    }
  }

  /** The verdict of the checker on every run, whatever its quantities are: the merged report
      passes exactly when every listed book, and each of them exists, shows no zero quantity
      where something rests. The checks of trades and ids never fail. */
  lemma ReportPassesIff(symbols: seq<Symbol>, orders: seq<OrderState>)
    requires AllUnfilled(orders)
    ensures var t := Baseline(symbols, orders);
      FinalReport(t, symbols).passed <==> forall s :: s in symbols ==> s in t.engine.books && ShowsQuantity(t.engine.books[s])
  {
    hide EngineOk, Baseline, FinalReport, BookReports, AllPass, BookViolations, ShowsQuantity, TradesViolations, DuplicateViolations, Run, BookOk;
    BaselineIsRun(symbols, orders);
    TradesReportPasses(Requests(symbols, orders));
    IdsReportPasses(symbols, orders);
    ListedHaveBooks(symbols, orders);
    var t := Baseline(symbols, orders);
    FinalPasses(t, symbols);
    BookReportsPass(t.engine, symbols);
    forall s | s in t.engine.books ensures BookViolations(t.engine.books[s]) == [] <==> ShowsQuantity(t.engine.books[s]) {
      EveryBookOk(Requests(symbols, orders), s);
      ValidBookPasses(t.engine.books[s]);
    }
  }

  /** The checker always passes: for every list of symbols and every stream of orders whose
      accepted quantity fits in 64 bits, the merged report of the run has no violation. */
  lemma CheckerAlwaysPasses(symbols: seq<Symbol>, orders: seq<OrderState>)
    requires AllUnfilled(orders) && AcceptedQty(Run(Requests(symbols, orders))) < TWO_64
    ensures FinalReport(Baseline(symbols, orders), symbols).passed
  {
    hide *;
    BaselineIsRun(symbols, orders);
    ReportPassesIff(symbols, orders);
    ListedHaveBooks(symbols, orders);
    var rs, t := Requests(symbols, orders), Baseline(symbols, orders);
    forall s | s in t.engine.books ensures ShowsQuantity(t.engine.books[s]) {
      RunBookPasses(rs, s);
      EveryBookOk(rs, s);
      ValidBookPasses(t.engine.books[s]);
    }
  }

  lemma TradesReportPasses(rs: seq<Request>)
    requires AllFresh(rs)
    ensures TradesViolations(Run(rs).log, |Run(rs).log|, []) == []
  {
    hide TradesViolations, Run;
    TradesSound(rs);
    TradesPass(Run(rs).log, |Run(rs).log|, []);
  }

  lemma IdsReportPasses(symbols: seq<Symbol>, orders: seq<OrderState>)
    requires AllUnfilled(orders)
    ensures DuplicateViolations(Baseline(symbols, orders).acceptedIds) == []
  {
    hide DuplicateViolations, Baseline;
    BaselineTally(symbols, orders);
    IdsPass(Baseline(symbols, orders).acceptedIds);
  }

  lemma MergeBooks(books: seq<Report>, trades: Report, ids: Report)
    requires trades.passed && ids.passed
    ensures MergeReports(books + [trades] + [ids]).passed <==> AllPass(books)
  {
    hide MergeReports;
    var all := books + [trades] + [ids];
    MergePasses(all);
    assert forall i :: 0 <= i < |all| ==> if i < |books| then all[i] == books[i] else all[i].passed;
    if MergeReports(all).passed {
      forall i | 0 <= i < |books| ensures books[i].passed { assert all[i] == books[i]; }
    }
  }

  lemma FinalPasses(t: Tally, symbols: seq<Symbol>)
    requires TradesViolations(t.allTrades, |t.allTrades|, []) == [] && DuplicateViolations(t.acceptedIds) == []
    ensures FinalReport(t, symbols).passed <==> AllPass(BookReports(t.engine, symbols))
  {
    hide AllPass, TradesViolations, DuplicateViolations, MergeReports;
    MergeBooks(BookReports(t.engine, symbols), ReportOf(TradesViolations(t.allTrades, |t.allTrades|, [])),
               ReportOf(DuplicateViolations(t.acceptedIds)));
  }

  // ---------------------------------------------------------------- a bound that can be read off the input

  function SumQty(orders: seq<OrderState>): nat {
    if orders == [] then 0 else SumQty(orders[..|orders| - 1]) + orders[|orders| - 1].quantity
  }

  lemma {:induction false} AcceptedWithinInput(symbols: seq<Symbol>, orders: seq<OrderState>)
    requires AllUnfilled(orders)
    ensures AcceptedQty(Run(Requests(symbols, orders))) <= SumQty(orders)
    decreases |orders|
  {
    hide AcceptedQty, After, EngineOk;
    if orders == [] {
      RegisteredIsRun(symbols);
      NothingAccepted(Registered(symbols));
    } else {
      var n := |orders| - 1;
      var rs := Requests(symbols, orders);
      AcceptedWithinInput(symbols, orders[..n]);
      assert rs[..|rs| - 1] == Requests(symbols, orders[..n]);
      assert rs[|rs| - 1] == Submit(orders[n]);
      AcceptedBound(Run(rs[..|rs| - 1]), orders[n]);
    }
  }

  lemma NothingAccepted(e: EngineState)
    ensures AcceptedQty(START.(engine := e)) == 0
  {
  }

  lemma AcceptedBound(s: Session, o: OrderState)
    requires EngineOk(s.engine) && o.filled == 0
    ensures AcceptedQty(After(s, Submit(o))) <= AcceptedQty(s) + o.quantity
  {
    AcceptedGrows(s, Submit(o));
    hide EngineOk, BooksOk, AcceptedQty, AfterPlace, AfterCancel;
    BooksOkOf(s.engine);
    if !Accepts(s.engine, o) {
      AcceptedSame(s, o);
    }
  }

  lemma AcceptedSame(s: Session, o: OrderState)
    requires EngineOk(s.engine) && o.filled == 0 && !Accepts(s.engine, o)
    ensures BooksOk(s.engine) && After(s, Submit(o)).accepted == s.accepted
  {
    BooksOkOf(s.engine);
    hide EngineOk, BooksOk, CancelById, Flatten, SubmitOrder, Accepts, BookOk;
  }

  /** If the quantities of all submitted orders sum to less than 2^64 the checker passes. */
  lemma SmallStreamsPass(symbols: seq<Symbol>, orders: seq<OrderState>)
    requires AllUnfilled(orders) && SumQty(orders) < TWO_64
    ensures FinalReport(Baseline(symbols, orders), symbols).passed
  {
    AcceptedWithinInput(symbols, orders);
    CheckerAlwaysPasses(symbols, orders);
    hide FinalReport, AcceptedQty, Baseline, Run;
  }

  // ---------------------------------------------------------------- the run loop

  /** Every object the engine may change. */
  ghost function Repr(engine: MatchingEngine): set<object>
    reads engine, engine.books.Values, engine.Levels()
  {
    {engine, engine.validator} + engine.books.Values + engine.Levels() + engine.Orders()
  }

  method Setup(symbols: seq<Symbol>) returns (engine: MatchingEngine)
    ensures engine.Valid() && engine.State() == Registered(symbols)
    ensures engine.Orders() == {} && forall x :: x in Repr(engine) ==> fresh(x)
  {
    engine := new MatchingEngine();
    hide BooksOk, EngineOk, BookOk, MatchingEngine.Levels, MatchingEngine.Orders, MatchingEngine.State, MatchingEngine.Valid;
    for i := 0 to |symbols|
      invariant engine.Valid() && engine.State() == Registered(symbols[..i])
      invariant fresh(engine) && fresh(engine.validator) && engine.Orders() == {}
      invariant forall b :: b in engine.books.Values ==> fresh(b)
      invariant forall l :: l in engine.Levels() ==> fresh(l)
    {
      assert symbols[..i + 1][..i] == symbols[..i];
      engine.RegisterSymbol(symbols[i]);
    }
    assert symbols[..|symbols|] == symbols;
  }

  datatype BenchmarkResult = BenchmarkResult(ordersSubmitted: nat, ordersAccepted: nat, ordersRejected: nat,
                                             cancelsProcessed: nat, tradesGenerated: nat)

  /** The engine, counters and lists of a run loop are those of the tally t. */
  ghost predicate Tallied(t: Tally, engine: EngineState, result: BenchmarkResult, allTrades: seq<Trade>, acceptedIds: seq<OrderId>) {
    t == Tally(engine, result.ordersAccepted, result.ordersRejected, result.cancelsProcessed, result.tradesGenerated,
               allTrades, acceptedIds)
  }

  /** The loop variables are those of the tally t after it has handled o. */
  ghost predicate Handled(t: Tally, o: OrderState, engine: EngineState, result: BenchmarkResult,
                          allTrades: seq<Trade>, acceptedIds: seq<OrderId>)
  {
    EngineOk(t.engine) && o.filled == 0 && Tallied(Handle(t, o), engine, result, allTrades, acceptedIds)
  }

  lemma HandledFrom(t: Tally, o: OrderState, e: EngineState, o': OrderState, r: Response, result: BenchmarkResult,
                    allTrades: seq<Trade>, acceptedIds: seq<OrderId>)
    requires EngineOk(t.engine) && Submitted(t.engine, o, e, o', r)
    requires Tallied(Count(t, e, o.id, r), e, result, allTrades, acceptedIds)
    ensures Handled(t, o, e, result, allTrades, acceptedIds)
  {
    hide EngineOk, BooksOk, SubmitOrder;
  }

  lemma TalliedEngine(t: Tally, engine: EngineState, result: BenchmarkResult, allTrades: seq<Trade>, acceptedIds: seq<OrderId>)
    requires Tallied(t, engine, result, allTrades, acceptedIds)
    ensures t.engine == engine
  {
  }

  lemma CountedFrom(t: Tally, e: EngineState, id: OrderId, r: Response, result: BenchmarkResult,
                    allTrades: seq<Trade>, acceptedIds: seq<OrderId>, result': BenchmarkResult)
    requires Tallied(t, t.engine, result, allTrades, acceptedIds)
    requires result'.ordersAccepted == result.ordersAccepted + (if r.status == REJECTED then 0 else 1)
    requires result'.ordersRejected == result.ordersRejected + (if r.status == REJECTED then 1 else 0)
    requires result'.cancelsProcessed == result.cancelsProcessed + (if r.status == CANCELLED then 1 else 0)
    requires result'.tradesGenerated == result.tradesGenerated + |r.trades|
    ensures Tallied(Count(t, e, id, r), e, result', allTrades + r.trades,
                    acceptedIds + if r.status == REJECTED || r.status == CANCELLED then [] else [id])
  {
    assert acceptedIds + [] == acceptedIds;
  }

  /** The body of the run loop. */
  method HandleOrder(engine: MatchingEngine, order: Order, result: BenchmarkResult, allTrades: seq<Trade>,
                     acceptedIds: seq<OrderId>, ghost t: Tally)
      returns (result': BenchmarkResult, allTrades': seq<Trade>, acceptedIds': seq<OrderId>)
    requires engine.Valid() && order.filledQty == 0 && order !in engine.Orders()
    requires Tallied(t, engine.State(), result, allTrades, acceptedIds)
    modifies Repr(engine), order
    ensures engine.Valid() && engine.Orders() <= old(engine.Orders()) + {order}
    ensures forall x :: x in Repr(engine) ==> x in old(Repr(engine)) || x == order || fresh(x)
    ensures Handled(t, old(order.State()), engine.State(), result', allTrades', acceptedIds')
    ensures result'.ordersSubmitted == result.ordersSubmitted
  {
    hide EngineOk, BooksOk, BookOk, Handled, Submitted, Count, Tallied, MatchingEngine.Levels, MatchingEngine.Orders;
    hide MatchingEngine.State, MatchingEngine.Valid;
    TalliedEngine(t, engine.State(), result, allTrades, acceptedIds);
    engine.EngineHolds(engine.ordersProcessed);
    ghost var o := order.State();
    var res := engine.SubmitOrder(order);
    result', acceptedIds' := result, acceptedIds;
    if res.status == REJECTED {
      result' := result'.(ordersRejected := result'.ordersRejected + 1);
    } else if res.status == CANCELLED {
      result' := result'.(cancelsProcessed := result'.cancelsProcessed + 1, ordersAccepted := result'.ordersAccepted + 1);
    } else {
      result' := result'.(ordersAccepted := result'.ordersAccepted + 1);
      acceptedIds' := acceptedIds' + [order.id];
    }
    result' := result'.(tradesGenerated := result'.tradesGenerated + |res.trades|);
    allTrades' := allTrades + res.trades;
    assert acceptedIds + [] == acceptedIds;
    CountedFrom(t, engine.State(), order.id, res, result, allTrades, acceptedIds, result');
    HandledFrom(t, o, engine.State(), order.State(), res, result', allTrades', acceptedIds');
  }

  /** After n orders the loop variables are those of the sequential run of these n. */
  ghost predicate Ran(symbols: seq<Symbol>, states: seq<OrderState>, n: nat, engine: EngineState,
                      result: BenchmarkResult, allTrades: seq<Trade>, acceptedIds: seq<OrderId>)
  {
    AllUnfilled(states) && n <= |states| && Tallied(Baseline(symbols, states[..n]), engine, result, allTrades, acceptedIds)
  }

  lemma RanStart(symbols: seq<Symbol>, states: seq<OrderState>, n: nat)
    requires AllUnfilled(states)
    ensures Ran(symbols, states, 0, Registered(symbols), BenchmarkResult(n, 0, 0, 0, 0), [], [])
  {
    hide EngineOk;
    assert states[..0] == [];
  }

  lemma RanNow(symbols: seq<Symbol>, states: seq<OrderState>, i: nat, engine: EngineState,
               result: BenchmarkResult, allTrades: seq<Trade>, acceptedIds: seq<OrderId>)
    requires Ran(symbols, states, i, engine, result, allTrades, acceptedIds)
    ensures AllUnfilled(states) && i <= |states|
    ensures Tallied(Baseline(symbols, states[..i]), engine, result, allTrades, acceptedIds)
  {
    hide EngineOk, Handle;
  }

  lemma RanStep(symbols: seq<Symbol>, states: seq<OrderState>, i: nat, engine: EngineState,
                result: BenchmarkResult, allTrades: seq<Trade>, acceptedIds: seq<OrderId>)
    requires AllUnfilled(states) && i < |states|
    requires Handled(Baseline(symbols, states[..i]), states[i], engine, result, allTrades, acceptedIds)
    ensures Ran(symbols, states, i + 1, engine, result, allTrades, acceptedIds)
  {
    hide EngineOk, Handle;
    assert states[..i + 1][..i] == states[..i];
  }

  method RunBaseline(symbols: seq<Symbol>, orders: seq<Order>)
      returns (engine: MatchingEngine, result: BenchmarkResult, allTrades: seq<Trade>, acceptedIds: seq<OrderId>)
    requires forall i, j :: 0 <= i < j < |orders| ==> orders[i] != orders[j]
    requires forall i :: 0 <= i < |orders| ==> orders[i].filledQty == 0
    modifies orders
    ensures engine.Valid() && result.ordersSubmitted == |orders|
    ensures Ran(symbols, old(States(orders)), |orders|, engine.State(), result, allTrades, acceptedIds)
  {
    hide Repr, Ran, EngineOk, BooksOk, BookOk, Handled, Tallied, Baseline, MatchingEngine.Levels, MatchingEngine.Orders;
    hide MatchingEngine.State, MatchingEngine.Valid;
    ghost var states := States(orders);
    engine := Setup(symbols);
    result, allTrades, acceptedIds := BenchmarkResult(|orders|, 0, 0, 0, 0), [], [];
    RanStart(symbols, states, |orders|);
    ghost var objects: seq<object> := orders;
    assert AllUnfilled(states);
    for i := 0 to |orders|
      invariant engine.Valid() && engine.Orders() <= set o | o in orders[..i]
      invariant forall x :: x in Repr(engine) ==> fresh(x) || x in objects[..i]
      invariant forall k :: i <= k < |orders| ==> orders[k].State() == states[k]
      invariant Ran(symbols, states, i, engine.State(), result, allTrades, acceptedIds)
      invariant result.ordersSubmitted == |orders|
    {
      ghost var t := Baseline(symbols, states[..i]);
      assert objects[..i + 1] == objects[..i] + [orders[i]] && states[i].filled == 0;
      RanNow(symbols, states, i, engine.State(), result, allTrades, acceptedIds);
      result, allTrades, acceptedIds := HandleOrder(engine, orders[i], result, allTrades, acceptedIds, t);
      RanStep(symbols, states, i, engine.State(), result, allTrades, acceptedIds);
    }
  }

  /** The reports over the registered books, the trades and the ids, merged. */
  method Finalise(engine: MatchingEngine, allTrades: seq<Trade>, acceptedIds: seq<OrderId>, symbols: seq<Symbol>,
                  verify: bool, ghost t: Tally)
      returns (report: Report)
    requires t.engine == engine.State() && t.allTrades == allTrades && t.acceptedIds == acceptedIds
    ensures report == if verify then FinalReport(t, symbols) else Report(true, [])
  {
    hide BookViolations, MatchingEngine.State, MatchingEngine.Levels, MatchingEngine.Orders, TradesViolations, DuplicateViolations;
    if !verify { return Report(true, []); }
    var reports := [];
    for i := 0 to |symbols|
      invariant reports == BookReports(t.engine, symbols[..i]) && engine.State() == t.engine
    {
      assert symbols[..i + 1][..i] == symbols[..i];
      if symbols[i] in engine.books {
        BookStateAt(engine, symbols[i]);
        engine.AllAllocated();
        var r := CheckBook(engine.books[symbols[i]]);
        reports := reports + [r];
      } else {
        assert reports == reports + [];
      }
    }
    assert symbols[..|symbols|] == symbols;
    var tradesReport := CheckTrades(allTrades, []);
    var idsReport := CheckUniqueIds(acceptedIds);
    report := Merge(reports + [tradesReport] + [idsReport]);
  }
}
