/** The benchmark run whose orders live in pool slots: which slots are live after each order. */
module PoolRun {
  import opened Types
  import opened Matching
  import opened Refinement
  import opened Engine
  import opened Ledger
  import opened OrderBooks
  import opened MemoryPools
  import opened BenchmarkRunner
  import opened PriceTime
  import opened MatchingEngines
  import opened RestingObjects

  // ---------------------------------------------------------------- which orders a submission lets go

  function IdSeq(list: seq<OrderState>): (ids: seq<OrderId>)
    ensures |ids| == |list| && forall i :: 0 <= i < |ids| ==> ids[i] == list[i].id
  {
    seq(|list|, i requires 0 <= i < |list| => list[i].id)
  }

  /** The resting orders that leave their book while o is submitted: the makers it fills, in
      the order they are filled, or the order it cancels. */
  function Released(e: EngineState, o: OrderState): seq<OrderId>
    requires EngineOk(e) && o.filled == 0
  {
    if o.kind == CANCEL then
      if o.symbol in e.books && o.id in e.books[o.symbol].index then [o.id] else []
    else IdSeq(SubmitOrder(e, o).done)
  }

  /** Whether o itself rests after its submission. */
  predicate Enters(e: EngineState, o: OrderState)
    requires EngineOk(e) && o.filled == 0
  {
    Accepts(e, o) && o.kind == LIMIT && !SubmitOrder(e, o).order.IsFilled()
  }

  lemma ReleasedIds(list: seq<OrderState>)
    requires Distinct(list)
    ensures Elements(IdSeq(list)) == Ids(list) && AllDifferent(IdSeq(list))
  {
    forall id | id in Ids(list) ensures id in Elements(IdSeq(list)) {
      var i :| 0 <= i < |list| && list[i].id == id;
      assert IdSeq(list)[i] == id;
    }
  }

  /** The resting ids change by exactly these orders. */
  ghost predicate Resting(e: EngineState, o: OrderState, e': EngineState)
    requires EngineOk(e) && o.filled == 0
  {
    && RestingIds(e') == RestingIds(e) - Elements(Released(e, o)) + (if Enters(e, o) then {o.id} else {})
    && Elements(Released(e, o)) <= RestingIds(e) && AllDifferent(Released(e, o))
    && (Enters(e, o) ==> o.id !in RestingIds(e))
  }

  lemma PlaceResting(e: EngineState, o: OrderState)
    requires EngineOk(e) && o.filled == 0 && Accepts(e, o)
    ensures Resting(e, o, SubmitOrder(e, o).engine)
  {
    BooksOkOf(e);
    SubmitAccepted(e, o);
    PlaceRestingIds(e, o);
    AcceptsKnown(e, o);
    PlaceIds(e.books[o.symbol], o);
    ReleasedIds(AddOrder(e.books[o.symbol], o).done);
    hide EngineOk, BooksOk, BookOk, BookOf, AddOrder, Incoming, RestingIds, IdSeq, Ids, Elements, SubmitOrder;
  }

  lemma CountedResting(e: EngineState)
    ensures RestingIds(e.(processed := e.processed + 1)) == RestingIds(e)
  {
    var e1 := e.(processed := e.processed + 1);
    assert e1.books == e.books;
  }

  lemma CancelResting(e: EngineState, o: OrderState)
    requires EngineOk(e) && o.filled == 0 && o.kind == CANCEL
    ensures Resting(e, o, SubmitOrder(e, o).engine)
  {
    hide EngineOk, BooksOk, BookOk, BookOf, CancelOrder, RestingIds;
    BooksOkOf(e);
    var e1 := e.(processed := e.processed + 1);
    CountedResting(e);
    var e' := SubmitOrder(e, o).engine;
    if o.symbol in e.books {
      var b := e.books[o.symbol];
      BookIn(e, o.symbol);
      CancelIndex(b, o.id);
      RestingIdsUpdate(e1, e', o.symbol, CancelOrder(b, o.id).0);
      if o.id in b.index {
        assert Elements([o.id]) == {o.id};
        assert RestingIds(e') == RestingIds(e) - {o.id};
      } else {
        assert Elements([]) == {};
        assert b.index - {o.id} == b.index;
        assert RestingIds(e') == RestingIds(e);
      }
    } else {
      assert Elements([]) == {};
    }
  }

  lemma RejectResting(e: EngineState, o: OrderState)
    requires EngineOk(e) && o.filled == 0 && o.kind != CANCEL && !Accepts(e, o)
    ensures Resting(e, o, SubmitOrder(e, o).engine)
  {
    hide EngineOk, BooksOk, AddOrder;
    SubmitRejected(e, o);
    assert RestingIds(e.(processed := e.processed + 1)) == RestingIds(e);
  }

  lemma SubmitResting(e: EngineState, o: OrderState)
    requires EngineOk(e) && o.filled == 0
    ensures Resting(e, o, SubmitOrder(e, o).engine)
  {
    hide Resting, EngineOk, Accepts;
    if o.kind == CANCEL {
      CancelResting(e, o);
    } else if Accepts(e, o) {
      PlaceResting(e, o);
    } else {
      RejectResting(e, o);
    }
  }

  // ---------------------------------------------------------------- the orders in the pool

  /** The order constructed in a slot: the fields of the source order, nothing filled yet. */
  function Copy(o: OrderState): OrderState {
    o.(filled := 0, status := PENDING)
  }

  function Copies(orders: seq<OrderState>): (r: seq<OrderState>)
    ensures |r| == |orders| && AllUnfilled(r) && forall i :: 0 <= i < |r| ==> r[i] == Copy(orders[i])
  {
    seq(|orders|, i requires 0 <= i < |orders| => Copy(orders[i]))
  }

  /** The objects in the slots are these orders, each in one slot. */
  ghost predicate SlotsHold(slots: seq<Option<Order>>, orders: set<Order>) {
    && (forall k :: 0 <= k < |slots| && slots[k].Some? ==> slots[k].value in orders)
    && (forall o :: o in orders ==> Some(o) in slots)
    && (forall j, k :: 0 <= j < k < |slots| && slots[j].Some? ==> slots[j] != slots[k])
  }

  ghost predicate Stores(pool: MemoryPool<Order>, orders: set<Order>)
    reads pool, pool.storage
  {
    pool.Valid() && SlotsHold(pool.storage[..], orders)
  }

  lemma AddSlot(slots: seq<Option<Order>>, k: nat, o: Order, orders: set<Order>)
    requires SlotsHold(slots, orders) && k < |slots| && slots[k] == None && o !in orders
    ensures SlotsHold(slots[k := Some(o)], orders + {o})
  {
    var slots' := slots[k := Some(o)];
    forall x | x in orders + {o} ensures Some(x) in slots' {
      if x in orders {
        var j :| 0 <= j < |slots| && slots[j] == Some(x);
        assert slots'[j] == slots[j];
      } else {
        assert slots'[k] == Some(x);
      }
    }
  }

  /** A slot after the deleter: empty unless its object is still referred to. */
  ghost function Swept(slot: Option<Order>, kept: set<Order>): Option<Order> {
    if slot.Some? && slot.value !in kept then None else slot
  }

  lemma SweepSlots(slots: seq<Option<Order>>, slots': seq<Option<Order>>, orders: set<Order>, kept: set<Order>)
    requires SlotsHold(slots, orders) && kept <= orders && |slots'| == |slots|
    requires forall k :: 0 <= k < |slots| ==> slots'[k] == Swept(slots[k], kept)
    ensures SlotsHold(slots', kept)
  {
    forall o | o in kept ensures Some(o) in slots' {
      var k :| 0 <= k < |slots| && slots[k] == Some(o);
      assert slots'[k] == slots[k];
    }
  }

  // ---------------------------------------------------------------- references

  predicate InSide(ls: seq<PriceLevel>, o: Order)
    reads ls
  {
    exists i :: 0 <= i < |ls| && o in ls[i].orders
  }

  /** Whether a queue of the engine still holds a reference to the order. */
  predicate Refers(engine: MatchingEngine, o: Order)
    reads engine, engine.books.Values, engine.Levels()
  {
    o.symbol in engine.books && (engine.LevelsAt(o.symbol);
    InSide(engine.books[o.symbol].bids, o) || InSide(engine.books[o.symbol].asks, o))
  }

  lemma RefersIff(engine: MatchingEngine, o: Order)
    requires engine.Valid()
    ensures Refers(engine, o) <==> o in engine.Orders()
  {
    hide EngineOk, MatchingEngine.Orders, OrderBook.Valid;
    if o in engine.Orders() {
      OrderPlace(engine, o);
    }
    if Refers(engine, o) {
      Referred(engine, o.symbol, o);
    }
  }

  /** Destroy the objects nothing refers to any more and return their slots. */
  method Collect(pool: MemoryPool<Order>, engine: MatchingEngine, ghost orders: set<Order>)
    requires Stores(pool, orders) && engine.Valid() && engine.Orders() <= orders
    modifies pool, pool.storage
    ensures Stores(pool, engine.Orders()) && |pool.Live()| <= old(|pool.Live()|)
    ensures engine.Valid() && engine.State() == old(engine.State()) && Repr(engine) == old(Repr(engine))
  {
    hide SlotsHold, Repr, MatchingEngine.Orders, MatchingEngine.Levels, MatchingEngine.Valid, MatchingEngine.State, Refers;
    ghost var kept := engine.Orders();
    for i := 0 to pool.capacity
      invariant pool.Valid() && engine.Valid() && engine.Orders() == kept
      invariant engine.State() == old(engine.State()) && Repr(engine) == old(Repr(engine))
      invariant forall k :: i <= k < pool.capacity ==> pool.storage[k] == old(pool.storage[k])
      invariant forall k :: 0 <= k < i ==> pool.storage[k] == Swept(old(pool.storage[k]), kept)
    {
      var slot := pool.storage[i];
      if slot.Some? {
        RefersIff(engine, slot.value);
        if !Refers(engine, slot.value) {
          ghost var s := pool.storage[..];
          engine.AllAllocated();
          pool.Dealloc(Some(i));
          assert forall k :: 0 <= k < pool.capacity ==> pool.storage[..][k] == s[i := None][k];
        }
      }
    }
    SweepSlots(old(pool.storage[..]), pool.storage[..], orders, kept);
    Smaller(pool.Live(), old(pool.Live()));
  }

  // ---------------------------------------------------------------- what the slots hold

  ghost function Objects(pool: MemoryPool<Order>): set<Order>
    reads pool.storage
  {
    set k | 0 <= k < pool.storage.Length && pool.storage[k].Some? :: pool.storage[k].value
  }

  /** The live slots hold the resting orders, each in its current state and in one slot, and
      the pool counts them. */
  ghost predicate HoldsResting(pool: MemoryPool<Order>, e: EngineState)
    reads pool, pool.storage, Objects(pool)
  {
    && (forall o :: o in Objects(pool) ==> RestsIn(e, o.State()))
    && (forall x :: RestsIn(e, x) ==> exists o :: o in Objects(pool) && o.State() == x)
    && (forall o, p :: o in Objects(pool) && p in Objects(pool) && o.id == p.id ==> o == p)
    && |pool.Live()| == pool.allocatedCount == |RestingIds(e)|
  }

  lemma ObjectsStored(pool: MemoryPool<Order>, orders: set<Order>)
    requires Stores(pool, orders)
    ensures Objects(pool) == orders && |pool.Live()| == pool.allocatedCount == |orders|
  {
    pool.Counts();
    var slots := pool.storage[..];
    forall o | o in orders ensures o in Objects(pool) {
      var k :| 0 <= k < |slots| && slots[k] == Some(o);
      assert pool.storage[k] == Some(o);
    }
    forall o | o in Objects(pool) ensures o in orders {
      var k :| 0 <= k < |slots| && slots[k] == Some(o);
    }
    assert forall k :: k in pool.Live() ==> slots[k].Some?;
    SlotsCard(slots, pool.Live(), orders);
  }

  /** As many slots as objects. */
  lemma {:induction false} SlotsCard(slots: seq<Option<Order>>, live: set<nat>, orders: set<Order>)
    requires forall k :: k in live ==> k < |slots| && slots[k].Some? && slots[k].value in orders
    requires forall o :: o in orders ==> exists k :: k in live && slots[k] == Some(o)
    requires forall j, k :: j in live && k in live && slots[j] == slots[k] ==> j == k
    ensures |live| == |orders|
    decreases |live|
  {
    if live == {} {
      assert orders == {};
    } else {
      var k :| k in live;
      var o := slots[k].value;
      forall p | p in orders - {o} ensures exists j :: j in live - {k} && slots[j] == Some(p) {
        var j :| j in live && slots[j] == Some(p);
      }
      SlotsCard(slots, live - {k}, orders - {o});
    }
  }

  lemma {:induction false} IdsCard(orders: set<Order>)
    requires forall o, p :: o in orders && p in orders && o.id == p.id ==> o == p
    ensures |IdsOf(orders)| == |orders|
    decreases |orders|
  {
    if orders != {} {
      var x :| x in orders;
      IdsCard(orders - {x});
      assert x.id !in IdsOf(orders - {x}) && IdsOf(orders) == IdsOf(orders - {x}) + {x.id};
    }
  }

  lemma StoresResting(pool: MemoryPool<Order>, engine: MatchingEngine)
    requires engine.Valid() && Stores(pool, engine.Orders())
    ensures HoldsResting(pool, engine.State())
  {
    hide EngineOk, Stores, Objects, RestsIn, RestingIds, MemoryPool.Live, MemoryPool.Valid;
    hide MatchingEngine.Orders, MatchingEngine.Levels, MatchingEngine.State, MatchingEngine.Valid;
    ObjectsStored(pool, engine.Orders());
    ObjectsRest(engine);
    ObjectIds(engine);
    IdsCard(engine.Orders());
  }

  // ---------------------------------------------------------------- the run loop

  /** The pool is no part of the engine. */
  lemma PoolApart(pool: MemoryPool<Order>, engine: MatchingEngine)
    ensures pool !in Repr(engine) && pool.storage !in Repr(engine)
  {
  }

  /** Construct the copy of a source order in a slot of its own; the pool is never full. */
  method Take(pool: MemoryPool<Order>, source: Order, ghost orders: set<Order>) returns (order: Order)
    requires Stores(pool, orders) && |pool.Live()| < pool.capacity && forall o :: o in orders ==> allocated(o)
    modifies pool, pool.storage
    ensures fresh(order) && order.State() == Copy(source.State()) && order.filledQty == 0
    ensures Stores(pool, orders + {order}) && |pool.Live()| <= old(|pool.Live()|) + 1
  {
    hide SlotsHold;
    pool.Counts();
    ghost var slots := pool.storage[..];
    order := new Order(source.id, source.symbol, source.side, source.kind, source.price, source.quantity);
    var slot := pool.Alloc(order);
    AddSlot(slots, slot.value, order, orders);
  }

  method TakeFor(pool: MemoryPool<Order>, engine: MatchingEngine, source: Order) returns (order: Order)
    requires engine.Valid() && Stores(pool, engine.Orders()) && |pool.Live()| < pool.capacity
    modifies pool, pool.storage
    ensures fresh(order) && order.State() == Copy(source.State()) && order.filledQty == 0 && order !in engine.Orders()
    ensures Stores(pool, engine.Orders() + {order}) && |pool.Live()| <= old(|pool.Live()|) + 1
    ensures engine.Valid() && engine.State() == old(engine.State()) && engine.Orders() == old(engine.Orders())
    ensures Repr(engine) == old(Repr(engine))
  {
    hide Stores, MatchingEngine.Orders, MatchingEngine.Levels, MatchingEngine.Valid, MatchingEngine.State;
    hide MemoryPool.Valid, MemoryPool.Live;
    engine.AllAllocated();
    order := Take(pool, source, engine.Orders());
  }

  /** The loop body on the order in its slot: the pool does not notice. */
  method Submit(pool: MemoryPool<Order>, engine: MatchingEngine, order: Order, result: BenchmarkResult,
                allTrades: seq<Trade>, acceptedIds: seq<OrderId>, ghost t: Tally)
      returns (result': BenchmarkResult, allTrades': seq<Trade>, acceptedIds': seq<OrderId>)
    requires engine.Valid() && order.filledQty == 0 && order !in engine.Orders()
    requires Tallied(t, engine.State(), result, allTrades, acceptedIds)
    modifies Repr(engine), order
    ensures engine.Valid() && engine.Orders() <= old(engine.Orders()) + {order}
    ensures forall x :: x in Repr(engine) ==> x in old(Repr(engine)) || x == order || fresh(x)
    ensures Handled(t, old(order.State()), engine.State(), result', allTrades', acceptedIds')
    ensures result'.ordersSubmitted == result.ordersSubmitted
    ensures unchanged(pool) && unchanged(pool.storage)
  {
    hide *;
    PoolApart(pool, engine);
    result', allTrades', acceptedIds' := HandleOrder(engine, order, result, allTrades, acceptedIds, t);
  }

  /** One iteration: construct the order in a slot, submit it, and let go what the engine let go. */
  method RunOne(pool: MemoryPool<Order>, engine: MatchingEngine, source: Order, result: BenchmarkResult,
                allTrades: seq<Trade>, acceptedIds: seq<OrderId>, ghost t: Tally)
      returns (result': BenchmarkResult, allTrades': seq<Trade>, acceptedIds': seq<OrderId>)
    requires engine.Valid() && Stores(pool, engine.Orders()) && |pool.Live()| < pool.capacity
    requires Tallied(t, engine.State(), result, allTrades, acceptedIds)
    modifies Repr(engine), pool, pool.storage
    ensures engine.Valid() && Stores(pool, engine.Orders()) && |pool.Live()| <= old(|pool.Live()|) + 1
    ensures HoldsResting(pool, engine.State())
    ensures forall x :: x in Repr(engine) ==> x in old(Repr(engine)) || fresh(x)
    ensures Handled(t, Copy(old(source.State())), engine.State(), result', allTrades', acceptedIds')
    ensures result'.ordersSubmitted == result.ordersSubmitted
  {
    hide Stores, Repr, Handled, Tallied, HoldsResting, MatchingEngine.Orders, MatchingEngine.Levels, MatchingEngine.Valid;
    hide MatchingEngine.State, MemoryPool.Valid, MemoryPool.Live;
    var order := TakeFor(pool, engine, source);
    result', allTrades', acceptedIds' := Submit(pool, engine, order, result, allTrades, acceptedIds, t);
    Collect(pool, engine, old(engine.Orders()) + {order});
    StoresResting(pool, engine);
  }

  lemma NothingStored(pool: MemoryPool<Order>)
    requires pool.Valid() && pool.Live() == {}
    ensures Stores(pool, {})
  {
    forall k | 0 <= k < pool.capacity ensures pool.storage[k] == None {
      assert k !in pool.Live();
    }
  }

  method Prepare(symbols: seq<Symbol>, capacity: nat) returns (pool: MemoryPool<Order>, engine: MatchingEngine)
    requires capacity <= TWO_32
    ensures engine.Valid() && engine.State() == Registered(symbols) && forall x :: x in Repr(engine) ==> fresh(x)
    ensures fresh(pool) && fresh(pool.storage) && pool.capacity == capacity
    ensures Stores(pool, engine.Orders()) && pool.Live() == {}
  {
    hide EngineOk, MatchingEngine.Levels, MatchingEngine.Orders, MatchingEngine.State, MatchingEngine.Valid;
    engine := Setup(symbols);
    engine.AllAllocated();
    pool := new MemoryPool(capacity);
    NothingStored(pool);
  }

  /** The pool run: no allocation fails, and at every step the live slots hold exactly the
      resting orders; its engine, counters, trades and ids are those of the sequential run. */
  method RunPool(symbols: seq<Symbol>, orders: seq<Order>)
      returns (pool: MemoryPool<Order>, engine: MatchingEngine, result: BenchmarkResult, allTrades: seq<Trade>,
               acceptedIds: seq<OrderId>)
    requires |orders| + 1 <= TWO_32
    ensures engine.Valid() && result.ordersSubmitted == |orders| && pool.capacity == |orders| + 1
    ensures Ran(symbols, Copies(old(States(orders))), |orders|, engine.State(), result, allTrades, acceptedIds)
    ensures Stores(pool, engine.Orders()) && HoldsResting(pool, engine.State())
  {
    hide Repr, Ran, EngineOk, Handled, Tallied, Baseline, Stores, MatchingEngine.Levels, MatchingEngine.Orders;
    hide MatchingEngine.State, MatchingEngine.Valid, MemoryPool.Live, Copy, HoldsResting;
    ghost var copies := Copies(States(orders));
    pool, engine := Prepare(symbols, |orders| + 1);
    result, allTrades, acceptedIds := BenchmarkResult(|orders|, 0, 0, 0, 0), [], [];
    RanStart(symbols, copies, |orders|);
    for i := 0 to |orders|
      invariant engine.Valid() && Stores(pool, engine.Orders()) && |pool.Live()| <= i
      invariant pool.capacity == |orders| + 1 && fresh(pool) && fresh(pool.storage)
      invariant forall x :: x in Repr(engine) ==> fresh(x)
      invariant Ran(symbols, copies, i, engine.State(), result, allTrades, acceptedIds)
      invariant result.ordersSubmitted == |orders|
    {
      ghost var t := Baseline(symbols, copies[..i]);
      RanNow(symbols, copies, i, engine.State(), result, allTrades, acceptedIds);
      assert copies[i] == Copy(orders[i].State());
      result, allTrades, acceptedIds := RunOne(pool, engine, orders[i], result, allTrades, acceptedIds, t);
      RanStep(symbols, copies, i, engine.State(), result, allTrades, acceptedIds);
    }
    StoresResting(pool, engine);
  }

  // ---------------------------------------------------------------- pool mode equals baseline mode

  /** The engine does not look at the status an order comes with. */
  lemma StatusIgnored(e: EngineState, o: OrderState)
    requires EngineOk(e) && o.filled == 0
    ensures SubmitOrder(e, Copy(o)).engine == SubmitOrder(e, o).engine
    ensures SubmitOrder(e, Copy(o)).response == SubmitOrder(e, o).response
  {
    hide EngineOk, BooksOk, BookOk, BookOf, AddOrder, CancelById, Incoming;
    BooksOkOf(e);
    if Accepts(e, o) {
      SubmitAccepted(e, o);
      SubmitAccepted(e, Copy(o));
      AcceptedFirst(e.books[o.symbol], o);
      AcceptedFirst(e.books[o.symbol], Copy(o));
      hide SubmitOrder;
    } else {
      hide Place;
    }
  }

  /** For orders that come unfilled the pool run reports exactly what the baseline run reports. */
  lemma {:induction false} PoolEqualsBaseline(symbols: seq<Symbol>, orders: seq<OrderState>)
    requires AllUnfilled(orders)
    ensures Baseline(symbols, Copies(orders)) == Baseline(symbols, orders)
    decreases |orders|
  {
    hide EngineOk, SubmitOrder;
    if orders != [] {
      var n := |orders| - 1;
      PoolEqualsBaseline(symbols, orders[..n]);
      assert Copies(orders)[..n] == Copies(orders[..n]);
      StatusIgnored(Baseline(symbols, orders[..n]).engine, orders[n]);
    }
  }
}
