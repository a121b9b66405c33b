/** The order objects an engine refers to are its resting orders, one object for each. */
module RestingObjects {
  import opened Types
  import opened Matching
  import opened PriceTime
  import opened Refinement
  import opened Engine
  import opened Ledger
  import opened OrderBooks
  import opened MatchingEngines

  /** An order in this state rests in the book of its symbol, on its side. */
  ghost predicate RestsIn(e: EngineState, x: OrderState) {
    x.symbol in e.books && x in Flatten(e.books[x.symbol].Levels(x.side))
  }

  // ---------------------------------------------------------------- one book

  lemma SideObjects(ls: seq<PriceLevel>)
    ensures forall o :: o in OrdersOf(ls) ==> o.State() in Flatten(SideState(ls))
    ensures forall x :: x in Flatten(SideState(ls)) ==> exists o :: o in OrdersOf(ls) && o.State() == x
  {
    hide Flatten, SideState;
    forall o | o in OrdersOf(ls) ensures o.State() in Flatten(SideState(ls)) {
      var i, k := ObjectAt(ls, o);
      var m := FlattenAt(SideState(ls), i, k);
    }
    forall x | x in Flatten(SideState(ls)) ensures exists o :: o in OrdersOf(ls) && o.State() == x {
      var m :| 0 <= m < |Flatten(SideState(ls))| && Flatten(SideState(ls))[m] == x;
      var i, k := FlattenFrom(SideState(ls), m);
      assert SideState(ls)[i] == ls[i].State();
      InOrders(ls, i, k);
    }
  }

  lemma ObjectAt(ls: seq<PriceLevel>, o: Order) returns (i: nat, k: nat)
    requires o in OrdersOf(ls)
    ensures i < |ls| && k < |ls[i].orders| && ls[i].orders[k] == o
    ensures SideState(ls)[i].orders[k] == o.State()
  {
    hide SideState;
    i :| 0 <= i < |ls| && o in ls[i].orders;
    k :| 0 <= k < |ls[i].orders| && ls[i].orders[k] == o;
    assert SideState(ls)[i] == ls[i].State();
  }

  lemma BookObjects(book: OrderBook)
    requires book.Valid()
    ensures forall o :: o in book.AllOrders() ==>
      o.symbol == book.symbol && o.State() in Flatten(book.State().Levels(o.side)) && o.id in book.index
    ensures forall side, x :: x in Flatten(book.State().Levels(side)) ==> exists o :: o in book.AllOrders() && o.State() == x
  {
    LevelsOfSymbol(book);
    SideObjects(book.bids);
    SideObjects(book.asks);
    IndexIsFlat(book.State(), BUY);
    IndexIsFlat(book.State(), SELL);
    hide BookOk, OrdersOf, SideState, Flatten, OrderBook.State;
    forall o | o in book.AllOrders() ensures o.State() in Flatten(book.State().Levels(o.side)) && o.id in book.index {
      var list := Flatten(book.State().Levels(o.side));
      assert o.State() in list;
      var m :| 0 <= m < |list| && list[m] == o.State();
      assert list[m].id in Ids(list);
    }
  }

  /** Two orders of a book with the same id are one object. */
  lemma OneObject(book: OrderBook, o: Order, p: Order)
    requires book.Valid() && o in book.AllOrders() && p in book.AllOrders() && o.id == p.id
    ensures o == p
  {
    hide Flatten, OrdersOf, SideState;
    OnOneSide(book, o);
    OnOneSide(book, p);
    var ls := book.LevelsOf(o.side);
    var i, k := ObjectAt(ls, o);
    var i', k' := ObjectAt(ls, p);
    BookSide(book.State(), o.side);
    hide BookOk, SideOk, Indexed;
    PositionUnique(o.side, SideState(ls), book.index, i, k, i', k');
  }

  lemma OnOneSide(book: OrderBook, o: Order)
    requires book.Valid() && o in book.AllOrders()
    ensures o in OrdersOf(book.LevelsOf(o.side)) && o.id in book.index && book.index[o.id].side == o.side
  {
    assert Tagged(book.bids, book.symbol, BUY) && Tagged(book.asks, book.symbol, SELL);
    BookSide(book.State(), o.side);
    hide BookOk, SideOk, OrdersOf, SideState;
    assert o in OrdersOf(book.LevelsOf(o.side));
    var i, k := ObjectAt(book.LevelsOf(o.side), o);
  }

  // ---------------------------------------------------------------- the engine

  lemma OrderPlace(engine: MatchingEngine, o: Order)
    requires engine.Valid() && o in engine.Orders()
    ensures o.symbol in engine.books && engine.books[o.symbol].Valid()
    ensures (engine.Footprint(o.symbol); o in engine.books[o.symbol].AllOrders())
  {
    hide EngineOk, OrderBook.Valid, OrderBook.AllOrders;
    var s :| s in engine.books && o in engine.OrdersAt(s);
    engine.ValidAt(s);
    LevelsOfSymbol(engine.books[s]);
  }

  lemma Referred(engine: MatchingEngine, s: Symbol, o: Order)
    requires s in engine.books && (engine.LevelsAt(s); o in engine.books[s].AllOrders())
    ensures o in engine.Orders()
  {
    assert o in engine.OrdersAt(s);
  }

  /** Every object the engine refers to rests in the state it carries, every resting order is
      such an object, and no id has two. */
  lemma ObjectsRest(engine: MatchingEngine)
    requires engine.Valid()
    ensures forall o :: o in engine.Orders() ==> RestsIn(engine.State(), o.State()) && o.id in RestingIds(engine.State())
    ensures forall x :: RestsIn(engine.State(), x) ==> exists o :: o in engine.Orders() && o.State() == x
    ensures forall o, p :: o in engine.Orders() && p in engine.Orders() && o.id == p.id ==> o == p
  {
    hide BookOk, EngineOk, Flatten, MatchingEngine.Orders, MatchingEngine.Levels, MatchingEngine.State, OrderBook.Valid;
    hide OrderBook.AllOrders, OrderBook.State, RestingIds;
    forall o | o in engine.Orders() ensures RestsIn(engine.State(), o.State()) && o.id in RestingIds(engine.State()) {
      ObjectRests(engine, o);
    }
    forall x | RestsIn(engine.State(), x) ensures exists o :: o in engine.Orders() && o.State() == x {
      var o := ObjectOf(engine, x);
    }
    forall o, p | o in engine.Orders() && p in engine.Orders() && o.id == p.id ensures o == p {
      SameObject(engine, o, p);
    }
  }

  lemma ObjectRests(engine: MatchingEngine, o: Order)
    requires engine.Valid() && o in engine.Orders()
    ensures RestsIn(engine.State(), o.State()) && o.id in RestingIds(engine.State())
  {
    hide BookOk, EngineOk, Flatten, OrderBook.Valid, OrderBook.AllOrders, OrderBook.State;
    OrderPlace(engine, o);
    BookObjects(engine.books[o.symbol]);
    BookStateAt(engine, o.symbol);
    hide MatchingEngine.State;
    assert o.id in engine.State().books[o.symbol].index;
  }

  lemma ObjectOf(engine: MatchingEngine, x: OrderState) returns (o: Order)
    requires engine.Valid() && RestsIn(engine.State(), x)
    ensures o in engine.Orders() && o.State() == x
  {
    hide BookOk, EngineOk, Flatten, OrderBook.Valid, OrderBook.AllOrders, OrderBook.State, MatchingEngine.Orders;
    BookStateAt(engine, x.symbol);
    engine.ValidAt(x.symbol);
    BookObjects(engine.books[x.symbol]);
    o :| o in engine.books[x.symbol].AllOrders() && o.State() == x;
    Referred(engine, x.symbol, o);
  }

  lemma SameObject(engine: MatchingEngine, o: Order, p: Order)
    requires engine.Valid() && o in engine.Orders() && p in engine.Orders() && o.id == p.id
    ensures o == p
  {
    hide BookOk, Flatten, OrderBook.Valid, OrderBook.AllOrders, OrderBook.State, MatchingEngine.Orders;
    OrderPlace(engine, o);
    OrderPlace(engine, p);
    BookObjects(engine.books[o.symbol]);
    BookObjects(engine.books[p.symbol]);
    BookStateAt(engine, o.symbol);
    BookStateAt(engine, p.symbol);
    assert Disjoint(engine.State().books);
    assert o.id in engine.State().books[o.symbol].index && p.id in engine.State().books[p.symbol].index;
    OneObject(engine.books[o.symbol], o, p);
  }

  function IdsOf(orders: set<Order>): set<OrderId> {
    set o | o in orders :: o.id
  }

  /** The ids of these objects are the resting ids. */
  lemma ObjectIds(engine: MatchingEngine)
    requires engine.Valid()
    ensures RestingIds(engine.State()) == IdsOf(engine.Orders())
  {
    hide BookOk, EngineOk, Flatten, MatchingEngine.Orders, MatchingEngine.Levels, OrderBook.Valid, OrderBook.AllOrders;
    hide OrderBook.State, RestsIn;
    ObjectsRest(engine);
    forall id | id in RestingIds(engine.State()) ensures exists o :: o in engine.Orders() && o.id == id {
      var s :| s in engine.books && id in engine.State().books[s].index;
      var o := IndexedObject(engine, s, id);
    }
    hide MatchingEngine.State, RestingIds;
  }

  lemma IndexedObject(engine: MatchingEngine, s: Symbol, id: OrderId) returns (o: Order)
    requires engine.Valid() && s in engine.books && id in engine.books[s].index
    ensures o in engine.Orders() && o.id == id
  {
    hide BookOk, EngineOk, Flatten, OrderBook.AllOrders, MatchingEngine.Orders, OrdersOf, SideState;
    engine.ValidAt(s);
    var book := engine.books[s];
    BookObjects(book);
    IndexIsFlat(book.State(), BUY);
    IndexIsFlat(book.State(), SELL);
    var list := Flatten(book.State().Levels(book.index[id].side));
    hide OrderBook.State, OrderBook.Valid;
    assert id in Ids(list);
    var m :| 0 <= m < |list| && list[m].id == id;
    assert list[m] in list;
    o :| o in book.AllOrders() && o.State() == list[m];
    Referred(engine, s, o);
  }

  // ---------------------------------------------------------------- submitting a resting order again

  lemma RestingOk(book: OrderBook, o: Order)
    requires book.Valid() && o in book.AllOrders()
    ensures o.kind == LIMIT && o.filledQty < o.quantity
    ensures o.status == if o.filledQty == 0 then ACCEPTED else PARTIALLY_FILLED
  {
    hide OrdersOf, SideState;
    OnOneSide(book, o);
    var ls := book.LevelsOf(o.side);
    var i, k := ObjectAt(ls, o);
    BookSide(book.State(), o.side);
    hide BookOk, OrderBook.Valid;
    LevelIn(o.side, SideState(ls), i);
    assert OrderOk(o.side, SideState(ls)[i].price, SideState(ls)[i].orders[k], k);
  }

  lemma TaggedPrice(b: BookState, symbol: Symbol, usedIds: set<OrderId>, x: OrderState)
    requires BookOf(b, symbol, usedIds) && x in Flatten(b.Levels(x.side))
    ensures x.price > 0
  {
    hide BookOk, Flatten;
  }

  /** The validator refuses every order that rests, as a duplicate, and the order has one of
      the two statuses of a resting order. */
  lemma RestingIsRefused(engine: MatchingEngine, o: Order)
    requires engine.Valid() && o in engine.Orders()
    ensures engine.validator.Validate(o) == DUPLICATE_ID
    ensures o.kind == LIMIT && (o.status == ACCEPTED || o.status == PARTIALLY_FILLED)
  {
    hide BooksOk, BookOf, Flatten, OrderBook.Valid, OrderBook.AllOrders, OrderBook.State, MatchingEngine.Orders;
    OrderPlace(engine, o);
    RestingOk(engine.books[o.symbol], o);
    BookObjects(engine.books[o.symbol]);
    BookStateAt(engine, o.symbol);
    BookIn(engine.State(), o.symbol);
    TaggedPrice(engine.State().books[o.symbol], o.symbol, engine.State().usedIds, o.State());
  }
}
