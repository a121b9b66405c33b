/** The risk validator and the matching engine as mutable objects, proved against Engine. */
module MatchingEngines {
  import opened Types
  import opened Matching
  import opened Engine
  import opened OrderBooks

  class RiskValidator {
    var symbols: set<Symbol>
    var usedIds: set<OrderId>

    constructor ()
      ensures symbols == {} && usedIds == {}
    {
      symbols, usedIds := {}, {};
    }

    method RegisterSymbol(symbol: Symbol)
      modifies this`symbols
      ensures symbols == old(symbols) + {symbol}
    {
      symbols := symbols + {symbol};
    }

    /** The first check that fails, in the order quantity, price, symbol, id. */
    function Validate(order: Order): (r: Reason)
      reads this, order
      ensures r == Engine.Validate(symbols, usedIds, order.State())
      ensures r == ZERO_QUANTITY <==> order.quantity == 0
      ensures r == NON_POSITIVE_PRICE <==> order.quantity > 0 && order.kind == LIMIT && order.price <= 0
      ensures r == UNKNOWN_SYMBOL <==>
        order.quantity > 0 && (order.kind == LIMIT ==> order.price > 0) && order.symbol !in symbols
      ensures r == DUPLICATE_ID <==>
        order.quantity > 0 && (order.kind == LIMIT ==> order.price > 0) && order.symbol in symbols && order.id in usedIds
      ensures r == NO_REASON <==>
        order.quantity > 0 && (order.kind == LIMIT ==> order.price > 0) && order.symbol in symbols && order.id !in usedIds
    {
      if order.quantity == 0 then ZERO_QUANTITY
      else if order.kind == LIMIT && order.price <= 0 then NON_POSITIVE_PRICE
      else if order.symbol !in symbols then UNKNOWN_SYMBOL
      else if order.id in usedIds then DUPLICATE_ID
      else NO_REASON
    }

    method RecordId(id: OrderId)
      modifies this`usedIds
      ensures usedIds == old(usedIds) + {id}
    {
      usedIds := usedIds + {id};
    }
  }

  /** Books of different symbols share no objects. */
  lemma BooksApart(a: OrderBook, b: OrderBook)
    requires a.Valid() && b.Valid() && a.symbol != b.symbol
    ensures a != b && a.AllLevels() !! b.AllLevels() && a.AllOrders() !! b.AllOrders()
  {
    LevelsOfSymbol(a);
    LevelsOfSymbol(b);
    hide BookOk, OrdersOf, LevelSet;
  }

  lemma LevelsOfSymbol(a: OrderBook)
    requires a.Valid()
    ensures forall l :: l in a.AllLevels() ==> l.symbol == a.symbol
    ensures forall o :: o in a.AllOrders() ==> o.symbol == a.symbol
  {
    hide BookOk, OrdersOf;
  }

  /** Placing keeps the engine's invariant, whatever the counter of submissions says. */
  lemma PlaceKeeps(e: EngineState, o: OrderState)
    requires EngineOk(e) && o.filled == 0 && Accepts(e, o)
    ensures BookOk(e.books[o.symbol]) && Incoming(e.books[o.symbol], o)
    ensures EngineOk(Place(e, o).engine.(processed := e.processed))
  {
    SubmitAccepted(e, o);
    SubmitKeeps(e, o);
    BooksOkCounters(Place(e, o).engine, Place(e, o).engine.(processed := e.processed));
    hide BooksOk, Place;
  }

  /** An accepted order turned engine e and order o into e' and o', before it is counted. */
  ghost predicate PlacedIn(e: EngineState, o: OrderState, e': EngineState, o': OrderState, response: Response) {
    EngineOk(e) && o.filled == 0 && Accepts(e, o) && (PlaceKeeps(e, o);
    var r := Place(e, o);
    e' == r.engine.(processed := e.processed) && o' == r.order && response == r.response)
  }

  /** The books m became m': only the book of the order changed, as addOrder changes it. */
  ghost predicate MatchedIn(m: map<Symbol, BookState>, o: OrderState, m': map<Symbol, BookState>, o': OrderState, trades: seq<Trade>) {
    && o.symbol in m && o.symbol in m' && m' == m[o.symbol := m'[o.symbol]]
    && Placed(m[o.symbol], o, m'[o.symbol], o', trades)
  }

  lemma PlacedFrom(e: EngineState, o: OrderState, m: map<Symbol, BookState>, o': OrderState, trades: seq<Trade>)
    requires EngineOk(e) && o.filled == 0 && Accepts(e, o) && MatchedIn(e.books, o, m, o', trades)
    ensures var e' := EngineState(m, e.symbols, e.usedIds + {o.id}, e.processed, e.tradeCount + |trades|);
      EngineOk(e') && PlacedIn(e, o, e', o', Response(o'.status, trades, Explain(o')))
    ensures o'.kind == o.kind
  {
    hide EngineOk, BookOk, AddOrder, Accepts, Incoming;
    PlaceKeeps(e, o);
    AddOrderFrame(e.books[o.symbol], o);
  }

  /** The outcome of submitOrder: engine, order and response are what Engine.SubmitOrder makes of them. */
  ghost predicate Submitted(e: EngineState, o: OrderState, e': EngineState, o': OrderState, response: Response) {
    BooksOk(e) && o.filled == 0 && var r := SubmitOrder(e, o);
    e' == r.engine && o' == r.order && response == r.response
  }

  /** The cases of a submission, told from the engine that has just counted it. */
  lemma SubmitCases(e: EngineState, o: OrderState)
    requires EngineOk(e) && o.filled == 0
    ensures var e1 := e.(processed := e.processed + 1);
      var reason := Validate(e.symbols, e.usedIds, o);
      if o.kind == CANCEL then
        var c := CancelById(e1, o.symbol, o.id);
        Submitted(e, o, c.0, o, c.1)
      else if reason != NO_REASON then
        Submitted(e, o, e1, o.(status := REJECTED), Response(REJECTED, [], reason))
      else if o.symbol !in e.books then
        Submitted(e, o, e1.(usedIds := e.usedIds + {o.id}), o.(status := REJECTED), Response(REJECTED, [], NO_BOOK))
      else
        Accepts(e1, o) && forall e', o', response :: PlacedIn(e1, o, e', o', response) ==> Submitted(e, o, e', o', response)
  {
    hide BooksOk, BookOk, AddOrder, Incoming, Disjoint;
    if Accepts(e, o) {
      SubmitAccepted(e, o);
    } else {
      hide CancelById, PlacedIn, Place;
    }
  }

  lemma MoreIds(e: EngineState, id: OrderId)
    requires EngineOk(e)
    ensures EngineOk(e.(usedIds := e.usedIds + {id}))
  {
    hide BookOk;
  }

  lemma NoOrders(ls: seq<PriceLevel>)
    requires ls == []
    ensures OrdersOf(ls) == {} && LevelSet(ls) == {}
  {
  }

  class MatchingEngine {
    var books: map<Symbol, OrderBook>
    const validator: RiskValidator
    var ordersProcessed: nat
    var tradesGenerated: nat

    constructor ()
      ensures Valid() && State() == EMPTY && fresh(validator)
      ensures books.Values == {} && Levels() == {} && Orders() == {}
    {
      books, ordersProcessed, tradesGenerated := map[], 0, 0;
      validator := new RiskValidator();
    }

    ghost function Levels(): set<PriceLevel>
      reads this`books, books.Values
    {
      set s, l | s in books && l in books[s].AllLevels() :: l
    }

    lemma LevelsAt(s: Symbol)
      requires s in books
      ensures books[s].AllLevels() <= Levels()
      ensures forall l :: l in books[s].bids ==> l in Levels()
      ensures forall l :: l in books[s].asks ==> l in Levels()
    {
      var b := books[s];
      assert forall l :: l in b.bids ==> l in b.AllLevels();
      assert forall l :: l in b.asks ==> l in b.AllLevels();
    }

    ghost function OrdersAt(s: Symbol): set<Order>
      requires s in books
      reads this`books, books.Values, Levels()
    {
      LevelsAt(s);
      books[s].AllOrders()
    }

    ghost function Orders(): set<Order>
      reads this`books, books.Values, Levels()
    {
      set s, o | s in books && o in OrdersAt(s) :: o
    }

    ghost function BookStates(): (m: map<Symbol, BookState>)
      reads this`books, books.Values, Levels(), Orders()
      ensures m.Keys == books.Keys
    {
      map s | s in books :: Footprint(s); books[s].State()
    }

    lemma Footprint(s: Symbol)
      requires s in books
      ensures books[s].AllLevels() <= Levels() && books[s].AllOrders() <= Orders()
    {
      assert OrdersAt(s) <= Orders();
    }

    lemma AllAllocated()
      ensures forall l :: l in Levels() ==> allocated(l)
      ensures forall o :: o in Orders() ==> allocated(o)
      ensures forall b :: b in books.Values ==> allocated(b)
    {
    }

    ghost function State(): (e: EngineState)
      reads this, validator, books.Values, Levels(), Orders()
      ensures e.books.Keys == books.Keys && e.symbols == validator.symbols && e.usedIds == validator.usedIds
      ensures e.processed == ordersProcessed
    {
      EngineState(BookStates(), validator.symbols, validator.usedIds, ordersProcessed, tradesGenerated)
    }

    ghost predicate BooksValid()
      reads this`books, books.Values, Levels(), Orders()
    {
      forall s :: s in books ==> (Footprint(s); books[s].symbol == s && books[s].Valid())
    }

    ghost predicate Valid()
      reads this, validator, books.Values, Levels(), Orders()
    {
      BooksValid() && EngineOk(State())
    }

    lemma ValidAt(s: Symbol)
      requires BooksValid() && s in books
      ensures books[s].symbol == s && books[s].Valid()
      ensures books[s].AllLevels() <= Levels() && books[s].AllOrders() <= Orders()
    {
      Footprint(s);
      hide BookOk;
    }

    /** The books of other symbols share no objects with that of s. */
    ghost predicate Apart(s: Symbol, t: Symbol)
      requires s in books && t in books
      reads this`books, books[s], books[t], books[s].bids, books[s].asks, books[t].bids, books[t].asks
    {
      && books[s] != books[t]
      && (forall l :: l in books[t].AllLevels() ==> l !in books[s].AllLevels())
      && (forall o :: o in books[t].AllOrders() ==> o !in books[s].AllOrders())
    }

    lemma AllApart(s: Symbol)
      requires BooksValid() && s in books
      ensures forall t :: t in books && t != s ==> Apart(s, t)
    {
      hide BooksValid;
      ValidAt(s);
      forall t | t in books && t != s ensures Apart(s, t) {
        ValidAt(t);
        BooksApart(books[s], books[t]);
      }
    }

    /** A book other than the one at s. */
    twostate predicate Untouched(new t: Symbol)
      reads this`books, books.Values, Levels(), Orders()
    {
      t in books && t in old(books) && books[t] == old(books[t]) && old(allocated(books[t])) && (Footprint(t);
      && books[t].Valid() && books[t].State() == old(books[t].State())
      && books[t].AllOrders() == old(books[t].AllOrders()) && books[t].AllLevels() == old(books[t].AllLevels()))
    }

    /** Hand the order to the book of its symbol. */
    method AddTo(book: OrderBook, order: Order) returns (trades: seq<Trade>)
      requires BooksValid() && order.symbol in books && books[order.symbol] == book
      requires order !in Orders() && book.Admits(order)
      modifies book, book.AllLevels(), book.AllOrders(), order
      ensures book.Valid()
      ensures Placed(old(book.State()), old(order.State()), book.State(), order.State(), trades)
      ensures book.AllOrders() <= old(book.AllOrders()) + {order}
      ensures forall l :: l in book.AllLevels() ==> l in old(book.AllLevels()) || fresh(l)
      ensures forall t :: t in books && t != order.symbol ==> Untouched(t)
    {
      hide BooksValid, Placed, OrdersOf, SideState, LevelSet, BookOk, Levels, Orders, OrderBook.Valid, OrderBook.Admits, Incoming;
      AllApart(order.symbol);
      forall t | t in books
        ensures books[t].Valid() && order !in books[t].AllOrders()
        ensures forall l :: l in books[t].AllLevels() ==> allocated(l)
        ensures forall o :: o in books[t].AllOrders() ==> allocated(o)
      {
        ValidAt(t);
        BookAllocated(books[t]);
      }
      trades := book.AddOrder(order);
      forall t | t in books && t != order.symbol ensures Untouched(t) {
        assert old(Apart(order.symbol, t));
        BookKept(books[t]);
      }
    }

    /** Cancel in one book. */
    method CancelIn(book: OrderBook, symbol: Symbol, id: OrderId) returns (found: bool)
      requires BooksValid() && symbol in books && books[symbol] == book
      modifies book, book.AllLevels()
      ensures book.Valid()
      ensures (book.State(), found) == Matching.CancelOrder(old(book.State()), id)
      ensures book.AllOrders() <= old(book.AllOrders()) && book.AllLevels() <= old(book.AllLevels())
      ensures forall t :: t in books && t != symbol ==> Untouched(t)
    {
      hide BooksValid, OrdersOf, SideState, LevelSet, BookOk, Levels, Orders, OrderBook.Valid;
      AllApart(symbol);
      forall t | t in books
        ensures books[t].Valid()
        ensures forall l :: l in books[t].AllLevels() ==> allocated(l)
        ensures forall o :: o in books[t].AllOrders() ==> allocated(o)
      {
        ValidAt(t);
        BookAllocated(books[t]);
      }
      found := book.CancelOrder(id);
      forall t | t in books && t != symbol ensures Untouched(t) {
        assert old(Apart(symbol, t));
        BookKept(books[t]);
      }
    }

    /** All books but that of symbol are as they were. */
    twostate predicate OnlyBook(new symbol: Symbol)
      reads this`books, books.Values, Levels(), Orders()
    {
      && books.Keys == old(books.Keys) + {symbol}
      && (Footprint(symbol); books[symbol].Valid() && books[symbol].symbol == symbol)
      && forall t :: t in books && t != symbol ==> Untouched(t)
    }

    twostate lemma OneBook(new symbol: Symbol)
      requires OnlyBook(symbol)
      ensures BookStates() == old(BookStates())[symbol := (Footprint(symbol); books[symbol].State())]
    {
      hide OrdersOf, SideState, LevelSet, BookOk;
    }

    twostate lemma OneBookValid(new symbol: Symbol)
      requires OnlyBook(symbol) && old(BooksValid())
      ensures BooksValid()
    {
      hide OrdersOf, SideState, LevelSet, BookOk;
    }

    twostate lemma OneBookOrders(new symbol: Symbol)
      requires OnlyBook(symbol)
      ensures Orders() <= old(Orders()) + (Footprint(symbol); books[symbol].AllOrders())
    {
      hide OrdersOf, SideState, LevelSet, BookOk;
      forall o | o in Orders() && o !in books[symbol].AllOrders() ensures o in old(Orders()) {
        var t :| t in books && o in OrdersAt(t);
        assert t in old(books) && o in old(OrdersAt(t));
      }
    }

    twostate lemma OneBookLevels(new symbol: Symbol)
      requires OnlyBook(symbol)
      ensures Levels() <= old(Levels()) + books[symbol].AllLevels()
    {
      hide OrdersOf, SideState, LevelSet, BookOk;
      forall l | l in Levels() && l !in books[symbol].AllLevels() ensures l in old(Levels()) {
        var t :| t in books && l in books[t].AllLevels();
        assert t in old(books) && l in old(books[t].AllLevels());
      }
    }

    /** A book for the symbol, kept if there is one already. */
    method RegisterSymbol(symbol: Symbol)
      requires Valid()
      modifies this`books, validator
      ensures Valid() && State() == Engine.RegisterSymbol(old(State()), symbol)
      ensures Orders() <= old(Orders()) && Levels() <= old(Levels())
      ensures forall b :: b in books.Values ==> b in old(books.Values) || fresh(b)
    {
      hide BookOk, SideState, BooksOk, EngineOk, OrdersOf, BooksValid, BookStates, Levels, Orders;
      RegisterKeeps(State(), symbol);
      if symbol !in books {
        AddBook(symbol);
      }
      AllAllocated();
      validator.RegisterSymbol(symbol);
    }

    method AddBook(symbol: Symbol)
      requires BooksValid() && symbol !in books
      modifies this`books
      ensures BooksValid() && Orders() <= old(Orders()) && Levels() <= old(Levels())
      ensures forall b :: b in books.Values ==> b in old(books.Values) || fresh(b)
      ensures BookStates() == old(BookStates())[symbol := EmptyBook(symbol)]
    {
      hide BookOk, SideState, OrdersOf, BooksValid, LevelSet, BookStates, Levels, Orders, OrderBook.Valid;
      forall t | t in books
        ensures books[t].symbol == t && books[t].Valid()
        ensures forall l :: l in books[t].AllLevels() ==> allocated(l)
        ensures forall o :: o in books[t].AllOrders() ==> allocated(o)
      {
        ValidAt(t);
        BookAllocated(books[t]);
      }
      var book := new OrderBook(symbol);
      assert book.AllLevels() == {} && book.AllOrders() == {} by { NoOrders([]); }
      books := books[symbol := book];
      forall t | t in books && t != symbol ensures Untouched(t) { BookKept(books[t]); }
      OneBook(symbol);
      OneBookValid(symbol);
      OneBookOrders(symbol);
      OneBookLevels(symbol);
    }

    /** Cancel in the book of the symbol; all other books stay as they are. */
    method CancelAt(symbol: Symbol, id: OrderId) returns (found: bool)
      requires BooksValid() && symbol in books
      modifies books.Values, Levels()
      ensures BooksValid() && Orders() <= old(Orders()) && Levels() <= old(Levels())
      ensures symbol in old(BookStates()) && var c := Matching.CancelOrder(old(BookStates())[symbol], id);
        BookStates() == old(BookStates())[symbol := c.0] && found == c.1
    {
      hide BookOk, SideState, OrdersOf, BooksValid, LevelSet;
      ValidAt(symbol);
      found := CancelIn(books[symbol], symbol, id);
      OneBook(symbol);
      OneBookValid(symbol);
      OneBookOrders(symbol);
      OneBookLevels(symbol);
    }

    method CancelOrder(symbol: Symbol, id: OrderId) returns (response: Response)
      requires Valid()
      modifies books.Values, Levels()
      ensures Valid() && (State(), response) == CancelById(old(State()), symbol, id)
      ensures Orders() <= old(Orders()) && Levels() <= old(Levels())
    {
      hide BookOk, SideState, BooksOk, EngineOk, OrdersOf, BooksValid, LevelSet, BookStates, Levels, Orders, Matching.CancelOrder;
      CancelKeeps(State(), symbol, id);
      if symbol !in books { return Response(REJECTED, [], UNKNOWN_SYMBOL); }
      var found := CancelAt(symbol, id);
      if !found { return Response(REJECTED, [], ORDER_NOT_FOUND); }
      return Response(CANCELLED, [], NO_REASON);
    }

    /** Hand the order to the book of its symbol; all other books stay as they are. */
    method Match(order: Order) returns (trades: seq<Trade>)
      requires BooksValid() && order !in Orders()
      requires order.symbol in BookStates() && Incoming(BookStates()[order.symbol], order.State())
      modifies books.Values, Levels(), Orders(), order
      ensures BooksValid() && Orders() <= old(Orders()) + {order}
      ensures forall l :: l in Levels() ==> l in old(Levels()) || fresh(l)
      ensures MatchedIn(old(BookStates()), old(order.State()), BookStates(), order.State(), trades)
    {
      hide BookOk, SideState, OrdersOf, BooksValid, Placed, Incoming;
      AdmitsAt(order);
      ValidAt(order.symbol);
      trades := AddTo(books[order.symbol], order);
      OneBook(order.symbol);
      OneBookValid(order.symbol);
      OneBookOrders(order.symbol);
      OneBookLevels(order.symbol);
    }

    lemma AdmitsAt(order: Order)
      requires BooksValid() && order.symbol in BookStates() && order !in Orders()
      requires Incoming(BookStates()[order.symbol], order.State())
      ensures order.symbol in books && (Footprint(order.symbol); books[order.symbol].Admits(order))
    {
      ValidAt(order.symbol);
      hide BookOk, SideState, OrdersOf;
    }

    lemma IncomingAt(order: Order)
      requires Valid() && order.filledQty == 0 && Accepts(State(), order.State())
      ensures BooksValid() && order.symbol in BookStates() && Incoming(BookStates()[order.symbol], order.State())
    {
      AcceptedIncoming(State(), order.State());
      hide BookOk, BooksOk, BookStates, BooksValid;
    }

    /** Record an id; the books do not notice. */
    method Record(id: OrderId)
      requires BooksValid()
      modifies validator
      ensures validator.usedIds == old(validator.usedIds) + {id} && validator.symbols == old(validator.symbols)
      ensures Levels() == old(Levels()) && Orders() == old(Orders()) && BookStates() == old(BookStates())
      ensures BooksValid()
    {
      hide BookOk, SideState, EngineOk, OrdersOf, BooksValid, BookStates, Levels, Orders;
      AllAllocated();
      validator.RecordId(id);
    }

    /** Record the id of a validated order, then match it. */
    method RecordAndMatch(order: Order) returns (trades: seq<Trade>)
      requires Valid() && order.filledQty == 0 && order !in Orders() && Accepts(State(), order.State())
      modifies validator, books.Values, Levels(), Orders(), order
      ensures BooksValid() && Orders() <= old(Orders()) + {order}
      ensures forall l :: l in Levels() ==> l in old(Levels()) || fresh(l)
      ensures validator.usedIds == old(validator.usedIds) + {order.id} && validator.symbols == old(validator.symbols)
      ensures MatchedIn(old(BookStates()), old(order.State()), BookStates(), order.State(), trades)
    {
      hide *;
      IncomingAt(order);
      Record(order.id);
      trades := Match(order);
    }

    /** A validated order whose symbol has a book: record the id, match it, count its trades. */
    method Place(order: Order) returns (response: Response)
      requires Valid() && order.filledQty == 0 && order !in Orders() && Accepts(State(), order.State())
      modifies this`tradesGenerated, validator, books.Values, Levels(), Orders(), order
      ensures Valid() && Orders() <= old(Orders()) + {order}
      ensures forall l :: l in Levels() ==> l in old(Levels()) || fresh(l)
      ensures PlacedIn(old(State()), old(order.State()), State(), order.State(), response)
    {
      hide BookOk, SideState, EngineOk, OrdersOf, BooksValid, MatchedIn, PlacedIn, BookStates, Levels, Orders, Accepts;
      ghost var e, o := State(), order.State();
      var trades := RecordAndMatch(order);
      ghost var states := BookStates();
      PlacedFrom(e, o, states, order.State(), trades);
      AllAllocated();
      tradesGenerated := tradesGenerated + |trades|;
      assert BookStates() == states && BooksValid();
      var reason := NO_REASON;
      if order.status == CANCELLED {
        if order.kind == FOK {
          reason := FOK_UNFILLED;
        } else if order.kind == IOC {
          reason := IOC_UNFILLED;
        }
      }
      response := Response(order.status, trades, reason);
    }

    method CountOne()
      requires Valid()
      modifies this`ordersProcessed
      ensures Valid() && State() == old(State()).(processed := old(ordersProcessed) + 1)
      ensures Levels() == old(Levels()) && Orders() == old(Orders())
    {
      hide BookOk, SideState, OrdersOf, BooksValid, BookStates, Levels, Orders, BooksOk;
      BooksOkCounters(State(), State().(processed := ordersProcessed + 1));
      AllAllocated();
      ghost var states := BookStates();
      ordersProcessed := ordersProcessed + 1;
      assert BookStates() == states && BooksValid();
    }

    method Reject(order: Order)
      requires Valid() && order !in Orders()
      modifies order`status
      ensures order.State() == old(order.State()).(status := REJECTED)
      ensures Valid() && State() == old(State()) && Levels() == old(Levels()) && Orders() == old(Orders())
    {
      hide BookOk, SideState, OrdersOf, BooksValid, BookStates, Levels, Orders, EngineOk;
      AllAllocated();
      ghost var states := BookStates();
      order.status := REJECTED;
      assert BookStates() == states && BooksValid();
    }

    /** A validated order without a book; registering keeps this from happening. */
    method RejectUnbooked(order: Order)
      requires Valid() && order !in Orders()
      modifies order`status, validator
      ensures order.State() == old(order.State()).(status := REJECTED)
      ensures Valid() && State() == old(State()).(usedIds := old(State()).usedIds + {order.id})
      ensures Levels() == old(Levels()) && Orders() == old(Orders())
    {
      hide BookOk, SideState, OrdersOf, BooksValid, BookStates, Levels, Orders, EngineOk;
      MoreIds(State(), order.id);
      Record(order.id);
      Reject(order);
    }

    lemma EngineHolds(processed: nat)
      requires Valid()
      ensures EngineOk(State()) && EngineOk(State().(processed := processed))
    {
      hide BooksOk;
      BooksOkCounters(State(), State().(processed := processed));
    }

    /** The validated or rejected path of a submission that has just been counted. */
    method SubmitNew(order: Order) returns (response: Response)
      requires Valid() && order.filledQty == 0 && order !in Orders() && order.kind != CANCEL && ordersProcessed > 0
      modifies this`tradesGenerated, validator, books.Values, Levels(), Orders(), order
      ensures Valid() && Orders() <= old(Orders()) + {order}
      ensures forall l :: l in Levels() ==> l in old(Levels()) || fresh(l)
      ensures Submitted(old(State()).(processed := old(ordersProcessed) - 1), old(order.State()),
                        State(), order.State(), response)
    {
      hide BookOk, SideState, EngineOk, OrdersOf, BooksValid, BookStates, Levels, Orders, Submitted, PlacedIn, CancelById;
      hide Accepts, State, Valid;
      ghost var e1 := State();
      EngineHolds(ordersProcessed - 1);
      SubmitCases(e1.(processed := ordersProcessed - 1), order.State());
      assert e1.(processed := ordersProcessed - 1).(processed := ordersProcessed) == e1;
      var reason := validator.Validate(order);
      if reason != NO_REASON {
        Reject(order);
        response := Response(REJECTED, [], reason);
      } else if order.symbol !in books {
        RejectUnbooked(order);
        response := Response(REJECTED, [], NO_BOOK);
      } else {
        response := Place(order);
      }
    }

    /** The cancel path of a submission that has just been counted. */
    method SubmitCancel(order: Order) returns (response: Response)
      requires Valid() && order.filledQty == 0 && order !in Orders() && order.kind == CANCEL && ordersProcessed > 0
      modifies books.Values, Levels()
      ensures Valid() && Orders() <= old(Orders()) && Levels() <= old(Levels())
      ensures Submitted(old(State()).(processed := old(ordersProcessed) - 1), old(order.State()),
                        State(), order.State(), response)
    {
      hide BookOk, SideState, EngineOk, OrdersOf, BooksValid, BookStates, Levels, Orders, Submitted, PlacedIn, CancelById;
      hide Accepts, State, Valid;
      ghost var e1, o := State(), order.State();
      ghost var e, c := e1.(processed := ordersProcessed - 1), CancelById(e1, order.symbol, order.id);
      EngineHolds(ordersProcessed - 1);
      SubmitCases(e, o);
      assert e.(processed := ordersProcessed) == e1;
      assert Submitted(e, o, c.0, o, c.1);
      response := CancelOrder(order.symbol, order.id);
      assert order.State() == o;
    }

    /** Submit an order: a cancel request, a rejection, or a placement. */
    method SubmitOrder(order: Order) returns (response: Response)
      requires Valid() && order.filledQty == 0 && order !in Orders()
      modifies this`ordersProcessed, this`tradesGenerated, validator, books.Values, Levels(), Orders(), order
      ensures Valid() && Orders() <= old(Orders()) + {order}
      ensures forall l :: l in Levels() ==> l in old(Levels()) || fresh(l)
      ensures Submitted(old(State()), old(order.State()), State(), order.State(), response)
    {
      hide BookOk, SideState, EngineOk, OrdersOf, BooksValid, BookStates, Levels, Orders, Submitted, State, Valid;
      ghost var e := State();
      CountOne();
      assert State().(processed := ordersProcessed - 1) == e;
      if order.kind == CANCEL {
        response := SubmitCancel(order);
      } else {
        response := SubmitNew(order);
      }
    }
  }

  lemma BookStateAt(engine: MatchingEngine, symbol: Symbol)
    requires symbol in engine.books
    ensures symbol in engine.State().books && (engine.Footprint(symbol); engine.State().books[symbol] == engine.books[symbol].State())
  {
    engine.Footprint(symbol);
  }
}
