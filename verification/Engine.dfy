/** The multi-symbol engine as a value: validation, routing, counters, cancellation. */
module Engine {
  import opened Types
  import opened Matching
  import opened PriceTime
  import opened Refinement

  datatype Reason = NO_REASON | ZERO_QUANTITY | NON_POSITIVE_PRICE | UNKNOWN_SYMBOL | DUPLICATE_ID
                  | NO_BOOK | ORDER_NOT_FOUND | FOK_UNFILLED | IOC_UNFILLED

  datatype Response = Response(status: OrderStatus, trades: seq<Trade>, reason: Reason)

  datatype EngineState = EngineState(books: map<Symbol, BookState>, symbols: set<Symbol>, usedIds: set<OrderId>,
                                     processed: nat, tradeCount: nat)

  const EMPTY: EngineState := EngineState(map[], {}, {}, 0, 0)

  function EmptyBook(symbol: Symbol): BookState {
    BookState(symbol, [], [], map[])
  }

  /** The pre-trade checks, in the order they are made. */
  function Validate(symbols: set<Symbol>, usedIds: set<OrderId>, o: OrderState): Reason {
    if o.quantity == 0 then ZERO_QUANTITY
    else if o.kind == LIMIT && o.price <= 0 then NON_POSITIVE_PRICE
    else if o.symbol !in symbols then UNKNOWN_SYMBOL
    else if o.id in usedIds then DUPLICATE_ID
    else NO_REASON
  }

  // ---------------------------------------------------------------- invariant

  ghost predicate AllTagged(list: seq<OrderState>, symbol: Symbol) {
    forall i :: 0 <= i < |list| ==> list[i].symbol == symbol && list[i].price > 0
  }

  /** A registered book: valid, its orders belong to the symbol, have a positive price and a recorded id. */
  ghost predicate BookOf(b: BookState, symbol: Symbol, usedIds: set<OrderId>) {
    && BookOk(b) && b.symbol == symbol
    && AllTagged(Flatten(b.bids), symbol) && AllTagged(Flatten(b.asks), symbol)
    && forall id :: id in b.index ==> id in usedIds
  }

  /** No id rests in two books. */
  ghost predicate Disjoint(books: map<Symbol, BookState>) {
    forall s, t, id :: s in books && t in books && id in books[s].index && id in books[t].index ==> s == t
  }

  ghost predicate BooksOk(e: EngineState) {
    (forall s :: s in e.books ==> BookOf(e.books[s], s, e.usedIds)) && Disjoint(e.books)
  }

  ghost predicate EngineOk(e: EngineState) {
    BooksOk(e) && e.symbols == e.books.Keys
  }

  // ---------------------------------------------------------------- operations

  function RegisterSymbol(e: EngineState, symbol: Symbol): EngineState {
    e.(books := if symbol in e.books then e.books else e.books[symbol := EmptyBook(symbol)],
       symbols := e.symbols + {symbol})
  }

  function CancelById(e: EngineState, symbol: Symbol, id: OrderId): (EngineState, Response) {
    if symbol !in e.books then (e, Response(REJECTED, [], UNKNOWN_SYMBOL))
    else
      var c := CancelOrder(e.books[symbol], id);
      (e.(books := e.books[symbol := c.0]),
       if c.1 then Response(CANCELLED, [], NO_REASON) else Response(REJECTED, [], ORDER_NOT_FOUND))
  }

  datatype Submission = Submission(engine: EngineState, order: OrderState, response: Response, done: seq<OrderState>)

  /** Why an accepted order came back CANCELLED. */
  function Explain(o: OrderState): Reason {
    if o.status != CANCELLED then NO_REASON
    else if o.kind == FOK then FOK_UNFILLED
    else if o.kind == IOC then IOC_UNFILLED
    else NO_REASON
  }

  /** A validated order is recorded, goes to the book of its symbol, and its trades are counted. */
  function Place(e: EngineState, o: OrderState): Submission
    requires o.symbol in e.books && BookOk(e.books[o.symbol]) && Incoming(e.books[o.symbol], o)
  {
    var r := AddOrder(e.books[o.symbol], o);
    Submission(EngineState(e.books[o.symbol := r.book], e.symbols, e.usedIds + {o.id}, e.processed + 1,
                           e.tradeCount + |r.trades|),
               r.order, Response(r.order.status, r.trades, Explain(r.order)), r.done)
  }

  function SubmitOrder(e: EngineState, o: OrderState): Submission
    requires BooksOk(e) && o.filled == 0
  {
    var e1 := e.(processed := e.processed + 1);
    var reason := Validate(e.symbols, e.usedIds, o);
    if o.kind == CANCEL then
      var c := CancelById(e1, o.symbol, o.id);
      Submission(c.0, o, c.1, [])
    else if reason != NO_REASON then
      Submission(e1, o.(status := REJECTED), Response(REJECTED, [], reason), [])
    else
      if o.symbol !in e.books then
        Submission(e1.(usedIds := e.usedIds + {o.id}), o.(status := REJECTED), Response(REJECTED, [], NO_BOOK), [])
      else
        AcceptedIncoming(e, o);
        Place(e, o)
  }

  predicate Accepts(e: EngineState, o: OrderState) {
    o.kind != CANCEL && Validate(e.symbols, e.usedIds, o) == NO_REASON && o.symbol in e.books
  }

  // ---------------------------------------------------------------- the invariant is kept

  lemma EmptyBookOf(symbol: Symbol, usedIds: set<OrderId>)
    ensures BookOf(EmptyBook(symbol), symbol, usedIds)
  {
    hide Has, LevelOk;
  }

  lemma RegisterKeeps(e: EngineState, symbol: Symbol)
    requires EngineOk(e)
    ensures EngineOk(RegisterSymbol(e, symbol))
  {
    EmptyBookOf(symbol, e.usedIds);
    hide BookOf;
  }

  lemma WithoutFrom(list: seq<OrderState>, id: OrderId, i: nat) returns (j: nat)
    requires i < |Without(list, id)|
    ensures j < |list| && Without(list, id)[i] == list[j]
    ensures i <= j <= i + 1
  {
    if list[0].id == id {
      j := i + 1;
    } else if i == 0 {
      j := 0;
    } else {
      j := WithoutFrom(list[1..], id, i - 1);
      j := j + 1;
    }
  }

  lemma WithoutTagged(list: seq<OrderState>, id: OrderId, symbol: Symbol)
    requires AllTagged(list, symbol)
    ensures AllTagged(Without(list, id), symbol)
  {
    forall i | 0 <= i < |Without(list, id)|
      ensures Without(list, id)[i].symbol == symbol && Without(list, id)[i].price > 0
    {
      var j := WithoutFrom(list, id, i);
    }
  }

  lemma {:induction false} InsertTagged(side: Side, list: seq<OrderState>, o: OrderState, symbol: Symbol)
    requires AllTagged(list, symbol) && o.symbol == symbol && o.price > 0
    ensures AllTagged(Insert(side, list, o), symbol)
    decreases |list|
  {
    if list != [] { InsertTagged(side, list[1..], o, symbol); }
  }

  lemma {:induction false} GreedyTagged(resting: Side, limit: Option<Price>, list: seq<OrderState>, left: Quantity,
                                        symbol: Symbol, taker: OrderId)
    requires Live(list) && AllTagged(list, symbol)
    ensures AllTagged(Greedy(resting, limit, list, left, symbol, taker).list, symbol)
    decreases |list|
  {
    if list != [] && left > 0 && Crosses(resting, limit, list[0].price) && list[0].Rem() <= left {
      GreedyTagged(resting, limit, list[1..], left - list[0].Rem(), symbol, taker);
    }
  }

  lemma CancelKeepsBook(b: BookState, id: OrderId, symbol: Symbol, usedIds: set<OrderId>)
    requires BookOf(b, symbol, usedIds)
    ensures BookOf(CancelOrder(b, id).0, symbol, usedIds)
    ensures CancelOrder(b, id).0.index == b.index - {id}
  {
    hide BookOk, Flatten, Without, AllTagged, RemoveIn;
    CancelOk(b, id);
    CancelRefines(b, id);
    WithoutTagged(Flatten(b.bids), id, symbol);
    WithoutTagged(Flatten(b.asks), id, symbol);
    var b' := CancelOrder(b, id).0;
    assert b'.index == b.index - {id} && b'.symbol == b.symbol;
    hide CancelOrder;
    assert FlatCancel(Abs(b), id) == Abs(b');
  }

  /** Replacing one book by one whose ids are its own or new keeps the engine valid. */
  lemma ReplaceBook(e: EngineState, symbol: Symbol, b: BookState, usedIds: set<OrderId>)
    requires BooksOk(e) && symbol in e.books && e.usedIds <= usedIds
    requires BookOf(b, symbol, usedIds)
    requires forall id :: id in b.index ==> id in e.books[symbol].index || id !in e.usedIds
    ensures BooksOk(e.(books := e.books[symbol := b], usedIds := usedIds))
  {
    hide BookOk, AllTagged;
    var e' := e.(books := e.books[symbol := b], usedIds := usedIds);
    forall s | s in e'.books ensures BookOf(e'.books[s], s, usedIds) {
      if s != symbol { assert BookOf(e.books[s], s, e.usedIds); }
    }
    forall s | s in e.books ensures forall id :: id in e.books[s].index ==> id in e.usedIds {
      assert BookOf(e.books[s], s, e.usedIds);
    }
  }

  lemma CancelKeeps(e: EngineState, symbol: Symbol, id: OrderId)
    requires EngineOk(e)
    ensures EngineOk(CancelById(e, symbol, id).0)
  {
    if symbol in e.books {
      assert BookOf(e.books[symbol], symbol, e.usedIds);
      hide BookOf, CancelOrder;
      CancelKeepsBook(e.books[symbol], id, symbol, e.usedIds);
      ReplaceBook(e, symbol, CancelOrder(e.books[symbol], id).0, e.usedIds);
      assert e.books[symbol := CancelOrder(e.books[symbol], id).0].Keys == e.books.Keys;
    }
  }

  /** The index after an order: filled makers leave, a resting order enters. */
  lemma AddOrderIndex(b: BookState, o: OrderState)
    requires BookOk(b) && Incoming(b, o)
    ensures forall id :: id in AddOrder(b, o).book.index ==> id in b.index || id == o.id
  {
    hide BookOk, Drain, RestIn;
    var s := DrainState(b, o.(status := ACCEPTED), [], []);
    DrainOk(Opposite(o.side), Limit(o), s);
    forall id | id !in b.index && id != o.id ensures id !in AddOrder(b, o).book.index {
      DrainKeepsOut(Opposite(o.side), Limit(o), s, id);
    }
  }

  lemma AddOrderTagged(b: BookState, o: OrderState, symbol: Symbol)
    requires BookOk(b) && Incoming(b, o) && b.symbol == symbol && (o.kind == LIMIT ==> o.price > 0)
    requires AllTagged(Flatten(b.bids), symbol) && AllTagged(Flatten(b.asks), symbol)
    ensures var b' := AddOrder(b, o).book;
      AllTagged(Flatten(b'.bids), symbol) && AllTagged(Flatten(b'.asks), symbol)
  {
    AddOrderRefines(b, o);
    hide BookOk, AddOrder, AllTagged, Greedy, Insert;
    var opp := Opposite(o.side);
    GreedyTagged(opp, Limit(o), Abs(b).List(opp), o.quantity, symbol, o.id);
    var f := FlatAdd(Abs(b), o, CanFill(b, o));
    if o.kind == LIMIT {
      InsertTagged(o.side, Abs(b).List(o.side), f.order, symbol);
    }
  }

  lemma AddOrderKeepsBook(b: BookState, o: OrderState, usedIds: set<OrderId>)
    requires BookOf(b, o.symbol, usedIds) && Incoming(b, o) && (o.kind == LIMIT ==> o.price > 0)
    ensures BookOf(AddOrder(b, o).book, o.symbol, usedIds + {o.id})
    ensures forall id :: id in AddOrder(b, o).book.index ==> id in b.index || id == o.id
  {
    hide BookOk, AddOrder, AllTagged;
    AddOrderOk(b, o);
    AddOrderFrame(b, o);
    AddOrderIndex(b, o);
    AddOrderTagged(b, o, o.symbol);
  }

  lemma AcceptedIncoming(e: EngineState, o: OrderState)
    requires BooksOk(e) && o.filled == 0 && Accepts(e, o)
    ensures var b := e.books[o.symbol];
      BookOf(b, o.symbol, e.usedIds) && BookOk(b) && Incoming(b, o) && (o.kind == LIMIT ==> o.price > 0) && o.id !in e.usedIds
  {
    hide BookOk, Disjoint, AllTagged, BooksOk;
    KnownBook(e, o);
    BookAt(e, o.symbol);
    var b := e.books[o.symbol];
    assert o.id !in b.index;
  }

  lemma BookAt(e: EngineState, symbol: Symbol)
    requires BooksOk(e) && symbol in e.books
    ensures BookOf(e.books[symbol], symbol, e.usedIds)
  {
  }

  lemma SubmitAccepted(e: EngineState, o: OrderState)
    requires BooksOk(e) && o.filled == 0 && Accepts(e, o)
    ensures var b := e.books[o.symbol];
      && BookOf(b, o.symbol, e.usedIds) && BookOk(b) && Incoming(b, o) && (o.kind == LIMIT ==> o.price > 0)
      && SubmitOrder(e, o) == Place(e, o)
  {
    AcceptedIncoming(e, o);
    hide BooksOk, BookOk, BookOf, Incoming, Place;
  }

  /** A submission that is neither accepted nor a cancel changes no book. */
  lemma SubmitRejected(e: EngineState, o: OrderState)
    requires EngineOk(e) && o.filled == 0 && !Accepts(e, o) && o.kind != CANCEL
    ensures SubmitOrder(e, o).engine == e.(processed := e.processed + 1)
    ensures SubmitOrder(e, o).response.status == REJECTED && SubmitOrder(e, o).response.trades == []
  {
    hide BooksOk, AddOrder;
  }

  lemma SubmitKeeps(e: EngineState, o: OrderState)
    requires EngineOk(e) && o.filled == 0
    ensures EngineOk(SubmitOrder(e, o).engine)
  {
    hide EngineOk, BooksOk, Accepts, Place;
    CountKeeps(e, e);
    if Accepts(e, o) {
      AcceptKeeps(e, o);
    } else if o.kind == CANCEL {
      CountKeeps(e, e.(processed := e.processed + 1));
      CancelKeeps(e.(processed := e.processed + 1), o.symbol, o.id);
    } else {
      SubmitRejected(e, o);
      CountKeeps(e, SubmitOrder(e, o).engine);
    }
  }

  lemma CountKeeps(e: EngineState, e': EngineState)
    requires EngineOk(e) && e' == e.(processed := e'.processed)
    ensures BooksOk(e) && EngineOk(e')
  {
    hide BooksOk;
    BooksOkCounters(e, e');
  }

  lemma AcceptKeeps(e: EngineState, o: OrderState)
    requires EngineOk(e) && o.filled == 0 && Accepts(e, o)
    ensures BooksOk(e) && EngineOk(SubmitOrder(e, o).engine)
  {
    hide BookOf, AddOrder, BookOk, SubmitOrder, BooksOk, Accepts, Incoming, Explain;
    SubmitAccepted(e, o);
    KnownBook(e, o);
    var b := e.books[o.symbol];
    AddOrderKeepsBook(b, o, e.usedIds);
    var b' := AddOrder(b, o).book;
    ReplaceBook(e, o.symbol, b', e.usedIds + {o.id});
    assert e.books[o.symbol := b'].Keys == e.books.Keys;
    BooksOkCounters(e.(books := e.books[o.symbol := b'], usedIds := e.usedIds + {o.id}), SubmitOrder(e, o).engine);
  }

  lemma KnownBook(e: EngineState, o: OrderState)
    requires Accepts(e, o)
    ensures o.symbol in e.books && o.id !in e.usedIds
  {
  }

  lemma BooksOkCounters(e: EngineState, e': EngineState)
    requires BooksOk(e) && e'.books == e.books && e'.usedIds == e.usedIds
    ensures BooksOk(e')
  {
  }
}
