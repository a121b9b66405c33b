/** What the caller is told: fill, status and reason of every submission and every cancel, said
    in terms of what rests in the books and not of the functions that compute it. */
module Answers {
  import opened Types
  import opened Matching
  import opened PriceTime
  import opened Refinement
  import opened Totals
  import opened Engine
  import opened Runs
  import opened Ledger
  import opened ExactRuns

  // ---------------------------------------------------------------- what is on offer

  /** The incoming order takes this price: a MARKET order any, a buy order its own or a lower
      one, a sell order its own or a higher one. */
  predicate Takes(o: OrderState, p: Price) {
    o.kind == MARKET || if o.side == BUY then p <= o.price else p >= o.price
  }

  /** The open quantity at the prices the order takes, wherever they stand in the list. */
  function Offer(o: OrderState, list: seq<OrderState>): int {
    if list == [] then 0
    else (if Takes(o, list[0].price) then list[0].Rem() else 0) + Offer(o, list[1..])
  }

  /** What rests on the other side at the prices the order takes. */
  function OfferIn(b: BookState, o: OrderState): int {
    Offer(o, Flatten(b.Levels(if o.side == BUY then SELL else BUY)))
  }

  lemma {:induction false} OfferNone(o: OrderState, list: seq<OrderState>)
    requires forall m :: 0 <= m < |list| ==> !Takes(o, list[m].price)
    ensures Offer(o, list) == 0
    decreases |list|
  {
    if list != [] { OfferNone(o, list[1..]); }
  }

  lemma {:induction false} OfferLevel(o: OrderState, os: seq<OrderState>, rest: seq<OrderState>, p: Price)
    requires Takes(o, p) && forall k :: 0 <= k < |os| ==> os[k].price == p
    ensures Offer(o, os + rest) == SumRem(os) + Offer(o, rest)
    decreases |os|
  {
    if os == [] {
      assert os + rest == rest;
    } else {
      assert (os + rest)[1..] == os[1..] + rest;
      OfferLevel(o, os[1..], rest, p);
    }
  }

  lemma {:induction false} OfferAll(o: OrderState, list: seq<OrderState>)
    requires o.kind == MARKET
    ensures Offer(o, list) == SumRem(list)
    decreases |list|
  {
    if list != [] { OfferAll(o, list[1..]); }
  }

  /** The levels behind one that is not taken are not taken either. */
  lemma BehindNotTaken(o: OrderState, ls: seq<LevelState>)
    requires SideOk(Opposite(o.side), ls) && ls != [] && !Takes(o, ls[0].price)
    ensures forall m :: 0 <= m < |Flatten(ls)| ==> !Takes(o, Flatten(ls)[m].price)
  {
    SidePrices(Opposite(o.side), ls);
    hide LevelOk;
    forall m | 0 <= m < |Flatten(ls)| ensures !Takes(o, Flatten(ls)[m].price) {
      var i, k := FlattenFrom(ls, m);
    }
  }

  /** Matching stops at the first price that is not taken, and misses nothing by it. */
  lemma {:induction false} OfferIs(o: OrderState, ls: seq<LevelState>)
    requires SideOk(Opposite(o.side), ls)
    ensures CrossQty(Opposite(o.side), Limit(o), Flatten(ls)) == Offer(o, Flatten(ls))
    decreases |ls|
  {
    var opp := Opposite(o.side);
    if ls != [] {
      SidePrices(opp, ls);
      FlattenFront(ls);
      if Takes(o, ls[0].price) {
        SideOkParts(opp, ls, 0);
        CrossQtyLevel(opp, Limit(o), ls[0].orders, Flatten(ls[1..]), ls[0].price);
        OfferLevel(o, ls[0].orders, Flatten(ls[1..]), ls[0].price);
        assert Flatten(ls) == ls[0].orders + Flatten(ls[1..]);
        hide SideOk, Flatten, CrossQty, Offer;
        OfferIs(o, ls[1..]);
      } else {
        BehindNotTaken(o, ls);
        OfferNone(o, Flatten(ls));
      }
    }
  }

  // ---------------------------------------------------------------- fill and status of an order

  /** What is left open of o, after greedy matching. */
  lemma OutcomeLeft(b: BookState, o: OrderState)
    requires BookOk(b) && Incoming(b, o) && (o.kind == FOK ==> CanFill(b, o))
    ensures OfferIn(b, o) >= 0
    ensures Outcome(b, o).left == if OfferIn(b, o) >= o.quantity then 0 else o.quantity - OfferIn(b, o)
  {
    hide BookOk, Greedy, Flatten, CrossQty, Offer;
    var opp := Opposite(o.side);
    BookLive(b);
    BookSide(b, opp);
    hide SideOk;
    OfferIs(o, b.Levels(opp));
    GreedyCovers(opp, Limit(o), Abs(b).List(opp), o.quantity, b.symbol, o.id);
  }

  /** Every order type but FOK trades what is on offer, up to its quantity; a FOK as much if its
      scan succeeds and nothing otherwise. Nothing else of the order changes but its status. */
  lemma FillIs(b: BookState, o: OrderState)
    requires BookOk(b) && Incoming(b, o)
    ensures var r, offer := AddOrder(b, o), OfferIn(b, o);
      && r.order == o.(filled := r.order.filled, status := r.order.status)
      && r.order.filled == (if o.kind == FOK && !CanFill(b, o) then 0 else Min(offer, o.quantity))
      && Volume(r.trades) == r.order.filled
  {
    hide BookOk, AddOrder, Flatten, Offer, Consumed, Scan;
    PlaceFlat(b, o);
    OutcomeConsumes(b, o);
    ConsumedVolume(b, o);
    if o.kind == FOK && !CanFill(b, o) {
      assert Outcome(b, o).left == o.quantity;
    } else {
      OutcomeLeft(b, o);
    }
    hide Outcome;
  }

  lemma ConsumedVolume(b: BookState, o: OrderState)
    requires BookOk(b) && Incoming(b, o)
    ensures o.quantity == Outcome(b, o).left + Volume(Outcome(b, o).trades)
  {
    hide BookOk, Flatten, Outcome, InOrder, AllWhole;
    OutcomeConsumes(b, o);
  }

  /** The status by type: FILLED when the offer covers the quantity; otherwise a LIMIT order is
      ACCEPTED or PARTIALLY_FILLED, a MARKET order PARTIALLY_FILLED even without a trade, an IOC
      order PARTIALLY_FILLED or CANCELLED. A FOK order is FILLED or CANCELLED with its scan. */
  lemma StatusIs(b: BookState, o: OrderState)
    requires BookOk(b) && Incoming(b, o) && o.quantity > 0
    ensures var status, offer := AddOrder(b, o).order.status, OfferIn(b, o);
      match o.kind
      case LIMIT => status == (if offer == 0 then ACCEPTED else if offer < o.quantity then PARTIALLY_FILLED else FILLED)
      case MARKET => status == (if offer < o.quantity then PARTIALLY_FILLED else FILLED)
      case IOC => status == (if offer == 0 then CANCELLED else if offer < o.quantity then PARTIALLY_FILLED else FILLED)
      case FOK => status == if CanFill(b, o) then FILLED else CANCELLED
      case CANCEL => true
  {
    FillIs(b, o);
    AddOrderRefines(b, o);
    if o.kind == FOK ==> CanFill(b, o) { OutcomeLeft(b, o); }
    hide BookOk, AddOrder, Flatten, Offer, Scan, Greedy, Insert, Live;
  }

  /** A MARKET order takes any price: it fills from everything that rests on the other side. */
  lemma MarketTakesAll(b: BookState, o: OrderState)
    requires BookOk(b) && Incoming(b, o) && o.kind == MARKET && o.quantity > 0
    ensures var r, open := AddOrder(b, o), SumRem(Flatten(b.Levels(if o.side == BUY then SELL else BUY)));
      && r.order.filled == Min(open, o.quantity)
      && r.order.status == (if open >= o.quantity then FILLED else PARTIALLY_FILLED)
  {
    hide BookOk, AddOrder, Flatten, Offer;
    FillIs(b, o);
    StatusIs(b, o);
    OfferAll(o, Flatten(b.Levels(Opposite(o.side))));
  }

  /** The trades go down the other side's list from its front: each names the maker at its
      position, at the maker's price, which the order takes; every maker but the last is traded
      whole, and the makers traded whole end FILLED. */
  lemma TradesAre(b: BookState, o: OrderState)
    requires BookOk(b) && Incoming(b, o)
    ensures var r, list := AddOrder(b, o), Flatten(b.Levels(if o.side == BUY then SELL else BUY));
      && |r.done| <= |r.trades| <= |list| && |r.trades| <= |r.done| + 1
      && (forall i :: 0 <= i < |r.trades| ==>
            && r.trades[i] == Trade(o.symbol, list[i].price, r.trades[i].quantity, list[i].id, o.id)
            && 0 < r.trades[i].quantity && Takes(o, list[i].price))
      && (forall i :: 0 <= i < |r.done| ==>
            r.trades[i].quantity == list[i].Rem() && r.done[i] == list[i].(filled := list[i].quantity, status := FILLED))
      && (|r.trades| == |r.done| + 1 ==> r.trades[|r.done|].quantity < list[|r.done|].Rem())
  {
    hide BookOk, AddOrder, Flatten, Outcome;
    PlaceFlat(b, o);
    var g, list, opp := Outcome(b, o), Flatten(b.Levels(Opposite(o.side))), Opposite(o.side);
    forall i | 0 <= i < |g.trades|
      ensures g.trades[i] == Trade(o.symbol, list[i].price, g.trades[i].quantity, list[i].id, o.id)
      ensures 0 < g.trades[i].quantity && Takes(o, list[i].price)
    {
      assert Serves(opp, Limit(o), list[i], b.symbol, o.id, g.trades[i]);
    }
    forall i | 0 <= i < |g.done|
      ensures g.trades[i].quantity == list[i].Rem() && g.done[i] == list[i].(filled := list[i].quantity, status := FILLED)
    {
      assert Whole(list[i], g.trades[i], g.done[i]);
    }
  }

  /** An order that traded nothing has no fill, and the other way round. */
  lemma {:induction false} VolumePositive(trades: seq<Trade>)
    requires forall i :: 0 <= i < |trades| ==> trades[i].quantity > 0
    ensures Volume(trades) >= 0 && (Volume(trades) == 0 <==> trades == [])
    decreases |trades|
  {
    if trades != [] { VolumePositive(trades[1..]); }
  }

  /** CANCELLED means that nothing was traded; of a FOK or IOC order nothing else comes back. */
  lemma CancelledIff(b: BookState, o: OrderState)
    requires BookOk(b) && Incoming(b, o) && o.quantity > 0
    ensures var r := AddOrder(b, o);
      r.order.status == CANCELLED <==> (o.kind == FOK || o.kind == IOC) && r.trades == []
  {
    hide BookOk, AddOrder, Flatten, Offer, Scan, Crosses, Shows;
    StatusIs(b, o);
    FillIs(b, o);
    TradesAre(b, o);
    VolumePositive(AddOrder(b, o).trades);
    if o.kind == FOK && CanFill(b, o) { ShownIsOffered(b, o); }
    if o.kind == IOC { OutcomeLeft(b, o); }
  }

  /** A FOK whose scan succeeds finds something to trade. */
  lemma ShownIsOffered(b: BookState, o: OrderState)
    requires BookOk(b) && Incoming(b, o) && o.quantity > 0 && o.kind == FOK && CanFill(b, o)
    ensures OfferIn(b, o) > 0
  {
    var opp := Opposite(o.side);
    var ls := b.Levels(opp);
    BookSide(b, opp);
    hide BookOk;
    assert ls != [] && Crosses(opp, Limit(o), ls[0].price);
    SidePrices(opp, ls);
    FlattenFront(ls);
    SideOkParts(opp, ls, 0);
    LevelLive(opp, ls[0]);
    SumRemLive(ls[0].orders);
    CrossQtyLevel(opp, Limit(o), ls[0].orders, Flatten(ls[1..]), ls[0].price);
    assert Flatten(ls) == ls[0].orders + Flatten(ls[1..]);
    CrossQtyNonNegative(opp, Limit(o), ls[1..]);
    OfferIs(o, ls);
    hide SideOk, Flatten, CrossQty, Offer, SumRem;
  }

  // ---------------------------------------------------------------- the engine's answers

  /** Why an order is refused, if it is. */
  lemma RefusalIs(e: EngineState, o: OrderState)
    ensures var reason := Validate(e.symbols, e.usedIds, o);
      var priced := o.kind != LIMIT || o.price > 0;
      && (reason == ZERO_QUANTITY <==> o.quantity == 0)
      && (reason == NON_POSITIVE_PRICE <==> o.quantity > 0 && !priced)
      && (reason == UNKNOWN_SYMBOL <==> o.quantity > 0 && priced && o.symbol !in e.symbols)
      && (reason == DUPLICATE_ID <==> o.quantity > 0 && priced && o.symbol in e.symbols && o.id in e.usedIds)
      && (reason == NO_REASON <==> o.quantity > 0 && priced && o.symbol in e.symbols && o.id !in e.usedIds)
  {
  }

  /** Whether an order with this id rests in the book of the symbol. */
  predicate RestsAt(e: EngineState, symbol: Symbol, id: OrderId) {
    symbol in e.books && id in Ids(Flatten(e.books[symbol].bids)) + Ids(Flatten(e.books[symbol].asks))
  }

  /** A cancel succeeds exactly if the order rests, says which of the two things was unknown if
      it does not, and afterwards the order rests no more. No other book and no counter changes. */
  lemma CancelAnswer(e: EngineState, symbol: Symbol, id: OrderId)
    requires EngineOk(e)
    ensures var (e', r) := CancelById(e, symbol, id);
      && e' == e.(books := e'.books) && r.trades == [] && !RestsAt(e', symbol, id)
      && e'.books.Keys == e.books.Keys && (forall s :: s in e.books && s != symbol ==> e'.books[s] == e.books[s])
      && r.status == (if RestsAt(e, symbol, id) then CANCELLED else REJECTED)
      && (r.reason == UNKNOWN_SYMBOL <==> symbol !in e.books)
      && (r.reason == ORDER_NOT_FOUND <==> symbol in e.books && !RestsAt(e, symbol, id))
      && (r.reason == NO_REASON <==> RestsAt(e, symbol, id))
  {
    hide EngineOk, BookOk, BookOf, CancelOrder, Ids, Flatten;
    if symbol in e.books {
      var b := e.books[symbol];
      BookIn(e, symbol);
      CancelRefines(b, id);
      CancelKeepsBook(b, id, symbol, e.usedIds);
      BookOfOk(CancelOrder(b, id).0, symbol, e.usedIds);
      IndexIsFlat(CancelOrder(b, id).0, BUY);
      IndexIsFlat(CancelOrder(b, id).0, SELL);
    }
  }

  lemma BookOfOk(b: BookState, symbol: Symbol, usedIds: set<OrderId>)
    requires BookOf(b, symbol, usedIds)
    ensures BookOk(b)
  {
  }

  /** The answer to an order that is not a cancel request. A refused one is REJECTED for the
      first check it fails and trades nothing; an accepted one comes back with its own status
      and trades, and with a reason exactly if it is a FOK or IOC order that traded nothing. */
  lemma SubmitAnswer(e: EngineState, o: OrderState)
    requires EngineOk(e) && o.filled == 0 && o.kind != CANCEL
    ensures var s := SubmitOrder(e, o);
      var r := s.response;
      if !Accepts(e, o) then
        r == Response(REJECTED, [], Validate(e.symbols, e.usedIds, o)) && r.reason != NO_REASON && s.order == o.(status := REJECTED)
      else
        && r.status == s.order.status != REJECTED
        && (r.status == CANCELLED <==> (o.kind == FOK || o.kind == IOC) && r.trades == [])
        && (r.reason == FOK_UNFILLED <==> o.kind == FOK && r.trades == [])
        && (r.reason == IOC_UNFILLED <==> o.kind == IOC && r.trades == [])
        && (r.reason == NO_REASON <==> r.status != CANCELLED)
  {
    hide BooksOk, BookOk, BookOf, AddOrder, Incoming;
    BooksOkOf(e);
    if Accepts(e, o) {
      SubmitAccepted(e, o);
      AcceptsKnown(e, o);
      var b := e.books[o.symbol];
      AddOrderFrame(b, o);
      CancelledIff(b, o);
      StatusIs(b, o);
      hide SubmitOrder, CanFill, OfferIn;
    }
  }

  /** A cancel request is answered like a cancel, counted, and leaves its order object alone. */
  lemma SubmitCancelAnswer(e: EngineState, o: OrderState)
    requires EngineOk(e) && o.filled == 0 && o.kind == CANCEL
    ensures BooksOk(e)
    ensures var s := SubmitOrder(e, o);
      var (e', r) := CancelById(e, o.symbol, o.id);
      s.order == o && s.response == r && s.engine == e'.(processed := e.processed + 1)
  {
    hide BooksOk, CancelOrder;
    BooksOkOf(e);
  }
}
