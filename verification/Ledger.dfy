/** Every order's fill is what its trades say, over whole runs; ids that are gone stay gone. */
module Ledger {
  import opened Types
  import opened Matching
  import opened PriceTime
  import opened Refinement
  import opened Engine
  import opened Runs

  ghost predicate Accounted(list: seq<OrderState>, log: seq<Trade>) {
    forall i :: 0 <= i < |list| ==> list[i].filled == Named(log, list[i].id)
  }

  ghost predicate Rests(e: EngineState, id: OrderId) {
    exists symbol :: symbol in e.books && id in e.books[symbol].index
  }

  ghost function GoneIds(s: Session): set<OrderId> {
    Ids(s.filled) + Ids(s.cancelled) + Ids(s.discarded)
  }

  ghost predicate BooksAccounted(e: EngineState, log: seq<Trade>) {
    forall symbol, side :: symbol in e.books ==> Accounted(Flatten(e.books[symbol].Levels(side)), log)
  }

  /** The fill of every order, resting or gone, is the quantity of the trades naming it. */
  ghost predicate FillsOk(s: Session) {
    && BooksAccounted(s.engine, s.log)
    && Accounted(s.filled, s.log) && Accounted(s.cancelled, s.log) && Accounted(s.discarded, s.log)
    && (forall id :: id !in s.engine.usedIds ==> Named(s.log, id) == 0)
  }

  ghost predicate GoneOk(s: Session) {
    forall id :: id in GoneIds(s) ==> id in s.engine.usedIds && !Rests(s.engine, id)
  }

  // ---------------------------------------------------------------- trades naming an order

  lemma InIds(list: seq<OrderState>, i: nat)
    requires i < |list|
    ensures list[i].id in Ids(list)
  {
  }

  lemma IdsTail(list: seq<OrderState>, id: OrderId)
    requires list != [] && id in Ids(list[1..])
    ensures id in Ids(list)
  {
    var i :| 0 <= i < |list[1..]| && list[1..][i].id == id;
    InIds(list, i + 1);
  }

  lemma IdsOne(o: OrderState)
    ensures Ids([o]) == {o.id}
  {
    InIds([o], 0);
  }

  lemma IdsConcat(a: seq<OrderState>, b: seq<OrderState>)
    ensures Ids(a + b) == Ids(a) + Ids(b)
  {
    forall id | id in Ids(a) + Ids(b) ensures id in Ids(a + b) {
      if id in Ids(a) {
        var i :| 0 <= i < |a| && a[i].id == id;
        assert (a + b)[i].id == id;
      } else {
        var i :| 0 <= i < |b| && b[i].id == id;
        assert (a + b)[|a| + i].id == id;
      }
    }
  }

  ghost predicate Follows(list: seq<OrderState>, trades: seq<Trade>, taker: OrderId) {
    |trades| <= |list| && forall i :: 0 <= i < |trades| ==> trades[i].maker == list[i].id && trades[i].taker == taker
  }

  lemma FollowsTail(list: seq<OrderState>, trades: seq<Trade>, taker: OrderId)
    requires Follows(list, trades, taker) && trades != []
    ensures Follows(list[1..], trades[1..], taker)
  {
  }

  lemma {:induction false} NamedTaker(list: seq<OrderState>, trades: seq<Trade>, taker: OrderId)
    requires Follows(list, trades, taker)
    ensures Named(trades, taker) == Volume(trades)
    decreases |trades|
  {
    if trades != [] {
      FollowsTail(list, trades, taker);
      NamedTaker(list[1..], trades[1..], taker);
    }
  }

  lemma {:induction false} NamedOther(list: seq<OrderState>, trades: seq<Trade>, taker: OrderId, id: OrderId)
    requires Follows(list, trades, taker) && id !in Ids(list) && id != taker
    ensures Named(trades, id) == 0
    decreases |trades|
  {
    forall i | 0 <= i < |trades| ensures NamedIn(id)(trades[i]) == 0 { InIds(list, i); }
    TotalZero(trades, NamedIn(id));
  }

  lemma {:induction false} NamedMaker(list: seq<OrderState>, trades: seq<Trade>, taker: OrderId, i: nat)
    requires Follows(list, trades, taker) && Distinct(list) && taker !in Ids(list) && i < |list|
    ensures Named(trades, list[i].id) == if i < |trades| then trades[i].quantity else 0
    decreases i
  {
    InIds(list, i);
    if trades != [] {
      FollowsTail(list, trades, taker);
      forall id | id in Ids(list[1..]) ensures id in Ids(list) { IdsTail(list, id); }
      if i == 0 {
        assert list[0].id !in Ids(list[1..]);
        NamedOther(list[1..], trades[1..], taker, list[0].id);
      } else {
        assert list[1..][i - 1] == list[i];
        NamedMaker(list[1..], trades[1..], taker, i - 1);
      }
    }
  }

  /** What serving a list does to the accounts of the served side. */
  lemma ConsumedAccounted(resting: Side, limit: Option<Price>, list: seq<OrderState>, left: int,
                          symbol: Symbol, taker: OrderId, g: Fills, log: seq<Trade>)
    requires Consumed(resting, limit, list, left, symbol, taker, g)
    requires Distinct(list) && taker !in Ids(list) && Accounted(list, log)
    ensures Accounted(g.list, log + g.trades) && Accounted(g.done, log + g.trades)
  {
    var n := |g.done|;
    assert Follows(list, g.trades, taker);
    forall i | 0 <= i < n ensures g.done[i].id == list[i].id && g.done[i].filled == Named(log + g.trades, list[i].id) {
      assert Whole(list[i], g.trades[i], g.done[i]);
      NamedMaker(list, g.trades, taker, i);
      TotalConcat(log, g.trades, NamedIn(list[i].id));
    }
    forall j | 0 <= j < |g.list|
      ensures g.list[j].id == list[n + j].id && g.list[j].filled == Named(log + g.trades, list[n + j].id)
    {
      NamedMaker(list, g.trades, taker, n + j);
      TotalConcat(log, g.trades, NamedIn(list[n + j].id));
    }
  }

  /** Trades that do not name the orders of a list leave its accounts alone. */
  lemma AccountedExtend(list: seq<OrderState>, log: seq<Trade>, trades: seq<Trade>)
    requires Accounted(list, log)
    requires forall i :: 0 <= i < |list| ==> Named(trades, list[i].id) == 0
    ensures Accounted(list, log + trades)
  {
    forall i | 0 <= i < |list| ensures list[i].filled == Named(log + trades, list[i].id) {
      TotalConcat(log, trades, NamedIn(list[i].id));
    }
  }

  lemma AccountedUnnamed(list: seq<OrderState>, log: seq<Trade>, makers: seq<OrderState>, trades: seq<Trade>, taker: OrderId)
    requires Accounted(list, log) && Follows(makers, trades, taker)
    requires Ids(list) !! Ids(makers) && taker !in Ids(list)
    ensures Accounted(list, log + trades)
  {
    forall i | 0 <= i < |list| ensures Named(trades, list[i].id) == 0 {
      InIds(list, i);
      NamedOther(makers, trades, taker, list[i].id);
    }
    AccountedExtend(list, log, trades);
  }

  lemma {:induction false} InsertAccounted(side: Side, list: seq<OrderState>, o: OrderState, log: seq<Trade>)
    requires Accounted(list, log) && o.filled == Named(log, o.id)
    ensures Accounted(Insert(side, list, o), log)
    decreases |list|
  {
    hide Named;
    if list != [] && Key(side, list[0].price) <= Key(side, o.price) {
      InsertAccounted(side, list[1..], o, log);
    }
  }

  // ---------------------------------------------------------------- one placement

  /** The ids resting in a valid book, side by side. */
  lemma SideIds(b: BookState)
    requires BookOk(b)
    ensures Ids(Flatten(b.bids)) + Ids(Flatten(b.asks)) == b.index.Keys
    ensures Ids(Flatten(b.bids)) !! Ids(Flatten(b.asks))
    ensures forall side :: Ids(Flatten(b.Levels(side))) <= b.index.Keys
  {
    hide BookOk;
    IndexIsFlat(b, BUY);
    IndexIsFlat(b, SELL);
  }

  /** The accounts of the book an order is placed on, and of the orders that leave it. */
  lemma PlaceAccounted(b: BookState, o: OrderState, log: seq<Trade>)
    requires BookOk(b) && Incoming(b, o)
    requires forall side :: Accounted(Flatten(b.Levels(side)), log)
    requires Named(log, o.id) == 0
    ensures var r := AddOrder(b, o);
      var log' := log + r.trades;
      && (forall side :: Accounted(Flatten(r.book.Levels(side)), log'))
      && Accounted(r.done, log') && r.order.filled == Named(log', o.id) && r.order.id == o.id
      && Follows(Flatten(b.Levels(Opposite(o.side))), r.trades, o.id)
  {
    hide BookOk, AddOrder, Flatten, Accounted, Named, Insert;
    var opp := Opposite(o.side);
    var list, own := Flatten(b.Levels(opp)), Flatten(b.Levels(o.side));
    var r := AddOrder(b, o);
    var g := Outcome(b, o);
    PlaceFlat(b, o);
    SideIds(b);
    FlatDistinct(b, opp);
    ConsumedAccounted(opp, Limit(o), list, o.quantity, b.symbol, o.id, g, log);
    ConsumedFollows(opp, Limit(o), list, o.quantity, b.symbol, o.id, g);
    hide Outcome;
    AccountedUnnamed(own, log, list, g.trades, o.id);
    NamedTaker(list, g.trades, o.id);
    NamedConcat(log, g.trades, o.id);
    InsertAccounted(o.side, own, r.order, log + g.trades);
  }

  lemma NamedConcat(a: seq<Trade>, b: seq<Trade>, id: OrderId)
    ensures Named(a + b, id) == Named(a, id) + Named(b, id)
  {
    TotalConcat(a, b, NamedIn(id));
  }

  lemma ConsumedFollows(resting: Side, limit: Option<Price>, list: seq<OrderState>, left: int,
                        symbol: Symbol, taker: OrderId, g: Fills)
    requires Consumed(resting, limit, list, left, symbol, taker, g)
    ensures Follows(list, g.trades, taker) && left == g.left + Volume(g.trades)
  {
  }

  /** The ids after a placement: filled makers leave for good, a remainder may enter. */
  lemma PlaceIds(b: BookState, o: OrderState)
    requires BookOk(b) && Incoming(b, o)
    ensures var r := AddOrder(b, o);
      && r.book.index.Keys == b.index.Keys - Ids(r.done) + (if o.kind == LIMIT && !r.order.IsFilled() then {o.id} else {})
      && Ids(r.done) <= b.index.Keys
      && Distinct(r.done)
  {
    hide BookOk, AddOrder, Flatten, Named, Insert, Accounted;
    var opp := Opposite(o.side);
    var list, own := Flatten(b.Levels(opp)), Flatten(b.Levels(o.side));
    var r := AddOrder(b, o);
    PlaceFlat(b, o);
    AddOrderOk(b, o);
    SideIds(b);
    SideIds(r.book);
    FlatDistinct(b, opp);
    var g := Outcome(b, o);
    ConsumedIds(opp, Limit(o), list, o.quantity, b.symbol, o.id, g);
    hide Outcome;
    InsertIds(o.side, own, r.order);
  }

  lemma {:induction false} InsertIds(side: Side, list: seq<OrderState>, o: OrderState)
    ensures Ids(Insert(side, list, o)) == Ids(list) + {o.id}
    decreases |list|
  {
    IdsConcat([o], list);
    IdsOne(o);
    if list != [] && Key(side, list[0].price) <= Key(side, o.price) {
      InsertIds(side, list[1..], o);
      IdsConcat([list[0]], list[1..]);
      IdsConcat([list[0]], Insert(side, list[1..], o));
      assert list == [list[0]] + list[1..];
    }
  }

  lemma ConsumedIds(resting: Side, limit: Option<Price>, list: seq<OrderState>, left: int,
                    symbol: Symbol, taker: OrderId, g: Fills)
    requires Consumed(resting, limit, list, left, symbol, taker, g)
    requires Distinct(list)
    ensures Ids(g.done) + Ids(g.list) == Ids(list) && Ids(g.done) !! Ids(g.list)
    ensures Distinct(g.done)
  {
    var n := |g.done|;
    forall i | 0 <= i < n ensures g.done[i].id == list[i].id {
      assert Whole(list[i], g.trades[i], g.done[i]);
    }
    assert |g.list| == |list| - n && forall j :: 0 <= j < |g.list| ==> g.list[j].id == list[n + j].id;
    hide Consumed;
    forall id | id in Ids(list) ensures id in Ids(g.done) + Ids(g.list) {
      var i :| 0 <= i < |list| && list[i].id == id;
      if i < n { InIds(g.done, i); } else { assert g.list[i - n].id == list[n + (i - n)].id; InIds(g.list, i - n); }
    }
  }

  // ---------------------------------------------------------------- sessions

  /** Ids of another book, and ids that are gone, are named by no trade of this placement. */
  lemma PlaceNamesNoOther(e: EngineState, o: OrderState, list: seq<OrderState>, log: seq<Trade>)
    requires EngineOk(e) && o.filled == 0 && Accepts(e, o)
    requires BookOk(e.books[o.symbol]) && Incoming(e.books[o.symbol], o)
    requires Follows(Flatten(e.books[o.symbol].Levels(Opposite(o.side))), AddOrder(e.books[o.symbol], o).trades, o.id)
    requires Accounted(list, log)
    requires forall id :: id in Ids(list) ==> id in e.usedIds && id !in e.books[o.symbol].index
    ensures Accounted(list, log + AddOrder(e.books[o.symbol], o).trades)
  {
    AcceptedIncoming(e, o);
    hide BooksOk, BookOf, BookOk, Flatten, AddOrder, Accounted, Follows;
    var b := e.books[o.symbol];
    SideIds(b);
    AccountedUnnamed(list, log, Flatten(b.Levels(Opposite(o.side))), AddOrder(b, o).trades, o.id);
  }

  lemma BookIds(e: EngineState, symbol: Symbol, side: Side, id: OrderId)
    requires BooksOk(e) && symbol in e.books && id in Ids(Flatten(e.books[symbol].Levels(side)))
    ensures id in e.usedIds && id in e.books[symbol].index
    ensures forall s :: s in e.books && id in e.books[s].index ==> s == symbol
  {
    var b := e.books[symbol];
    assert BookOf(b, symbol, e.usedIds);
    SideIds(b);
    hide BookOk, Flatten, AllTagged;
  }

  lemma PlaceFills(s: Session, o: OrderState)
    requires EngineOk(s.engine) && o.filled == 0 && Accepts(s.engine, o) && FillsOk(s) && GoneOk(s)
    requires BookOk(s.engine.books[o.symbol]) && Incoming(s.engine.books[o.symbol], o)
    ensures FillsOk(AfterPlace(s, o))
  {
    hide EngineOk, BooksOk, BookOf, BookOk, Flatten, AddOrder, Accounted, Follows, Named, Incoming, Accepts, Ids;
    BooksOkOf(s.engine);
    AcceptsKnown(s.engine, o);
    var e, b := s.engine, s.engine.books[o.symbol];
    var r, s' := AddOrder(s.engine.books[o.symbol], o), AfterPlace(s, o);
    var out := if r.order.IsFilled() then [r.order] else [];
    var rest := if !r.order.IsFilled() && o.kind != LIMIT then [r.order] else [];
    AcceptedIncoming(e, o);
    PlaceAccounted(b, o, s.log);
    forall symbol, side | symbol in s'.engine.books
      ensures Accounted(Flatten(s'.engine.books[symbol].Levels(side)), s'.log)
    {
      if symbol != o.symbol {
        forall id | id in Ids(Flatten(e.books[symbol].Levels(side))) ensures id in e.usedIds && id !in b.index {
          BooksOkOf(e);
          BookIds(e, symbol, side, id);
        }
        PlaceNamesNoOther(e, o, Flatten(e.books[symbol].Levels(side)), s.log);
      }
    }
    GoneOutside(s, o);
    PlaceNamesNoOther(e, o, s.filled, s.log);
    PlaceNamesNoOther(e, o, s.cancelled, s.log);
    PlaceNamesNoOther(e, o, s.discarded, s.log);
    AccountedAdd(r.done, out, s'.log, r.order);
    AccountedConcat(s.filled, r.done + out, s'.log);
    AccountedAdd(s.discarded, rest, s'.log, r.order);
    forall id | id !in s'.engine.usedIds ensures Named(s'.log, id) == 0 {
      UnusedUnnamed(s, o, id);
    }
  }

  lemma AcceptsKnown(e: EngineState, o: OrderState)
    requires Accepts(e, o)
    ensures o.symbol in e.books
  {
  }

  lemma BooksOkOf(e: EngineState)
    requires EngineOk(e)
    ensures BooksOk(e)
  {
  }

  lemma GoneOutside(s: Session, o: OrderState)
    requires GoneOk(s) && o.symbol in s.engine.books
    ensures forall id :: id in Ids(s.filled) + Ids(s.cancelled) + Ids(s.discarded) ==>
      id in s.engine.usedIds && id !in s.engine.books[o.symbol].index
  {
    hide Ids;
    forall id | id in Ids(s.filled) + Ids(s.cancelled) + Ids(s.discarded)
      ensures id in s.engine.usedIds && id !in s.engine.books[o.symbol].index
    {
      assert id in GoneIds(s);
    }
  }

  lemma AccountedConcat(a: seq<OrderState>, b: seq<OrderState>, log: seq<Trade>)
    requires Accounted(a, log) && Accounted(b, log)
    ensures Accounted(a + b, log)
  {
    hide Named;
  }

  lemma AccountedAdd(a: seq<OrderState>, b: seq<OrderState>, log: seq<Trade>, o: OrderState)
    requires Accounted(a, log) && (b == [] || b == [o]) && o.filled == Named(log, o.id)
    ensures Accounted(a + b, log)
  {
    hide Named;
  }

  lemma UnusedUnnamed(s: Session, o: OrderState, id: OrderId)
    requires EngineOk(s.engine) && o.filled == 0 && Accepts(s.engine, o) && FillsOk(s)
    requires BookOk(s.engine.books[o.symbol]) && Incoming(s.engine.books[o.symbol], o)
    requires Follows(Flatten(s.engine.books[o.symbol].Levels(Opposite(o.side))), AddOrder(s.engine.books[o.symbol], o).trades, o.id)
    requires id !in s.engine.usedIds && id != o.id
    ensures Named(s.log + AddOrder(s.engine.books[o.symbol], o).trades, id) == 0
  {
    var b := s.engine.books[o.symbol];
    assert BookOf(b, o.symbol, s.engine.usedIds);
    SideIds(b);
    hide BooksOk, BookOk, Flatten, AddOrder, Accounted, Follows, Named, BooksAccounted;
    NamedOther(Flatten(b.Levels(Opposite(o.side))), AddOrder(b, o).trades, o.id, id);
    NamedConcat(s.log, AddOrder(b, o).trades, id);
  }

  lemma PlaceGone(s: Session, o: OrderState)
    requires EngineOk(s.engine) && o.filled == 0 && Accepts(s.engine, o) && GoneOk(s)
    requires BookOk(s.engine.books[o.symbol]) && Incoming(s.engine.books[o.symbol], o)
    ensures GoneOk(AfterPlace(s, o))
  {
    hide EngineOk, BooksOk, BookOk, BookOf, AddOrder, Incoming, Ids, GoneIds, Accepts;
    AcceptsKnown(s.engine, o);
    var e, b := s.engine, s.engine.books[o.symbol];
    var r, s' := AddOrder(s.engine.books[o.symbol], o), AfterPlace(s, o);
    BooksOkOf(e);
    AcceptedIncoming(e, o);
    PlaceIds(b, o);
    PlaceGoneIds(s, o);
    forall id | id in GoneIds(s') ensures id in s'.engine.usedIds && !Rests(s'.engine, id) {
      if id in GoneIds(s) {
        assert !Rests(e, id);
      } else if id in Ids(r.done) {
        DoneNotElsewhere(e, o.symbol, id);
      } else {
        NotResting(e, id);
      }
    }
  }

  lemma DoneNotElsewhere(e: EngineState, symbol: Symbol, id: OrderId)
    requires BooksOk(e) && symbol in e.books && id in e.books[symbol].index
    ensures id in e.usedIds
    ensures forall s :: s in e.books && id in e.books[s].index ==> s == symbol
  {
    assert BookOf(e.books[symbol], symbol, e.usedIds);
    hide BookOk, AllTagged;
  }

  lemma NotResting(e: EngineState, id: OrderId)
    requires BooksOk(e) && id !in e.usedIds
    ensures !Rests(e, id)
  {
    forall symbol | symbol in e.books ensures id !in e.books[symbol].index {
      assert BookOf(e.books[symbol], symbol, e.usedIds);
    }
  }

  lemma PlaceGoneIds(s: Session, o: OrderState)
    requires o.symbol in s.engine.books && BookOk(s.engine.books[o.symbol]) && Incoming(s.engine.books[o.symbol], o)
    ensures var r := AddOrder(s.engine.books[o.symbol], o);
      GoneIds(AfterPlace(s, o)) == GoneIds(s) + Ids(r.done)
        + (if o.kind == LIMIT && !r.order.IsFilled() then {} else {o.id})
  {
    hide BookOk, AddOrder, Incoming, Ids;
    var b := s.engine.books[o.symbol];
    var r := AddOrder(b, o);
    AddOrderFrame(b, o);
    var out := if r.order.IsFilled() then [r.order] else [];
    var rest := if !r.order.IsFilled() && o.kind != LIMIT then [r.order] else [];
    IdsConcat(r.done, out);
    IdsConcat(s.filled, r.done + out);
    IdsConcat(s.discarded, rest);
    IdsOne(r.order);
    IdsEmpty();
  }

  lemma IdsEmpty()
    ensures Ids([]) == {}
  {
  }

  // ---------------------------------------------------------------- cancels

  lemma {:induction false} PickIds(list: seq<OrderState>, id: OrderId)
    ensures Ids(Pick(list, id)) == Ids(list) * {id}
    ensures |Pick(list, id)| == |Ids(Pick(list, id))| <= 1
    decreases |list|
  {
    IdsEmpty();
    if list != [] {
      assert list == [list[0]] + list[1..];
      IdsConcat([list[0]], list[1..]);
      IdsOne(list[0]);
      hide Ids;
      if list[0].id != id { PickIds(list[1..], id); }
    }
  }

  lemma {:induction false} PickAccounted(list: seq<OrderState>, id: OrderId, log: seq<Trade>)
    requires Accounted(list, log)
    ensures Accounted(Pick(list, id), log) && Accounted(Without(list, id), log)
    decreases |list|
  {
    hide Named;
    if list != [] && list[0].id != id { PickAccounted(list[1..], id, log); }
  }

  lemma BookIn(e: EngineState, symbol: Symbol)
    requires EngineOk(e) && symbol in e.books
    ensures BooksOk(e) && BookOf(e.books[symbol], symbol, e.usedIds) && BookOk(e.books[symbol]) && Disjoint(e.books)
    ensures e.books[symbol].symbol == symbol && e.books[symbol].index.Keys <= e.usedIds
  {
    assert BookOf(e.books[symbol], symbol, e.usedIds);
    hide BookOk;
  }

  ghost function Taken(b: BookState, id: OrderId): set<OrderId> {
    if id in b.index then {id} else {}
  }

  function TakenOut(b: BookState, id: OrderId): seq<OrderState> {
    Pick(Flatten(b.bids), id) + Pick(Flatten(b.asks), id)
  }

  /** A cancel seen from its book: whom it takes out, and the accounts and ids it leaves. */
  lemma CancelBookIds(b: BookState, id: OrderId)
    requires BookOk(b)
    ensures Ids(TakenOut(b, id)) == Taken(b, id) && |TakenOut(b, id)| == |Taken(b, id)|
    ensures CancelOrder(b, id).0.index.Keys == b.index.Keys - Taken(b, id)
  {
    hide BookOk, Flatten, Ids, Pick, CancelOrder;
    SideIds(b);
    CancelIndex(b, id);
    PickIds(Flatten(b.bids), id);
    PickIds(Flatten(b.asks), id);
    IdsConcat(Pick(Flatten(b.bids), id), Pick(Flatten(b.asks), id));
  }

  lemma CancelBookAccounts(b: BookState, id: OrderId, log: seq<Trade>)
    requires BookOk(b) && forall side :: Accounted(Flatten(b.Levels(side)), log)
    ensures Accounted(TakenOut(b, id), log)
    ensures forall side :: Accounted(Flatten(CancelOrder(b, id).0.Levels(side)), log)
  {
    hide BookOk, Flatten, Pick, CancelOrder, Accounted, Without;
    CancelRefines(b, id);
    assert Accounted(Flatten(b.Levels(BUY)), log) && Accounted(Flatten(b.Levels(SELL)), log);
    PickAccounted(Flatten(b.bids), id, log);
    PickAccounted(Flatten(b.asks), id, log);
    AccountedConcat(Pick(Flatten(b.bids), id), Pick(Flatten(b.asks), id), log);
    assert Abs(CancelOrder(b, id).0) == FlatCancel(Abs(b), id);
  }

  lemma CancelIndex(b: BookState, id: OrderId)
    requires BookOk(b)
    ensures CancelOrder(b, id).0.index == b.index - {id}
  {
    hide BookOk;
  }

  lemma CancelFills(s: Session, symbol: Symbol, id: OrderId)
    requires EngineOk(s.engine) && FillsOk(s) && symbol in s.engine.books
    ensures FillsOk(AfterCancel(s, s.engine, symbol, id))
  {
    hide EngineOk, BooksOk, BookOk, BookOf, CancelOrder, Flatten, Accounted, Named, Pick;
    BookIn(s.engine, symbol);
    CancelBookAccounts(s.engine.books[symbol], id, s.log);
    AccountedConcat(s.cancelled, TakenOut(s.engine.books[symbol], id), s.log);
  }

  lemma CancelGone(s: Session, symbol: Symbol, id: OrderId)
    requires EngineOk(s.engine) && GoneOk(s) && symbol in s.engine.books
    ensures GoneOk(AfterCancel(s, s.engine, symbol, id))
  {
    hide EngineOk, BooksOk, BookOf, BookOk, CancelOrder, Ids, Pick, Flatten;
    var b := s.engine.books[symbol];
    BookIn(s.engine, symbol);
    CancelBookIds(b, id);
    IdsConcat(s.cancelled, TakenOut(b, id));
    var s' := AfterCancel(s, s.engine, symbol, id);
    forall x | x in GoneIds(s') ensures x in s'.engine.usedIds && !Rests(s'.engine, x) {
      if x in GoneIds(s) {
        assert !Rests(s.engine, x);
      } else {
        assert x in Taken(b, id);
        DoneNotElsewhere(s.engine, symbol, id);
      }
    }
  }

  // ---------------------------------------------------------------- counting

  ghost function RestingIds(e: EngineState): set<OrderId> {
    set symbol, id | symbol in e.books && id in e.books[symbol].index :: id
  }

  /** Every accepted order is counted once: resting, filled, cancelled or discarded; and every
      trade has completely filled an order of its own. */
  ghost predicate CountsOk(s: Session) {
    && s.engine.tradeCount == |s.log| <= |s.filled|
    && |RestingIds(s.engine)| + |s.filled| + |s.cancelled| + |s.discarded| == |s.engine.usedIds| == |s.accepted|
  }

  lemma {:induction false} DistinctCard(list: seq<OrderState>)
    requires Distinct(list)
    ensures |Ids(list)| == |list|
    decreases |list|
  {
    if list == [] {
      IdsEmpty();
    } else {
      DistinctCard(list[1..]);
      assert list == [list[0]] + list[1..];
      IdsConcat([list[0]], list[1..]);
      IdsOne(list[0]);
      assert list[0].id !in Ids(list[1..]);
    }
  }

  /** The resting ids after one book changed. */
  lemma RestingIdsUpdate(e: EngineState, e': EngineState, symbol: Symbol, b: BookState)
    requires Disjoint(e.books) && symbol in e.books && e'.books == e.books[symbol := b]
    ensures RestingIds(e') == (RestingIds(e) - e.books[symbol].index.Keys) + b.index.Keys
    ensures e.books[symbol].index.Keys <= RestingIds(e)
  {
    var out := (RestingIds(e) - e.books[symbol].index.Keys) + b.index.Keys;
    forall x | x in out ensures x in RestingIds(e') {
      if x in b.index {
        assert x in e'.books[symbol].index;
      } else {
        var t :| t in e.books && x in e.books[t].index;
        assert x in e'.books[t].index;
      }
    }
    forall x | x in RestingIds(e') ensures x in out {
      var t :| t in e'.books && x in e'.books[t].index;
      if t != symbol { assert x in e.books[t].index; }
    }
  }

  lemma PlaceRestingIds(e: EngineState, o: OrderState)
    requires EngineOk(e) && o.filled == 0 && Accepts(e, o)
    requires BookOk(e.books[o.symbol]) && Incoming(e.books[o.symbol], o)
    ensures var r := AddOrder(e.books[o.symbol], o);
      && RestingIds(Place(e, o).engine)
           == RestingIds(e) - Ids(r.done) + (if o.kind == LIMIT && !r.order.IsFilled() then {o.id} else {})
      && Ids(r.done) <= RestingIds(e) && |Ids(r.done)| == |r.done|
      && o.id !in RestingIds(e)
  {
    hide EngineOk, BooksOk, BookOk, BookOf, AddOrder, Incoming, Ids, Distinct, Disjoint, RestingIds, Accepts;
    AcceptsKnown(e, o);
    BookIn(e, o.symbol);
    AcceptedIncoming(e, o);
    PlaceIds(e.books[o.symbol], o);
    DistinctCard(AddOrder(e.books[o.symbol], o).done);
    NotInRestingIds(e, o.id);
    RestingIdsUpdate(e, Place(e, o).engine, o.symbol, AddOrder(e.books[o.symbol], o).book);
  }

  lemma NotInRestingIds(e: EngineState, id: OrderId)
    requires BooksOk(e) && id !in e.usedIds
    ensures id !in RestingIds(e)
  {
    NotResting(e, id);
    hide BooksOk;
  }

  lemma TradesPerFill(b: BookState, o: OrderState)
    requires BookOk(b) && Incoming(b, o)
    ensures var r := AddOrder(b, o);
      |r.trades| <= |r.done| + (if r.order.IsFilled() then 1 else 0)
  {
    hide BookOk, AddOrder, Flatten, Insert, InOrder, AllWhole;
    PlaceFlat(b, o);
    hide Outcome;
  }

  lemma PlaceCounts(s: Session, o: OrderState)
    requires EngineOk(s.engine) && o.filled == 0 && Accepts(s.engine, o) && CountsOk(s)
    requires BookOk(s.engine.books[o.symbol]) && Incoming(s.engine.books[o.symbol], o)
    ensures CountsOk(AfterPlace(s, o))
  {
    hide EngineOk, BooksOk, BookOk, BookOf, AddOrder, Incoming, Ids, RestingIds, Accepts;
    AcceptsKnown(s.engine, o);
    BooksOkOf(s.engine);
    AcceptedIncoming(s.engine, o);
    var r := AddOrder(s.engine.books[o.symbol], o);
    PlaceRestingIds(s.engine, o);
    TradesPerFill(s.engine.books[o.symbol], o);
    var rest := if o.kind == LIMIT && !r.order.IsFilled() then {o.id} else {};
    assert |RestingIds(s.engine) - Ids(r.done)| == |RestingIds(s.engine)| - |r.done|;
    assert |(RestingIds(s.engine) - Ids(r.done)) + rest| == |RestingIds(s.engine)| - |r.done| + |rest|;
  }

  lemma CancelCounts(s: Session, symbol: Symbol, id: OrderId)
    requires EngineOk(s.engine) && CountsOk(s) && symbol in s.engine.books
    ensures CountsOk(AfterCancel(s, s.engine, symbol, id))
  {
    hide EngineOk, BooksOk, BookOf, BookOk, CancelOrder, Ids, Pick, Flatten, Disjoint, RestingIds;
    var b := s.engine.books[symbol];
    BookIn(s.engine, symbol);
    CancelBookIds(b, id);
    RestingIdsUpdate(s.engine, CancelById(s.engine, symbol, id).0, symbol, CancelOrder(b, id).0);
    assert RestingIds(CancelById(s.engine, symbol, id).0) == RestingIds(s.engine) - Taken(b, id);
  }

  // ---------------------------------------------------------------- whole runs

  ghost predicate LedgerOk(s: Session) {
    FillsOk(s) && GoneOk(s) && CountsOk(s)
  }

  lemma RegisterLedger(s: Session, symbol: Symbol)
    requires EngineOk(s.engine) && LedgerOk(s)
    ensures LedgerOk(After(s, Register(symbol)))
  {
    var e, e' := s.engine, RegisterSymbol(s.engine, symbol);
    hide BooksOk, BookOk, Named, Ids;
    forall id ensures Rests(e', id) <==> Rests(e, id) {
      if Rests(e, id) {
        var t :| t in e.books && id in e.books[t].index;
        assert id in e'.books[t].index;
      }
    }
    assert RestingIds(e') == RestingIds(e) by {
      forall id | id in RestingIds(e) ensures id in RestingIds(e') {
        var t :| t in e.books && id in e.books[t].index;
        assert id in e'.books[t].index;
      }
    }
    FlattenEmpty();
    hide Flatten;
    assert BooksAccounted(e', s.log);
  }

  lemma CancelLedger(s: Session, symbol: Symbol, id: OrderId)
    requires EngineOk(s.engine) && LedgerOk(s)
    ensures LedgerOk(AfterCancel(s, s.engine, symbol, id))
  {
    hide EngineOk, FillsOk, GoneOk, CountsOk;
    if symbol in s.engine.books {
      CancelFills(s, symbol, id);
      CancelGone(s, symbol, id);
      CancelCounts(s, symbol, id);
    } else {
      assert s.cancelled + Picked(s.engine, symbol, id) == s.cancelled;
      assert AfterCancel(s, s.engine, symbol, id) == s;
    }
  }

  lemma AfterLedger(s: Session, r: Request)
    requires EngineOk(s.engine) && Fresh(r) && LedgerOk(s)
    ensures LedgerOk(After(s, r))
  {
    hide EngineOk, BooksOk, LedgerOk, AfterCancel, AfterPlace;
    match r
    case Register(symbol) => RegisterLedger(s, symbol);
    case Cancel(symbol, id) => CancelLedger(s, symbol, id);
    case Submit(o) => SubmitLedger(s, o);
  }

  lemma PlaceLedger(s: Session, o: OrderState)
    requires EngineOk(s.engine) && o.filled == 0 && Accepts(s.engine, o) && LedgerOk(s)
    requires BookOk(s.engine.books[o.symbol]) && Incoming(s.engine.books[o.symbol], o)
    ensures LedgerOk(AfterPlace(s, o))
  {
    hide EngineOk, BookOk, FillsOk, GoneOk, CountsOk, AfterPlace, Incoming, Accepts;
    PlaceFills(s, o);
    PlaceGone(s, o);
    PlaceCounts(s, o);
  }

  lemma SubmitLedger(s: Session, o: OrderState)
    requires EngineOk(s.engine) && o.filled == 0 && LedgerOk(s)
    ensures LedgerOk(After(s, Submit(o)))
  {
    hide BooksOk, BookOf, BookOk, LedgerOk, AfterCancel, AfterPlace;
    if o.kind == CANCEL {
      var s1 := s.(engine := s.engine.(processed := s.engine.processed + 1));
      CountersLedger(s, s1.engine);
      CountersOk(s.engine, s1.engine);
      CancelLedger(s1, o.symbol, o.id);
      assert AfterCancel(s, s1.engine, o.symbol, o.id) == AfterCancel(s1, s1.engine, o.symbol, o.id) by {
        CancelIgnoresHistory(s, s1, o.symbol, o.id);
      }
    } else if Accepts(s.engine, o) {
      AcceptedIncoming(s.engine, o);
      PlaceLedger(s, o);
    } else {
      SubmitRejected(s.engine, o);
      CountersLedger(s, SubmitOrder(s.engine, o).engine);
    }
  }

  lemma CountersOk(e: EngineState, e': EngineState)
    requires EngineOk(e) && e' == e.(processed := e'.processed)
    ensures EngineOk(e')
  {
  }

  lemma CancelIgnoresHistory(s: Session, s1: Session, symbol: Symbol, id: OrderId)
    requires s1 == s.(engine := s1.engine)
    ensures AfterCancel(s, s1.engine, symbol, id) == AfterCancel(s1, s1.engine, symbol, id)
  {
  }

  lemma CountersLedger(s: Session, e: EngineState)
    requires LedgerOk(s) && e == s.engine.(processed := e.processed)
    ensures LedgerOk(s.(engine := e))
  {
    hide Named, Flatten, Ids, Accounted;
    assert RestingIds(e) == RestingIds(s.engine);
    forall id ensures Rests(e, id) <==> Rests(s.engine, id) {}
    assert GoneIds(s.(engine := e)) == GoneIds(s);
  }

  lemma {:induction false} RunLedger(rs: seq<Request>)
    requires AllFresh(rs)
    ensures LedgerOk(Run(rs))
    decreases |rs|
  {
    hide EngineOk, LedgerOk;
    if rs == [] {
      StartLedger();
    } else {
      RunLedger(rs[..|rs| - 1]);
      AfterLedger(Run(rs[..|rs| - 1]), rs[|rs| - 1]);
    }
  }

  /** The amortised bound: the trade counter and the resting orders together never exceed the
      accepted ids, because every trade fills an order of its own. */
  lemma AmortisedBound(rs: seq<Request>)
    requires AllFresh(rs)
    ensures Run(rs).engine.tradeCount + |RestingIds(Run(rs).engine)| <= |Run(rs).engine.usedIds|
  {
    hide Run, FillsOk, GoneOk, RestingIds;
    RunLedger(rs);
  }

  lemma StartLedger()
    ensures LedgerOk(START)
  {
    IdsEmpty();
  }
}
