/** Quantity is conserved over whole runs, symbol by symbol and side by side. */
module Conservation {
  import opened Types
  import opened Matching
  import opened PriceTime
  import opened Refinement
  import opened Totals
  import opened Engine
  import opened Runs

  ghost function QtyIn(symbol: Symbol, side: Side): OrderState -> int {
    (o: OrderState) => if o.symbol == symbol && o.side == side then o.quantity else 0
  }

  ghost function RemIn(symbol: Symbol, side: Side): OrderState -> int {
    (o: OrderState) => if o.symbol == symbol && o.side == side then o.Rem() else 0
  }

  ghost function TradedIn(symbol: Symbol): Trade -> int {
    (t: Trade) => if t.symbol == symbol then t.quantity else 0
  }

  ghost function OpenQty(e: EngineState, symbol: Symbol, side: Side): int {
    if symbol in e.books then SumRem(Flatten(e.books[symbol].Levels(side))) else 0
  }

  /** Accepted quantity = traded + resting + remainder of cancelled + remainder of discarded orders. */
  ghost predicate Balanced(s: Session, symbol: Symbol, side: Side) {
    Total(s.accepted, QtyIn(symbol, side))
      == Total(s.log, TradedIn(symbol)) + OpenQty(s.engine, symbol, side)
         + Total(s.cancelled, RemIn(symbol, side)) + Total(s.discarded, RemIn(symbol, side))
  }

  lemma {:induction false} GreedyConserves(resting: Side, limit: Option<Price>, list: seq<OrderState>, left: Quantity,
                                           symbol: Symbol, taker: OrderId)
    requires Live(list)
    ensures var g := Greedy(resting, limit, list, left, symbol, taker);
      SumRem(list) == SumRem(g.list) + Volume(g.trades)
    decreases |list|
  {
    if list != [] && left > 0 && Crosses(resting, limit, list[0].price) {
      if list[0].Rem() <= left {
        GreedyConserves(resting, limit, list[1..], left - list[0].Rem(), symbol, taker);
      } else {
        var m := Fill(list[0], left);
        assert ([m] + list[1..])[1..] == list[1..];
        var t := Trade(symbol, list[0].price, left, list[0].id, taker);
        assert Volume([t]) == left by { assert [t][1..] == []; }
      }
    }
  }

  lemma OutcomeConserves(b: BookState, o: OrderState)
    requires BookOk(b) && Incoming(b, o)
    ensures var g := Outcome(b, o);
      var list := Flatten(b.Levels(Opposite(o.side)));
      SumRem(list) == SumRem(g.list) + Volume(g.trades) && o.quantity == g.left + Volume(g.trades)
  {
    BookLive(b);
    OutcomeConsumes(b, o);
    hide BookOk, Flatten, Greedy, InOrder, AllWhole;
    GreedyConserves(Opposite(o.side), Limit(o), Abs(b).List(Opposite(o.side)), o.quantity, b.symbol, o.id);
  }

  lemma {:induction false} VolumeTotal(trades: seq<Trade>, symbol: Symbol, of: Symbol)
    requires forall i :: 0 <= i < |trades| ==> trades[i].symbol == of
    ensures Total(trades, TradedIn(symbol)) == if symbol == of then Volume(trades) else 0
    decreases |trades|
  {
    if trades != [] { VolumeTotal(trades[1..], symbol, of); }
  }

  lemma {:induction false} InsertSum(side: Side, list: seq<OrderState>, o: OrderState)
    ensures SumRem(Insert(side, list, o)) == SumRem(list) + o.Rem()
    decreases |list|
  {
    if list == [] || Key(side, o.price) < Key(side, list[0].price) {
      SumRemConcat([o], list);
      assert SumRem([o]) == o.Rem() by { assert [o][1..] == []; }
    } else {
      InsertSum(side, list[1..], o);
    }
  }

  lemma {:induction false} WithoutSum(list: seq<OrderState>, id: OrderId)
    ensures SumRem(list) == SumRem(Without(list, id)) + SumRem(Pick(list, id))
    decreases |list|
  {
    if list != [] {
      if list[0].id == id {
        assert [list[0]][1..] == [];
      } else {
        WithoutSum(list[1..], id);
      }
    }
  }

  /** A placement changes what is open on the two sides of its book like this. */
  lemma PlaceOpen(b: BookState, o: OrderState)
    requires BookOk(b) && Incoming(b, o)
    ensures var r := AddOrder(b, o);
      var v := Volume(r.trades);
      var opp := Opposite(o.side);
      && SumRem(Flatten(r.book.Levels(opp))) == SumRem(Flatten(b.Levels(opp))) - v
      && SumRem(Flatten(r.book.Levels(o.side)))
           == SumRem(Flatten(b.Levels(o.side))) + (if o.kind == LIMIT && !r.order.IsFilled() then r.order.Rem() else 0)
      && r.order == o.(filled := r.order.filled, status := r.order.status)
      && o.quantity == v + r.order.Rem()
      && r.order.filled == v && 0 <= r.order.Rem()
      && forall i :: 0 <= i < |r.trades| ==> r.trades[i].symbol == b.symbol
  {
    hide BookOk, AddOrder, Flatten, Insert, SumRem;
    PlaceFlat(b, o);
    OutcomeConserves(b, o);
    hide Outcome;
    InsertSum(o.side, Flatten(b.Levels(o.side)), AddOrder(b, o).order);
  }

  lemma PlaceOpenQty(e: EngineState, o: OrderState, symbol: Symbol, side: Side)
    requires o.symbol in e.books && BookOk(e.books[o.symbol]) && Incoming(e.books[o.symbol], o)
    ensures var r := AddOrder(e.books[o.symbol], o);
      OpenQty(Place(e, o).engine, symbol, side) == OpenQty(e, symbol, side) +
        (if symbol != o.symbol then 0
         else if side != o.side then -Volume(r.trades)
         else if o.kind == LIMIT && !r.order.IsFilled() then r.order.Rem() else 0)
  {
    hide BookOk, AddOrder, Flatten, SumRem, Volume, Incoming;
    PlaceOpen(e.books[o.symbol], o);
  }

  /** What a placement adds to the books of account, and that it balances. */
  lemma PlaceBalanced(s: Session, o: OrderState, symbol: Symbol, side: Side)
    requires o.symbol in s.engine.books && BookOk(s.engine.books[o.symbol]) && Incoming(s.engine.books[o.symbol], o)
    requires Balanced(s, symbol, side)
    ensures Balanced(AfterPlace(s, o), symbol, side)
  {
    hide BookOk, AddOrder, Total, Flatten, SumRem, Volume, Incoming, Place, OpenQty;
    var r := AddOrder(s.engine.books[o.symbol], o);
    var out := if !r.order.IsFilled() && o.kind != LIMIT then [r.order] else [];
    PlaceOpenQty(s.engine, o, symbol, side);
    PlaceOpen(s.engine.books[o.symbol], o);
    TotalConcat(s.accepted, [o], QtyIn(symbol, side));
    TotalOne(o, QtyIn(symbol, side));
    TotalConcat(s.log, r.trades, TradedIn(symbol));
    VolumeTotal(r.trades, symbol, s.engine.books[o.symbol].symbol);
    TotalConcat(s.discarded, out, RemIn(symbol, side));
    if out == [] { TotalZero(out, RemIn(symbol, side)); } else { TotalOne(r.order, RemIn(symbol, side)); }
    assert s.engine.books[o.symbol].symbol == o.symbol by { IncomingSymbol(s.engine.books[o.symbol], o); }
  }

  lemma IncomingSymbol(b: BookState, o: OrderState)
    requires Incoming(b, o)
    ensures o.symbol == b.symbol && o.filled == 0
  {
  }

  lemma {:induction false} PickTotal(list: seq<OrderState>, id: OrderId, of: Symbol, on: Side, symbol: Symbol, side: Side)
    requires forall i :: 0 <= i < |list| ==> list[i].symbol == of && list[i].side == on
    ensures Total(Pick(list, id), RemIn(symbol, side)) == if symbol == of && side == on then SumRem(Pick(list, id)) else 0
    decreases |list|
  {
    if list != [] {
      if list[0].id == id {
        TotalOne(list[0], RemIn(symbol, side));
        assert [list[0]][1..] == [];
      } else {
        PickTotal(list[1..], id, of, on, symbol, side);
      }
    }
  }

  lemma CancelOpen(b: BookState, of: Symbol, usedIds: set<OrderId>, id: OrderId, symbol: Symbol, side: Side)
    requires BookOf(b, of, usedIds)
    ensures var out := Pick(Flatten(b.bids), id) + Pick(Flatten(b.asks), id);
      Total(out, RemIn(symbol, side)) == if symbol != of then 0
        else SumRem(Flatten(b.Levels(side))) - SumRem(Flatten(CancelOrder(b, id).0.Levels(side)))
  {
    FlattenOk(BUY, b.bids);
    FlattenOk(SELL, b.asks);
    hide BookOk, CancelOrder, Flatten, SumRem, Total, Pick, Without;
    CancelRefines(b, id);
    PickTotal(Flatten(b.bids), id, of, BUY, symbol, side);
    PickTotal(Flatten(b.asks), id, of, SELL, symbol, side);
    TotalConcat(Pick(Flatten(b.bids), id), Pick(Flatten(b.asks), id), RemIn(symbol, side));
    WithoutSum(Flatten(b.bids), id);
    WithoutSum(Flatten(b.asks), id);
    assert Abs(CancelOrder(b, id).0) == FlatCancel(Abs(b), id);
  }

  lemma CancelBalanced(s: Session, e: EngineState, of: Symbol, id: OrderId, symbol: Symbol, side: Side)
    requires BooksOk(s.engine) && e.books == s.engine.books
    requires Balanced(s, symbol, side)
    ensures Balanced(AfterCancel(s, e, of, id), symbol, side)
  {
    var out := Picked(e, of, id);
    if of in e.books {
      assert BookOf(e.books[of], of, s.engine.usedIds);
      hide BooksOk, BookOf, CancelOrder, Flatten, SumRem, Total, Pick;
      CancelOpen(e.books[of], of, s.engine.usedIds, id, symbol, side);
      TotalConcat(s.cancelled, out, RemIn(symbol, side));
    } else {
      assert s.cancelled + out == s.cancelled;
    }
  }

  lemma AfterBalanced(s: Session, r: Request, symbol: Symbol, side: Side)
    requires EngineOk(s.engine) && Fresh(r)
    requires Balanced(s, symbol, side)
    ensures Balanced(After(s, r), symbol, side)
  {
    hide BooksOk, Total, Flatten, SumRem;
    match r
    case Register(of) => assert SumRem(Flatten([])) == 0 by { NothingResting(); }
    case Cancel(of, id) => CancelBalanced(s, s.engine, of, id, symbol, side);
    case Submit(o) =>
      if o.kind == CANCEL {
        CancelBalanced(s, s.engine.(processed := s.engine.processed + 1), o.symbol, o.id, symbol, side);
      } else if Accepts(s.engine, o) {
        AcceptedIncoming(s.engine, o);
        PlaceBalanced(s, o, symbol, side);
      } else {
        SubmitRejected(s.engine, o);
      }
  }

  lemma NothingResting()
    ensures SumRem(Flatten([])) == 0
  {
  }

  /** Conservation over every run, for every symbol and side. */
  lemma {:induction false} RunBalanced(rs: seq<Request>, symbol: Symbol, side: Side)
    requires AllFresh(rs)
    ensures Balanced(Run(rs), symbol, side)
    decreases |rs|
  {
    if rs != [] {
      RunBalanced(rs[..|rs| - 1], symbol, side);
      AfterBalanced(Run(rs[..|rs| - 1]), rs[|rs| - 1], symbol, side);
    }
  }
}
