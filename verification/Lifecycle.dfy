/** What a run never does: revive a dead id, trade an order with itself, or pass over an order
    with priority. */
module Lifecycle {
  import opened Types
  import opened Matching
  import opened PriceTime
  import opened Refinement
  import opened Engine
  import opened Runs
  import opened Ledger

  /** The trades of the last request. */
  function NewTrades(s: Session, r: Request): seq<Trade>
    requires BooksOk(s.engine) && Fresh(r)
  {
    if r.Submit? then SubmitOrder(s.engine, r.order).response.trades else []
  }

  lemma LogGrows(s: Session, r: Request)
    requires BooksOk(s.engine) && Fresh(r)
    ensures After(s, r).log == s.log + NewTrades(s, r)
  {
    hide BooksOk;
    if r.Submit? { AfterIsEngine(s, r.order); }
  }

  /** A request that trades was accepted, and its trades serve the opposite list in order. */
  lemma TradesServe(s: Session, r: Request)
    requires EngineOk(s.engine) && Fresh(r) && NewTrades(s, r) != []
    ensures r.Submit? && Accepts(s.engine, r.order)
    ensures var o := r.order;
      BookOk(s.engine.books[o.symbol]) && Incoming(s.engine.books[o.symbol], o)
      && var b := s.engine.books[o.symbol];
      && NewTrades(s, r) == Outcome(b, o).trades
      && var list := Flatten(b.Levels(Opposite(o.side)));
      && Follows(list, NewTrades(s, r), o.id)
      && Consumed(Opposite(o.side), Limit(o), list, o.quantity, b.symbol, o.id, Outcome(b, o))
      && Distinct(list) && o.id !in s.engine.usedIds
      && (forall id :: id in Ids(list) ==> Rests(s.engine, id))
  {
    hide EngineOk, BooksOk, BookOk, BookOf, AddOrder, Consumed, Outcome, Flatten, Ids, CancelById;
    var o := r.order;
    if o.kind == CANCEL {
      CancelNoTrades(s.engine.(processed := s.engine.processed + 1), o.symbol, o.id);
      BooksOkOf(s.engine);
      assert false;
    } else if !Accepts(s.engine, o) {
      SubmitRejected(s.engine, o);
      assert false;
    } else {
      BooksOkOf(s.engine);
      SubmitAccepted(s.engine, o);
      AcceptedIncoming(s.engine, o);
      var b := s.engine.books[o.symbol];
      PlaceFlat(b, o);
      ConsumedFollows(Opposite(o.side), Limit(o), Flatten(b.Levels(Opposite(o.side))), o.quantity, b.symbol, o.id, Outcome(b, o));
      FlatDistinct(b, Opposite(o.side));
      SideIds(b);
    }
  }

  lemma CancelNoTrades(e: EngineState, symbol: Symbol, id: OrderId)
    ensures CancelById(e, symbol, id).1.trades == []
  {
  }

  // ---------------------------------------------------------------- dead ids

  ghost predicate Dead(e: EngineState, id: OrderId) {
    id in e.usedIds && !Rests(e, id)
  }

  /** One request neither revives a dead id nor trades it. */
  lemma StaysDead(s: Session, r: Request, id: OrderId)
    requires EngineOk(s.engine) && Fresh(r) && Dead(s.engine, id)
    ensures Dead(After(s, r).engine, id)
    ensures forall i :: 0 <= i < |NewTrades(s, r)| ==> NewTrades(s, r)[i].maker != id && NewTrades(s, r)[i].taker != id
  {
    if NewTrades(s, r) != [] {
      TradesServe(s, r);
      var list := Flatten(s.engine.books[r.order.symbol].Levels(Opposite(r.order.side)));
      hide EngineOk, BooksOk, BookOk, Flatten, Consumed, Outcome, Distinct, NewTrades;
      forall i | 0 <= i < |NewTrades(s, r)| ensures NewTrades(s, r)[i].maker != id && NewTrades(s, r)[i].taker != id {
        InIds(list, i);
      }
    }
    StaysOut(s, r, id);
  }

  lemma StaysOut(s: Session, r: Request, id: OrderId)
    requires EngineOk(s.engine) && Fresh(r) && Dead(s.engine, id)
    ensures Dead(After(s, r).engine, id)
  {
    hide EngineOk, BooksOk, BookOk, BookOf, AddOrder, CancelOrder;
    BooksOkOf(s.engine);
    match r
    case Register(symbol) => assert forall t :: t in s.engine.books ==> id !in s.engine.books[t].index;
    case Cancel(symbol, x) => CancelOut(s.engine, symbol, x, id);
    case Submit(o) =>
      if o.kind == CANCEL {
        CountersOk(s.engine, s.engine.(processed := s.engine.processed + 1));
        CancelOut(s.engine.(processed := s.engine.processed + 1), o.symbol, o.id, id);
      } else if Accepts(s.engine, o) {
        AcceptedIncoming(s.engine, o);
        AddOrderIndex(s.engine.books[o.symbol], o);
      } else {
        SubmitRejected(s.engine, o);
      }
  }

  lemma CancelOut(e: EngineState, symbol: Symbol, x: OrderId, id: OrderId)
    requires EngineOk(e) && forall t :: t in e.books ==> id !in e.books[t].index
    ensures var e' := CancelById(e, symbol, x).0;
      e'.usedIds == e.usedIds && forall t :: t in e'.books ==> id !in e'.books[t].index
  {
    hide EngineOk, BookOk, CancelOrder;
    if symbol in e.books {
      BookIn(e, symbol);
      CancelIndex(e.books[symbol], x);
    }
  }

  lemma RunSplit(rs: seq<Request>, more: seq<Request>)
    requires AllFresh(rs + more) && more != []
    ensures AllFresh(rs + more[..|more| - 1]) && Fresh(more[|more| - 1])
    ensures Run(rs + more) == After(Run(rs + more[..|more| - 1]), more[|more| - 1])
  {
    assert (rs + more)[..|rs + more| - 1] == rs + more[..|more| - 1];
    assert (rs + more)[|rs + more| - 1] == more[|more| - 1];
  }

  /** Dead ids stay dead: once an accepted order is filled, cancelled, or was of a type that
      never rests, no continuation of the run has it in an index or in a trade again. */
  lemma {:induction false} DeadForever(rs: seq<Request>, more: seq<Request>, id: OrderId)
    requires AllFresh(rs) && AllFresh(rs + more) && Dead(Run(rs).engine, id)
    ensures Dead(Run(rs + more).engine, id)
    ensures Run(rs).log <= Run(rs + more).log
    ensures forall i :: |Run(rs).log| <= i < |Run(rs + more).log| ==>
      Run(rs + more).log[i].maker != id && Run(rs + more).log[i].taker != id
    decreases |more|
  {
    hide EngineOk, BooksOk, Dead, After, NewTrades;
    if more == [] {
      assert rs + more == rs;
    } else {
      RunSplit(rs, more);
      var shorter := more[..|more| - 1];
      DeadForever(rs, shorter, id);
      StaysDead(Run(rs + shorter), more[|more| - 1], id);
      BooksOkOf(Run(rs + shorter).engine);
      LogGrows(Run(rs + shorter), more[|more| - 1]);
    }
  }

  ghost predicate SoundTrade(t: Trade) {
    t.maker != t.taker && t.quantity > 0 && t.price > 0
  }

  /** No order ever trades with itself, every trade moves a positive quantity, and every trade
      price is positive although only LIMIT prices are validated: only LIMIT orders are makers. */
  lemma {:induction false} TradesSound(rs: seq<Request>)
    requires AllFresh(rs)
    ensures forall i :: 0 <= i < |Run(rs).log| ==> SoundTrade(Run(rs).log[i])
    decreases |rs|
  {
    hide EngineOk, BooksOk, SoundTrade;
    if rs != [] {
      var s, r := Run(rs[..|rs| - 1]), rs[|rs| - 1];
      TradesSound(rs[..|rs| - 1]);
      BooksOkOf(s.engine);
      LogGrows(s, r);
      hide After, NewTrades;
      if NewTrades(s, r) != [] { NewTradesSound(s, r); }
    }
  }

  lemma NewTradesSound(s: Session, r: Request)
    requires EngineOk(s.engine) && Fresh(r) && NewTrades(s, r) != []
    ensures forall i :: 0 <= i < |NewTrades(s, r)| ==> SoundTrade(NewTrades(s, r)[i])
  {
    TradesServe(s, r);
    var b := s.engine.books[r.order.symbol];
    var list := Flatten(b.Levels(Opposite(r.order.side)));
    BookIn(s.engine, r.order.symbol);
    NotResting(s.engine, r.order.id);
    assert AllTagged(list, r.order.symbol) by { BookTagged(b, r.order.symbol, s.engine.usedIds, Opposite(r.order.side)); }
    hide EngineOk, BooksOk, BookOk, BookOf, Flatten, Outcome, Distinct, NewTrades, AllWhole, Leaves;
    forall i | 0 <= i < |NewTrades(s, r)|
      ensures SoundTrade(NewTrades(s, r)[i])
    {
      InIds(list, i);
      assert Serves(Opposite(r.order.side), Limit(r.order), list[i], b.symbol, r.order.id, NewTrades(s, r)[i]);
    }
  }

  lemma BookTagged(b: BookState, symbol: Symbol, usedIds: set<OrderId>, side: Side)
    requires BookOf(b, symbol, usedIds)
    ensures AllTagged(Flatten(b.Levels(side)), symbol)
  {
    hide BookOk, AllTagged;
  }
}
