/** Runs whose accepted quantity fits in 64 bits: cached totals stay exact, so FOK orders are
    all-or-nothing. */
module ExactRuns {
  import opened Types
  import opened Matching
  import opened PriceTime
  import opened Refinement
  import opened Totals
  import opened Engine
  import opened Runs
  import opened Conservation
  import opened Ledger

  ghost function QtyOf(): OrderState -> int {
    (o: OrderState) => o.quantity
  }

  ghost function AcceptedQty(s: Session): int {
    Total(s.accepted, QtyOf())
  }

  ghost predicate ExactBooks(e: EngineState) {
    forall symbol, side :: symbol in e.books ==> Exact(e.books[symbol].Levels(side))
  }

  /** Orders that left with a remainder were never overfilled. */
  ghost predicate RemsOk(s: Session) {
    && (forall i :: 0 <= i < |s.cancelled| ==> s.cancelled[i].Rem() >= 0)
    && (forall i :: 0 <= i < |s.discarded| ==> s.discarded[i].Rem() >= 0)
  }

  lemma {:induction false} TotalLe<T(!new)>(xs: seq<T>, v: T -> int, w: T -> int)
    requires forall i :: 0 <= i < |xs| ==> v(xs[i]) <= w(xs[i])
    ensures Total(xs, v) <= Total(xs, w)
    decreases |xs|
  {
    if xs != [] { TotalLe(xs[1..], v, w); }
  }

  lemma {:induction false} TotalNonNegative<T(!new)>(xs: seq<T>, w: T -> int)
    requires forall i :: 0 <= i < |xs| ==> w(xs[i]) >= 0
    ensures Total(xs, w) >= 0
    decreases |xs|
  {
    if xs != [] { TotalNonNegative(xs[1..], w); }
  }

  /** What is open on a side never exceeds what was accepted. */
  lemma OpenWithinAccepted(s: Session, symbol: Symbol, side: Side)
    requires Balanced(s, symbol, side) && RemsOk(s)
    ensures OpenQty(s.engine, symbol, side) <= AcceptedQty(s)
  {
    hide OpenQty;
    TotalLe(s.accepted, QtyIn(symbol, side), QtyOf());
    TotalNonNegative(s.log, TradedIn(symbol));
    TotalNonNegative(s.cancelled, RemIn(symbol, side));
    TotalNonNegative(s.discarded, RemIn(symbol, side));
  }

  lemma QtyAtWithinOpen(side: Side, ls: seq<LevelState>, p: Price)
    requires SideOk(side, ls)
    ensures 0 <= QtyAt(side, ls, p) <= SumRem(Flatten(ls))
  {
    var i := LowerBound(side, ls, p);
    FlattenOk(side, ls);
    SumRemLive(Flatten(ls));
    if LevelAt(ls, i, p) {
      FlattenSplit(ls, i);
      var a, c := Flatten(ls[..i]), Flatten(ls[i + 1..]);
      SumRemConcat(a, ls[i].orders + c);
      SumRemConcat(ls[i].orders, c);
      SideOkParts(side, ls, i);
      FlattenOk(side, ls[..i]);
      FlattenOk(side, ls[i + 1..]);
      SumRemLive(a);
      SumRemLive(c);
      LevelLive(side, ls[i]);
      SumRemLive(ls[i].orders);
    }
  }

  lemma SideOkParts(side: Side, ls: seq<LevelState>, i: nat)
    requires SideOk(side, ls) && i < |ls|
    ensures SideOk(side, ls[..i]) && SideOk(side, ls[i + 1..]) && LevelOk(side, ls[i])
  {
    hide LevelOk;
  }

  /** No level holds 2^64 or more. */
  ghost predicate Below(ls: seq<LevelState>) {
    forall i :: 0 <= i < |ls| ==> SumRem(ls[i].orders) < TWO_64
  }

  lemma ExactBelow(ls: seq<LevelState>)
    requires Exact(ls)
    ensures Below(ls)
  {
    hide SumRem;
  }

  /** The open quantity at a price after an order came to rest there. */
  lemma RestQtyAt(side: Side, ls: seq<LevelState>, o: OrderState)
    requires Below(RestIn(side, ls, o))
    ensures QtyAt(side, ls, o.price) + o.Rem() < TWO_64
  {
    var i := LowerBound(side, ls, o.price);
    var os := if LevelAt(ls, i, o.price) then ls[i].orders else [];
    assert RestIn(side, ls, o)[i].orders == os + [o];
    SumRemConcat(os, [o]);
    assert SumRem([o]) == o.Rem();
  }

  /** An order keeps exact totals exact if it leaves every level of its side below 2^64. */
  lemma AddOrderExact(b: BookState, o: OrderState)
    requires BookOk(b) && Incoming(b, o)
    requires forall side :: Exact(b.Levels(side))
    requires Below(AddOrder(b, o).book.Levels(o.side))
    ensures forall side :: Exact(AddOrder(b, o).book.Levels(side))
  {
    hide BookOk, Exact, Below, Drain, RestIn, Flatten, SumRem, QtyAt;
    var opp := Opposite(o.side);
    var s := DrainState(b, o.(status := ACCEPTED), [], []);
    DrainExact(opp, Limit(o), s);
    DrainOk(opp, Limit(o), s);
    var d := DrainOrder(b, o.(status := ACCEPTED));
    BookSide(b, o.side);
    var ls := d.book.Levels(o.side);
    QtyAtWithinOpen(o.side, ls, o.price);
    if o.kind == LIMIT && !d.taker.IsFilled() {
      var rested := AddOrder(b, o).order;
      RestQtyAt(o.side, ls, rested);
      RestExactIff(o.side, ls, rested);
    }
  }

  lemma CancelExact(b: BookState, id: OrderId)
    requires BookOk(b) && forall side :: Exact(b.Levels(side))
    ensures forall side :: Exact(CancelOrder(b, id).0.Levels(side))
  {
    if id in b.index {
      hide BookOk, CancelOrder, Exact, CutAt, SideOk;
      var side := b.index[id].side;
      var i, k := CancelCuts(b, id);
      CutAtExact(side, b.Levels(side), i, k);
      assert Exact(b.Levels(Opposite(side)));
    }
  }

  // ---------------------------------------------------------------- runs

  lemma AcceptedGrows(s: Session, r: Request)
    requires EngineOk(s.engine) && Fresh(r)
    ensures AcceptedQty(s) <= AcceptedQty(After(s, r))
    ensures r.Submit? && Accepts(s.engine, r.order) ==> AcceptedQty(After(s, r)) == AcceptedQty(s) + r.order.quantity
  {
    hide EngineOk, BooksOk, BookOk, BookOf, AddOrder, CancelOrder, Incoming;
    BooksOkOf(s.engine);
    if r.Submit? && Accepts(s.engine, r.order) {
      AcceptedIncoming(s.engine, r.order);
      TotalConcat(s.accepted, [r.order], QtyOf());
      TotalOne(r.order, QtyOf());
    }
  }

  lemma {:induction false} PickLive(list: seq<OrderState>, id: OrderId)
    requires Live(list)
    ensures Live(Pick(list, id))
    decreases |list|
  {
    if list != [] && list[0].id != id { PickLive(list[1..], id); }
  }

  lemma CancelRems(s: Session, e: EngineState, symbol: Symbol, id: OrderId)
    requires EngineOk(s.engine) && e == s.engine.(processed := e.processed) && RemsOk(s)
    ensures RemsOk(AfterCancel(s, e, symbol, id))
  {
    hide EngineOk, BooksOk, BookOf, BookOk, CancelOrder, Flatten, Pick;
    if symbol in e.books {
      BookIn(s.engine, symbol);
      var b := e.books[symbol];
      BookLive(b);
      PickLive(Flatten(b.bids), id);
      PickLive(Flatten(b.asks), id);
    }
  }

  lemma AfterRems(s: Session, r: Request)
    requires EngineOk(s.engine) && Fresh(r) && RemsOk(s)
    ensures RemsOk(After(s, r))
  {
    hide EngineOk, BooksOk, BookOf, BookOk, CancelOrder, AddOrder, AfterCancel, Accepts, Incoming;
    BooksOkOf(s.engine);
    match r
    case Register(_) =>
    case Cancel(symbol, id) => CancelRems(s, s.engine, symbol, id);
    case Submit(o) =>
      if o.kind == CANCEL {
        CancelRems(s, s.engine.(processed := s.engine.processed + 1), o.symbol, o.id);
      } else if Accepts(s.engine, o) {
        AcceptsKnown(s.engine, o);
        AcceptedIncoming(s.engine, o);
        PlaceOpen(s.engine.books[o.symbol], o);
      }
  }

  ghost predicate BelowBooks(e: EngineState) {
    forall symbol, side :: symbol in e.books ==> Below(e.books[symbol].Levels(side))
  }

  lemma AfterExact(s: Session, r: Request)
    requires EngineOk(s.engine) && Fresh(r) && ExactBooks(s.engine) && BelowBooks(After(s, r).engine)
    ensures ExactBooks(After(s, r).engine)
  {
    hide EngineOk, BooksOk, BookOf, BookOk, CancelOrder, AddOrder, Exact, Below, Accepts, Incoming, Flatten, SumRem;
    BooksOkOf(s.engine);
    match r
    case Register(symbol) => assert Exact([]) by { EmptyExact(); }
    case Cancel(symbol, id) => CancelBooksExact(s.engine, s.engine, symbol, id);
    case Submit(o) =>
      if o.kind == CANCEL {
        CancelBooksExact(s.engine, s.engine.(processed := s.engine.processed + 1), o.symbol, o.id);
      } else if Accepts(s.engine, o) {
        AcceptsKnown(s.engine, o);
        AcceptedIncoming(s.engine, o);
        assert forall side :: Exact(s.engine.books[o.symbol].Levels(side));
        assert Below(After(s, r).engine.books[o.symbol].Levels(o.side));
        AddOrderExact(s.engine.books[o.symbol], o);
      } else {
        SubmitRejected(s.engine, o);
      }
  }

  lemma EmptyExact()
    ensures Exact([])
  {
  }

  lemma CancelBooksExact(e0: EngineState, e: EngineState, symbol: Symbol, id: OrderId)
    requires EngineOk(e0) && e == e0.(processed := e.processed) && ExactBooks(e)
    ensures ExactBooks(CancelById(e, symbol, id).0)
  {
    hide EngineOk, BookOf, BookOk, CancelOrder, Exact;
    if symbol in e.books {
      BookIn(e0, symbol);
      assert forall side :: Exact(e.books[symbol].Levels(side));
      CancelExact(e.books[symbol], id);
    }
  }

  /** After every request of the run all totals are exact. */
  ghost predicate AlwaysExact(rs: seq<Request>)
    requires AllFresh(rs)
  {
    forall n: nat :: n <= |rs| ==> ExactBooks(Run(rs[..n]).engine)
  }

  /** After no request of the run a level holds 2^64 or more. */
  ghost predicate AlwaysBelow(rs: seq<Request>)
    requires AllFresh(rs)
  {
    forall n: nat :: n <= |rs| ==> BelowBooks(Run(rs[..n]).engine)
  }

  /** Over a run no cached total is ever off if and only if no level ever holds 2^64 or more. */
  lemma AlwaysExactIff(rs: seq<Request>)
    requires AllFresh(rs)
    ensures AlwaysExact(rs) <==> AlwaysBelow(rs)
  {
    hide Run, ExactBooks, BelowBooks;
    if AlwaysExact(rs) {
      forall n: nat | n <= |rs| ensures BelowBooks(Run(rs[..n]).engine) {
        ExactBooksBelow(Run(rs[..n]).engine);
      }
    }
    if AlwaysBelow(rs) {
      forall n: nat | n <= |rs| ensures ExactBooks(Run(rs[..n]).engine) {
        ExactUpTo(rs, n);
      }
    }
  }

  lemma ExactBooksBelow(e: EngineState)
    requires ExactBooks(e)
    ensures BelowBooks(e)
  {
    hide Exact, Below;
    forall symbol, side | symbol in e.books ensures Below(e.books[symbol].Levels(side)) {
      ExactBelow(e.books[symbol].Levels(side));
    }
  }

  lemma {:induction false} ExactUpTo(rs: seq<Request>, n: nat)
    requires AllFresh(rs) && AlwaysBelow(rs) && n <= |rs|
    ensures ExactBooks(Run(rs[..n]).engine)
    decreases n
  {
    hide EngineOk, BooksOk, ExactBooks, BelowBooks, After;
    if n == 0 {
      StartExact();
    } else {
      assert rs[..n][..n - 1] == rs[..n - 1];
      ExactUpTo(rs, n - 1);
      BooksOkOf(Run(rs[..n - 1]).engine);
      AfterExact(Run(rs[..n - 1]), rs[n - 1]);
    }
  }

  lemma StartExact()
    ensures ExactBooks(START.engine) && RemsOk(START)
  {
  }

  lemma {:induction false} RunRems(rs: seq<Request>)
    requires AllFresh(rs)
    ensures RemsOk(Run(rs))
    decreases |rs|
  {
    hide EngineOk, RemsOk, After;
    if rs == [] {
      StartExact();
    } else {
      RunRems(rs[..|rs| - 1]);
      AfterRems(Run(rs[..|rs| - 1]), rs[|rs| - 1]);
    }
  }

  /** A level holds no more than was accepted. */
  lemma BelowAccepted(rs: seq<Request>)
    requires AllFresh(rs) && AcceptedQty(Run(rs)) < TWO_64
    ensures BelowBooks(Run(rs).engine)
  {
    hide EngineOk, BooksOk, BookOk, AcceptedQty, RemsOk, Run, SumRem, Flatten, QtyAt, Balanced, SideOk;
    RunRems(rs);
    var e := Run(rs).engine;
    forall symbol, side | symbol in e.books ensures Below(e.books[symbol].Levels(side)) {
      RunBalanced(rs, symbol, side);
      OpenWithinAccepted(Run(rs), symbol, side);
      EveryBookOk(rs, symbol);
      BookSide(e.books[symbol], side);
      var ls := e.books[symbol].Levels(side);
      forall i | 0 <= i < |ls| ensures SumRem(ls[i].orders) < TWO_64 {
        QtyAtLevel(side, ls, i);
        QtyAtWithinOpen(side, ls, ls[i].price);
      }
    }
  }

  lemma QtyAtLevel(side: Side, ls: seq<LevelState>, i: nat)
    requires SideOk(side, ls) && i < |ls|
    ensures QtyAt(side, ls, ls[i].price) == SumRem(ls[i].orders)
  {
    PriceFound(side, ls, i);
    hide SideOk, LowerBound, SumRem;
  }

  lemma {:induction false} AcceptedUpTo(rs: seq<Request>, n: nat)
    requires AllFresh(rs) && n <= |rs|
    ensures AcceptedQty(Run(rs[..n])) <= AcceptedQty(Run(rs))
    decreases |rs|
  {
    hide EngineOk, AcceptedQty, After;
    if n == |rs| {
      assert rs[..n] == rs;
    } else {
      var m := |rs| - 1;
      assert rs[..m][..n] == rs[..n];
      AcceptedUpTo(rs[..m], n);
      AcceptedGrows(Run(rs[..m]), rs[m]);
    }
  }

  /** So while the accepted quantity fits in 64 bits no cached total is ever off. */
  lemma RunExact(rs: seq<Request>)
    requires AllFresh(rs) && AcceptedQty(Run(rs)) < TWO_64
    ensures AlwaysExact(rs) && ExactBooks(Run(rs).engine) && RemsOk(Run(rs))
  {
    hide Run, AcceptedQty, ExactBooks, BelowBooks, RemsOk;
    forall n: nat | n <= |rs| ensures BelowBooks(Run(rs[..n]).engine) {
      AcceptedUpTo(rs, n);
      BelowAccepted(rs[..n]);
    }
    AlwaysExactIff(rs);
    RunRems(rs);
    assert rs[..|rs|] == rs;
  }

  // ---------------------------------------------------------------- FOK over runs

  lemma CrossQtyWithin(side: Side, limit: Option<Price>, list: seq<OrderState>)
    requires Live(list)
    ensures CrossQty(side, limit, list) <= SumRem(list)
  {
    if list != [] {
      CrossQtyWithin(side, limit, list[1..]);
      SumRemLive(list[1..]);
    }
  }

  /** In every run whose accepted quantity fits in 64 bits, a FOK order is filled exactly, with
      the trades and book of an identical IOC order, or leaves the book alone; and it executes
      exactly when the crossing quantity suffices. */
  lemma FokOverRuns(rs: seq<Request>, o: OrderState)
    requires AllFresh(rs) && AcceptedQty(Run(rs)) < TWO_64
    requires o.kind == FOK && o.filled == 0 && Accepts(Run(rs).engine, o)
    ensures var e := Run(rs).engine;
      BookOk(e.books[o.symbol]) && Incoming(e.books[o.symbol], o)
      && var b := e.books[o.symbol];
      var opp := Opposite(o.side);
      var r := AddOrder(b, o);
      var ioc := AddOrder(b, o.(kind := IOC));
      if CrossQty(opp, Limit(o), Flatten(b.Levels(opp))) >= o.quantity then
        r.order.filled == o.quantity && r.order.status == FILLED && r.book == ioc.book && r.trades == ioc.trades
      else
        r.book == b && r.trades == [] && r.order.filled == 0 && r.order.status == CANCELLED
  {
    hide EngineOk, BooksOk, BookOk, BookOf, AddOrder, Flatten, CrossQty, Exact, AcceptedQty, SumRem, Live, Accepts, RemsOk, Run;
    var s, opp := Run(rs), Opposite(o.side);
    BooksOkOf(s.engine);
    AcceptsKnown(s.engine, o);
    AcceptedIncoming(s.engine, o);
    var b := s.engine.books[o.symbol];
    RunExact(rs);
    RunBalanced(rs, o.symbol, opp);
    OpenWithinAccepted(s, o.symbol, opp);
    BookLive(b);
    CrossQtyWithin(opp, Limit(o), Flatten(b.Levels(opp)));
    FokAllOrNothing(b, o);
  }
}
