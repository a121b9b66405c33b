/** Price-time priority over whole runs: arrival order is kept in the books however many fills,
    cancels and arrivals intervene, and no trade passes over an order with priority. */
module Priority {
  import opened Types
  import opened Matching
  import opened PriceTime
  import opened Refinement
  import opened Engine
  import opened Runs
  import opened Ledger
  import opened Lifecycle

  /** Order a was accepted before order b. */
  ghost predicate Before(accepted: seq<OrderState>, a: OrderId, b: OrderId) {
    exists i, j :: 0 <= i < j < |accepted| && accepted[i].id == a && accepted[j].id == b
  }

  /** x has priority over y on a side: a better price, or the same price and an earlier arrival. */
  ghost predicate Ahead(side: Side, accepted: seq<OrderState>, x: OrderState, y: OrderState) {
    Key(side, x.price) < Key(side, y.price) || (x.price == y.price && Before(accepted, x.id, y.id))
  }

  ghost predicate Arranged(side: Side, accepted: seq<OrderState>, list: seq<OrderState>) {
    && (forall m, n :: 0 <= m < n < |list| ==> Ahead(side, accepted, list[m], list[n]))
    && (forall m :: 0 <= m < |list| ==> list[m].id in Ids(accepted))
  }

  ghost predicate ArrivalOk(s: Session) {
    && Distinct(s.accepted) && Ids(s.accepted) == s.engine.usedIds
    && forall symbol, side :: symbol in s.engine.books ==>
         Arranged(side, s.accepted, Flatten(s.engine.books[symbol].Levels(side)))
  }

  lemma BeforeAsymmetric(accepted: seq<OrderState>, a: OrderId, b: OrderId)
    requires Distinct(accepted) && Before(accepted, a, b)
    ensures !Before(accepted, b, a) && a != b
  {
    var i, j :| 0 <= i < j < |accepted| && accepted[i].id == a && accepted[j].id == b;
  }

  lemma BeforeGrows(accepted: seq<OrderState>, o: OrderState, a: OrderId, b: OrderId)
    ensures Before(accepted, a, b) ==> Before(accepted + [o], a, b)
    ensures a in Ids(accepted) ==> Before(accepted + [o], a, o.id)
  {
    var acc := accepted + [o];
    if Before(accepted, a, b) {
      var i, j :| 0 <= i < j < |accepted| && accepted[i].id == a && accepted[j].id == b;
      assert acc[i].id == a && acc[j].id == b;
    }
    if a in Ids(accepted) {
      var i :| 0 <= i < |accepted| && accepted[i].id == a;
      assert acc[i].id == a && acc[|accepted|].id == o.id;
    }
  }

  lemma ArrangedGrows(side: Side, accepted: seq<OrderState>, list: seq<OrderState>, o: OrderState)
    requires Arranged(side, accepted, list)
    ensures Arranged(side, accepted + [o], list)
  {
    IdsConcat(accepted, [o]);
    forall m, n | 0 <= m < n < |list| ensures Ahead(side, accepted + [o], list[m], list[n]) {
      assert Ahead(side, accepted, list[m], list[n]);
      BeforeGrows(accepted, o, list[m].id, list[n].id);
    }
  }

  /** Dropping orders from a list, or changing their fill, keeps it arranged. */
  lemma ArrangedMap(side: Side, accepted: seq<OrderState>, list: seq<OrderState>, list': seq<OrderState>, at: int -> int)
    requires Arranged(side, accepted, list)
    requires forall i :: 0 <= i < |list'| ==> 0 <= at(i) < |list| && list'[i].id == list[at(i)].id && list'[i].price == list[at(i)].price
    requires forall i, j :: 0 <= i < j < |list'| ==> at(i) < at(j)
    ensures Arranged(side, accepted, list')
  {
    forall m, n | 0 <= m < n < |list'| ensures Ahead(side, accepted, list'[m], list'[n]) {
      assert Ahead(side, accepted, list[at(m)], list[at(n)]);
    }
  }

  lemma ConsumedArranged(resting: Side, limit: Option<Price>, list: seq<OrderState>, left: int,
                         symbol: Symbol, taker: OrderId, g: Fills, accepted: seq<OrderState>)
    requires Consumed(resting, limit, list, left, symbol, taker, g)
    requires Arranged(resting, accepted, list)
    ensures Arranged(resting, accepted, g.list)
  {
    hide Arranged, InOrder;
    var n := |g.done|;
    ArrangedMap(resting, accepted, list, g.list, i => n + i);
  }

  function CutOne<T>(list: seq<T>, m: nat): seq<T> {
    if m < |list| then list[..m] + list[m + 1..] else list
  }

  lemma CutOneTail<T>(list: seq<T>, k: nat)
    requires list != []
    ensures CutOne(list, k + 1) == [list[0]] + CutOne(list[1..], k)
  {
    if k < |list| - 1 {
      assert list[..k + 1] == [list[0]] + list[1..][..k];
      assert list[k + 2..] == list[1..][k + 1..];
    }
  }

  lemma {:induction false} WithoutIs(list: seq<OrderState>, id: OrderId) returns (m: nat)
    ensures Without(list, id) == CutOne(list, m)
    decreases |list|
  {
    if list == [] || list[0].id == id {
      m := 0;
      assert list != [] ==> list[..0] + list[1..] == list[1..];
    } else {
      hide CutOne;
      m := WithoutIs(list[1..], id);
      CutOneTail(list, m);
      m := m + 1;
    }
  }

  lemma WithoutArranged(side: Side, accepted: seq<OrderState>, list: seq<OrderState>, id: OrderId)
    requires Arranged(side, accepted, list)
    ensures Arranged(side, accepted, Without(list, id))
  {
    hide Arranged, Without;
    var m := WithoutIs(list, id);
    if m < |list| {
      ArrangedMap(side, accepted, list, list[..m] + list[m + 1..], i => if i < m then i else i + 1);
    }
  }

  lemma SplitTail<T>(list: seq<T>, p: nat, x: T)
    requires p < |list|
    ensures list[..p + 1] + [x] + list[p + 1..] == [list[0]] + (list[1..][..p] + [x] + list[1..][p..])
  {
  }

  lemma {:induction false} InsertIs(side: Side, list: seq<OrderState>, o: OrderState) returns (p: nat)
    requires forall m, n :: 0 <= m < n < |list| ==> Key(side, list[m].price) <= Key(side, list[n].price)
    ensures p <= |list| && Insert(side, list, o) == list[..p] + [o] + list[p..]
    ensures forall i :: 0 <= i < p ==> Key(side, list[i].price) <= Key(side, o.price)
    ensures forall i :: p <= i < |list| ==> Key(side, o.price) < Key(side, list[i].price)
    decreases |list|
  {
    if list == [] || Key(side, o.price) < Key(side, list[0].price) {
      p := 0;
      assert list[..0] + [o] + list[0..] == [o] + list;
    } else {
      var k := InsertIs(side, list[1..], o);
      p := k + 1;
      SplitTail(list, k, o);
      hide Key;
      assert forall i :: 1 <= i < |list| ==> list[i] == list[1..][i - 1];
    }
  }

  /** Inserting t behind what is ahead of it and in front of the rest keeps all pairs ordered. */
  lemma InsertMiddle(side: Side, acc: seq<OrderState>, list: seq<OrderState>, p: nat, t: OrderState)
    requires Arranged(side, acc, list) && p <= |list| && t.id in Ids(acc)
    requires forall i :: 0 <= i < p ==> Ahead(side, acc, list[i], t)
    requires forall i :: p <= i < |list| ==> Ahead(side, acc, t, list[i])
    ensures Arranged(side, acc, list[..p] + [t] + list[p..])
  {
    hide Ahead, Ids;
    var list' := list[..p] + [t] + list[p..];
    assert forall m :: 0 <= m < |list'| ==> list'[m] == if m == p then t else list[if m < p then m else m - 1];
  }

  /** A newly accepted order goes behind everything at its price: it arrived last. */
  lemma InsertArranged(side: Side, accepted: seq<OrderState>, list: seq<OrderState>, o: OrderState, t: OrderState)
    requires Arranged(side, accepted, list) && t.id == o.id && t.price == o.price
    ensures Arranged(side, accepted + [o], Insert(side, list, t))
  {
    ArrangedSorted(side, accepted, list);
    var p := InsertIs(side, list, t);
    ArrangedGrows(side, accepted, list, o);
    var acc := accepted + [o];
    IdsConcat(accepted, [o]);
    IdsOne(o);
    hide Ids, Before, Insert;
    forall m | 0 <= m < p ensures Ahead(side, acc, list[m], t) {
      BeforeGrows(accepted, o, list[m].id, o.id);
    }
    hide Arranged;
    InsertMiddle(side, acc, list, p, t);
  }

  lemma ArrangedSorted(side: Side, accepted: seq<OrderState>, list: seq<OrderState>)
    requires Arranged(side, accepted, list)
    ensures forall m, n :: 0 <= m < n < |list| ==> Key(side, list[m].price) <= Key(side, list[n].price)
  {
    forall m, n | 0 <= m < n < |list| ensures Key(side, list[m].price) <= Key(side, list[n].price) {
      assert Ahead(side, accepted, list[m], list[n]);
    }
  }

  // ---------------------------------------------------------------- sessions

  lemma PlaceArrival(s: Session, o: OrderState)
    requires EngineOk(s.engine) && o.filled == 0 && Accepts(s.engine, o) && ArrivalOk(s)
    requires BookOk(s.engine.books[o.symbol]) && Incoming(s.engine.books[o.symbol], o) && o.id !in s.engine.usedIds
    ensures ArrivalOk(AfterPlace(s, o))
  {
    hide EngineOk, BookOk, AddOrder, Flatten, Arranged, Ids, Distinct, Accepts, Incoming, Outcome;
    AcceptsKnown(s.engine, o);
    var b, opp := s.engine.books[o.symbol], Opposite(o.side);
    var r := AddOrder(s.engine.books[o.symbol], o);
    var acc := s.accepted + [o];
    PlaceFlat(b, o);
    IdsConcat(s.accepted, [o]);
    IdsOne(o);
    DistinctAdd(s.accepted, o);
    forall symbol, side | symbol in s.engine.books
      ensures Arranged(side, acc, Flatten(Place(s.engine, o).engine.books[symbol].Levels(side)))
    {
      var list := Flatten(s.engine.books[symbol].Levels(side));
      assert Arranged(side, s.accepted, list);
      ArrangedGrows(side, s.accepted, list, o);
      if symbol == o.symbol {
        if side == opp {
          ConsumedArranged(opp, Limit(o), list, o.quantity, b.symbol, o.id, Outcome(b, o), acc);
        } else {
          InsertArranged(side, s.accepted, list, o, r.order);
        }
      }
    }
  }

  lemma DistinctAdd(list: seq<OrderState>, o: OrderState)
    requires Distinct(list) && o.id !in Ids(list)
    ensures Distinct(list + [o])
  {
    forall i | 0 <= i < |list| ensures list[i].id != o.id { InIds(list, i); }
  }

  lemma CancelArrival(s: Session, e: EngineState, symbol: Symbol, id: OrderId)
    requires EngineOk(s.engine) && e == s.engine.(processed := e.processed) && ArrivalOk(s)
    ensures ArrivalOk(AfterCancel(s, e, symbol, id))
  {
    hide EngineOk, BookOk, BookOf, CancelOrder, Flatten, Arranged, Ids, Distinct, Without, Picked;
    if symbol in e.books {
      BookIn(s.engine, symbol);
      var b := e.books[symbol];
      CancelRefines(b, id);
      assert Abs(CancelOrder(b, id).0) == FlatCancel(Abs(b), id);
      assert Arranged(BUY, s.accepted, Flatten(b.Levels(BUY))) && Arranged(SELL, s.accepted, Flatten(b.Levels(SELL)));
      WithoutArranged(BUY, s.accepted, Flatten(b.bids), id);
      WithoutArranged(SELL, s.accepted, Flatten(b.asks), id);
    }
  }

  lemma AfterArrival(s: Session, r: Request)
    requires EngineOk(s.engine) && Fresh(r) && ArrivalOk(s)
    ensures ArrivalOk(After(s, r))
  {
    hide EngineOk, BooksOk, BookOk, BookOf, CancelOrder, AddOrder, Arranged, Ids, Distinct, AfterCancel, AfterPlace, Accepts;
    match r
    case Register(symbol) =>
      FlattenEmpty();
      EmptyArranged(s.accepted);
    case Cancel(symbol, id) => CancelArrival(s, s.engine, symbol, id);
    case Submit(o) =>
      BooksOkOf(s.engine);
      if o.kind == CANCEL {
        CancelArrival(s, s.engine.(processed := s.engine.processed + 1), o.symbol, o.id);
      } else if Accepts(s.engine, o) {
        AcceptsKnown(s.engine, o);
        AcceptedIncoming(s.engine, o);
        PlaceArrival(s, o);
      } else {
        SubmitRejected(s.engine, o);
      }
  }

  lemma EmptyArranged(accepted: seq<OrderState>)
    ensures Arranged(BUY, accepted, []) && Arranged(SELL, accepted, [])
  {
  }

  lemma {:induction false} RunArrival(rs: seq<Request>)
    requires AllFresh(rs)
    ensures ArrivalOk(Run(rs))
    decreases |rs|
  {
    hide EngineOk, ArrivalOk;
    if rs == [] {
      StartArrival();
    } else {
      RunArrival(rs[..|rs| - 1]);
      AfterArrival(Run(rs[..|rs| - 1]), rs[|rs| - 1]);
    }
  }

  lemma StartArrival()
    ensures ArrivalOk(START)
  {
  }

  /** Priority over runs: when trade j of a request has maker y, every order x on the same side
      with priority over y (better price, or same price and accepted earlier) that rested when
      the request came was completely filled by an earlier trade of the same request. */
  lemma PriorityKept(rs: seq<Request>, r: Request, j: nat, x: OrderState, y: OrderState)
    requires AllFresh(rs) && Fresh(r) && j < |NewTrades(Run(rs), r)|
    requires NewTrades(Run(rs), r)[j].maker == y.id
    requires r.Submit? && r.order.symbol in Run(rs).engine.books
    requires var list := Flatten(Run(rs).engine.books[r.order.symbol].Levels(Opposite(r.order.side)));
      x in list && y in list && Ahead(Opposite(r.order.side), Run(rs).accepted, x, y)
    ensures exists i :: 0 <= i < j && NewTrades(Run(rs), r)[i].maker == x.id && NewTrades(Run(rs), r)[i].quantity == x.Rem()
  {
    var s, o := Run(rs), r.order;
    RunArrival(rs);
    hide EngineOk, BooksOk, BookOk, Flatten, Outcome, NewTrades, Accepts, Incoming, Consumed, Arranged, Run, Ahead;
    TradesServe(s, r);
    var b, opp := s.engine.books[o.symbol], Opposite(o.side);
    var list := Flatten(b.Levels(opp));
    ServedFirst(opp, Limit(o), list, o.quantity, b.symbol, o.id, Outcome(b, o), s.accepted, j, x, y);
  }

  lemma ServedFirst(opp: Side, limit: Option<Price>, list: seq<OrderState>, left: int, symbol: Symbol, taker: OrderId,
                    g: Fills, accepted: seq<OrderState>, j: nat, x: OrderState, y: OrderState)
    requires Consumed(opp, limit, list, left, symbol, taker, g) && Distinct(list)
    requires Arranged(opp, accepted, list) && Distinct(accepted)
    requires j < |g.trades| && g.trades[j].maker == y.id
    requires x in list && y in list && Ahead(opp, accepted, x, y)
    ensures exists i :: 0 <= i < j && g.trades[i].maker == x.id && g.trades[i].quantity == x.Rem()
  {
    var m :| 0 <= m < |list| && list[m] == x;
    var n :| 0 <= n < |list| && list[n] == y;
    AheadAsymmetric(opp, accepted, x, y);
    hide Ahead;
    assert Serves(opp, limit, list[j], symbol, taker, g.trades[j]);
    assert n == j;
    assert m < n;
    assert Whole(list[m], g.trades[m], g.done[m]);
    assert Serves(opp, limit, list[m], symbol, taker, g.trades[m]);
  }

  lemma AheadAsymmetric(side: Side, accepted: seq<OrderState>, x: OrderState, y: OrderState)
    requires Distinct(accepted) && Ahead(side, accepted, x, y)
    ensures !Ahead(side, accepted, y, x) && x != y
  {
    if x.price == y.price { BeforeAsymmetric(accepted, x.id, y.id); }
  }
}
