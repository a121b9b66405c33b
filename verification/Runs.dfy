/** Runs of the engine over arbitrary request streams, with the history the laws speak about. */
module Runs {
  import opened Types
  import opened Matching
  import opened PriceTime
  import opened Refinement
  import opened Engine

  datatype Request = Register(symbol: Symbol) | Submit(order: OrderState) | Cancel(symbol: Symbol, id: OrderId)

  /** The engine and its history: all trades, the orders recorded as accepted, and the last
      state of every accepted order that no longer rests: completely filled, cancelled from
      the book, or discarded with a remainder because its type never rests. */
  datatype Session = Session(engine: EngineState, log: seq<Trade>, accepted: seq<OrderState>,
                             filled: seq<OrderState>, cancelled: seq<OrderState>, discarded: seq<OrderState>)

  const START: Session := Session(EMPTY, [], [], [], [], [])

  /** A submitted order carries no fill yet. */
  predicate Fresh(r: Request) {
    r.Submit? ==> r.order.filled == 0
  }

  ghost predicate AllFresh(rs: seq<Request>) {
    forall i :: 0 <= i < |rs| ==> Fresh(rs[i])
  }

  function Pick(list: seq<OrderState>, id: OrderId): seq<OrderState> {
    if list == [] then [] else if list[0].id == id then [list[0]] else Pick(list[1..], id)
  }

  function Picked(e: EngineState, symbol: Symbol, id: OrderId): seq<OrderState> {
    if symbol !in e.books then []
    else Pick(Flatten(e.books[symbol].bids), id) + Pick(Flatten(e.books[symbol].asks), id)
  }

  function AfterCancel(s: Session, e: EngineState, symbol: Symbol, id: OrderId): Session {
    s.(engine := CancelById(e, symbol, id).0, cancelled := s.cancelled + Picked(e, symbol, id))
  }

  function AfterPlace(s: Session, o: OrderState): Session
    requires o.symbol in s.engine.books && BookOk(s.engine.books[o.symbol]) && Incoming(s.engine.books[o.symbol], o)
  {
    var r := AddOrder(s.engine.books[o.symbol], o);
    Session(Place(s.engine, o).engine, s.log + r.trades, s.accepted + [o],
            s.filled + (r.done + if r.order.IsFilled() then [r.order] else []),
            s.cancelled,
            s.discarded + if !r.order.IsFilled() && o.kind != LIMIT then [r.order] else [])
  }

  function After(s: Session, r: Request): Session
    requires BooksOk(s.engine) && Fresh(r)
  {
    match r
    case Register(symbol) => s.(engine := RegisterSymbol(s.engine, symbol))
    case Cancel(symbol, id) => AfterCancel(s, s.engine, symbol, id)
    case Submit(o) =>
      if o.kind == CANCEL then AfterCancel(s, s.engine.(processed := s.engine.processed + 1), o.symbol, o.id)
      else if Accepts(s.engine, o) then
        AcceptedIncoming(s.engine, o);
        AfterPlace(s, o)
      else s.(engine := SubmitOrder(s.engine, o).engine)
  }

  /** The history follows the engine's own submit operation. */
  lemma AfterIsEngine(s: Session, o: OrderState)
    requires BooksOk(s.engine) && o.filled == 0
    ensures After(s, Submit(o)).engine == SubmitOrder(s.engine, o).engine
    ensures After(s, Submit(o)).log == s.log + SubmitOrder(s.engine, o).response.trades
  {
    if Accepts(s.engine, o) { SubmitAccepted(s.engine, o); }
    hide BooksOk, BookOk, BookOf, AddOrder, CancelOrder;
  }

  function Run(rs: seq<Request>): (s: Session)
    requires AllFresh(rs)
    ensures EngineOk(s.engine)
  {
    if rs == [] then START
    else
      var s := Run(rs[..|rs| - 1]);
      AfterKeeps(s, rs[|rs| - 1]);
      After(s, rs[|rs| - 1])
  }

  lemma AfterKeeps(s: Session, r: Request)
    requires EngineOk(s.engine) && Fresh(r)
    ensures EngineOk(After(s, r).engine)
  {
    match r
    case Register(symbol) => RegisterKeeps(s.engine, symbol);
    case Cancel(symbol, id) => CancelKeeps(s.engine, symbol, id);
    case Submit(o) =>
      SubmitKeeps(s.engine, o);
      AfterIsEngine(s, o);
  }

  /** The strong book invariant holds in every book after every run. */
  lemma EveryBookOk(rs: seq<Request>, symbol: Symbol)
    requires AllFresh(rs) && symbol in Run(rs).engine.books
    ensures BookOk(Run(rs).engine.books[symbol])
    ensures symbol in Run(rs).engine.symbols
  {
    var e := Run(rs).engine;
    assert BookOf(e.books[symbol], symbol, e.usedIds);
  }

  // ---------------------------------------------------------------- sums over histories

  ghost function Total<T(!new)>(xs: seq<T>, w: T -> int): int {
    if xs == [] then 0 else w(xs[0]) + Total(xs[1..], w)
  }

  lemma {:induction false} TotalConcat<T(!new)>(a: seq<T>, b: seq<T>, w: T -> int)
    ensures Total(a + b, w) == Total(a, w) + Total(b, w)
    decreases |a|
  {
    if a == [] {
      assert a + b == b;
    } else {
      assert (a + b)[0] == a[0] && (a + b)[1..] == a[1..] + b;
      TotalConcat(a[1..], b, w);
    }
  }

  lemma {:induction false} TotalZero<T(!new)>(a: seq<T>, w: T -> int)
    requires forall i :: 0 <= i < |a| ==> w(a[i]) == 0
    ensures Total(a, w) == 0
    decreases |a|
  {
    if a != [] { TotalZero(a[1..], w); }
  }

  lemma TotalOne<T(!new)>(x: T, w: T -> int)
    ensures Total([x], w) == w(x)
  {
  }

  /** The quantity a trade moves for an order, as maker or as taker. */
  ghost function NamedIn(id: OrderId): Trade -> int {
    (t: Trade) => if t.maker == id || t.taker == id then t.quantity else 0
  }

  ghost function Named(log: seq<Trade>, id: OrderId): int {
    Total(log, NamedIn(id))
  }

  // ---------------------------------------------------------------- one placement on the flat lists

  /** The reference outcome of placing o on the book of its symbol. */
  function Outcome(b: BookState, o: OrderState): (g: Fills)
    requires BookOk(b) && Incoming(b, o)
    ensures 0 <= g.left <= o.quantity
  {
    BookLive(b);
    GreedyLeft(Opposite(o.side), Limit(o), Abs(b).List(Opposite(o.side)), o.quantity, b.symbol, o.id);
    Matched(Abs(b), o, CanFill(b, o))
  }

  /** Everything a placement does, in terms of the flat lists. */
  lemma PlaceFlat(b: BookState, o: OrderState)
    requires BookOk(b) && Incoming(b, o)
    ensures var r := AddOrder(b, o);
      var g := Outcome(b, o);
      var opp := Opposite(o.side);
      && Consumed(opp, Limit(o), Flatten(b.Levels(opp)), o.quantity, b.symbol, o.id, g)
      && r.trades == g.trades && r.done == g.done
      && r.order == o.(filled := o.quantity - g.left, status := r.order.status)
      && Flatten(r.book.Levels(opp)) == g.list
      && Flatten(r.book.Levels(o.side)) == (if o.kind == LIMIT && g.left > 0
           then Insert(o.side, Flatten(b.Levels(o.side)), r.order) else Flatten(b.Levels(o.side)))
  {
    hide BookOk, AddOrder, Flatten, Consumed, Greedy, Insert, Live;
    AddOrderRefines(b, o);
    var opp := Opposite(o.side);
    OutcomeConsumes(b, o);
    var g := Outcome(b, o);
    var f := FlatAdd(Abs(b), o, CanFill(b, o));
    assert f.order == o.(filled := o.quantity - g.left, status := f.order.status);
  }

  lemma OutcomeConsumes(b: BookState, o: OrderState)
    requires BookOk(b) && Incoming(b, o)
    ensures var opp := Opposite(o.side);
      Consumed(opp, Limit(o), Flatten(b.Levels(opp)), o.quantity, b.symbol, o.id, Outcome(b, o))
  {
    hide BookOk, Flatten, Greedy, Serves, Whole, Live;
    BookLive(b);
    var opp := Opposite(o.side);
    GreedyIsFair(opp, Limit(o), Abs(b).List(opp), o.quantity, b.symbol, o.id);
    var list := Flatten(b.Levels(opp));
    assert list[0..] == list;
  }
}
