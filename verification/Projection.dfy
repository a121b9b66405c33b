/** Symbols do not influence each other: a symbol's book and trades in a mixed run are those of
    the run of its own requests alone, although the used-id set is shared. */
module Projection {
  import opened Types
  import opened Matching
  import opened PriceTime
  import opened Refinement
  import opened Engine
  import opened Runs
  import opened Ledger
  import opened Lifecycle
  import opened Priority

  function SymbolOf(r: Request): Symbol {
    match r
    case Register(s) => s
    case Cancel(s, _) => s
    case Submit(o) => o.symbol
  }

  /** The requests of one symbol, in order. */
  function Only(rs: seq<Request>, symbol: Symbol): seq<Request> {
    if rs == [] then []
    else Only(rs[..|rs| - 1], symbol) + if SymbolOf(rs[|rs| - 1]) == symbol then [rs[|rs| - 1]] else []
  }

  function TradesOf(log: seq<Trade>, symbol: Symbol): seq<Trade> {
    if log == [] then []
    else (if log[0].symbol == symbol then [log[0]] else []) + TradesOf(log[1..], symbol)
  }

  /** The accepted orders of one symbol, in order. */
  function AcceptedOf(accepted: seq<OrderState>, symbol: Symbol): seq<OrderState> {
    if accepted == [] then []
    else
      var n := |accepted| - 1;
      AcceptedOf(accepted[..n], symbol) + if accepted[n].symbol == symbol then [accepted[n]] else []
  }

  /** The id belongs to an order that was accepted on another symbol. */
  ghost predicate TakenElsewhere(accepted: seq<OrderState>, symbol: Symbol, id: OrderId) {
    exists k :: 0 <= k < |accepted| && accepted[k].id == id && accepted[k].symbol != symbol
  }

  /** An order of the symbol with nothing wrong but its id, which was accepted elsewhere first. */
  ghost predicate Clash(s: Session, r: Request, symbol: Symbol) {
    && r.Submit? && r.order.kind != CANCEL && r.order.symbol == symbol
    && Validate(s.engine.symbols, {}, r.order) == NO_REASON
    && TakenElsewhere(s.accepted, symbol, r.order.id)
  }

  /** The mixed session s and the session p of the symbol's own requests have the same book and
      the same trades of the symbol. */
  ghost predicate SameBook(s: Session, p: Session, symbol: Symbol) {
    && (symbol in s.engine.books <==> symbol in p.engine.books)
    && (symbol in s.engine.books ==> s.engine.books[symbol] == p.engine.books[symbol])
    && TradesOf(s.log, symbol) == p.log
  }

  /** They agree about its accepted orders as well. */
  ghost predicate Agree(s: Session, p: Session, symbol: Symbol) {
    SameBook(s, p, symbol) && AcceptedOf(s.accepted, symbol) == p.accepted
  }

  /** The validator's ids are those of the accepted orders, which are all different. */
  ghost predicate Recorded(s: Session) {
    Distinct(s.accepted) && Ids(s.accepted) == s.engine.usedIds
  }

  lemma RunRecorded(rs: seq<Request>)
    requires AllFresh(rs)
    ensures Recorded(Run(rs))
  {
    hide Arranged, Distinct, Ids, Run;
    RunArrival(rs);
  }

  lemma {:induction false} TradesOfConcat(a: seq<Trade>, b: seq<Trade>, symbol: Symbol)
    ensures TradesOf(a + b, symbol) == TradesOf(a, symbol) + TradesOf(b, symbol)
    decreases |a|
  {
    if a == [] {
      assert a + b == b;
    } else {
      assert (a + b)[0] == a[0] && (a + b)[1..] == a[1..] + b;
      TradesOfConcat(a[1..], b, symbol);
      var front := if a[0].symbol == symbol then [a[0]] else [];
      assert TradesOf(a + b, symbol) == front + TradesOf(a[1..] + b, symbol);
      assert TradesOf(a, symbol) == front + TradesOf(a[1..], symbol);
      hide TradesOf;
      Assoc(front, TradesOf(a[1..], symbol), TradesOf(b, symbol));
    }
  }

  lemma {:induction false} TradesOfAll(a: seq<Trade>, of: Symbol, symbol: Symbol)
    requires forall i :: 0 <= i < |a| ==> a[i].symbol == of
    ensures TradesOf(a, symbol) == if of == symbol then a else []
    decreases |a|
  {
    if a != [] { TradesOfAll(a[1..], of, symbol); }
  }

  lemma ServedSymbol(side: Side, limit: Option<Price>, list: seq<OrderState>, q: Quantity, symbol: Symbol, taker: OrderId, g: Fills)
    requires Consumed(side, limit, list, q, symbol, taker, g)
    ensures forall i :: 0 <= i < |g.trades| ==> g.trades[i].symbol == symbol
  {
    forall i | 0 <= i < |g.trades| ensures g.trades[i].symbol == symbol {
      assert Serves(side, limit, list[i], symbol, taker, g.trades[i]);
    }
  }

  /** The trades of a request carry its symbol. */
  lemma NewTradesSymbol(s: Session, r: Request)
    requires EngineOk(s.engine) && Fresh(r)
    ensures forall i :: 0 <= i < |NewTrades(s, r)| ==> NewTrades(s, r)[i].symbol == SymbolOf(r)
  {
    hide EngineOk, BooksOk, BookOk, Flatten, Outcome, NewTrades, Consumed, Accepts, Follows, Distinct, Ids;
    BooksOkOf(s.engine);
    if NewTrades(s, r) != [] {
      TradesServe(s, r);
      AcceptsKnown(s.engine, r.order);
      var o, b := r.order, s.engine.books[r.order.symbol];
      ServedSymbol(Opposite(o.side), Limit(o), Flatten(b.Levels(Opposite(o.side))), o.quantity, b.symbol, o.id, Outcome(b, o));
    }
  }

  // ---------------------------------------------------------------- accepted orders of a symbol

  lemma {:induction false} AcceptedOfMembers(accepted: seq<OrderState>, symbol: Symbol)
    ensures forall k :: 0 <= k < |accepted| && accepted[k].symbol == symbol ==> accepted[k] in AcceptedOf(accepted, symbol)
    ensures forall x :: x in AcceptedOf(accepted, symbol) ==> x in accepted && x.symbol == symbol
    decreases |accepted|
  {
    if accepted != [] {
      var n := |accepted| - 1;
      AcceptedOfMembers(accepted[..n], symbol);
      assert accepted == accepted[..n] + [accepted[n]];
    }
  }

  lemma AcceptedOfAppend(accepted: seq<OrderState>, o: OrderState, symbol: Symbol)
    ensures AcceptedOf(accepted + [o], symbol) == AcceptedOf(accepted, symbol) + if o.symbol == symbol then [o] else []
  {
    assert (accepted + [o])[..|accepted|] == accepted;
  }

  /** Which orders a request adds to the accepted ones. */
  lemma NewAccepted(s: Session, r: Request)
    requires EngineOk(s.engine) && Fresh(r)
    ensures After(s, r).accepted == s.accepted + if r.Submit? && Accepts(s.engine, r.order) then [r.order] else []
  {
    hide EngineOk, BooksOk, BookOk, BookOf, AddOrder, CancelOrder, Place;
    BooksOkOf(s.engine);
    assert s.accepted + [] == s.accepted;
    if r.Submit? && Accepts(s.engine, r.order) { AcceptedIncoming(s.engine, r.order); }
  }

  lemma NewAcceptedOf(s: Session, r: Request, symbol: Symbol)
    requires EngineOk(s.engine) && Fresh(r)
    ensures AcceptedOf(After(s, r).accepted, symbol)
      == AcceptedOf(s.accepted, symbol) + if r.Submit? && Accepts(s.engine, r.order) && r.order.symbol == symbol then [r.order] else []
  {
    hide EngineOk, After, Accepts, AcceptedOf;
    NewAccepted(s, r);
    if r.Submit? { AcceptedOfAppend(s.accepted, r.order, symbol); }
    assert s.accepted + [] == s.accepted && AcceptedOf(s.accepted, symbol) + [] == AcceptedOf(s.accepted, symbol);
  }

  lemma TakenGrows(a: seq<OrderState>, b: seq<OrderState>, symbol: Symbol, id: OrderId)
    requires TakenElsewhere(a, symbol, id)
    ensures TakenElsewhere(a + b, symbol, id)
  {
    var k :| 0 <= k < |a| && a[k].id == id && a[k].symbol != symbol;
    assert (a + b)[k] == a[k];
  }

  // ---------------------------------------------------------------- one request

  /** A request changes only its own symbol's book. */
  lemma Local(s: Session, r: Request, symbol: Symbol)
    requires EngineOk(s.engine) && Fresh(r) && SymbolOf(r) != symbol
    ensures var e' := After(s, r).engine;
      && (symbol in e'.books <==> symbol in s.engine.books)
      && (symbol in e'.books ==> e'.books[symbol] == s.engine.books[symbol])
      && s.engine.usedIds <= e'.usedIds
  {
    hide EngineOk, BooksOk, BookOk, BookOf, AddOrder, CancelOrder;
    BooksOkOf(s.engine);
    if r.Submit? && r.order.kind != CANCEL && !Accepts(s.engine, r.order) { SubmitRejected(s.engine, r.order); }
  }

  lemma OtherSymbol(s: Session, p: Session, r: Request, symbol: Symbol)
    requires EngineOk(s.engine) && Fresh(r) && SymbolOf(r) != symbol
    ensures SameBook(s, p, symbol) ==> SameBook(After(s, r), p, symbol)
    ensures Agree(s, p, symbol) ==> Agree(After(s, r), p, symbol)
  {
    hide EngineOk, BooksOk, After, NewTrades, TradesOf, AcceptedOf;
    BooksOkOf(s.engine);
    Local(s, r, symbol);
    LogGrows(s, r);
    NewTradesSymbol(s, r);
    TradesOfConcat(s.log, NewTrades(s, r), symbol);
    TradesOfAll(NewTrades(s, r), SymbolOf(r), symbol);
    NewAcceptedOf(s, r, symbol);
    assert TradesOf(s.log, symbol) + [] == TradesOf(s.log, symbol);
    assert AcceptedOf(s.accepted, symbol) + [] == AcceptedOf(s.accepted, symbol);
  }

  /** A request of the symbol that both engines judge alike has the same effect on its book. */
  lemma SameEffect(s: Session, p: Session, r: Request, symbol: Symbol)
    requires EngineOk(s.engine) && EngineOk(p.engine) && Fresh(r) && SameBook(s, p, symbol) && SymbolOf(r) == symbol
    requires r.Submit? ==> (Accepts(s.engine, r.order) <==> Accepts(p.engine, r.order))
    ensures var e, f := After(s, r).engine, After(p, r).engine;
      && (symbol in e.books <==> symbol in f.books)
      && (symbol in e.books ==> e.books[symbol] == f.books[symbol])
      && NewTrades(s, r) == NewTrades(p, r)
  {
    hide EngineOk, BooksOk, BookOk, BookOf, AddOrder, CancelOrder, TradesOf, AcceptedOf;
    BooksOkOf(s.engine);
    BooksOkOf(p.engine);
    if r.Submit? && r.order.kind != CANCEL {
      if Accepts(s.engine, r.order) {
        SubmitAccepted(s.engine, r.order);
        SubmitAccepted(p.engine, r.order);
        hide SubmitOrder;
      } else {
        SubmitRejected(s.engine, r.order);
        SubmitRejected(p.engine, r.order);
        hide SubmitOrder;
      }
    }
  }

  lemma SameVerdict(s: Session, p: Session, r: Request, symbol: Symbol)
    requires EngineOk(s.engine) && EngineOk(p.engine) && Fresh(r) && SameBook(s, p, symbol) && SymbolOf(r) == symbol
    requires r.Submit? ==> (Accepts(s.engine, r.order) <==> Accepts(p.engine, r.order))
    ensures SameBook(After(s, r), After(p, r), symbol)
  {
    hide EngineOk, BooksOk, NewTrades, TradesOf, After, Accepts;
    BooksOkOf(s.engine);
    BooksOkOf(p.engine);
    SameEffect(s, p, r, symbol);
    LogGrows(s, r);
    LogGrows(p, r);
    NewTradesSymbol(s, r);
    TradesOfConcat(s.log, NewTrades(s, r), symbol);
    TradesOfAll(NewTrades(s, r), symbol, symbol);
  }

  // ---------------------------------------------------------------- runs

  lemma {:induction false} OnlyFresh(rs: seq<Request>, symbol: Symbol)
    requires AllFresh(rs)
    ensures AllFresh(Only(rs, symbol))
    decreases |rs|
  {
    if rs != [] { OnlyFresh(rs[..|rs| - 1], symbol); }
  }

  lemma StartAgrees(symbol: Symbol)
    ensures Agree(START, START, symbol)
  {
  }

  /** The run of the symbol's own requests. */
  ghost function OwnRun(rs: seq<Request>, symbol: Symbol): (p: Session)
    requires AllFresh(rs)
    ensures EngineOk(p.engine)
  {
    OnlyFresh(rs, symbol);
    Run(Only(rs, symbol))
  }

  lemma OwnRunStep(rs: seq<Request>, r: Request, symbol: Symbol)
    requires AllFresh(rs) && Fresh(r)
    ensures AllFresh(rs + [r]) && BooksOk(Run(rs).engine) && BooksOk(OwnRun(rs, symbol).engine)
    ensures Run(rs + [r]) == After(Run(rs), r)
    ensures OwnRun(rs + [r], symbol) == if SymbolOf(r) == symbol then After(OwnRun(rs, symbol), r) else OwnRun(rs, symbol)
  {
    hide EngineOk, BooksOk, After;
    var own := Only(rs, symbol);
    OnlyFresh(rs, symbol);
    BooksOkOf(Run(rs).engine);
    BooksOkOf(Run(own).engine);
    assert (rs + [r])[..|rs|] == rs && (own + [r])[..|own|] == own && own + [] == own;
  }

  /** The ids with which orders of the symbol have clashed. */
  ghost function Clashed(rs: seq<Request>, symbol: Symbol): set<OrderId>
    requires AllFresh(rs)
  {
    if rs == [] then {}
    else
      var n := |rs| - 1;
      Clashed(rs[..n], symbol) + NewClash(Run(rs[..n]), rs[n], symbol)
  }

  ghost function NewClash(s: Session, r: Request, symbol: Symbol): set<OrderId> {
    if Clash(s, r, symbol) then {r.order.id} else {}
  }

  /** The symbol's own run has accepted its orders of the mixed run and those that clashed. */
  ghost predicate Tracks(s: Session, p: Session, symbol: Symbol, clashed: set<OrderId>) {
    && (symbol in s.engine.books <==> symbol in p.engine.books)
    && Ids(p.accepted) == Ids(AcceptedOf(s.accepted, symbol)) + clashed
    && forall id :: id in clashed ==> TakenElsewhere(s.accepted, symbol, id)
  }

  lemma NewBooks(s: Session, r: Request, symbol: Symbol)
    requires EngineOk(s.engine) && Fresh(r)
    ensures BooksOk(s.engine)
    ensures symbol in After(s, r).engine.books <==> symbol in s.engine.books || r == Register(symbol)
  {
    hide EngineOk, BooksOk, BookOk, BookOf, AddOrder, CancelOrder;
    BooksOkOf(s.engine);
    if r.Submit? && r.order.kind != CANCEL && !Accepts(s.engine, r.order) { SubmitRejected(s.engine, r.order); }
  }

  lemma OwnIds(accepted: seq<OrderState>, symbol: Symbol, id: OrderId)
    requires Distinct(accepted)
    ensures id in Ids(accepted) <==> id in Ids(AcceptedOf(accepted, symbol)) || TakenElsewhere(accepted, symbol, id)
    ensures TakenElsewhere(accepted, symbol, id) ==> id !in Ids(AcceptedOf(accepted, symbol))
  {
    AcceptedOfMembers(accepted, symbol);
    var own := AcceptedOf(accepted, symbol);
    hide AcceptedOf;
    if id in Ids(own) {
      var k :| 0 <= k < |own| && own[k].id == id;
      assert own[k] in accepted;
    }
    if id in Ids(accepted) && !TakenElsewhere(accepted, symbol, id) {
      var k :| 0 <= k < |accepted| && accepted[k].id == id;
      assert accepted[k] in own;
    }
  }

  lemma SymbolsHaveBooks(e: EngineState)
    requires EngineOk(e)
    ensures e.symbols == e.books.Keys
  {
  }

  /** How the two engines judge a request of the symbol. */
  lemma Judged(s: Session, p: Session, r: Request, symbol: Symbol, clashed: set<OrderId>)
    requires EngineOk(s.engine) && EngineOk(p.engine) && Recorded(s) && Recorded(p) && Tracks(s, p, symbol, clashed)
    requires r.Submit? && SymbolOf(r) == symbol
    ensures if Clash(s, r, symbol) then !Accepts(s.engine, r.order) && (Accepts(p.engine, r.order) <==> r.order.id !in clashed)
            else Accepts(s.engine, r.order) <==> Accepts(p.engine, r.order)
  {
    hide EngineOk, TakenElsewhere, AcceptedOf, Ids, Distinct;
    OwnIds(s.accepted, symbol, r.order.id);
    SymbolsHaveBooks(s.engine);
    SymbolsHaveBooks(p.engine);
  }

  lemma TracksOwn(s: Session, p: Session, r: Request, symbol: Symbol, clashed: set<OrderId>)
    requires EngineOk(s.engine) && EngineOk(p.engine) && Fresh(r) && SymbolOf(r) == symbol
    requires Recorded(s) && Recorded(p) && Tracks(s, p, symbol, clashed)
    ensures BooksOk(s.engine) && BooksOk(p.engine)
    ensures Tracks(After(s, r), After(p, r), symbol, clashed + NewClash(s, r, symbol))
  {
    hide EngineOk, BooksOk, After, Accepts, Recorded, Ids, AcceptedOf, TakenElsewhere, Validate;
    NewBooks(s, r, symbol);
    NewBooks(p, r, symbol);
    NewAccepted(s, r);
    NewAccepted(p, r);
    NewAcceptedOf(s, r, symbol);
    var s', p' := After(s, r), After(p, r);
    forall id | id in clashed + NewClash(s, r, symbol) ensures TakenElsewhere(s'.accepted, symbol, id) {
      TakenGrows(s.accepted, s'.accepted[|s.accepted|..], symbol, id);
    }
    if r.Submit? {
      Judged(s, p, r, symbol, clashed);
      IdsConcat(p.accepted, [r.order]);
      IdsConcat(AcceptedOf(s.accepted, symbol), [r.order]);
      IdsOne(r.order);
    }
    assert p.accepted + [] == p.accepted && AcceptedOf(s.accepted, symbol) + [] == AcceptedOf(s.accepted, symbol);
  }

  lemma TracksOther(s: Session, p: Session, r: Request, symbol: Symbol, clashed: set<OrderId>)
    requires EngineOk(s.engine) && Fresh(r) && SymbolOf(r) != symbol && Tracks(s, p, symbol, clashed)
    ensures BooksOk(s.engine) && Tracks(After(s, r), p, symbol, clashed)
  {
    hide EngineOk, BooksOk, After, Accepts, Ids, AcceptedOf, TakenElsewhere;
    NewBooks(s, r, symbol);
    NewAccepted(s, r);
    NewAcceptedOf(s, r, symbol);
    var s' := After(s, r);
    forall id | id in clashed ensures TakenElsewhere(s'.accepted, symbol, id) {
      TakenGrows(s.accepted, s'.accepted[|s.accepted|..], symbol, id);
    }
    assert AcceptedOf(s.accepted, symbol) + [] == AcceptedOf(s.accepted, symbol);
  }

  lemma {:induction false} RunTracks(rs: seq<Request>, symbol: Symbol)
    requires AllFresh(rs)
    ensures Tracks(Run(rs), OwnRun(rs, symbol), symbol, Clashed(rs, symbol))
    decreases |rs|
  {
    hide EngineOk, BooksOk, After, Tracks, NewClash, Recorded, Run, OwnRun;
    if rs == [] {
      StartTracks(symbol);
    } else {
      var front, r := rs[..|rs| - 1], rs[|rs| - 1];
      assert rs == front + [r];
      RunTracks(front, symbol);
      OwnRunStep(front, r, symbol);
      RunRecorded(front);
      if SymbolOf(r) == symbol {
        OwnRecorded(front, symbol);
        TracksOwn(Run(front), OwnRun(front, symbol), r, symbol, Clashed(front, symbol));
      } else {
        TracksOther(Run(front), OwnRun(front, symbol), r, symbol, Clashed(front, symbol));
        NoNewClash(Run(front), r, symbol);
        assert Clashed(front, symbol) + {} == Clashed(front, symbol);
      }
    }
  }

  lemma OwnRecorded(rs: seq<Request>, symbol: Symbol)
    requires AllFresh(rs)
    ensures Recorded(OwnRun(rs, symbol))
  {
    OnlyFresh(rs, symbol);
    RunRecorded(Only(rs, symbol));
  }

  lemma StartTracks(symbol: Symbol)
    ensures Run([]) == OwnRun([], symbol) == START && Tracks(START, START, symbol, {}) && Clashed([], symbol) == {}
  {
  }

  // ---------------------------------------------------------------- accepted orders of a symbol in a run

  lemma AgreeOwn(s: Session, p: Session, r: Request, symbol: Symbol)
    requires EngineOk(s.engine) && EngineOk(p.engine) && Fresh(r) && SymbolOf(r) == symbol && Agree(s, p, symbol)
    requires Recorded(s) && Recorded(p) && Tracks(s, p, symbol, {}) && !Clash(s, r, symbol)
    ensures BooksOk(s.engine) && BooksOk(p.engine)
    ensures Agree(After(s, r), After(p, r), symbol)
  {
    hide EngineOk, BooksOk, SameBook, Tracks, AcceptedOf, After, Accepts, Recorded, Clash;
    BooksOkOf(s.engine);
    BooksOkOf(p.engine);
    if r.Submit? { Judged(s, p, r, symbol, {}); }
    SameVerdict(s, p, r, symbol);
    NewAccepted(p, r);
    NewAcceptedOf(s, r, symbol);
  }

  /** No order of the symbol clashes in the run. */
  ghost predicate ClashFree(rs: seq<Request>, symbol: Symbol)
    requires AllFresh(rs)
  {
    Clashed(rs, symbol) == {}
  }

  lemma {:induction false} ClashFreeAgree(rs: seq<Request>, symbol: Symbol)
    requires AllFresh(rs) && ClashFree(rs, symbol)
    ensures Agree(Run(rs), OwnRun(rs, symbol), symbol)
    decreases |rs|
  {
    hide EngineOk, BooksOk, After, Agree, Recorded, Tracks, Run, OwnRun, Clash;
    if rs == [] {
      StartTracks(symbol);
      StartAgrees(symbol);
    } else {
      var front, r := rs[..|rs| - 1], rs[|rs| - 1];
      assert rs == front + [r];
      assert !Clash(Run(front), r, symbol) && ClashFree(front, symbol);
      ClashFreeAgree(front, symbol);
      OwnRunStep(front, r, symbol);
      if SymbolOf(r) == symbol {
        RunTracks(front, symbol);
        RunRecorded(front);
        OwnRecorded(front, symbol);
        AgreeOwn(Run(front), OwnRun(front, symbol), r, symbol);
      } else {
        OtherSymbol(Run(front), OwnRun(front, symbol), r, symbol);
      }
    }
  }

  /** Where the accepted orders agree no id can have clashed. */
  lemma EqualUnclashed(s: Session, p: Session, symbol: Symbol, clashed: set<OrderId>)
    requires Recorded(s) && Tracks(s, p, symbol, clashed) && AcceptedOf(s.accepted, symbol) == p.accepted
    ensures clashed == {}
  {
    hide AcceptedOf, Ids, Distinct, TakenElsewhere;
    forall id | id in clashed ensures false {
      OwnIds(s.accepted, symbol, id);
    }
  }

  /** Running all requests or only one symbol's own requests accepts the same orders of the
      symbol if and only if no otherwise valid order of the symbol meets an id that another
      symbol was first to have accepted; and then its book and its trades are the same too. */
  lemma RunsProjectIff(rs: seq<Request>, symbol: Symbol)
    requires AllFresh(rs)
    ensures AcceptedOf(Run(rs).accepted, symbol) == OwnRun(rs, symbol).accepted <==> ClashFree(rs, symbol)
    ensures ClashFree(rs, symbol) ==> Agree(Run(rs), OwnRun(rs, symbol), symbol)
  {
    hide Run, OwnRun, Clashed, AcceptedOf, Recorded, Tracks;
    if ClashFree(rs, symbol) {
      ClashFreeAgree(rs, symbol);
    }
    if AcceptedOf(Run(rs).accepted, symbol) == OwnRun(rs, symbol).accepted {
      RunTracks(rs, symbol);
      RunRecorded(rs);
      EqualUnclashed(Run(rs), OwnRun(rs, symbol), symbol, Clashed(rs, symbol));
    }
  }

  // ---------------------------------------------------------------- orders that stir their book

  /** The order would rest, or trade, or both. */
  predicate Stirs(b: BookState, o: OrderState) {
    var opp := Opposite(o.side);
    || o.kind == LIMIT
    || (b.Levels(opp) != [] && Crosses(opp, Limit(o), b.Levels(opp)[0].price) && (o.kind == FOK ==> CanFill(b, o)))
  }

  lemma {:induction false} TradesGrow(side: Side, limit: Option<Price>, s: DrainState)
    requires Drainable(s)
    ensures |Drain(side, limit, s).trades| >= |s.trades|
    ensures CanStep(side, limit, s) ==> |Drain(side, limit, s).trades| > |s.trades|
    decreases s.taker.Rem()
  {
    hide BookOk, FillBook;
    DrainUnfolds(side, limit, s);
    if CanStep(side, limit, s) { TradesGrow(side, limit, Step(side, s)); }
  }

  /** A submission that does not stir its book is one that trades nothing and leaves it alone. */
  lemma StirsIff(b: BookState, o: OrderState)
    requires BookOk(b) && Incoming(b, o) && o.quantity > 0
    ensures Stirs(b, o) <==> AddOrder(b, o).book != b || AddOrder(b, o).trades != []
  {
    hide BookOk, Drain, Step, Scan, RestIn;
    var opp, t := Opposite(o.side), o.(status := ACCEPTED);
    var s := DrainState(b, t, [], []);
    DrainUnfolds(opp, Limit(o), s);
    TradesGrow(opp, Limit(o), s);
    if o.kind == LIMIT && !CanStep(opp, Limit(o), s) {
      assert o.id in AddOrder(b, o).book.index;
    }
    if o.kind == FOK && CanFill(b, o) { ScanReaches(opp, Limit(o), b.Levels(opp), o.quantity); }
  }

  lemma ScanReaches(side: Side, limit: Option<Price>, ls: seq<LevelState>, want: Quantity)
    requires want > 0 && Scan(side, limit, ls, want, 0) >= want
    ensures ls != [] && Crosses(side, limit, ls[0].price)
  {
  }

  // ---------------------------------------------------------------- books and trades of a symbol

  /** The first clash with an id, by an order that would stir the symbol's book. */
  ghost predicate Harm(s: Session, r: Request, symbol: Symbol, clashed: set<OrderId>) {
    Clash(s, r, symbol) && r.order.id !in clashed && symbol in s.engine.books && Stirs(s.engine.books[symbol], r.order)
  }

  ghost predicate HarmFree(rs: seq<Request>, symbol: Symbol)
    requires AllFresh(rs)
  {
    rs != [] ==> var n := |rs| - 1; HarmFree(rs[..n], symbol) && !Harm(Run(rs[..n]), rs[n], symbol, Clashed(rs[..n], symbol))
  }

  /** Book and trades of the symbol are the same in both runs after every request. */
  ghost predicate BooksAgree(rs: seq<Request>, symbol: Symbol)
    requires AllFresh(rs)
  {
    SameBook(Run(rs), OwnRun(rs, symbol), symbol) && (rs != [] ==> BooksAgree(rs[..|rs| - 1], symbol))
  }

  lemma NoNewClash(s: Session, r: Request, symbol: Symbol)
    requires SymbolOf(r) != symbol
    ensures NewClash(s, r, symbol) == {} && forall clashed :: !Harm(s, r, symbol, clashed)
  {
  }

  /** A clash that only the symbol's own run accepts. */
  lemma ClashStep(s: Session, p: Session, r: Request, symbol: Symbol)
    requires EngineOk(s.engine) && EngineOk(p.engine) && Fresh(r) && SameBook(s, p, symbol)
    requires Clash(s, r, symbol) && !Accepts(s.engine, r.order) && Accepts(p.engine, r.order)
    ensures BooksOk(s.engine) && BooksOk(p.engine) && symbol in s.engine.books
    ensures SameBook(After(s, r), After(p, r), symbol) <==> !Stirs(s.engine.books[symbol], r.order)
  {
    hide EngineOk, BooksOk, BookOk, BookOf, AddOrder, Incoming, TradesOf, TakenElsewhere, Stirs;
    BooksOkOf(s.engine);
    BooksOkOf(p.engine);
    var o := r.order;
    SubmitRejected(s.engine, o);
    AcceptsKnown(p.engine, o);
    AcceptedIncoming(p.engine, o);
    StirsIff(p.engine.books[symbol], o);
    var trades := AddOrder(p.engine.books[symbol], o).trades;
    assert p.log + trades == p.log ==> trades == [] by { assert |p.log + trades| == |p.log| + |trades|; }
    hide SubmitOrder;
  }

  lemma OwnStep(s: Session, p: Session, r: Request, symbol: Symbol, clashed: set<OrderId>)
    requires EngineOk(s.engine) && EngineOk(p.engine) && Fresh(r) && SymbolOf(r) == symbol
    requires Recorded(s) && Recorded(p) && Tracks(s, p, symbol, clashed) && SameBook(s, p, symbol)
    ensures BooksOk(s.engine) && BooksOk(p.engine)
    ensures SameBook(After(s, r), After(p, r), symbol) <==> !Harm(s, r, symbol, clashed)
  {
    hide EngineOk, BooksOk, SameBook, After, Accepts, Recorded, Tracks, Stirs, TakenElsewhere, Validate;
    BooksOkOf(s.engine);
    BooksOkOf(p.engine);
    if r.Submit? { Judged(s, p, r, symbol, clashed); }
    if Clash(s, r, symbol) && r.order.id !in clashed {
      ClashStep(s, p, r, symbol);
    } else {
      SameVerdict(s, p, r, symbol);
    }
  }

  /** The same for books and trades: they agree after every request if and only if no order of
      the symbol that is first to clash with an id would have rested or traded. */
  lemma {:induction false} BooksProjectIff(rs: seq<Request>, symbol: Symbol)
    requires AllFresh(rs)
    ensures BooksAgree(rs, symbol) <==> HarmFree(rs, symbol)
    decreases |rs|
  {
    hide EngineOk, BooksOk, After, SameBook, Harm, Recorded, Tracks, Run, OwnRun, Clashed;
    if rs == [] {
      StartTracks(symbol);
      assert SameBook(START, START, symbol) by { StartAgrees(symbol); }
    } else {
      var front, r := rs[..|rs| - 1], rs[|rs| - 1];
      assert rs == front + [r];
      BooksProjectIff(front, symbol);
      OwnRunStep(front, r, symbol);
      var s, p, clashed := Run(front), OwnRun(front, symbol), Clashed(front, symbol);
      if BooksAgree(front, symbol) {
        assert SameBook(s, p, symbol);
        if SymbolOf(r) == symbol {
          RunTracks(front, symbol);
          RunRecorded(front);
          OwnRecorded(front, symbol);
          OwnStep(s, p, r, symbol, clashed);
        } else {
          OtherSymbol(s, p, r, symbol);
          NoNewClash(s, r, symbol);
        }
      }
    }
  }

  // ---------------------------------------------------------------- ids of one symbol each

  predicate Orders(r: Request, id: OrderId) {
    r.Submit? && r.order.kind != CANCEL && r.order.id == id
  }

  /** No id is submitted on two symbols (cancels do not count). */
  ghost predicate OneSymbolPerId(rs: seq<Request>) {
    forall i, j, id :: 0 <= i < |rs| && 0 <= j < |rs| && Orders(rs[i], id) && Orders(rs[j], id) ==>
      SymbolOf(rs[i]) == SymbolOf(rs[j])
  }

  /** Some request submitted an order with this id on another symbol. */
  ghost predicate OrderedElsewhere(rs: seq<Request>, symbol: Symbol, id: OrderId) {
    exists i :: 0 <= i < |rs| && Orders(rs[i], id) && SymbolOf(rs[i]) != symbol
  }

  lemma TakenWasOrdered(rs: seq<Request>, symbol: Symbol, id: OrderId)
    requires AllFresh(rs) && TakenElsewhere(Run(rs).accepted, symbol, id)
    ensures OrderedElsewhere(rs, symbol, id)
  {
    hide Run;
    var k :| 0 <= k < |Run(rs).accepted| && Run(rs).accepted[k].id == id && Run(rs).accepted[k].symbol != symbol;
    var i := AcceptedSubmitted(rs, k);
  }

  /** Every accepted order was submitted. */
  lemma {:induction false} AcceptedSubmitted(rs: seq<Request>, k: nat) returns (i: nat)
    requires AllFresh(rs) && k < |Run(rs).accepted|
    ensures i < |rs| && rs[i] == Submit(Run(rs).accepted[k]) && Orders(rs[i], Run(rs).accepted[k].id)
    decreases |rs|
  {
    hide EngineOk, After;
    var n := |rs| - 1;
    NewAccepted(Run(rs[..n]), rs[n]);
    if k < |Run(rs[..n]).accepted| {
      i := AcceptedSubmitted(rs[..n], k);
    } else {
      i := n;
    }
  }

  lemma {:induction false} OneSymbolNoClash(rs: seq<Request>, symbol: Symbol)
    requires AllFresh(rs) && OneSymbolPerId(rs)
    ensures ClashFree(rs, symbol)
    decreases |rs|
  {
    hide EngineOk, Run, Validate;
    if rs != [] {
      var n := |rs| - 1;
      var s, r := Run(rs[..n]), rs[n];
      OneSymbolNoClash(rs[..n], symbol);
      if Clash(s, r, symbol) {
        TakenWasOrdered(rs[..n], symbol, r.order.id);
        NotOrderedElsewhere(rs, symbol);
      }
    }
  }

  lemma NotOrderedElsewhere(rs: seq<Request>, symbol: Symbol)
    requires rs != [] && OneSymbolPerId(rs) && SymbolOf(rs[|rs| - 1]) == symbol
    requires rs[|rs| - 1].Submit? && rs[|rs| - 1].order.kind != CANCEL
    ensures !OrderedElsewhere(rs[..|rs| - 1], symbol, rs[|rs| - 1].order.id)
  {
    assert Orders(rs[|rs| - 1], rs[|rs| - 1].order.id);
  }

  /** In particular every run projects in which no id is submitted on two symbols. */
  lemma RunsProject(rs: seq<Request>, symbol: Symbol)
    requires AllFresh(rs) && OneSymbolPerId(rs)
    ensures ClashFree(rs, symbol) && Agree(Run(rs), OwnRun(rs, symbol), symbol)
  {
    OneSymbolNoClash(rs, symbol);
    RunsProjectIff(rs, symbol);
  }

  // ---------------------------------------------------------------- a clash

  /** Once an id was accepted on one symbol, the same id is refused on every other: the mixed
      run leaves the second book alone where a run without the first order accepts the second. */
  lemma SharedIdIsRefused(rs: seq<Request>, o: OrderState, o': OrderState)
    requires AllFresh(rs) && o.filled == 0 && o'.filled == 0
    requires o.id == o'.id && o.symbol != o'.symbol
    requires Accepts(Run(rs).engine, o) && Accepts(Run(rs).engine, o')
    ensures AllFresh(rs + [Submit(o')]) && AllFresh(rs + [Submit(o), Submit(o')])
    ensures var mixed, alone := Run(rs + [Submit(o), Submit(o')]), Run(rs + [Submit(o')]);
      && o'.symbol in mixed.engine.books && mixed.engine.books[o'.symbol] == Run(rs).engine.books[o'.symbol]
      && mixed.accepted == Run(rs).accepted + [o]
      && alone.accepted == Run(rs).accepted + [o']
  {
    hide EngineOk, BooksOk, BookOk, AddOrder, Run;
    var s, a, b := Run(rs), Submit(o), Submit(o');
    assert Fresh(a) && Fresh(b);
    RunSplit(rs, [b]);
    RunSplit(rs, [a]);
    RunSplit(rs, [a, b]);
    assert rs + [a][..0] == rs && rs + [b][..0] == rs && rs + [a, b][..1] == rs + [a];
    BooksOkOf(s.engine);
    Local(s, a, o'.symbol);
    BooksOkOf(After(s, a).engine);
    RefusedAgain(After(s, a), o');
  }

  lemma RefusedAgain(s: Session, o: OrderState)
    requires EngineOk(s.engine) && o.filled == 0 && o.id in s.engine.usedIds && o.kind != CANCEL
    ensures BooksOk(s.engine) && After(s, Submit(o)) == s.(engine := s.engine.(processed := s.engine.processed + 1))
  {
    BooksOkOf(s.engine);
    SubmitRejected(s.engine, o);
    hide BooksOk, SubmitOrder;
  }

  /** And this happens: two symbols, and the same order for each of them. */
  lemma SharedIdReached()
    ensures var rs := [Register("A"), Register("B")];
      var o := OrderState(1, "A", BUY, LIMIT, 100, 5, 0, PENDING);
      AllFresh(rs) && Accepts(Run(rs).engine, o) && Accepts(Run(rs).engine, o.(symbol := "B"))
  {
    hide EngineOk, BooksOk;
    var rs := [Register("A"), Register("B")];
    assert rs[..1] == [Register("A")] && rs[..1][..0] == [];
    assert Run(rs[..1]).engine == RegisterSymbol(EMPTY, "A");
    assert Run(rs).engine == RegisterSymbol(RegisterSymbol(EMPTY, "A"), "B");
  }
}
