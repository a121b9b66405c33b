/** Cached totals once sums pass 2^64: what keeps them right modulo 2^64, and what does not. */
module WrappedTotals {
  import opened Types
  import opened Matching
  import opened PriceTime
  import opened Refinement
  import opened BookLaws
  import opened Totals
  import opened Inspection
  import opened Engine
  import opened Runs
  import opened Ledger
  import opened ExactRuns

  /** The cached total is the open quantity of the level modulo 2^64. */
  ghost predicate ModularLevel(l: LevelState) {
    l.total == SumRem(l.orders) % TWO_64
  }

  ghost predicate Modular(ls: seq<LevelState>) {
    forall i :: 0 <= i < |ls| ==> ModularLevel(ls[i])
  }

  /** Such totals are exact as long as no level holds 2^64 or more. */
  lemma ExactIffModular(side: Side, ls: seq<LevelState>)
    requires SideOk(side, ls)
    ensures Exact(ls) <==> Modular(ls) && Below(ls)
  {
    forall i | 0 <= i < |ls| ensures SumRem(ls[i].orders) >= 0 {
      LevelLive(side, ls[i]);
      SumRemLive(ls[i].orders);
    }
    hide SideOk, SumRem;
  }

  lemma WrapBoth(a: int, b: int)
    ensures WrapAdd(a % TWO_64, b % TWO_64) == (a + b) % TWO_64
  {
    WrapSum(a, b % TWO_64);
    WrapSum(b, a);
  }

  /** The volume a side reports is right modulo 2^64 as well. */
  lemma {:induction false} TotalQtyModular(ls: seq<LevelState>)
    requires Modular(ls)
    ensures TotalQty(ls) == SumRem(Flatten(ls)) % TWO_64
    decreases |ls|
  {
    hide WrapAdd, SumRem, Flatten;
    if ls == [] {
      NoVolume();
    } else {
      var n := |ls| - 1;
      TotalQtyModular(ls[..n]);
      LastLevel(ls);
      WrapBoth(SumRem(Flatten(ls[..n])), SumRem(ls[n].orders));
    }
  }

  // ---------------------------------------------------------------- one operation

  lemma SumModular(total: Quantity, sum: int, rem: int)
    ensures WrapAdd(total, rem) == (sum + rem) % TWO_64 <==> total == sum % TWO_64
    ensures total == sum % TWO_64 ==> WrapSub(total, rem) == (sum - rem) % TWO_64
  {
    if total == sum % TWO_64 {
      WrapSum(sum, rem);
      WrapSum(sum, -rem);
    }
    if WrapAdd(total, rem) == (sum + rem) % TWO_64 {
      WrapSum(total + rem, -rem);
      WrapSum(sum + rem, -rem);
    }
  }

  lemma AppendModular(l: LevelState, o: OrderState)
    ensures ModularLevel(Append(l, o)) <==> ModularLevel(l)
    ensures l.orders == [] && l.total == 0 ==> ModularLevel(l)
  {
    SumRemConcat(l.orders, [o]);
    assert SumRem([o]) == o.Rem() && SumRem([]) == 0;
    hide SumRem, WrapAdd;
    SumModular(l.total, SumRem(l.orders), o.Rem());
  }

  lemma ModularConcat(a: seq<LevelState>, c: seq<LevelState>)
    ensures Modular(a + c) <==> Modular(a) && Modular(c)
  {
    hide ModularLevel;
    assert forall i :: 0 <= i < |a| ==> a[i] == (a + c)[i];
    assert forall i :: 0 <= i < |c| ==> c[i] == (a + c)[|a| + i];
  }

  lemma ModularOne(l: LevelState)
    ensures Modular([l]) <==> ModularLevel(l)
  {
    assert [l][0] == l;
  }

  /** Only the levels of the middle part matter to the whole. */
  lemma ModularMiddle(a: seq<LevelState>, l: LevelState, c: seq<LevelState>)
    ensures Modular(a + [l] + c) <==> Modular(a) && ModularLevel(l) && Modular(c)
  {
    hide *;
    ModularConcat(a + [l], c);
    ModularConcat(a, [l]);
    ModularOne(l);
  }

  /** Resting neither spoils nor repairs a total. */
  lemma RestModularIff(side: Side, ls: seq<LevelState>, o: OrderState)
    ensures Modular(RestIn(side, ls, o)) <==> Modular(ls)
  {
    hide Modular, ModularLevel, Append, LowerBound;
    var i := LowerBound(side, ls, o.price);
    if LevelAt(ls, i, o.price) {
      AppendModular(ls[i], o);
      ModularMiddle(ls[..i], ls[i], ls[i + 1..]);
      ModularMiddle(ls[..i], Append(ls[i], o), ls[i + 1..]);
      assert ls == ls[..i] + [ls[i]] + ls[i + 1..];
      assert ls[i := Append(ls[i], o)] == ls[..i] + [Append(ls[i], o)] + ls[i + 1..];
    } else {
      AppendModular(LevelState(o.price, [], 0), o);
      ModularMiddle(ls[..i], Append(LevelState(o.price, [], 0), o), ls[i..]);
      ModularConcat(ls[..i], ls[i..]);
      assert ls == ls[..i] + ls[i..];
    }
  }

  /** A removal spoils none. */
  lemma CutAtModular(ls: seq<LevelState>, i: nat, k: nat)
    requires Modular(ls) && i < |ls| && k < |ls[i].orders|
    ensures Modular(CutAt(ls, i, k))
  {
    var ls' := CutAt(ls, i, k);
    SumRemCut(ls[i].orders, k);
    SumModular(ls[i].total, SumRem(ls[i].orders), ls[i].orders[k].Rem());
    hide SumRem, WrapSub;
    if |ls[i].orders| == 1 {
      assert forall j :: 0 <= j < |ls'| ==> ls'[j] == ls[if j < i then j else j + 1];
    } else {
      assert forall j :: 0 <= j < |ls'| && j != i ==> ls'[j] == ls[j];
    }
  }

  /** A fill of q clamps: the level keeps orders, but its cached total is below q. */
  predicate ClampsFront(ls: seq<LevelState>, q: int)
    requires ls != [] && ls[0].orders != []
  {
    ls[0].total < q && (q < ls[0].orders[0].Rem() || |ls[0].orders| > 1)
  }

  lemma SubModular(total: Quantity, sum: int, q: int)
    requires total == sum % TWO_64 && 0 <= q < TWO_64
    ensures SaturatingSub(total, q) == (sum - q) % TWO_64 <==> total >= q
  {
    WrapSum(sum, -q);
  }

  lemma FilledSum(os: seq<OrderState>, q: int)
    requires os != [] && 0 <= q <= os[0].Rem()
    ensures SumRem(if Fill(os[0], q).IsFilled() then os[1..] else [Fill(os[0], q)] + os[1..]) == SumRem(os) - q
  {
    SumRemConcat([Fill(os[0], q)], os[1..]);
    assert SumRem([Fill(os[0], q)]) == os[0].Rem() - q;
  }

  /** A fill spoils a total exactly when it clamps. */
  lemma FillFrontModularIff(ls: seq<LevelState>, q: int)
    requires ls != [] && Modular(ls)
    requires ls[0].orders != [] && 0 <= q <= ls[0].orders[0].Rem()
    ensures Modular(FillFront(ls, q)) <==> !ClampsFront(ls, q)
  {
    hide SumRem, Modular, SaturatingSub;
    var l, m := ls[0], Fill(ls[0].orders[0], q);
    assert ls == [] + [l] + ls[1..];
    ModularMiddle([], l, ls[1..]);
    if !(m.IsFilled() && l.orders[1..] == []) {
      var l' := FillFront(ls, q)[0];
      FilledSum(l.orders, q);
      SubModular(l.total, SumRem(l.orders), q);
      assert FillFront(ls, q) == [] + [l'] + ls[1..];
      ModularMiddle([], l', ls[1..]);
    }
  }

  // ---------------------------------------------------------------- matching and runs

  /** Some fill of the drain clamps. */
  predicate Clamps(side: Side, limit: Option<Price>, s: DrainState)
    requires Drainable(s)
    decreases s.taker.Rem()
  {
    CanStep(side, limit, s) && (StepOk(side, s);
    || FrontClamps(side, s)
    || Clamps(side, limit, Step(side, s)))
  }

  predicate FrontClamps(side: Side, s: DrainState)
    requires Drainable(s) && s.book.Levels(side) != []
  {
    FrontIsLive(side, s.book.Levels(side));
    ClampsFront(s.book.Levels(side), Min(s.taker.Rem(), s.book.Levels(side)[0].orders[0].Rem()))
  }

  /** The side's totals are right modulo 2^64 before the drain and after each of its fills. */
  ghost predicate ModularDrain(side: Side, limit: Option<Price>, s: DrainState)
    requires Drainable(s)
    decreases s.taker.Rem()
  {
    Modular(s.book.Levels(side))
    && (CanStep(side, limit, s) ==> (StepOk(side, s); ModularDrain(side, limit, Step(side, s))))
  }

  lemma StepModularIff(side: Side, s: DrainState)
    requires Drainable(s) && s.taker.Rem() > 0 && s.book.Levels(side) != [] && Modular(s.book.Levels(side))
    ensures Modular(Step(side, s).book.Levels(side)) <==> !FrontClamps(side, s)
  {
    hide BookOk, SideOk, FillFront, Modular, ClampsFront;
    var ls := s.book.Levels(side);
    BookSide(s.book, side);
    FrontIsLive(side, ls);
    StepIsFill(side, s);
    FillFrontModularIff(ls, Min(s.taker.Rem(), ls[0].orders[0].Rem()));
  }

  /** A drain keeps the totals right at every point exactly when none of its fills clamps. */
  lemma {:induction false} ModularDrainIff(side: Side, limit: Option<Price>, s: DrainState)
    requires Drainable(s) && Modular(s.book.Levels(side))
    ensures ModularDrain(side, limit, s) <==> !Clamps(side, limit, s)
    ensures ModularDrain(side, limit, s) ==> Modular(Drain(side, limit, s).book.Levels(side))
    decreases s.taker.Rem()
  {
    hide BookOk, Modular, FrontClamps, Step;
    if CanStep(side, limit, s) {
      StepOk(side, s);
      StepModularIff(side, s);
      if !FrontClamps(side, s) {
        ModularDrainIff(side, limit, Step(side, s));
      }
    }
  }

  /** The state in which matching an incoming order starts. */
  function MatchStart(b: BookState, o: OrderState): DrainState {
    DrainState(b, o.(status := ACCEPTED), [], [])
  }

  /** Some fill of the order clamps; a FOK whose scan fails makes none. */
  predicate PlaceClamps(b: BookState, o: OrderState)
    requires BookOk(b) && Incoming(b, o)
  {
    (o.kind == FOK ==> CanFill(b, o)) && Clamps(Opposite(o.side), Limit(o), MatchStart(b, o))
  }

  ghost predicate ModularPlace(b: BookState, o: OrderState)
    requires BookOk(b) && Incoming(b, o)
  {
    (o.kind == FOK ==> CanFill(b, o)) ==> ModularDrain(Opposite(o.side), Limit(o), MatchStart(b, o))
  }

  ghost predicate ModularBook(b: BookState) {
    Modular(b.bids) && Modular(b.asks)
  }

  lemma ModularPlaceIff(b: BookState, o: OrderState)
    requires BookOk(b) && Incoming(b, o) && ModularBook(b)
    ensures ModularPlace(b, o) <==> !PlaceClamps(b, o)
    ensures ModularPlace(b, o) ==> ModularBook(AddOrder(b, o).book)
  {
    hide BookOk, Modular, Clamps, ModularDrain, RestIn, Scan;
    var opp, s := Opposite(o.side), MatchStart(b, o);
    ModularDrainIff(opp, Limit(o), s);
    DrainOk(opp, Limit(o), s);
    RestModularIff(o.side, Drain(opp, Limit(o), s).book.Levels(o.side), AddOrder(b, o).order);
    hide Drain;
  }

  lemma CancelModular(b: BookState, id: OrderId)
    requires BookOk(b) && ModularBook(b)
    ensures ModularBook(CancelOrder(b, id).0)
  {
    hide BookOk, Modular, CutAt;
    if id in b.index {
      var i, k := CancelCuts(b, id);
      CutAtModular(b.Levels(b.index[id].side), i, k);
      hide CancelOrder;
    }
  }

  ghost predicate ModularBooks(e: EngineState) {
    forall symbol :: symbol in e.books ==> ModularBook(e.books[symbol])
  }

  /** The request makes no fill that clamps. */
  ghost predicate Unclamped(s: Session, r: Request)
    requires EngineOk(s.engine) && Fresh(r)
  {
    r.Submit? && Accepts(s.engine, r.order) ==>
      (AcceptedIncoming(s.engine, r.order); !PlaceClamps(s.engine.books[r.order.symbol], r.order))
  }

  /** The totals are right modulo 2^64 after the request and after each of its fills. */
  ghost predicate ModularAfter(s: Session, r: Request)
    requires EngineOk(s.engine) && Fresh(r)
  {
    && ModularBooks(After(s, r).engine)
    && (r.Submit? && Accepts(s.engine, r.order) ==>
          (AcceptedIncoming(s.engine, r.order); ModularPlace(s.engine.books[r.order.symbol], r.order)))
  }

  lemma CancelBooksModular(e0: EngineState, e: EngineState, symbol: Symbol, id: OrderId)
    requires EngineOk(e0) && e == e0.(processed := e.processed) && ModularBooks(e)
    ensures ModularBooks(CancelById(e, symbol, id).0)
  {
    hide EngineOk, BookOf, BookOk, CancelOrder, ModularBook;
    if symbol in e.books {
      BookIn(e0, symbol);
      CancelModular(e.books[symbol], id);
    }
  }

  lemma ModularAfterIff(s: Session, r: Request)
    requires EngineOk(s.engine) && Fresh(r) && ModularBooks(s.engine)
    ensures ModularAfter(s, r) <==> Unclamped(s, r)
  {
    hide EngineOk, BooksOk, BookOf, BookOk, CancelOrder, AddOrder, ModularBook, ModularPlace, PlaceClamps, Incoming, Validate;
    BooksOkOf(s.engine);
    match r
    case Register(symbol) => assert ModularBook(EmptyBook(symbol)) by { EmptyModular(symbol); }
    case Cancel(symbol, id) => CancelBooksModular(s.engine, s.engine, symbol, id);
    case Submit(o) =>
      if o.kind == CANCEL {
        CancelBooksModular(s.engine, s.engine.(processed := s.engine.processed + 1), o.symbol, o.id);
      } else if Accepts(s.engine, o) {
        AcceptsKnown(s.engine, o);
        AcceptedIncoming(s.engine, o);
        ModularPlaceIff(s.engine.books[o.symbol], o);
      } else {
        SubmitRejected(s.engine, o);
      }
  }

  lemma EmptyModular(symbol: Symbol)
    ensures ModularBook(EmptyBook(symbol))
  {
  }

  /** No fill of the run clamps. */
  ghost predicate NeverClamps(rs: seq<Request>)
    requires AllFresh(rs)
  {
    rs != [] ==> var n := |rs| - 1; NeverClamps(rs[..n]) && Unclamped(Run(rs[..n]), rs[n])
  }

  /** Every cached total is right modulo 2^64 after every request and every fill of the run. */
  ghost predicate AlwaysModular(rs: seq<Request>)
    requires AllFresh(rs)
  {
    rs != [] ==> var n := |rs| - 1; AlwaysModular(rs[..n]) && ModularAfter(Run(rs[..n]), rs[n])
  }

  lemma ModularNow(s: Session, r: Request)
    requires EngineOk(s.engine) && Fresh(r) && ModularAfter(s, r)
    ensures ModularBooks(After(s, r).engine)
  {
  }

  /** What a total means beyond 64 bits. Over a run the cached totals are the open quantities
      modulo 2^64 throughout if and only if the clamp of a fill never takes effect; then
      a total is exact if and only if its level holds less than 2^64. */
  lemma {:induction false} AlwaysModularIff(rs: seq<Request>)
    requires AllFresh(rs)
    ensures AlwaysModular(rs) <==> NeverClamps(rs)
    ensures AlwaysModular(rs) ==> ModularBooks(Run(rs).engine)
    decreases |rs|
  {
    hide EngineOk, After, ModularAfter, Unclamped;
    if rs == [] {
      assert Run(rs).engine.books == map[];
    } else {
      var n := |rs| - 1;
      AlwaysModularIff(rs[..n]);
      if AlwaysModular(rs[..n]) {
        ModularAfterIff(Run(rs[..n]), rs[n]);
        if ModularAfter(Run(rs[..n]), rs[n]) { ModularNow(Run(rs[..n]), rs[n]); }
      }
    }
  }

  /** In such a run a side's totals are exact if and only if no level of it holds 2^64 or more. */
  lemma UnclampedExactIff(rs: seq<Request>, symbol: Symbol, side: Side)
    requires AllFresh(rs) && NeverClamps(rs) && symbol in Run(rs).engine.books
    ensures var ls := Run(rs).engine.books[symbol].Levels(side);
      Exact(ls) <==> Below(ls)
  {
    hide Run, NeverClamps, AlwaysModular, BookOk, Exact, Below, EngineOk, Modular, SideOk;
    AlwaysModularIff(rs);
    EveryBookOk(rs, symbol);
    var b := Run(rs).engine.books[symbol];
    assert ModularBook(b);
    BookSide(b, side);
    ExactIffModular(side, b.Levels(side));
  }

  lemma {:induction false} ExactUnclamped(side: Side, limit: Option<Price>, s: DrainState)
    requires Drainable(s) && Exact(s.book.Levels(side))
    ensures !Clamps(side, limit, s)
    decreases s.taker.Rem()
  {
    if CanStep(side, limit, s) {
      var ls := s.book.Levels(side);
      BookSide(s.book, side);
      FrontIsLive(side, ls);
      StepOk(side, s);
      StepIsFill(side, s);
      FillFrontExact(side, ls, Min(s.taker.Rem(), ls[0].orders[0].Rem()));
      hide BookOk, SideOk, FillFront, Exact, Step;
      assert Step(side, s).book.Levels(side) == FillFront(ls, Min(s.taker.Rem(), ls[0].orders[0].Rem()));
      ExactUnclamped(side, limit, Step(side, s));
    }
  }

  /** No fill clamps in a run whose accepted quantity fits in 64 bits. */
  lemma {:induction false} SmallRunsNeverClamp(rs: seq<Request>)
    requires AllFresh(rs) && AcceptedQty(Run(rs)) < TWO_64
    ensures NeverClamps(rs)
    decreases |rs|
  {
    hide EngineOk, BooksOk, BookOk, AcceptedQty, After, Accepts, Clamps, Exact, CanFill, RemsOk, BookOf;
    if rs != [] {
      var n := |rs| - 1;
      var s, r := Run(rs[..n]), rs[n];
      BooksOkOf(s.engine);
      AcceptedGrows(s, r);
      SmallRunsNeverClamp(rs[..n]);
      RunExact(rs[..n]);
      if r.Submit? && Accepts(s.engine, r.order) {
        AcceptsKnown(s.engine, r.order);
        AcceptedIncoming(s.engine, r.order);
        var b, o := s.engine.books[r.order.symbol], r.order;
        assert Exact(b.Levels(Opposite(o.side)));
        ExactUnclamped(Opposite(o.side), Limit(o), MatchStart(b, o));
      }
    }
  }

  /** The clamp does happen: it is what inflates the total of the reached book INFLATED. */
  lemma ClampReached()
    ensures var b, hit := TwoAsks(100), Bid(3, IOC, 100, 5);
      BookOk(b) && Incoming(b, hit) && ModularBook(b) && PlaceClamps(b, hit) && !ModularBook(AddOrder(b, hit).book)
  {
    hide BookOk, AddOrder, PlaceClamps, ModularPlace;
    HitReached();
    var b, hit := TwoAsks(100), Bid(3, IOC, 100, 5);
    TwoAsksModular();
    ModularPlaceIff(b, hit);
  }

  lemma TwoAsksModular()
    ensures ModularBook(TwoAsks(100)) && !ModularBook(AfterHit())
  {
    var os, hs := TwoAsks(100).asks[0].orders, AfterHit().asks[0].orders;
    assert SumRem(os[1..]) == HALF && SumRem(hs[1..]) == HALF;
    assert SumRem(os) == TWO_64 && SumRem(hs) == TWO_64 - 5;
  }

  // ---------------------------------------------------------------- what FILLED means

  /** A total that is right modulo 2^64 never shows more than is there. */
  lemma ModularShows(side: Side, l: LevelState)
    requires LevelOk(side, l) && ModularLevel(l)
    ensures l.total <= SumRem(l.orders)
  {
    LevelLive(side, l);
    SumRemLive(l.orders);
    hide LevelOk, SumRem;
  }

  lemma TailOk(side: Side, ls: seq<LevelState>)
    requires SideOk(side, ls) && Modular(ls) && ls != []
    ensures SideOk(side, ls[1..]) && Modular(ls[1..]) && LevelOk(side, ls[0]) && ModularLevel(ls[0])
  {
    hide LevelOk, ModularLevel;
  }

  /** So the crossing levels show at most what is on offer. */
  lemma {:induction false} PrefixWithinOffer(side: Side, limit: Option<Price>, ls: seq<LevelState>)
    requires SideOk(side, ls) && Modular(ls)
    ensures PrefixQty(ls, Crossing(side, limit, ls)) <= CrossQty(side, limit, Flatten(ls))
    decreases |ls|
  {
    if ls != [] {
      SidePrices(side, ls);
      FlattenFront(ls);
      TailOk(side, ls);
      ModularShows(side, ls[0]);
      if Crosses(side, limit, ls[0].price) {
        CrossQtyLevel(side, limit, ls[0].orders, Flatten(ls[1..]), ls[0].price);
        assert Flatten(ls) == ls[0].orders + Flatten(ls[1..]);
        hide SideOk, Modular, Flatten, CrossQty, LevelOk, SumRem;
        PrefixWithinOffer(side, limit, ls[1..]);
      }
    }
  }

  /** Where totals are right modulo 2^64 a FOK is reported FILLED exactly when it is filled. */
  lemma ModularFok(b: BookState, o: OrderState)
    requires BookOk(b) && Incoming(b, o) && o.kind == FOK && o.quantity > 0
    requires Modular(b.Levels(Opposite(o.side)))
    ensures AddOrder(b, o).order.status == FILLED <==> AddOrder(b, o).order.IsFilled()
  {
    hide BookOk, AddOrder, CrossQty, Flatten, PrefixQty, Crossing, Modular, SideOk;
    FokVerdictIff(b, o);
    var opp := Opposite(o.side);
    var ls := b.Levels(opp);
    BookSide(b, opp);
    PrefixWithinOffer(opp, Limit(o), ls);
    if Shows(opp, Limit(o), ls, o.quantity, 0) {
      var n: nat :| n <= Crossing(opp, Limit(o), ls) && ShowsAt(ls, n, o.quantity, 0);
      PrefixGrows(ls, n, Crossing(opp, Limit(o), ls));
    }
  }

  /** No bound on quantities is needed: in every run in which no fill has clamped, every accepted
      FOK is reported FILLED exactly when it is filled. An untrue report needs an earlier clamp. */
  lemma FokUnclamped(rs: seq<Request>, o: OrderState)
    requires AllFresh(rs) && NeverClamps(rs) && o.kind == FOK && o.filled == 0 && Accepts(Run(rs).engine, o)
    ensures var r := (BooksOkOf(Run(rs).engine); SubmitOrder(Run(rs).engine, o));
      r.order.status == FILLED <==> r.order.IsFilled()
  {
    hide Run, NeverClamps, AlwaysModular, EngineOk, BooksOk, BookOk, BookOf, Modular, AddOrder, SubmitOrder, Incoming;
    var e := Run(rs).engine;
    AlwaysModularIff(rs);
    BooksOkOf(e);
    SubmitAccepted(e, o);
    AcceptsKnown(e, o);
    ModularFok(e.books[o.symbol], o);
  }
}
