/** The cached level totals and the FOK scan built on them: when 64-bit sums are exact, and
    what happens to FOK orders when they are not. */
module Totals {
  import opened Types
  import opened Matching
  import opened PriceTime
  import opened Refinement
  import opened BookLaws

  ghost predicate Exact(ls: seq<LevelState>) {
    forall i :: 0 <= i < |ls| ==> ls[i].total == SumRem(ls[i].orders)
  }

  lemma {:induction false} SumRemConcat(a: seq<OrderState>, b: seq<OrderState>)
    ensures SumRem(a + b) == SumRem(a) + SumRem(b)
    decreases |a|
  {
    if a == [] {
      assert a + b == b;
    } else {
      assert (a + b)[1..] == a[1..] + b;
      SumRemConcat(a[1..], b);
    }
  }

  lemma {:induction false} SumRemLive(list: seq<OrderState>)
    requires Live(list)
    ensures SumRem(list) >= 0 && (list != [] ==> SumRem(list) > 0)
    decreases |list|
  {
    if list != [] { SumRemLive(list[1..]); }
  }

  lemma SumRemCut(list: seq<OrderState>, k: nat)
    requires k < |list|
    ensures SumRem(list) == SumRem(list[..k] + list[k + 1..]) + list[k].Rem()
  {
    assert SumRem([list[k]]) == list[k].Rem();
    hide *;
    Rejoin(list, k);
    SumRemConcat(list[..k] + [list[k]], list[k + 1..]);
    SumRemConcat(list[..k], [list[k]]);
    SumRemConcat(list[..k], list[k + 1..]);
  }

  lemma LevelLive(side: Side, l: LevelState)
    requires LevelOk(side, l)
    ensures Live(l.orders)
  {
    forall k | 0 <= k < |l.orders| ensures l.orders[k].filled < l.orders[k].quantity {
      assert OrderOk(side, l.price, l.orders[k], k);
    }
  }

  /** A fill keeps exact totals exact: the saturating branch never fires. */
  lemma FillFrontExact(side: Side, ls: seq<LevelState>, q: int)
    requires SideOk(side, ls) && ls != [] && Exact(ls)
    requires ls[0].orders != [] && 0 <= q <= ls[0].orders[0].Rem()
    ensures ls[0].total >= q
    ensures Exact(FillFront(ls, q))
  {
    var l := ls[0];
    LevelLive(side, l);
    SumRemLive(l.orders[1..]);
    var ls' := FillFront(ls, q);
    var m := Fill(l.orders[0], q);
    assert ls[0].total == SumRem(l.orders) == l.orders[0].Rem() + SumRem(l.orders[1..]);
    assert SumRem([m] + l.orders[1..]) == m.Rem() + SumRem(l.orders[1..]) by { SumRemConcat([m], l.orders[1..]); }
    hide SideOk;
    if m.IsFilled() && l.orders[1..] == [] {
      assert forall i :: 0 <= i < |ls'| ==> ls'[i] == ls[i + 1];
    } else {
      assert forall i :: 0 < i < |ls'| ==> ls'[i] == ls[i];
    }
  }

  lemma {:induction false} DrainExact(side: Side, limit: Option<Price>, s: DrainState)
    requires Drainable(s) && Exact(s.book.Levels(side))
    ensures Exact(Drain(side, limit, s).book.Levels(side))
    decreases s.taker.Rem()
  {
    if CanStep(side, limit, s) {
      StepOk(side, s);
      StepIsFill(side, s);
      var ls := s.book.Levels(side);
      FillFrontExact(side, ls, Min(s.taker.Rem(), ls[0].orders[0].Rem()));
      hide BookOk, SideOk, FillFront, Exact, Step;
      assert Step(side, s).book.Levels(side) == FillFront(ls, Min(s.taker.Rem(), ls[0].orders[0].Rem()));
      DrainExact(side, limit, Step(side, s));
    }
  }

  /** So does a removal. */
  lemma CutAtExact(side: Side, ls: seq<LevelState>, i: nat, k: nat)
    requires SideOk(side, ls) && Exact(ls) && i < |ls| && k < |ls[i].orders|
    ensures Exact(CutAt(ls, i, k))
  {
    LevelLive(side, ls[i]);
    hide SideOk;
    var ls' := CutAt(ls, i, k);
    var rest := ls[i].orders[..k] + ls[i].orders[k + 1..];
    SumRemCut(ls[i].orders, k);
    SumRemLive(rest);
    if |ls[i].orders| == 1 {
      assert forall j :: 0 <= j < |ls'| ==> ls'[j] == ls[if j < i then j else j + 1];
    }
  }

  /** The open quantity at a price. */
  function QtyAt(side: Side, ls: seq<LevelState>, p: Price): int {
    var i := LowerBound(side, ls, p);
    if LevelAt(ls, i, p) then SumRem(ls[i].orders) else 0
  }

  /** Resting is the only operation that can spoil a total, and it does so exactly when the
      open quantity at the price reaches 2^64. */
  lemma RestExactIff(side: Side, ls: seq<LevelState>, o: OrderState)
    requires Exact(ls) && 0 <= o.Rem() && 0 <= QtyAt(side, ls, o.price)
    ensures Exact(RestIn(side, ls, o)) <==> QtyAt(side, ls, o.price) + o.Rem() < TWO_64
  {
    var i := LowerBound(side, ls, o.price);
    var ls' := RestIn(side, ls, o);
    var os := if LevelAt(ls, i, o.price) then ls[i].orders else [];
    SumRemConcat(os, [o]);
    assert SumRem([o]) == o.Rem();
    hide LowerBound;
    assert ls'[i].orders == os + [o];
    if LevelAt(ls, i, o.price) {
      assert forall j :: 0 <= j < |ls'| && j != i ==> ls'[j] == ls[j];
    } else {
      assert forall j :: 0 <= j < |ls'| && j != i ==> ls'[j] == ls[if j < i then j else j - 1];
    }
  }

  // ---------------------------------------------------------------- the FOK scan

  /** The open quantity an incoming order may reach, on the flat list. */
  function CrossQty(side: Side, limit: Option<Price>, list: seq<OrderState>): int {
    if list == [] || !Crosses(side, limit, list[0].price) then 0
    else list[0].Rem() + CrossQty(side, limit, list[1..])
  }

  /** Greedy matching leaves what the crossing quantity does not cover. */
  lemma {:induction false} GreedyCovers(side: Side, limit: Option<Price>, list: seq<OrderState>, q: Quantity,
                                        symbol: Symbol, t: OrderId)
    requires Live(list)
    ensures 0 <= CrossQty(side, limit, list)
    ensures var c := CrossQty(side, limit, list);
      Greedy(side, limit, list, q, symbol, t).left == if c >= q then 0 else q - c
    decreases |list|
  {
    if list != [] && Crosses(side, limit, list[0].price) {
      GreedyCovers(side, limit, list[1..], if list[0].Rem() <= q then q - list[0].Rem() else 0, symbol, t);
    }
  }

  lemma {:induction false} CrossQtyLevel(side: Side, limit: Option<Price>, os: seq<OrderState>, rest: seq<OrderState>, p: Price)
    requires forall k :: 0 <= k < |os| ==> os[k].price == p
    requires Crosses(side, limit, p)
    ensures CrossQty(side, limit, os + rest) == SumRem(os) + CrossQty(side, limit, rest)
    decreases |os|
  {
    if os == [] {
      assert os + rest == rest;
    } else {
      assert (os + rest)[1..] == os[1..] + rest;
      CrossQtyLevel(side, limit, os[1..], rest, p);
    }
  }

  lemma SideOkTail(side: Side, ls: seq<LevelState>)
    requires SideOk(side, ls) && Exact(ls) && ls != []
    ensures SideOk(side, ls[1..]) && Exact(ls[1..])
  {
  }

  lemma CrossQtyNonNegative(side: Side, limit: Option<Price>, ls: seq<LevelState>)
    requires SideOk(side, ls)
    ensures CrossQty(side, limit, Flatten(ls)) >= 0
  {
    FlattenOk(side, ls);
    GreedyCovers(side, limit, Flatten(ls), 0, "", 0);
  }

  // The scan as prefix sums of the crossing levels, without its early exit.

  /** How many levels from the front the limit accepts. */
  function Crossing(side: Side, limit: Option<Price>, ls: seq<LevelState>): (n: nat)
    ensures n <= |ls|
  {
    if ls == [] || !Crosses(side, limit, ls[0].price) then 0 else 1 + Crossing(side, limit, ls[1..])
  }

  /** The cached quantity of the first n levels, unbounded. */
  function PrefixQty(ls: seq<LevelState>, n: nat): (q: int)
    requires n <= |ls|
    ensures q >= 0
  {
    if n == 0 then 0 else ls[0].total + PrefixQty(ls[1..], n - 1)
  }

  /** The first n levels show the wanted quantity in 64 bits. */
  predicate ShowsAt(ls: seq<LevelState>, n: nat, want: Quantity, available: int)
    requires n <= |ls|
  {
    (available + PrefixQty(ls, n)) % TWO_64 >= want
  }

  /** Some prefix of the crossing levels shows the wanted quantity. */
  ghost predicate Shows(side: Side, limit: Option<Price>, ls: seq<LevelState>, want: Quantity, available: int) {
    exists n: nat :: n <= Crossing(side, limit, ls) && ShowsAt(ls, n, want, available)
  }

  lemma WrapPrefix(available: int, total: int, rest: int)
    ensures (WrapAdd(available, total) + rest) % TWO_64 == (available + (total + rest)) % TWO_64
  {
    WrapSum(available + total, rest);
  }

  lemma NothingShown(side: Side, limit: Option<Price>, ls: seq<LevelState>, want: Quantity, available: Quantity)
    requires ls == [] || !Crosses(side, limit, ls[0].price)
    requires available < want
    ensures !Shows(side, limit, ls, want, available)
  {
    assert Crossing(side, limit, ls) == 0 && PrefixQty(ls, 0) == 0;
  }

  lemma PrefixStep(ls: seq<LevelState>, n: nat, want: Quantity, available: Quantity)
    requires n < |ls|
    ensures ShowsAt(ls[1..], n, want, WrapAdd(available, ls[0].total)) <==> ShowsAt(ls, n + 1, want, available)
  {
    WrapPrefix(available, ls[0].total, PrefixQty(ls[1..], n));
    hide WrapAdd;
  }

  lemma ShowsStep(side: Side, limit: Option<Price>, ls: seq<LevelState>, want: Quantity, available: Quantity)
    requires ls != [] && Crosses(side, limit, ls[0].price) && available < want
    ensures Shows(side, limit, ls, want, available) <==> Shows(side, limit, ls[1..], want, WrapAdd(available, ls[0].total))
  {
    var a := WrapAdd(available, ls[0].total);
    assert !ShowsAt(ls, 0, want, available) && Crossing(side, limit, ls) == 1 + Crossing(side, limit, ls[1..]);
    hide WrapAdd, ShowsAt, Crossing;
    if Shows(side, limit, ls, want, available) {
      var n: nat :| n <= Crossing(side, limit, ls) && ShowsAt(ls, n, want, available);
      PrefixStep(ls, n - 1, want, available);
    }
    if Shows(side, limit, ls[1..], want, a) {
      var n: nat :| n <= Crossing(side, limit, ls[1..]) && ShowsAt(ls[1..], n, want, a);
      PrefixStep(ls, n, want, available);
    }
  }

  /** Despite its early exit the scan succeeds exactly when some prefix sum, reduced modulo
      2^64, reaches the wanted quantity; whatever the cached totals are. */
  lemma {:induction false} ScanShows(side: Side, limit: Option<Price>, ls: seq<LevelState>, want: Quantity, available: Quantity)
    requires available < want
    ensures Scan(side, limit, ls, want, available) >= want <==> Shows(side, limit, ls, want, available)
    decreases |ls|
  {
    if ls == [] || !Crosses(side, limit, ls[0].price) {
      NothingShown(side, limit, ls, want, available);
    } else {
      var a := WrapAdd(available, ls[0].total);
      ShowsStep(side, limit, ls, want, available);
      if a >= want {
        assert ShowsAt(ls[1..], 0, want, a);
      } else {
        ScanShows(side, limit, ls[1..], want, a);
      }
    }
  }

  /** With exact totals the prefix sums are the open quantities on offer. */
  lemma {:induction false} PrefixOffer(side: Side, limit: Option<Price>, ls: seq<LevelState>)
    requires SideOk(side, ls) && Exact(ls)
    ensures PrefixQty(ls, Crossing(side, limit, ls)) == CrossQty(side, limit, Flatten(ls))
    decreases |ls|
  {
    if ls != [] {
      SidePrices(side, ls);
      FlattenFront(ls);
      SideOkTail(side, ls);
      if Crosses(side, limit, ls[0].price) {
        CrossQtyLevel(side, limit, ls[0].orders, Flatten(ls[1..]), ls[0].price);
        assert Flatten(ls) == ls[0].orders + Flatten(ls[1..]);
        hide SideOk, Flatten, CrossQty;
        PrefixOffer(side, limit, ls[1..]);
      }
    }
  }

  lemma {:induction false} PrefixGrows(ls: seq<LevelState>, n: nat, m: nat)
    requires n <= m <= |ls|
    ensures PrefixQty(ls, n) <= PrefixQty(ls, m)
    decreases n
  {
    if n > 0 { PrefixGrows(ls[1..], n - 1, m - 1); }
  }

  /** With exact totals the scan never shows more than is on offer, and while less than 2^64 is
      on offer it shows enough exactly when there is enough. */
  lemma ScanExact(side: Side, limit: Option<Price>, ls: seq<LevelState>, want: Quantity)
    requires SideOk(side, ls) && Exact(ls) && want > 0
    ensures Scan(side, limit, ls, want, 0) >= want <==> Shows(side, limit, ls, want, 0)
    ensures Shows(side, limit, ls, want, 0) ==> CrossQty(side, limit, Flatten(ls)) >= want
    ensures CrossQty(side, limit, Flatten(ls)) < TWO_64
      ==> (Shows(side, limit, ls, want, 0) <==> CrossQty(side, limit, Flatten(ls)) >= want)
  {
    hide SideOk, Exact, CrossQty, Flatten, Scan, PrefixQty, Crossing;
    ScanShows(side, limit, ls, want, 0);
    PrefixOffer(side, limit, ls);
    var all := Crossing(side, limit, ls);
    if Shows(side, limit, ls, want, 0) {
      var n: nat :| n <= all && ShowsAt(ls, n, want, 0);
      PrefixGrows(ls, n, all);
    }
    if want <= PrefixQty(ls, all) < TWO_64 {
      assert ShowsAt(ls, all, want, 0);
    }
  }

  /** FOK in any valid book, whatever its cached totals are. It is reported FILLED exactly when
      some prefix sum of the crossing levels shows its quantity in 64 bits, and it is filled
      exactly when its quantity is really on offer as well. So a FILLED report is true if and
      only if what is shown is on offer, and FILLED means enough liquidity if and only if what
      is shown and what is on offer agree. */
  lemma FokVerdictIff(b: BookState, o: OrderState)
    requires BookOk(b) && Incoming(b, o) && o.kind == FOK && o.quantity > 0
    ensures var opp := Opposite(o.side);
      var enough := CrossQty(opp, Limit(o), Flatten(b.Levels(opp))) >= o.quantity;
      var shown := Shows(opp, Limit(o), b.Levels(opp), o.quantity, 0);
      var r := AddOrder(b, o);
      && (r.order.status == FILLED <==> shown)
      && (r.order.IsFilled() <==> shown && enough)
      && ((r.order.status == FILLED ==> r.order.IsFilled()) <==> (shown ==> enough))
      && ((r.order.status == FILLED <==> enough) <==> (shown <==> enough))
  {
    hide BookOk, AddOrder, CrossQty, Scan, Flatten, Shows;
    var opp := Opposite(o.side);
    FokOutcome(b, o);
    ScanShows(opp, Limit(o), b.Levels(opp), o.quantity, 0);
  }

  /** FOK on exact totals. It executes exactly when some prefix sum of the crossing levels
      shows its quantity in 64 bits, and then it is completely filled. So it executes whenever
      the quantity on offer suffices if and only if sufficient offers are shown. */
  lemma FokScanIff(b: BookState, o: OrderState)
    requires BookOk(b) && Incoming(b, o) && o.kind == FOK && o.quantity > 0 && Exact(b.Levels(Opposite(o.side)))
    ensures var opp := Opposite(o.side);
      var enough := CrossQty(opp, Limit(o), Flatten(b.Levels(opp))) >= o.quantity;
      var shown := Shows(opp, Limit(o), b.Levels(opp), o.quantity, 0);
      var r := AddOrder(b, o);
      && (r.order.status == FILLED <==> shown)
      && (shown ==> enough && r.order.IsFilled())
      && ((r.order.status == FILLED <==> enough) <==> (enough ==> shown))
      && (CrossQty(opp, Limit(o), Flatten(b.Levels(opp))) < TWO_64 ==> (enough <==> shown))
  {
    var opp := Opposite(o.side);
    var ls := b.Levels(opp);
    BookSide(b, opp);
    hide BookOk, AddOrder, SideOk, Exact, CrossQty, Scan, Flatten, Shows;
    FokOutcome(b, o);
    CrossQtyNonNegative(opp, Limit(o), ls);
    ScanExact(opp, Limit(o), ls, o.quantity);
  }

  /** A FOK order's status and fill in terms of the scan and the crossing quantity. */
  lemma FokOutcome(b: BookState, o: OrderState)
    requires BookOk(b) && Incoming(b, o) && o.kind == FOK
    ensures var opp := Opposite(o.side);
      var c := CrossQty(opp, Limit(o), Flatten(b.Levels(opp)));
      var r := AddOrder(b, o);
      r.order.quantity == o.quantity &&
      if CanFill(b, o) then r.order.status == FILLED && r.order.filled == Min(c, o.quantity)
      else r.order.status == CANCELLED && r.order.filled == 0
  {
    AddOrderRefines(b, o);
    hide BookOk, AddOrder;
    GreedyCovers(Opposite(o.side), Limit(o), Abs(b).List(Opposite(o.side)), o.quantity, b.symbol, o.id);
    hide Greedy, CrossQty;
  }

  /** All or nothing: while less than 2^64 is on offer, a FOK order is either filled exactly,
      leaving the book and trades of an IOC order, or leaves no trace. */
  lemma FokAllOrNothing(b: BookState, o: OrderState)
    requires BookOk(b) && Incoming(b, o) && o.kind == FOK && Exact(b.Levels(Opposite(o.side)))
    requires CrossQty(Opposite(o.side), Limit(o), Flatten(b.Levels(Opposite(o.side)))) < TWO_64
    ensures var opp := Opposite(o.side);
      var r := AddOrder(b, o);
      var ioc := AddOrder(b, o.(kind := IOC));
      if CrossQty(opp, Limit(o), Flatten(b.Levels(opp))) >= o.quantity then
        r.order.filled == o.quantity && r.order.status == FILLED && r.book == ioc.book && r.trades == ioc.trades
      else
        r.book == b && r.trades == [] && r.order.filled == 0 && r.order.status == CANCELLED
  {
    var opp := Opposite(o.side);
    var ls := b.Levels(opp);
    BookSide(b, opp);
    hide BookOk, AddOrder, SideOk, Exact, CrossQty, Shows;
    FokOutcome(b, o);
    FokIsIocOrNothing(b, o);
    CrossQtyNonNegative(opp, Limit(o), ls);
    if o.quantity > 0 { ScanExact(opp, Limit(o), ls, o.quantity); }
  }

  // ---------------------------------------------------------------- where 64 bits are not enough

  const HALF: Quantity := 0x8000_0000_0000_0000

  function Ask(id: OrderId, p: Price, q: Quantity): OrderState {
    OrderState(id, "X", SELL, LIMIT, p, q, 0, PENDING)
  }

  function Bid(id: OrderId, kind: OrderType, p: Price, q: Quantity): OrderState {
    OrderState(id, "X", BUY, kind, p, q, 0, PENDING)
  }

  /** The book after asks of HALF at 100 and at p. */
  function TwoAsks(p: Price): BookState {
    var a, b := Ask(1, 100, HALF).(status := ACCEPTED), Ask(2, p, HALF).(status := ACCEPTED);
    BookState("X", [],
              if p == 100 then [LevelState(100, [a, b], 0)] else [LevelState(100, [a], HALF), LevelState(p, [b], HALF)],
              map[1 := Location(SELL, 100), 2 := Location(SELL, p)])
  }

  lemma NewLevel(o: OrderState)
    requires o.filled <= o.quantity
    ensures Append(LevelState(o.price, [], 0), o) == LevelState(o.price, [o], o.Rem())
  {
    assert [] + [o] == [o];
  }

  /** With no bids around, a limit sell order rests as it is. */
  lemma AskRests(b: BookState, o: OrderState)
    requires BookOk(b) && Incoming(b, o) && b.bids == []
    requires o.kind == LIMIT && o.side == SELL && o.quantity > 0
    ensures var t := o.(status := ACCEPTED);
      AddOrder(b, o).book == BookState(b.symbol, [], RestIn(SELL, b.asks, t), b.index[o.id := Location(SELL, o.price)])
  {
    hide BookOk;
    var t := o.(status := ACCEPTED);
    DrainUnfolds(BUY, Limit(t), DrainState(b, t, [], []));
    hide Drain, RestIn;
  }

  lemma EmptyOk(b: BookState)
    requires b.bids == [] && b.asks == [] && b.index == map[]
    ensures BookOk(b)
  {
  }

  function OneAsk(): BookState {
    BookState("X", [], [LevelState(100, [Ask(1, 100, HALF).(status := ACCEPTED)], HALF)], map[1 := Location(SELL, 100)])
  }

  lemma OneAskReached()
    ensures var e := BookState("X", [], [], map[]);
      BookOk(e) && Incoming(e, Ask(1, 100, HALF)) && AddOrder(e, Ask(1, 100, HALF)).book == OneAsk()
    ensures BookOk(OneAsk())
  {
    hide BookOk, AddOrder;
    var e, o := BookState("X", [], [], map[]), Ask(1, 100, HALF).(status := ACCEPTED);
    EmptyOk(e);
    AskRests(e, Ask(1, 100, HALF));
    AddOrderOk(e, Ask(1, 100, HALF));
    NewLevel(o);
    assert RestIn(SELL, [], o) == [LevelState(100, [o], HALF)];
  }

  /** Both books are reached by two ordinary limit orders; with p == 100 the total is already wrong. */
  lemma TwoAsksReached(p: Price)
    requires p == 100 || p == 101
    ensures var e := BookState("X", [], [], map[]);
      BookOk(e) && Incoming(e, Ask(1, 100, HALF)) && var b := AddOrder(e, Ask(1, 100, HALF)).book;
      BookOk(b) && Incoming(b, Ask(2, p, HALF)) && AddOrder(b, Ask(2, p, HALF)).book == TwoAsks(p)
    ensures BookOk(TwoAsks(p))
  {
    hide BookOk, AddOrder, RestIn;
    OneAskReached();
    AskRests(OneAsk(), Ask(2, p, HALF));
    TwoAsksRest(p);
    AddOrderOk(OneAsk(), Ask(2, p, HALF));
  }

  lemma TwoAsksRest(p: Price)
    requires p == 100 || p == 101
    ensures RestIn(SELL, [LevelState(100, [Ask(1, 100, HALF).(status := ACCEPTED)], HALF)], Ask(2, p, HALF).(status := ACCEPTED))
      == TwoAsks(p).asks
  {
    var a, o := Ask(1, 100, HALF).(status := ACCEPTED), Ask(2, p, HALF).(status := ACCEPTED);
    var ls := [LevelState(100, [a], HALF)];
    NewLevel(o);
    assert LowerBound(SELL, ls[1..], p) == 0;
    if p == 100 {
      assert [a] + [o] == [a, o];
      assert RestIn(SELL, ls, o) == [Append(ls[0], o)];
    } else {
      assert LowerBound(SELL, ls, p) == 1;
      assert ls[..1] + [LevelState(101, [o], HALF)] + ls[1..] == TwoAsks(101).asks;
    }
  }

  /** One level holding one order, possibly with more levels behind it. */
  lemma OneOrderLevel(l: LevelState, o: OrderState, rest: seq<LevelState>, limit: Option<Price>)
    requires l.orders == [o] && Crosses(SELL, limit, l.price) && l.price == o.price
    ensures SumRem(l.orders) == o.Rem()
    ensures CrossQty(SELL, limit, Flatten([l] + rest)) == o.Rem() + CrossQty(SELL, limit, Flatten(rest))
  {
    FlattenCons(l, rest);
    CrossQtyLevel(SELL, limit, [o], Flatten(rest), o.price);
    assert [o][1..] == [];
  }

  lemma NothingOpen(limit: Option<Price>)
    ensures CrossQty(SELL, limit, Flatten([])) == 0
  {
  }

  lemma TwoAsksOpen(limit: Option<Price>)
    requires Crosses(SELL, limit, 100) && Crosses(SELL, limit, 101)
    ensures Exact(TwoAsks(101).asks)
    ensures CrossQty(SELL, limit, Flatten(TwoAsks(101).asks)) == TWO_64
  {
    hide Flatten, CrossQty, SumRem;
    var ls := TwoAsks(101).asks;
    assert ls == [ls[0]] + [ls[1]] && [ls[1]] == [ls[1]] + [];
    OneOrderLevel(ls[0], ls[0].orders[0], [ls[1]], limit);
    OneOrderLevel(ls[1], ls[1].orders[0], [], limit);
    NothingOpen(limit);
  }

  lemma TwoAsksScan(limit: Option<Price>)
    requires Crosses(SELL, limit, 100) && Crosses(SELL, limit, 101)
    ensures Scan(SELL, limit, TwoAsks(101).asks, HALF + 1, 0) == 0
  {
    var ls := TwoAsks(101).asks;
    assert ls[1..] == [ls[1]] && [ls[1]][1..] == [];
    assert Scan(SELL, limit, ls[1..], HALF + 1, HALF) == 0;
  }

  /** A FOK for HALF + 1 against two levels of HALF: the scan's sum wraps to 0, so the order is
      cancelled although twice HALF is on offer. The totals themselves are exact. */
  lemma FokMissesLiquidity()
    ensures var b := TwoAsks(101);
      var o := Bid(3, FOK, 101, HALF + 1);
      BookOk(b) && Incoming(b, o) && Exact(b.asks)
      && CrossQty(SELL, Limit(o), Flatten(b.asks)) == TWO_64 >= o.quantity
      && AddOrder(b, o).order.status == CANCELLED && AddOrder(b, o).trades == []
  {
    hide BookOk, Scan, CrossQty, Flatten, Exact, AddOrder;
    TwoAsksReached(101);
    var o := Bid(3, FOK, 101, HALF + 1);
    TwoAsksOpen(Limit(o));
    TwoAsksScan(Limit(o));
    FokOutcome(TwoAsks(101), o);
    FokIsIocOrNothing(TwoAsks(101), o);
  }

  /** Two asks of HALF at one price, the first filled by 5 and then cancelled: the total went to
      0, was clamped at 0 by the fill and wrapped by the cancel, and now exceeds what rests. */
  const INFLATED: BookState :=
    BookState("X", [], [LevelState(100, [Ask(2, 100, HALF).(status := ACCEPTED)], HALF + 5)], map[2 := Location(SELL, 100)])

  /** The first ask after it traded 5 out of its HALF. */
  function AfterHit(): BookState {
    var b := TwoAsks(100);
    b.(asks := [LevelState(100, [Fill(b.asks[0].orders[0], 5), b.asks[0].orders[1]], 0)])
  }

  lemma HitFills()
    ensures var b := TwoAsks(100);
      FillBook(SELL, b, 5) == AfterHit()
  {
    var os := TwoAsks(100).asks[0].orders;
    assert [Fill(os[0], 5)] + os[1..] == [Fill(os[0], 5), os[1]];
    assert TwoAsks(100).asks[1..] == [];
  }

  lemma HitReached()
    ensures var b := TwoAsks(100);
      var hit := Bid(3, IOC, 100, 5);
      BookOk(b) && Incoming(b, hit) && AddOrder(b, hit).book == AfterHit() && BookOk(AfterHit())
  {
    hide BookOk, FillBook, AddOrder, AfterHit;
    TwoAsksReached(100);
    HitFills();
    AddOrderOk(TwoAsks(100), Bid(3, IOC, 100, 5));
    IocInsideFront(TwoAsks(100), Bid(3, IOC, 100, 5));
  }

  /** An IOC smaller than the front order it crosses is one fill. */
  lemma IocInsideFront(b: BookState, o: OrderState)
    requires BookOk(b) && Incoming(b, o) && o.kind == IOC && o.side == BUY && 0 < o.quantity
    requires FrontLive(SELL, b) && o.quantity < b.asks[0].orders[0].Rem() && b.asks[0].price <= o.price
    ensures AddOrder(b, o).book == FillBook(SELL, b, o.quantity)
  {
    var s := DrainState(b, o.(status := ACCEPTED), [], []);
    hide BookOk, FillBook;
    StepIsFill(SELL, s);
    StepOk(SELL, s);
    hide Step;
    assert Drain(SELL, Limit(o), Step(SELL, s)) == Step(SELL, s);
  }

  lemma CancelInflates()
    ensures CancelOrder(AfterHit(), 1) == (INFLATED, true)
  {
    var ls := AfterHit().asks;
    assert LowerBound(SELL, ls, 100) == 0 && FindId(ls[0].orders, 1) == 0;
    var os := ls[0].orders;
    assert os[..0] + os[1..] == [os[1]];
    assert CutAt(ls, 0, 0) == INFLATED.asks;
    hide CutAt;
    assert RemoveIn(SELL, ls, 100, 1) == INFLATED.asks;
    assert AfterHit().index - {1} == INFLATED.index;
  }

  lemma InflatedReached()
    ensures var b := TwoAsks(100);
      var hit := Bid(3, IOC, 100, 5);
      BookOk(b) && Incoming(b, hit) && CancelOrder(AddOrder(b, hit).book, 1) == (INFLATED, true)
    ensures BookOk(INFLATED)
  {
    HitReached();
    CancelInflates();
    hide BookOk, AddOrder, CancelOrder, TwoAsks, AfterHit, Incoming;
    CancelOk(AfterHit(), 1);
  }

  /** With an inflated total a FOK order reports FILLED although it is not. */
  lemma FokReportsFilled()
    ensures var o := Bid(4, FOK, 100, HALF + 3);
      BookOk(INFLATED) && Incoming(INFLATED, o)
      && AddOrder(INFLATED, o).order.status == FILLED && AddOrder(INFLATED, o).order.filled == HALF
      && HALF < o.quantity
  {
    hide BookOk, AddOrder, CrossQty, Flatten, Scan;
    InflatedReached();
    var o := Bid(4, FOK, 100, HALF + 3);
    var l := INFLATED.asks[0];
    OneOrderLevel(l, l.orders[0], [], Limit(o));
    NothingOpen(Limit(o));
    assert INFLATED.asks == [l] + [];
    ScanOne(l, Limit(o), HALF + 3);
    FokOutcome(INFLATED, o);
  }

  lemma ScanOne(l: LevelState, limit: Option<Price>, want: Quantity)
    requires Crosses(SELL, limit, l.price)
    ensures Scan(SELL, limit, [l], want, 0) == l.total
  {
    assert [l][1..] == [];
  }
}
