/** Laws of one order book: equivalences between order types, cancel as the inverse of resting,
    and the splitting law. */
module BookLaws {
  import opened Types
  import opened Matching
  import opened PriceTime
  import opened Refinement

  // ---------------------------------------------------------------- what the loop looks at

  /** Two loop states that differ at most in the taker's type and status. */
  ghost predicate SameRun(s: DrainState, t: DrainState) {
    && s.book == t.book && s.trades == t.trades && s.done == t.done
    && s.taker.id == t.taker.id && s.taker.quantity == t.taker.quantity && s.taker.filled == t.taker.filled
  }

  lemma {:induction false} DrainIgnoresType(side: Side, limit: Option<Price>, s: DrainState, t: DrainState)
    requires Drainable(s) && Drainable(t) && SameRun(s, t)
    ensures SameRun(Drain(side, limit, s), Drain(side, limit, t))
    decreases s.taker.Rem()
  {
    hide BookOk;
    if CanStep(side, limit, s) {
      StepOk(side, s);
      StepOk(side, t);
      assert SameRun(Step(side, s), Step(side, t));
      DrainIgnoresType(side, limit, Step(side, s), Step(side, t));
    }
  }

  /** A FOK order whose scan succeeds leaves the same book and trades as an identical IOC
      order; otherwise it leaves the book alone and trades nothing. */
  lemma FokIsIocOrNothing(b: BookState, o: OrderState)
    requires BookOk(b) && Incoming(b, o) && o.kind == FOK
    ensures var fok := AddOrder(b, o);
      var ioc := AddOrder(b, o.(kind := IOC));
      if CanFill(b, o) then
        fok.book == ioc.book && fok.trades == ioc.trades && fok.order.filled == ioc.order.filled
      else
        fok.book == b && fok.trades == [] && fok.order == o.(status := CANCELLED)
  {
    hide BookOk;
    var o1, o2 := o.(status := ACCEPTED), o.(kind := IOC, status := ACCEPTED);
    DrainIgnoresType(Opposite(o.side), Limit(o), DrainState(b, o1, [], []), DrainState(b, o2, [], []));
    hide Drain;
  }

  // ---------------------------------------------------------------- cancel undoes rest

  /** Resting an order and removing it again restores the side, cached total included, even
      when the total wrapped around in between. */
  lemma RestThenRemove(side: Side, ls: seq<LevelState>, o: OrderState)
    requires forall i :: 0 <= i < |ls| ==> ls[i].orders != []
    requires forall i, k :: 0 <= i < |ls| && 0 <= k < |ls[i].orders| ==> ls[i].orders[k].id != o.id
    ensures RemoveIn(side, RestIn(side, ls, o), o.price, o.id) == ls
  {
    var i := LowerBound(side, ls, o.price);
    if LevelAt(ls, i, o.price) {
      AppendThenRemove(ls[i], o);
      RemoveOne(side, ls, ls[i := Append(ls[i], o)], i, o.price, o.id);
      hide LowerBound, Append, FindId, RemoveIn;
    } else {
      AppendThenRemove(LevelState(o.price, [], 0), o);
      RemoveOne(side, ls, ls[..i] + [Append(LevelState(o.price, [], 0), o)] + ls[i..], i, o.price, o.id);
      hide LowerBound, Append, FindId, RemoveIn;
    }
  }

  /** Removing the last order of level i of ls', if that makes ls of it. */
  lemma RemoveOne(side: Side, ls: seq<LevelState>, ls': seq<LevelState>, i: nat, p: Price, id: OrderId)
    requires i < |ls'| && ls'[i].price == p
    requires forall j :: 0 <= j < i ==> Key(side, ls'[j].price) < Key(side, p)
    requires var k := FindId(ls'[i].orders, id);
      k < |ls'[i].orders|
      && if |ls'[i].orders| == 1 then ls == ls'[..i] + ls'[i + 1..]
         else i < |ls| && ls[i] == RemoveAt(ls'[i], k) && ls == ls'[i := ls[i]]
    ensures RemoveIn(side, ls', p, id) == ls
  {
    LowerBoundAt(side, ls', i, p);
    hide LowerBound, FindId;
  }

  lemma {:induction false} LowerBoundAt(side: Side, ls: seq<LevelState>, i: nat, p: Price)
    requires i < |ls| && ls[i].price == p
    requires forall j :: 0 <= j < i ==> Key(side, ls[j].price) < Key(side, p)
    ensures LowerBound(side, ls, p) == i
  {
    var j := LowerBound(side, ls, p);
  }

  lemma AppendThenRemove(l: LevelState, o: OrderState)
    requires forall k :: 0 <= k < |l.orders| ==> l.orders[k].id != o.id
    ensures var l' := Append(l, o);
      var k := FindId(l'.orders, o.id);
      k == |l.orders| && RemoveAt(l', k) == l
  {
    var l' := Append(l, o);
    var k := FindId(l'.orders, o.id);
    assert l'.orders[|l.orders|].id == o.id;
    assert forall j :: 0 <= j < |l.orders| ==> l'.orders[j] == l.orders[j];
    assert k == |l.orders|;
    assert l'.orders[..k] + l'.orders[k + 1..] == l.orders;
    assert WrapSub(WrapAdd(l.total, o.Rem()), o.Rem()) == l.total;
  }

  /** LIMIT then CANCEL is IOC: same levels on both sides, same cached totals, same index,
      same trades; whether or not the limit order traded or rested. */
  lemma LimitThenCancelIsIoc(b: BookState, o: OrderState)
    requires BookOk(b) && Incoming(b, o) && o.kind == LIMIT
    ensures BookOk(AddOrder(b, o).book)
    ensures var limit := AddOrder(b, o);
      var ioc := AddOrder(b, o.(kind := IOC));
      CancelOrder(limit.book, o.id).0 == ioc.book && limit.trades == ioc.trades
  {
    hide BookOk, Drain;
    AddOrderOk(b, o);
    var o1, o2 := o.(status := ACCEPTED), o.(kind := IOC, status := ACCEPTED);
    var opp := Opposite(o.side);
    var s := DrainState(b, o1, [], []);
    DrainIgnoresType(opp, Limit(o), s, DrainState(b, o2, [], []));
    DrainOk(opp, Limit(o), s);
    DrainKeepsOut(opp, Limit(o), s, o.id);
    var d := DrainOrder(b, o1);
    var t := AddOrder(b, o).order;
    hide RestOrder, CancelOrder;
    assert AddOrder(b, o).book == if t.IsFilled() then d.book else RestOrder(d.book, t);
    CancelUndoesRest(d.book, t);
    CancelUnknown(d.book, o.id);
  }

  /** For a limit order that does not cross, the pair changes nothing at all. */
  lemma RestedAndCancelled(b: BookState, o: OrderState)
    requires BookOk(b) && Incoming(b, o) && o.kind == LIMIT
    requires var opp := b.Levels(Opposite(o.side)); opp != [] ==> !Crosses(Opposite(o.side), Some(o.price), opp[0].price)
    ensures CancelOrder(AddOrder(b, o).book, o.id).0 == b && AddOrder(b, o).trades == []
  {
    hide BookOk;
    LimitThenCancelIsIoc(b, o);
    var o2 := o.(kind := IOC, status := ACCEPTED);
    DrainUnfolds(Opposite(o.side), Limit(o), DrainState(b, o2, [], []));
    hide Drain, CancelOrder, RestRemainder;
  }

  lemma CancelUnknown(b: BookState, id: OrderId)
    requires id !in b.index
    ensures CancelOrder(b, id) == (b, false)
  {
  }

  lemma CancelUndoesRest(b: BookState, o: OrderState)
    requires BookOk(b) && o.id !in b.index
    ensures CancelOrder(RestOrder(b, o), o.id) == (b, true)
  {
    var ls := b.Levels(o.side);
    assert SideOk(o.side, ls) && Indexed(o.side, ls, b.index);
    SidePrices(o.side, ls);
    hide BookOk, SideOk;
    RestThenRemove(o.side, ls, o);
    hide RestIn, RemoveIn;
    assert b.index[o.id := Location(o.side, o.price)] - {o.id} == b.index;
  }

  // ---------------------------------------------------------------- splitting

  /** What matching leaves of the book depends on the taker only through its quantity. */
  lemma {:induction false} DrainBookByQuantity(side: Side, limit: Option<Price>, s: DrainState, t: DrainState)
    requires Drainable(s) && Drainable(t) && s.book == t.book && s.taker.Rem() == t.taker.Rem()
    ensures Drain(side, limit, s).book == Drain(side, limit, t).book
    decreases s.taker.Rem()
  {
    hide BookOk;
    if CanStep(side, limit, s) {
      StepOk(side, s);
      StepOk(side, t);
      DrainBookByQuantity(side, limit, Step(side, s), Step(side, t));
    }
  }

  function FrontMaker(side: Side, s: DrainState): OrderState
    requires Drainable(s) && s.book.Levels(side) != []
  {
    FrontIsLive(side, s.book.Levels(side));
    s.book.Levels(side)[0].orders[0]
  }

  lemma FillFrontTwice(ls: seq<LevelState>, q: int, x: int)
    requires ls != [] && ls[0].orders != []
    requires 0 <= q && 0 <= x && ls[0].orders[0].filled + q < ls[0].orders[0].quantity
    requires ls[0].orders[0].filled + q + x <= ls[0].orders[0].quantity
    ensures FillFront(ls, q) != [] && FillFront(ls, q)[0].orders != []
    ensures FillFront(ls, q)[0].price == ls[0].price
    ensures FillFront(ls, q)[0].orders[0] == Fill(ls[0].orders[0], q)
    ensures x > 0 ==> FillFront(FillFront(ls, q), x) == FillFront(ls, q + x)
  {
    var ls1 := FillFront(ls, q);
    assert ls1[0].orders == [Fill(ls[0].orders[0], q)] + ls[0].orders[1..];
    assert ls1[1..] == ls[1..] && ls1[0].orders[1..] == ls[0].orders[1..];
  }

  /** Two trades inside one maker are one trade of the summed quantity. */
  lemma FillBookTwice(side: Side, b: BookState, q: int, x: int)
    requires var ls := b.Levels(side);
      && ls != [] && ls[0].orders != [] && 0 <= q && 0 < x
      && ls[0].orders[0].filled + q < ls[0].orders[0].quantity
      && ls[0].orders[0].filled + q + x <= ls[0].orders[0].quantity
    ensures var ls1 := FillBook(side, b, q).Levels(side);
      && ls1 != [] && ls1[0].orders != [] && ls1[0].price == b.Levels(side)[0].price
      && ls1[0].orders[0] == Fill(b.Levels(side)[0].orders[0], q)
    ensures FillBook(side, FillBook(side, b, q), x) == FillBook(side, b, q + x)
  {
    FillFrontTwice(b.Levels(side), q, x);
    hide FillFront;
  }

  /** A step as a trade inside the book. */
  lemma StepIsFill(side: Side, s: DrainState)
    requires Drainable(s) && s.taker.Rem() > 0 && s.book.Levels(side) != []
    ensures FrontLive(side, s.book)
    ensures var q := Min(s.taker.Rem(), s.book.Levels(side)[0].orders[0].Rem());
      Step(side, s).book == FillBook(side, s.book, q) && Step(side, s).taker.Rem() == s.taker.Rem() - q
  {
    FrontIsLive(side, s.book.Levels(side));
    hide BookOk, SideOk, FillBook;
  }

  lemma StepTwice(side: Side, s: DrainState, a: DrainState, t: DrainState)
    requires Drainable(s) && Drainable(a) && Drainable(t) && s.book == a.book
    requires a.taker.Rem() > 0 && a.book.Levels(side) != [] && a.taker.Rem() < FrontMaker(side, a).Rem()
    requires t.taker.Rem() > 0 && t.book == Step(side, a).book && t.book.Levels(side) != []
    requires s.taker.Rem() == a.taker.Rem() + t.taker.Rem()
    ensures Step(side, t).book == Step(side, s).book
    ensures Step(side, t).taker.Rem() == Step(side, s).taker.Rem()
  {
    hide BookOk, Step, FillBook;
    StepIsFill(side, a);
    StepIsFill(side, t);
    StepIsFill(side, s);
    var m := a.book.Levels(side)[0].orders[0];
    var q := a.taker.Rem();
    FillBookTwice(side, a.book, q, Min(t.taker.Rem(), m.Rem() - q));
  }

  lemma StepPartial(side: Side, a: DrainState)
    requires Drainable(a) && a.book.Levels(side) != [] && 0 < a.taker.Rem() < FrontMaker(side, a).Rem()
    ensures Step(side, a).taker.Rem() == 0
    ensures var ls := Step(side, a).book.Levels(side); ls != [] && ls[0].price == a.book.Levels(side)[0].price
  {
    hide BookOk, Step, FillFront;
    StepIsFill(side, a);
    FillFrontTwice(a.book.Levels(side), a.taker.Rem(), 0);
  }

  /** Matching q1 + q2 leaves the same book as matching q1 and then q2, totals and index included. */
  lemma {:induction false} DrainSplits(side: Side, limit: Option<Price>, s: DrainState, a: DrainState, q2: OrderState)
    requires Drainable(s) && Drainable(a) && q2.filled <= q2.quantity
    requires s.book == a.book
    requires s.taker.Rem() == a.taker.Rem() + q2.Rem()
    ensures Drainable(Drain(side, limit, a))
    ensures Drain(side, limit, DrainState(Drain(side, limit, a).book, q2, [], [])).book == Drain(side, limit, s).book
    decreases a.taker.Rem()
  {
    DrainOk(side, limit, a);
    hide BookOk;
    if CanStep(side, limit, a) {
      StepOk(side, a);
      StepOk(side, s);
      hide Step;
      if FrontMaker(side, a).Rem() <= a.taker.Rem() {
        StepWhole(side, s, a);
        DrainSplits(side, limit, Step(side, s), Step(side, a), q2);
      } else {
        var t := DrainState(Step(side, a).book, q2, [], []);
        StepPartial(side, a);
        if q2.Rem() == 0 {
          DrainBookByQuantity(side, limit, s, a);
        } else {
          StepTwice(side, s, a, t);
          StepOk(side, t);
          DrainBookByQuantity(side, limit, Step(side, t), Step(side, s));
        }
      }
    } else if a.taker.Rem() == 0 {
      DrainBookByQuantity(side, limit, s, DrainState(a.book, q2, [], []));
    }
  }

  lemma StepWhole(side: Side, s: DrainState, a: DrainState)
    requires Drainable(s) && Drainable(a) && s.book == a.book && a.book.Levels(side) != [] && a.taker.Rem() > 0
    requires FrontMaker(side, a).Rem() <= a.taker.Rem() <= s.taker.Rem()
    ensures Step(side, s).book == Step(side, a).book
    ensures s.taker.Rem() - Step(side, s).taker.Rem() == a.taker.Rem() - Step(side, a).taker.Rem()
  {
    hide BookOk;
  }

  /** The splitting law: an IOC for q1 followed by one for q2, same side and limit, leaves the
      book that one IOC for q1 + q2 leaves. */
  lemma IocSplits(b: BookState, o: OrderState, o1: OrderState, o2: OrderState)
    requires BookOk(b) && o.kind == IOC && Incoming(b, o) && Incoming(b, o1) && Incoming(b, o2)
    requires o1 == o.(id := o1.id, quantity := o1.quantity) && o2 == o.(id := o2.id, quantity := o2.quantity)
    requires o.quantity == o1.quantity + o2.quantity
    ensures var b1 := AddOrder(b, o1).book;
      BookOk(b1) && Incoming(b1, o2) && AddOrder(b1, o2).book == AddOrder(b, o).book
  {
    AddOrderOk(b, o1);
    AddOrderFrame(b, o1);
    var opp := Opposite(o.side);
    var a := DrainState(b, o1.(status := ACCEPTED), [], []);
    DrainKeepsOut(opp, Limit(o), a, o2.id);
    DrainSplits(opp, Limit(o), DrainState(b, o.(status := ACCEPTED), [], []), a, o2.(status := ACCEPTED));
    hide BookOk, Drain;
  }

  function MakerTotal(trades: seq<Trade>, id: OrderId): int {
    if trades == [] then 0
    else (if trades[0].maker == id then trades[0].quantity else 0) + MakerTotal(trades[1..], id)
  }

  lemma LiveStep(list: seq<OrderState>, o: OrderState)
    requires Live(list) && list != [] && o.filled < o.quantity
    ensures Live([o] + list[1..])
  {
    assert forall i :: 0 < i < |list| ==> ([o] + list[1..])[i] == list[i];
  }

  lemma {:induction false} GreedyLive(resting: Side, limit: Option<Price>, list: seq<OrderState>, q: Quantity,
                                      symbol: Symbol, t: OrderId)
    requires Live(list)
    ensures Live(Greedy(resting, limit, list, q, symbol, t).list)
    decreases |list|
  {
    if list != [] && q > 0 && Crosses(resting, limit, list[0].price) {
      if list[0].Rem() <= q {
        GreedyLive(resting, limit, list[1..], q - list[0].Rem(), symbol, t);
      } else {
        LiveStep(list, Fill(list[0], q));
      }
    }
  }

  /** Who the taker is changes the trades' taker field only. */
  lemma {:induction false} GreedyTaker(resting: Side, limit: Option<Price>, list: seq<OrderState>, q: Quantity,
                                       symbol: Symbol, t: OrderId, t': OrderId, id: OrderId)
    requires Live(list)
    ensures var g := Greedy(resting, limit, list, q, symbol, t);
      var g' := Greedy(resting, limit, list, q, symbol, t');
      g.list == g'.list && g.done == g'.done && MakerTotal(g.trades, id) == MakerTotal(g'.trades, id)
    decreases |list|
  {
    if list != [] && q > 0 && Crosses(resting, limit, list[0].price) && list[0].Rem() <= q {
      GreedyTaker(resting, limit, list[1..], q - list[0].Rem(), symbol, t, t', id);
    }
  }

  lemma MakerTotalCons(t: Trade, trades: seq<Trade>, id: OrderId)
    ensures MakerTotal([t] + trades, id) == (if t.maker == id then t.quantity else 0) + MakerTotal(trades, id)
  {
    assert ([t] + trades)[1..] == trades;
  }

  lemma MakerTotalOne(t: Trade, id: OrderId)
    ensures MakerTotal([t], id) == if t.maker == id then t.quantity else 0
  {
  }

  ghost predicate Splits(g: Fills, g1: Fills, g2: Fills, id: OrderId) {
    && g2.list == g.list
    && MakerTotal(g1.trades, id) + MakerTotal(g2.trades, id) == MakerTotal(g.trades, id)
    && g1.done + g2.done == g.done
  }

  /** On the flat list the split run also trades the same total with every maker and fills
      the same makers in the same order. */
  lemma {:induction false} GreedySplits(resting: Side, limit: Option<Price>, list: seq<OrderState>, q1: Quantity, q2: Quantity,
                                        symbol: Symbol, t: OrderId, t1: OrderId, t2: OrderId, id: OrderId)
    requires Live(list) && q1 + q2 < TWO_64
    ensures Live(Greedy(resting, limit, list, q1, symbol, t1).list)
    ensures var g1 := Greedy(resting, limit, list, q1, symbol, t1);
      Splits(Greedy(resting, limit, list, q1 + q2, symbol, t), g1, Greedy(resting, limit, g1.list, q2, symbol, t2), id)
    decreases |list|, 1
  {
    GreedyLive(resting, limit, list, q1, symbol, t1);
    hide Greedy, Live, Crosses, Fill;
    if q1 == 0 {
      GreedyStops(resting, limit, list, q1, symbol, t1);
      GreedyTaker(resting, limit, list, q2, symbol, t, t2, id);
      var g2 := Greedy(resting, limit, list, q2, symbol, t2);
      assert [] + g2.done == g2.done;
    } else if list == [] || !Crosses(resting, limit, list[0].price) {
      GreedyStops(resting, limit, list, q1, symbol, t1);
      GreedyStops(resting, limit, list, q2, symbol, t2);
      GreedyStops(resting, limit, list, q1 + q2, symbol, t);
    } else if list[0].Rem() <= q1 {
      GreedySplitsWhole(resting, limit, list, q1, q2, symbol, t, t1, t2, id);
    } else {
      GreedySplitsFront(resting, limit, list, q1, q2, symbol, t, t1, t2, id);
    }
  }

  lemma {:induction false} GreedySplitsWhole(resting: Side, limit: Option<Price>, list: seq<OrderState>, q1: Quantity,
      q2: Quantity, symbol: Symbol, t: OrderId, t1: OrderId, t2: OrderId, id: OrderId)
    requires Live(list) && q1 + q2 < TWO_64
    requires list != [] && 0 < list[0].Rem() <= q1 && Crosses(resting, limit, list[0].price)
    requires Live(Greedy(resting, limit, list, q1, symbol, t1).list)
    ensures var g1 := Greedy(resting, limit, list, q1, symbol, t1);
      Splits(Greedy(resting, limit, list, q1 + q2, symbol, t), g1, Greedy(resting, limit, g1.list, q2, symbol, t2), id)
    decreases |list|, 0
  {
    hide Greedy, Live, Crosses, Fill, Splits;
    var m := list[0];
    GreedyWhole(resting, limit, list, q1, symbol, t1);
    GreedyWhole(resting, limit, list, q1 + q2, symbol, t);
    GreedySplits(resting, limit, list[1..], q1 - m.Rem(), q2, symbol, t, t1, t2, id);
    var g1' := Greedy(resting, limit, list[1..], q1 - m.Rem(), symbol, t1);
    var g' := Greedy(resting, limit, list[1..], q1 - m.Rem() + q2, symbol, t);
    SplitsCons(Trade(symbol, m.price, m.Rem(), m.id, t), Trade(symbol, m.price, m.Rem(), m.id, t1),
               Fill(m, m.Rem()), g', g1', Greedy(resting, limit, g1'.list, q2, symbol, t2), id);
  }

  lemma SplitsCons(t: Trade, t1: Trade, done: OrderState, g: Fills, g1: Fills, g2: Fills, id: OrderId)
    requires Splits(g, g1, g2, id) && t.maker == t1.maker && t.quantity == t1.quantity
    ensures Splits(Fills(g.list, g.left, [t] + g.trades, [done] + g.done),
                   Fills(g1.list, g1.left, [t1] + g1.trades, [done] + g1.done), g2, id)
  {
    MakerTotalCons(t1, g1.trades, id);
    MakerTotalCons(t, g.trades, id);
    Assoc([done], g1.done, g2.done);
  }

  lemma {:induction false} GreedySplitsFront(resting: Side, limit: Option<Price>, list: seq<OrderState>, q1: Quantity,
      q2: Quantity, symbol: Symbol, t: OrderId, t1: OrderId, t2: OrderId, id: OrderId)
    requires Live(list) && q1 + q2 < TWO_64
    requires list != [] && 0 < q1 < list[0].Rem() && Crosses(resting, limit, list[0].price)
    requires Live(Greedy(resting, limit, list, q1, symbol, t1).list)
    ensures var g1 := Greedy(resting, limit, list, q1, symbol, t1);
      Splits(Greedy(resting, limit, list, q1 + q2, symbol, t), g1, Greedy(resting, limit, g1.list, q2, symbol, t2), id)
  {
    hide Greedy, Live, Crosses;
    var m := list[0];
    var list1 := [Fill(m, q1)] + list[1..];
    GreedyPartial(resting, limit, list, q1, symbol, t1);
    MakerTotalOne(Trade(symbol, m.price, q1, m.id, t1), id);
    if q2 == 0 {
      GreedyStops(resting, limit, list1, q2, symbol, t2);
      GreedyPartial(resting, limit, list, q1 + q2, symbol, t);
      MakerTotalOne(Trade(symbol, m.price, q1, m.id, t), id);
    } else if m.Rem() <= q1 + q2 {
      GreedySplitsMaker(resting, limit, list, q1, q2, symbol, t, t1, t2, id);
    } else {
      assert list1[1..] == list[1..];
      GreedyPartial(resting, limit, list1, q2, symbol, t2);
      GreedyPartial(resting, limit, list, q1 + q2, symbol, t);
      MakerTotalOne(Trade(symbol, m.price, q1 + q2, m.id, t), id);
      MakerTotalOne(Trade(symbol, m.price, q2, m.id, t2), id);
    }
  }

  /** The first run ends inside the front maker and the second one finishes it. */
  lemma {:induction false} GreedySplitsMaker(resting: Side, limit: Option<Price>, list: seq<OrderState>, q1: Quantity,
      q2: Quantity, symbol: Symbol, t: OrderId, t1: OrderId, t2: OrderId, id: OrderId)
    requires Live(list) && q1 + q2 < TWO_64
    requires list != [] && 0 < q1 < list[0].Rem() <= q1 + q2 && Crosses(resting, limit, list[0].price)
    requires Live([Fill(list[0], q1)] + list[1..])
    ensures var m := list[0];
      Splits(Greedy(resting, limit, list, q1 + q2, symbol, t),
             Fills([Fill(m, q1)] + list[1..], 0, [Trade(symbol, m.price, q1, m.id, t1)], []),
             Greedy(resting, limit, [Fill(m, q1)] + list[1..], q2, symbol, t2), id)
  {
    hide Greedy, Live, Crosses;
    var m := list[0];
    var x := m.Rem() - q1;
    var list1 := [Fill(m, q1)] + list[1..];
    assert list1[1..] == list[1..];
    GreedyWhole(resting, limit, list1, q2, symbol, t2);
    GreedyWhole(resting, limit, list, q1 + q2, symbol, t);
    GreedyTaker(resting, limit, list[1..], q2 - x, symbol, t, t2, id);
    MakerTotalOne(Trade(symbol, m.price, q1, m.id, t1), id);
    MakerTotalCons(Trade(symbol, m.price, x, m.id, t2), Greedy(resting, limit, list[1..], q2 - x, symbol, t2).trades, id);
    MakerTotalCons(Trade(symbol, m.price, m.Rem(), m.id, t), Greedy(resting, limit, list[1..], q2 - x, symbol, t).trades, id);
  }

  /** In the book, too: with every maker the two orders trade in total what the one trades. */
  lemma IocSplitsTrades(b: BookState, o: OrderState, o1: OrderState, o2: OrderState, maker: OrderId)
    requires BookOk(b) && o.kind == IOC && Incoming(b, o) && Incoming(b, o1) && Incoming(b, o2)
    requires o1 == o.(id := o1.id, quantity := o1.quantity) && o2 == o.(id := o2.id, quantity := o2.quantity)
    requires o.quantity == o1.quantity + o2.quantity
    ensures var first := AddOrder(b, o1);
      && BookOk(first.book) && Incoming(first.book, o2)
      && MakerTotal(first.trades, maker) + MakerTotal(AddOrder(first.book, o2).trades, maker)
           == MakerTotal(AddOrder(b, o).trades, maker)
  {
    hide BookOk, AddOrder, Greedy, Incoming, Live, CanFill, MakerTotal;
    IocSplits(b, o, o1, o2);
    var b1 := AddOrder(b, o1).book;
    AddOrderRefines(b, o);
    AddOrderRefines(b, o1);
    AddOrderRefines(b1, o2);
    AddOrderFrame(b, o1);
    var opp := Opposite(o.side);
    GreedySplits(opp, Limit(o), Abs(b).List(opp), o1.quantity, o2.quantity, b.symbol, o.id, o1.id, o2.id, maker);
  }
}
