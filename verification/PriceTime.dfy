/** The reference: a side is one list ordered by price, then arrival, and an incoming order
    greedily consumes the prefix its limit accepts. The level-structured book refines it. */
module PriceTime {
  import opened Types
  import opened Matching

  function Flatten(ls: seq<LevelState>): seq<OrderState> {
    if ls == [] then [] else ls[0].orders + Flatten(ls[1..])
  }

  ghost predicate Live(list: seq<OrderState>) {
    forall i :: 0 <= i < |list| ==> list[i].filled < list[i].quantity
  }

  ghost predicate Distinct(list: seq<OrderState>) {
    forall i, j :: 0 <= i < j < |list| ==> list[i].id != list[j].id
  }

  datatype Fills = Fills(list: seq<OrderState>, left: int, trades: seq<Trade>, done: seq<OrderState>)

  /** Price-time priority: serve the front of the list, whole order by whole order, until the
      quantity is used up or a price is not accepted. */
  function Greedy(resting: Side, limit: Option<Price>, list: seq<OrderState>, left: Quantity,
                  symbol: Symbol, taker: OrderId): Fills
    requires Live(list)
  {
    if left == 0 || list == [] || !Crosses(resting, limit, list[0].price) then Fills(list, left, [], [])
    else
      var m := list[0];
      if m.Rem() <= left then
        var r := Greedy(resting, limit, list[1..], left - m.Rem(), symbol, taker);
        Fills(r.list, r.left, [Trade(symbol, m.price, m.Rem(), m.id, taker)] + r.trades, [Fill(m, m.Rem())] + r.done)
      else
        Fills([Fill(m, left)] + list[1..], 0, [Trade(symbol, m.price, left, m.id, taker)], [])
  }

  lemma GreedyStops(resting: Side, limit: Option<Price>, list: seq<OrderState>, left: Quantity, symbol: Symbol, taker: OrderId)
    requires Live(list)
    requires left == 0 || list == [] || !Crosses(resting, limit, list[0].price)
    ensures Greedy(resting, limit, list, left, symbol, taker) == Fills(list, left, [], [])
  {
  }

  lemma GreedyWhole(resting: Side, limit: Option<Price>, list: seq<OrderState>, left: Quantity, symbol: Symbol, taker: OrderId)
    requires Live(list) && left > 0 && list != [] && Crosses(resting, limit, list[0].price) && list[0].Rem() <= left
    ensures Live(list[1..])
    ensures var m := list[0];
      var r := Greedy(resting, limit, list[1..], left - m.Rem(), symbol, taker);
      Greedy(resting, limit, list, left, symbol, taker)
        == Fills(r.list, r.left, [Trade(symbol, m.price, m.Rem(), m.id, taker)] + r.trades, [Fill(m, m.Rem())] + r.done)
  {
  }

  lemma GreedyPartial(resting: Side, limit: Option<Price>, list: seq<OrderState>, left: Quantity, symbol: Symbol, taker: OrderId)
    requires Live(list) && left > 0 && list != [] && Crosses(resting, limit, list[0].price) && left < list[0].Rem()
    ensures var m := list[0];
      Greedy(resting, limit, list, left, symbol, taker)
        == Fills([Fill(m, left)] + list[1..], 0, [Trade(symbol, m.price, left, m.id, taker)], [])
  {
  }

  function SumRem(list: seq<OrderState>): int {
    if list == [] then 0 else list[0].Rem() + SumRem(list[1..])
  }

  function Volume(trades: seq<Trade>): int {
    if trades == [] then 0 else trades[0].quantity + Volume(trades[1..])
  }

  ghost predicate Serves(resting: Side, limit: Option<Price>, maker: OrderState, symbol: Symbol, taker: OrderId, t: Trade) {
    && t.price == maker.price && t.maker == maker.id && t.taker == taker && t.symbol == symbol
    && 0 < t.quantity && Crosses(resting, limit, maker.price)
  }

  ghost predicate Whole(maker: OrderState, t: Trade, done: OrderState) {
    && t.quantity == maker.Rem() && done == maker.(filled := maker.quantity, status := FILLED)
  }

  ghost predicate InOrder(resting: Side, limit: Option<Price>, list: seq<OrderState>, symbol: Symbol, taker: OrderId,
                          trades: seq<Trade>)
  {
    |trades| <= |list| &&
    forall i :: 0 <= i < |trades| ==> Serves(resting, limit, list[i], symbol, taker, trades[i])
  }

  ghost predicate AllWhole(list: seq<OrderState>, trades: seq<Trade>, done: seq<OrderState>) {
    |done| <= |trades| <= |list| &&
    forall i :: 0 <= i < |done| ==> Whole(list[i], trades[i], done[i])
  }

  /** The trades beyond the n whole ones (none or one) and the list left behind. */
  ghost predicate Leaves(list: seq<OrderState>, left: int, n: int, r: Fills)
    requires 0 <= n <= |list|
  {
    && 0 <= r.left && left == r.left + Volume(r.trades)
    && (if |r.trades| == n then r.list == list[n..]
        else && |r.trades| == n + 1 <= |list| && r.left == 0
             && list[n].filled + r.trades[n].quantity < list[n].quantity
             && r.list == [Fill(list[n], r.trades[n].quantity)] + list[n + 1..])
  }

  /** A prefix of the list was served in order, every maker but the last filled whole. */
  ghost predicate Consumed(resting: Side, limit: Option<Price>, list: seq<OrderState>, left: int,
                           symbol: Symbol, taker: OrderId, r: Fills)
  {
    && InOrder(resting, limit, list, symbol, taker, r.trades)
    && AllWhole(list, r.trades, r.done)
    && Leaves(list, left, |r.done|, r)
  }

  /** What greedy matching means, stated without recursion: trades go down the list in order,
      at the maker's price; every maker but the last is filled whole; matching stops only when
      the taker is filled or no accepted price is left. */
  ghost predicate PriceTimeFair(resting: Side, limit: Option<Price>, list: seq<OrderState>, left: int,
                                symbol: Symbol, taker: OrderId, r: Fills)
  {
    && Consumed(resting, limit, list, left, symbol, taker, r)
    && (r.left > 0 ==> |r.done| == |list| || !Crosses(resting, limit, list[|r.done|].price))
  }

  lemma InOrderStep(resting: Side, limit: Option<Price>, list: seq<OrderState>, symbol: Symbol, taker: OrderId,
                    trades: seq<Trade>)
    requires list != [] && trades != []
    ensures InOrder(resting, limit, list, symbol, taker, trades) <==>
      (Serves(resting, limit, list[0], symbol, taker, trades[0])
       && InOrder(resting, limit, list[1..], symbol, taker, trades[1..]))
  {
    hide Serves;
    if Serves(resting, limit, list[0], symbol, taker, trades[0]) && InOrder(resting, limit, list[1..], symbol, taker, trades[1..]) {
      forall i | 0 < i < |trades| ensures Serves(resting, limit, list[i], symbol, taker, trades[i]) {
        assert Serves(resting, limit, list[1..][i - 1], symbol, taker, trades[1..][i - 1]);
      }
    }
  }

  lemma AllWholeStep(list: seq<OrderState>, trades: seq<Trade>, done: seq<OrderState>)
    requires list != [] && trades != [] && done != []
    ensures AllWhole(list, trades, done) <==>
      (Whole(list[0], trades[0], done[0]) && AllWhole(list[1..], trades[1..], done[1..]))
  {
    hide Whole;
    if Whole(list[0], trades[0], done[0]) && AllWhole(list[1..], trades[1..], done[1..]) {
      forall i | 0 < i < |done| ensures Whole(list[i], trades[i], done[i]) {
        assert Whole(list[1..][i - 1], trades[1..][i - 1], done[1..][i - 1]);
      }
    }
  }

  /** Fairness of a run that fills the front order whole is fairness of the rest of it. */
  lemma FairStep(resting: Side, limit: Option<Price>, list: seq<OrderState>, left: int,
                 symbol: Symbol, taker: OrderId, r: Fills)
    requires list != [] && r.done != [] && r.trades != []
    requires Serves(resting, limit, list[0], symbol, taker, r.trades[0]) && Whole(list[0], r.trades[0], r.done[0])
    ensures PriceTimeFair(resting, limit, list, left, symbol, taker, r) <==>
      PriceTimeFair(resting, limit, list[1..], left - list[0].Rem(), symbol, taker,
                    Fills(r.list, r.left, r.trades[1..], r.done[1..]))
  {
    InOrderStep(resting, limit, list, symbol, taker, r.trades);
    AllWholeStep(list, r.trades, r.done);
    hide InOrder, AllWhole, Crosses, Serves;
    var n := |r.done|;
    if n < |list| {
      assert list[n..] == list[1..][n - 1..] && list[n + 1..] == list[1..][n..];
    }
  }

  lemma FairFront(resting: Side, limit: Option<Price>, list: seq<OrderState>, left: int, symbol: Symbol, taker: OrderId)
    requires list != [] && 0 < left < list[0].Rem() && left < TWO_64 && Crosses(resting, limit, list[0].price)
    ensures PriceTimeFair(resting, limit, list, left, symbol, taker,
              Fills([Fill(list[0], left)] + list[1..], 0, [Trade(symbol, list[0].price, left, list[0].id, taker)], []))
  {
    var t := Trade(symbol, list[0].price, left, list[0].id, taker);
    assert Volume([t]) == left by { assert [t][1..] == []; }
    assert Serves(resting, limit, list[0], symbol, taker, t);
    hide Serves, Volume, Crosses;
  }

  lemma {:induction false} GreedyIsFair(resting: Side, limit: Option<Price>, list: seq<OrderState>, left: Quantity,
                                        symbol: Symbol, taker: OrderId)
    requires Live(list)
    ensures PriceTimeFair(resting, limit, list, left, symbol, taker, Greedy(resting, limit, list, left, symbol, taker))
  {
    hide PriceTimeFair, Greedy, Live, Crosses, Fill;
    if left == 0 || list == [] || !Crosses(resting, limit, list[0].price) {
      GreedyStops(resting, limit, list, left, symbol, taker);
      FairStops(resting, limit, list, left, symbol, taker);
    } else {
      FrontLeft(list);
      if list[0].Rem() <= left {
        GreedyWhole(resting, limit, list, left, symbol, taker);
        GreedyIsFair(resting, limit, list[1..], left - list[0].Rem(), symbol, taker);
        var r := Greedy(resting, limit, list, left, symbol, taker);
        var r' := Greedy(resting, limit, list[1..], left - list[0].Rem(), symbol, taker);
        assert r' == Fills(r.list, r.left, r.trades[1..], r.done[1..]);
        FrontServed(resting, limit, list[0], symbol, taker);
        FairStep(resting, limit, list, left, symbol, taker, r);
      } else {
        GreedyPartial(resting, limit, list, left, symbol, taker);
        FairFront(resting, limit, list, left, symbol, taker);
      }
    }
  }

  lemma FairStops(resting: Side, limit: Option<Price>, list: seq<OrderState>, left: int, symbol: Symbol, taker: OrderId)
    requires left == 0 || list == [] || !Crosses(resting, limit, list[0].price)
    requires left >= 0
    ensures PriceTimeFair(resting, limit, list, left, symbol, taker, Fills(list, left, [], []))
  {
    hide Crosses;
    assert list[0..] == list;
  }

  lemma FrontServed(resting: Side, limit: Option<Price>, m: OrderState, symbol: Symbol, taker: OrderId)
    requires m.filled < m.quantity && Crosses(resting, limit, m.price)
    ensures var t := Trade(symbol, m.price, m.Rem(), m.id, taker);
      Serves(resting, limit, m, symbol, taker, t) && Whole(m, t, Fill(m, m.Rem()))
  {
  }

  /** Fairness determines the outcome: greedy matching is the only fair result. */
  lemma {:induction false} FairIsGreedy(resting: Side, limit: Option<Price>, list: seq<OrderState>, left: Quantity,
                                        symbol: Symbol, taker: OrderId, r: Fills)
    requires Live(list)
    requires PriceTimeFair(resting, limit, list, left, symbol, taker, r)
    ensures r == Greedy(resting, limit, list, left, symbol, taker)
    decreases |list|
  {
    hide PriceTimeFair, Greedy, Live, Serves, Whole, Crosses;
    if r.trades != [] && r.done != [] {
      FairWhole(resting, limit, list, left, symbol, taker, r);
      FrontLeft(list);
      GreedyWhole(resting, limit, list, left, symbol, taker);
      FairStep(resting, limit, list, left, symbol, taker, r);
      FairIsGreedy(resting, limit, list[1..], left - list[0].Rem(), symbol, taker,
                   Fills(r.list, r.left, r.trades[1..], r.done[1..]));
      assert r.trades == [r.trades[0]] + r.trades[1..] && r.done == [r.done[0]] + r.done[1..];
    } else if r.trades != [] {
      FairPartial(resting, limit, list, left, symbol, taker, r);
      GreedyPartial(resting, limit, list, left, symbol, taker);
    } else {
      FairNothing(resting, limit, list, left, symbol, taker, r);
      GreedyStops(resting, limit, list, left, symbol, taker);
    }
  }

  lemma FrontLeft(list: seq<OrderState>)
    requires Live(list) && list != []
    ensures list[0].filled < list[0].quantity
  {
  }

  /** A fair run with a trade but no filled maker is one partial fill of the front. */
  lemma FairPartial(resting: Side, limit: Option<Price>, list: seq<OrderState>, left: Quantity,
                    symbol: Symbol, taker: OrderId, r: Fills)
    requires PriceTimeFair(resting, limit, list, left, symbol, taker, r) && r.trades != [] && r.done == []
    ensures list != [] && 0 < left < list[0].Rem() && Crosses(resting, limit, list[0].price)
    ensures r == Fills([Fill(list[0], left)] + list[1..], 0, [Trade(symbol, list[0].price, left, list[0].id, taker)], [])
  {
    hide Crosses;
    assert Serves(resting, limit, list[0], symbol, taker, r.trades[0]);
    assert |r.trades| == 1 && r.trades[1..] == [];
    assert Volume(r.trades) == r.trades[0].quantity + Volume(r.trades[1..]);
    assert r.trades == [r.trades[0]];
  }

  /** A fair run without trades has nothing to do. */
  lemma FairNothing(resting: Side, limit: Option<Price>, list: seq<OrderState>, left: Quantity,
                    symbol: Symbol, taker: OrderId, r: Fills)
    requires PriceTimeFair(resting, limit, list, left, symbol, taker, r) && r.trades == []
    ensures left == 0 || list == [] || !Crosses(resting, limit, list[0].price)
    ensures r == Fills(list, left, [], [])
  {
    hide Crosses;
    assert r.done == [] && list[0..] == list;
  }

  /** The front of a fair run that fills an order. */
  lemma FairWhole(resting: Side, limit: Option<Price>, list: seq<OrderState>, left: Quantity,
                  symbol: Symbol, taker: OrderId, r: Fills)
    requires PriceTimeFair(resting, limit, list, left, symbol, taker, r) && r.trades != [] && r.done != []
    ensures list != [] && list[0].Rem() <= left && 0 < left && Crosses(resting, limit, list[0].price)
    ensures Whole(list[0], r.trades[0], r.done[0]) && Serves(resting, limit, list[0], symbol, taker, r.trades[0])
    ensures r.trades[0] == Trade(symbol, list[0].price, list[0].Rem(), list[0].id, taker)
    ensures list[0].filled < list[0].quantity ==> r.done[0] == Fill(list[0], list[0].Rem())
  {
    assert Whole(list[0], r.trades[0], r.done[0]) && Serves(resting, limit, list[0], symbol, taker, r.trades[0]);
    VolumePositive(r.trades[1..]);
    hide InOrder, AllWhole, Crosses;
  }

  lemma VolumePositive(trades: seq<Trade>)
    ensures Volume(trades) >= 0
    ensures (exists i :: 0 <= i < |trades| && trades[i].quantity > 0) ==> Volume(trades) > 0
  {
    if trades != [] {
      VolumePositive(trades[1..]);
      if trades[0].quantity == 0 {
        forall i | 0 <= i < |trades| && trades[i].quantity > 0 ensures trades[1..][i - 1] == trades[i] {}
      }
    }
  }
}
