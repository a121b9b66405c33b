/** Orders, price levels and the order book as mutable objects, proved against Matching. */
module OrderBooks {
  import opened Types
  import opened Matching
  import opened Inspection

  class Order {
    const id: OrderId
    const symbol: Symbol
    const side: Side
    const kind: OrderType
    const price: Price
    const quantity: Quantity
    var filledQty: Quantity
    var status: OrderStatus

    constructor (id: OrderId, symbol: Symbol, side: Side, kind: OrderType, price: Price, quantity: Quantity)
      ensures State() == OrderState(id, symbol, side, kind, price, quantity, 0, PENDING)
    {
      this.id, this.symbol, this.side, this.kind := id, symbol, side, kind;
      this.price, this.quantity, this.filledQty, this.status := price, quantity, 0, PENDING;
    }

    ghost function State(): OrderState
      reads this
    {
      OrderState(id, symbol, side, kind, price, quantity, filledQty, status)
    }

    function RemainingQty(): Quantity
      reads this
    {
      WrapSub(quantity, filledQty)
    }

    predicate IsFilled()
      reads this
    {
      filledQty >= quantity
    }
  }

  ghost function States(os: seq<Order>): (r: seq<OrderState>)
    reads os
    ensures |r| == |os| && forall i :: 0 <= i < |os| ==> r[i] == os[i].State()
  {
    seq(|os|, i requires 0 <= i < |os| reads os => os[i].State())
  }

  /** The resting orders at one price. Symbol and side say which map the level lives in. */
  class PriceLevel {
    const price: Price
    ghost const symbol: Symbol
    ghost const side: Side
    var orders: seq<Order>
    var totalQty: Quantity

    constructor (price: Price, ghost symbol: Symbol, ghost side: Side)
      ensures this.price == price && this.symbol == symbol && this.side == side
      ensures orders == [] && totalQty == 0
    {
      this.price, this.symbol, this.side := price, symbol, side;
      orders, totalQty := [], 0;
    }

    ghost function State(): LevelState
      reads this, orders
    {
      LevelState(price, States(orders), totalQty)
    }

    method AddOrder(order: Order)
      modifies this
      ensures orders == old(orders) + [order]
      ensures State() == Append(old(State()), order.State())
    {
      WrapTwice(totalQty, order.quantity, order.filledQty);
      totalQty := WrapAdd(totalQty, order.RemainingQty());
      orders := orders + [order];
    }

    /** Remove the first order with this id, if there is one. */
    method RemoveOrder(id: OrderId) returns (found: bool)
      modifies this
      ensures var k := FindId(old(States(orders)), id);
        && found == (k < |old(orders)|)
        && orders == (if found then old(orders)[..k] + old(orders)[k + 1..] else old(orders))
        && State() == (if found then RemoveAt(old(State()), k) else old(State()))
    {
      var i := 0;
      while i < |orders|
        invariant i <= |orders|
        invariant forall j :: 0 <= j < i ==> orders[j].id != id
        invariant orders == old(orders) && totalQty == old(totalQty)
      {
        if orders[i].id == id {
          assert FindId(States(orders), id) == i;
          WrapTwice(totalQty, orders[i].quantity, orders[i].filledQty);
          totalQty := WrapSub(totalQty, orders[i].RemainingQty());
          orders := orders[..i] + orders[i + 1..];
          hide FindId, WrapSub;
          assert States(orders) == old(States(orders))[..i] + old(States(orders))[i + 1..];
          return true;
        }
        i := i + 1;
      }
      assert FindId(States(orders), id) == |orders|;
      return false;
    }

    function Front(): Option<Order>
      reads this
    {
      if orders == [] then None else Some(orders[0])
    }

    method PopFront()
      modifies this
      ensures orders == (if old(orders) == [] then [] else old(orders)[1..])
      ensures totalQty == (if old(orders) == [] then old(totalQty) else WrapSub(old(totalQty), old(orders[0].State().Rem())))
    {
      if orders != [] {
        WrapTwice(totalQty, orders[0].quantity, orders[0].filledQty);
        totalQty := WrapSub(totalQty, orders[0].RemainingQty());
        orders := orders[1..];
      }
    }

    /** Called when the front order traded; clamps at zero. */
    method UpdateTotalQty(filled: Quantity)
      modifies this`totalQty
      ensures totalQty == SaturatingSub(old(totalQty), filled)
    {
      totalQty := if totalQty >= filled then totalQty - filled else 0;
    }

    predicate Empty()
      reads this
    {
      orders == []
    }
  }

  lemma StatesAppend(os: seq<Order>, o: Order)
    ensures States(os + [o]) == States(os) + [o.State()]
  {
  }

  twostate lemma StatesKept(os: seq<Order>)
    requires forall k :: 0 <= k < |os| ==> old(allocated(os[k])) && unchanged(os[k])
    ensures States(os) == old(States(os))
  {
  }

  ghost function OrdersOf(ls: seq<PriceLevel>): set<Order>
    reads ls
  {
    set i, o | 0 <= i < |ls| && o in ls[i].orders :: o
  }

  ghost function SideState(ls: seq<PriceLevel>): (r: seq<LevelState>)
    reads ls, OrdersOf(ls)
    ensures |r| == |ls| && forall i :: 0 <= i < |ls| ==> r[i] == ls[i].State()
  {
    seq(|ls|, i requires 0 <= i < |ls| reads ls, OrdersOf(ls) =>
      assert forall o :: o in ls[i].orders ==> o in OrdersOf(ls);
      ls[i].State())
  }

  ghost function LevelSet(ls: seq<PriceLevel>): set<PriceLevel> {
    set l | l in ls
  }

  lemma InLevels(ls: seq<PriceLevel>, i: nat)
    requires i < |ls|
    ensures ls[i] in LevelSet(ls)
  {
  }

  ghost function OrderSet(os: seq<Order>): set<Order> {
    set o | o in os
  }

  /** A queue without its front order, before the other orders of the side. */
  lemma FrontGone(os: seq<Order>, rest: set<Order>)
    requires os != [] && os[0] !in os[1..] && os[0] !in rest
    ensures OrderSet(os[1..]) + rest == OrderSet(os) + rest - {os[0]}
    ensures os[1..] == [] ==> rest == OrderSet(os) + rest - {os[0]}
  {
    assert os == [os[0]] + os[1..];
  }

  lemma SideCons(ls: seq<PriceLevel>)
    requires ls != []
    ensures OrdersOf(ls) == OrderSet(ls[0].orders) + OrdersOf(ls[1..])
    ensures SideState(ls) == [ls[0].State()] + SideState(ls[1..])
    ensures SideState(ls)[1..] == SideState(ls[1..])
  {
    forall o | o in OrdersOf(ls[1..]) ensures o in OrdersOf(ls) {
      var i :| 0 <= i < |ls[1..]| && o in ls[1..][i].orders;
      assert o in ls[i + 1].orders;
    }
    forall o | o in OrdersOf(ls) && o !in ls[0].orders ensures o in OrdersOf(ls[1..]) {
      var i :| 0 <= i < |ls| && o in ls[i].orders;
      assert o in ls[1..][i - 1].orders;
    }
  }

  /** All levels of one map, and their orders, carry its symbol and side. */
  ghost predicate Tagged(ls: seq<PriceLevel>, symbol: Symbol, side: Side)
    reads ls
  {
    LevelsTagged(ls, symbol, side) && OrdersTagged(OrdersOf(ls), symbol, side)
  }

  ghost predicate LevelsTagged(ls: seq<PriceLevel>, symbol: Symbol, side: Side) {
    forall i :: 0 <= i < |ls| ==> ls[i].symbol == symbol && ls[i].side == side
  }

  ghost predicate OrdersTagged(os: set<Order>, symbol: Symbol, side: Side) {
    forall o :: o in os ==> o.symbol == symbol && o.side == side
  }

  lemma OneMoreTagged(os: set<Order>, o: Order, symbol: Symbol, side: Side)
    requires OrdersTagged(os, symbol, side) && o.symbol == symbol && o.side == side
    ensures OrdersTagged(os + {o}, symbol, side)
  {
  }

  lemma TaggedFrom(ls: seq<PriceLevel>, levels: seq<PriceLevel>, orders: set<Order>, symbol: Symbol, side: Side)
    requires LevelsTagged(levels, symbol, side) && OrdersTagged(orders, symbol, side)
    requires forall i :: 0 <= i < |ls| ==> ls[i] in levels
    requires OrdersOf(ls) <= orders
    ensures Tagged(ls, symbol, side)
  {
  }

  lemma LevelTagged(ls: seq<PriceLevel>, level: PriceLevel, symbol: Symbol, side: Side)
    requires LevelsTagged(ls, symbol, side) && level.symbol == symbol && level.side == side
    ensures LevelsTagged(ls + [level], symbol, side)
  {
  }

  lemma InOrders(ls: seq<PriceLevel>, i: nat, k: nat)
    requires i < |ls| && k < |ls[i].orders|
    ensures ls[i].orders[k] in OrdersOf(ls)
  {
    assert ls[i].orders[k] in ls[i].orders;
  }

  lemma InOrdersAll(ls: seq<PriceLevel>, i: nat)
    requires i < |ls|
    ensures (set o | o in ls[i].orders) <= OrdersOf(ls)
  {
  }

  lemma OrdersAllocated(ls: seq<PriceLevel>)
    ensures forall o :: o in OrdersOf(ls) ==> allocated(o)
  {
  }

  /** A map whose levels and orders are unchanged has the same state. */
  twostate lemma SideKept(ls: seq<PriceLevel>)
    requires forall l :: l in LevelSet(ls) ==> old(allocated(l)) && unchanged(l)
    requires forall o :: o in old(OrdersOf(ls)) ==> unchanged(o)
    ensures SideState(ls) == old(SideState(ls)) && OrdersOf(ls) == old(OrdersOf(ls))
  {
    assert forall i :: 0 <= i < |ls| ==> ls[i] in LevelSet(ls);
    assert OrdersOf(ls) == old(OrdersOf(ls));
    forall i | 0 <= i < |ls| ensures ls[i].State() == old(ls[i].State()) {
      forall k | 0 <= k < |ls[i].orders| ensures ls[i].orders[k].State() == old(ls[i].orders[k].State()) {
        InOrders(ls, i, k);
      }
    }
  }

  /** The front level and its front order occur only once on the side. */
  ghost predicate FrontApart(ls: seq<PriceLevel>)
    reads ls
  {
    ls != [] && ls[0] !in ls[1..] && ls[0].orders != []
    && ls[0].orders[0] !in ls[0].orders[1..] && ls[0].orders[0] !in OrdersOf(ls[1..])
  }

  /** The front order of a side and the taker t have traded as much as both allow: the book b
      became b', the taker t', the front order m. */
  ghost predicate Traded(side: Side, b: BookState, t: OrderState, b': BookState, t': OrderState, trade: Trade, m: OrderState) {
    FrontLive(side, b) && t.filled <= t'.filled && var front := b.Levels(side)[0].orders[0];
    var q := t'.filled - t.filled;
    && q == Min(t.Rem(), front.Rem())
    && b' == FillBook(side, b, q) && t' == t.(filled := t'.filled) && m == Fill(front, q)
    && trade == Trade(b.symbol, front.price, q, front.id, t.id)
  }

  /** That is one step of the matching loop. */
  lemma TradedIsStep(side: Side, s: DrainState, b: BookState, t: OrderState, trade: Trade, m: OrderState)
    requires Drainable(s) && s.taker.Rem() > 0
    requires Traded(side, s.book, s.taker, b, t, trade, m)
    ensures s.book.Levels(side) != []
    ensures DrainState(b, t, s.trades + [trade], if m.IsFilled() then s.done + [m] else s.done) == Step(side, s)
  {
    hide BookOk, FillBook;
  }

  lemma TradedFrom(side: Side, b: BookState, t: OrderState, q: Quantity)
    requires FrontLive(side, b) && t.filled + q <= t.quantity && q == Min(t.Rem(), b.Levels(side)[0].orders[0].Rem())
    ensures var front := b.Levels(side)[0].orders[0];
      Traded(side, b, t, FillBook(side, b, q), t.(filled := t.filled + q),
             Trade(b.symbol, front.price, q, front.id, t.id), Fill(front, q))
  {
    hide FillBook;
  }

  /** A fill of the book is a new side and a new index. */
  lemma FillBookIs(side: Side, b: BookState, q: int)
    requires var ls := b.Levels(side);
      ls != [] && ls[0].orders != [] && 0 <= q && ls[0].orders[0].filled + q <= ls[0].orders[0].quantity
    ensures var ls := b.Levels(side);
      FillBook(side, b, q) == b.With(side, FillFront(ls, q),
        if Fill(ls[0].orders[0], q).IsFilled() then b.index - {ls[0].orders[0].id} else b.index)
  {
  }

  /** The two orders trade: both fills, the level's total, and the level's queue. */
  method Exchange(level: PriceLevel, front: Order, incoming: Order, fillQty: Quantity)
    requires level.orders != [] && level.orders[0] == front && front != incoming && incoming !in level.orders
    requires front !in level.orders[1..]
    requires front.filledQty + fillQty <= front.quantity && incoming.filledQty + fillQty <= incoming.quantity
    modifies level, front, incoming
    ensures front.State() == Fill(old(front.State()), fillQty)
    ensures incoming.State() == old(incoming.State()).(filled := old(incoming.filledQty) + fillQty)
    ensures level.orders == if front.IsFilled() then old(level.orders)[1..] else old(level.orders)
    ensures level.State() == LevelState(level.price,
              if front.IsFilled() then old(level.State().orders)[1..] else [front.State()] + old(level.State().orders)[1..],
              SaturatingSub(old(level.totalQty), fillQty))
  {
    ghost var os := States(level.orders);
    front.filledQty := front.filledQty + fillQty;
    incoming.filledQty := incoming.filledQty + fillQty;
    level.UpdateTotalQty(fillQty);
    if front.IsFilled() {
      front.status := FILLED;
      level.PopFront();
      assert States(level.orders) == os[1..];
    } else {
      front.status := PARTIALLY_FILLED;
      assert States(level.orders) == [front.State()] + os[1..];
    }
  }

  lemma NotOnSide(ls: seq<PriceLevel>, o: Order)
    requires ls != [] && o !in OrdersOf(ls)
    ensures o !in ls[0].orders && o !in OrdersOf(ls[1..])
  {
    hide OrdersOf;
    SideCons(ls);
  }

  /** The front level after a fill, in front of the others unless it is empty. */
  lemma FillFrontIs(ls: seq<LevelState>, q: int, l: LevelState)
    requires ls != [] && ls[0].orders != []
    requires 0 <= q && ls[0].orders[0].filled + q <= ls[0].orders[0].quantity
    requires var m := Fill(ls[0].orders[0], q);
      l == LevelState(ls[0].price, if m.IsFilled() then ls[0].orders[1..] else [m] + ls[0].orders[1..], SaturatingSub(ls[0].total, q))
    ensures FillFront(ls, q) == if l.orders == [] then ls[1..] else [l] + ls[1..]
  {
  }

  /** The effect of one trade on a side: the front level shrinks and disappears when empty. */
  method ExchangeFront(ls: seq<PriceLevel>, incoming: Order, fillQty: Quantity) returns (ls': seq<PriceLevel>)
    requires FrontApart(ls) && incoming !in OrdersOf(ls)
    requires var front := ls[0].orders[0];
      front.filledQty + fillQty <= front.quantity && incoming.filledQty + fillQty <= incoming.quantity
    modifies ls[0], ls[0].orders[0], incoming
    ensures var front := old(ls[0].orders[0]);
      && front.State() == Fill(old(front.State()), fillQty)
      && OrdersOf(ls') == old(OrdersOf(ls)) - (if front.IsFilled() then {front} else {})
    ensures incoming.State() == old(incoming.State()).(filled := old(incoming.filledQty) + fillQty)
    ensures SideState(ls') == FillFront(old(SideState(ls)), fillQty)
    ensures ls' == ls || ls' == ls[1..]
  {
    hide OrdersOf, SideState, FillFront, Fill, SaturatingSub, OrderSet;
    var level, front := ls[0], ls[0].orders[0];
    ghost var rest, states := ls[1..], SideState(ls);
    NotOnSide(ls, incoming);
    FrontGone(level.orders, OrdersOf(rest));
    SideCons(ls);
    OrdersAllocated(rest);
    Exchange(level, front, incoming, fillQty);
    SideKept(rest);
    SideCons(ls);
    FillFrontIs(states, fillQty, level.State());
    if level.Empty() {
      ls' := ls[1..];
    } else {
      ls' := ls;
    }
  }

  // ---------------------------------------------------------------- one level of a map

  /** The number of levels with priority over price p: where a map keyed by price holds p. */
  function Position(side: Side, ls: seq<PriceLevel>, p: Price): (i: nat)
    ensures i <= |ls|
  {
    if ls == [] || Key(side, p) <= Key(side, ls[0].price) then 0 else 1 + Position(side, ls[1..], p)
  }

  lemma {:induction false} PositionIs(side: Side, ls: seq<PriceLevel>, p: Price)
    ensures Position(side, ls, p) == LowerBound(side, SideState(ls), p)
  {
    if ls != [] {
      SideCons(ls);
      PositionIs(side, ls[1..], p);
    }
  }

  /** Only level p of a map changed. */
  twostate lemma OneLevel(ls: seq<PriceLevel>, new p: nat)
    requires p < |ls|
    requires forall i :: 0 <= i < |ls| ==> old(allocated(ls[i]))
    requires forall i :: 0 <= i < |ls| && i != p ==> unchanged(ls[i])
    requires forall o :: o in old(OrdersOf(ls)) ==> unchanged(o)
    ensures SideState(ls) == old(SideState(ls))[p := ls[p].State()]
    ensures OrdersOf(ls) <= old(OrdersOf(ls)) + (set o | o in ls[p].orders)
  {
    forall i | 0 <= i < |ls| && i != p ensures ls[i].State() == old(ls[i].State()) {
      assert ls[i].orders == old(ls[i].orders);
      forall k | 0 <= k < |ls[i].orders| ensures ls[i].orders[k].State() == old(ls[i].orders[k].State()) {
        var o := ls[i].orders[k];
        assert o in ls[i].orders;
        assert o in old(OrdersOf(ls));
      }
    }
  }

  /** A map with one more level at position p. */
  lemma InsertLevel(ls: seq<PriceLevel>, p: nat, l: PriceLevel)
    requires p <= |ls|
    ensures SideState(ls[..p] + [l] + ls[p..]) == SideState(ls)[..p] + [l.State()] + SideState(ls)[p..]
    ensures OrdersOf(ls[..p] + [l] + ls[p..]) <= OrdersOf(ls) + (set o | o in l.orders)
  {
  }

  /** A map without the level at position p. */
  lemma DropLevel(ls: seq<PriceLevel>, p: nat)
    requires p < |ls|
    ensures SideState(ls[..p] + ls[p + 1..]) == SideState(ls)[..p] + SideState(ls)[p + 1..]
    ensures OrdersOf(ls[..p] + ls[p + 1..]) <= OrdersOf(ls)
  {
  }

  /** The levels of a valid side are different objects. */
  lemma LevelsApart(side: Side, ls: seq<PriceLevel>)
    requires SideOk(side, SideState(ls))
    ensures forall i, j :: 0 <= i < j < |ls| ==> ls[i] != ls[j]
  {
    forall i, j | 0 <= i < j < |ls| ensures ls[i] != ls[j] {
      assert Key(side, SideState(ls)[i].price) < Key(side, SideState(ls)[j].price);
    }
  }

  method AppendAt(ghost symbol: Symbol, ghost side: Side, ls: seq<PriceLevel>, p: nat, incoming: Order)
    requires p < |ls| && forall i :: 0 <= i < |ls| && i != p ==> ls[i] != ls[p]
    requires Tagged(ls, symbol, side) && incoming.symbol == symbol && incoming.side == side
    modifies ls[p]
    ensures SideState(ls) == old(SideState(ls))[p := Append(old(SideState(ls)[p]), incoming.State())]
    ensures OrdersOf(ls) <= old(OrdersOf(ls)) + {incoming} && Tagged(ls, symbol, side)
  {
    hide SideState, LevelsTagged, OrdersTagged;
    OrdersAllocated(ls);
    ghost var orders := OrdersOf(ls) + {incoming};
    OneMoreTagged(OrdersOf(ls), incoming, symbol, side);
    ls[p].AddOrder(incoming);
    OneLevel(ls, p);
    TaggedFrom(ls, ls, orders, symbol, side);
  }

  /** A new level with one order. */
  method MakeLevel(ghost symbol: Symbol, incoming: Order) returns (level: PriceLevel)
    ensures fresh(level) && level.price == incoming.price && level.symbol == symbol && level.side == incoming.side
    ensures level.orders == [incoming]
    ensures level.State() == Append(LevelState(incoming.price, [], 0), incoming.State())
  {
    level := new PriceLevel(incoming.price, symbol, incoming.side);
    level.AddOrder(incoming);
  }

  /** A new level with one order at position p. */
  method InsertAt(ghost symbol: Symbol, ghost side: Side, ls: seq<PriceLevel>, p: nat, incoming: Order)
      returns (ls': seq<PriceLevel>)
    requires p <= |ls| && Tagged(ls, symbol, side) && incoming.symbol == symbol && incoming.side == side
    ensures SideState(ls') == old(SideState(ls))[..p] + [Append(LevelState(incoming.price, [], 0), incoming.State())]
                              + old(SideState(ls))[p..]
    ensures OrdersOf(ls') <= old(OrdersOf(ls)) + {incoming} && fresh(LevelSet(ls') - LevelSet(ls))
    ensures Tagged(ls', symbol, side)
  {
    hide SideState, OrdersOf, LevelsTagged, OrdersTagged;
    OrdersAllocated(ls);
    ghost var orders := OrdersOf(ls) + {incoming};
    OneMoreTagged(OrdersOf(ls), incoming, symbol, side);
    var level := MakeLevel(symbol, incoming);
    SideKept(ls);
    InsertLevel(ls, p, level);
    ls' := ls[..p] + [level] + ls[p..];
    LevelTagged(ls, level, symbol, side);
    TaggedFrom(ls', ls + [level], orders, symbol, side);
  }

  /** Append an order to the level at its price, which is made if it is missing. */
  method RestAt(ghost symbol: Symbol, side: Side, ls: seq<PriceLevel>, incoming: Order) returns (ls': seq<PriceLevel>)
    requires SideOk(side, SideState(ls)) && incoming !in OrdersOf(ls) && Tagged(ls, symbol, side)
    requires incoming.symbol == symbol && incoming.side == side
    modifies LevelSet(ls)
    ensures SideState(ls') == RestIn(side, old(SideState(ls)), incoming.State())
    ensures OrdersOf(ls') <= old(OrdersOf(ls)) + {incoming} && fresh(LevelSet(ls') - LevelSet(ls))
    ensures Tagged(ls', symbol, side)
  {
    hide SideState, SideOk, Tagged, OrdersOf;
    PositionIs(side, ls, incoming.price);
    LevelsApart(side, ls);
    var i := Position(side, ls, incoming.price);
    if i < |ls| && ls[i].price == incoming.price {
      AppendAt(symbol, side, ls, i, incoming);
      ls' := ls;
    } else {
      ls' := InsertAt(symbol, side, ls, i, incoming);
    }
  }

  /** Remove an id from the level at position i, and the level if that empties it. */
  method RemoveFrom(ghost symbol: Symbol, side: Side, ls: seq<PriceLevel>, i: nat, id: OrderId) returns (ls': seq<PriceLevel>)
    requires SideOk(side, SideState(ls)) && Tagged(ls, symbol, side) && i < |ls|
    requires FindId(SideState(ls)[i].orders, id) < |SideState(ls)[i].orders|
    modifies ls[i]
    ensures LevelSet(ls') <= LevelSet(ls)
    ensures SideState(ls') == CutAt(old(SideState(ls)), i, FindId(old(SideState(ls))[i].orders, id))
    ensures OrdersOf(ls') <= old(OrdersOf(ls))
    ensures Tagged(ls', symbol, side)
  {
    hide SideState, SideOk, FindId, LevelsTagged, OrdersTagged, OrdersOf, RemoveAt;
    LevelsApart(side, ls);
    OrdersAllocated(ls);
    ghost var orders := OrdersOf(ls);
    InOrdersAll(ls, i);
    var found := ls[i].RemoveOrder(id);
    OneLevel(ls, i);
    if ls[i].Empty() {
      DropLevel(ls, i);
      ls' := ls[..i] + ls[i + 1..];
    } else {
      ls' := ls;
    }
    TaggedFrom(ls', ls, orders, symbol, side);
  }

  /** The level at this price holds the id. */
  ghost predicate HoldsAt(side: Side, ls: seq<PriceLevel>, price: Price, id: OrderId)
    reads ls, OrdersOf(ls)
  {
    var i := Position(side, ls, price);
    i < |ls| && ls[i].price == price && FindId(SideState(ls)[i].orders, id) < |SideState(ls)[i].orders|
  }

  /** Find the level at a price and remove the id from it. */
  method RemoveAtPrice(ghost symbol: Symbol, side: Side, ls: seq<PriceLevel>, price: Price, id: OrderId)
      returns (ls': seq<PriceLevel>)
    requires SideOk(side, SideState(ls)) && Tagged(ls, symbol, side) && HoldsAt(side, ls, price, id)
    modifies LevelSet(ls)
    ensures SideState(ls') == RemoveIn(side, old(SideState(ls)), price, id)
    ensures OrdersOf(ls') <= old(OrdersOf(ls)) && LevelSet(ls') <= LevelSet(ls) && Tagged(ls', symbol, side)
  {
    PositionIs(side, ls, price);
    hide SideState, OrdersOf, SideOk, Tagged, CutAt, FindId, Position, LevelSet;
    var i := Position(side, ls, price);
    ls' := ls;
    if i < |ls| && ls[i].price == price {
      InLevels(ls, i);
      ls' := RemoveFrom(symbol, side, ls, i, id);
    }
  }

  /** An indexed order sits at the position its price leads to. */
  lemma IndexedPosition(b: BookState, id: OrderId, i: nat, k: nat)
    requires BookOk(b) && id in b.index
    requires var ls := b.Levels(b.index[id].side); i < |ls| && k < |ls[i].orders| && ls[i].orders[k].id == id
    ensures var loc := b.index[id];
      LowerBound(loc.side, b.Levels(loc.side), loc.price) == i && b.Levels(loc.side)[i].price == loc.price
      && FindId(b.Levels(loc.side)[i].orders, id) == k
  {
    BookSide(b, b.index[id].side);
    hide BookOk;
    assert LevelOk(b.index[id].side, b.Levels(b.index[id].side)[i]);
  }

  /** The outcome of addOrder: book, order and trades are what Matching.AddOrder makes of them. */
  ghost predicate Placed(b: BookState, o: OrderState, b': BookState, o': OrderState, trades: seq<Trade>) {
    BookOk(b) && Incoming(b, o) && var r := AddOrder(b, o);
    b' == r.book && o' == r.order && trades == r.trades
  }

  /** Matching changes nothing of the taker but its fill. */
  lemma DrainOrderFrame(b: BookState, o: OrderState)
    requires BookOk(b) && Incoming(b, o)
    ensures var d := DrainOrder(b, o);
      d.book.symbol == b.symbol && d.taker == o.(filled := d.taker.filled) && d.taker.filled <= o.quantity
  {
    hide BookOk;
    DrainOk(Opposite(o.side), Limit(o), DrainState(b, o, [], []));
    hide Drain;
  }

  /** What a limit order becomes after matching, and that its remainder may rest. */
  lemma LimitOutcome(b: BookState, o: OrderState)
    requires BookOk(b) && Incoming(b, o) && o.kind == LIMIT && o.status == ACCEPTED
    ensures var d := DrainOrder(b, o);
      var t := d.taker.(status := if d.taker.filled == 0 then ACCEPTED
                                  else if d.taker.IsFilled() then FILLED else PARTIALLY_FILLED);
      && AddOrder(b, o) == AddResult(if t.IsFilled() then d.book else RestOrder(d.book, t), t, d.trades, d.done)
      && (!t.IsFilled() ==> BookOk(RestOrder(d.book, t)))
  {
    hide BookOk, RestOrder, Drain;
    DrainOrderFrame(b, o);
    if !DrainOrder(b, o).taker.IsFilled() { LimitRests(b, o); }
  }

  /** The order is marked ACCEPTED before anything else happens. */
  lemma AcceptedFirst(b: BookState, o: OrderState)
    requires BookOk(b) && Incoming(b, o)
    ensures Incoming(b, o.(status := ACCEPTED)) && AddOrder(b, o.(status := ACCEPTED)) == AddOrder(b, o)
  {
    hide BookOk, Drain, RestRemainder;
  }

  class OrderBook {
    const symbol: Symbol
    var bids: seq<PriceLevel>
    var asks: seq<PriceLevel>
    var index: map<OrderId, Location>

    constructor (symbol: Symbol)
      ensures Valid() && bids == [] && asks == []
      ensures State() == BookState(symbol, [], [], map[])
    {
      this.symbol := symbol;
      bids, asks, index := [], [], map[];
    }

    function LevelsOf(side: Side): seq<PriceLevel>
      reads this
    {
      if side == BUY then bids else asks
    }

    ghost function AllLevels(): set<PriceLevel>
      reads this
    {
      LevelSet(bids) + LevelSet(asks)
    }

    ghost function AllOrders(): set<Order>
      reads this, bids, asks
    {
      OrdersOf(bids) + OrdersOf(asks)
    }

    ghost function State(): (b: BookState)
      reads this, bids, asks, OrdersOf(bids), OrdersOf(asks)
      ensures b.symbol == symbol && b.index == index
      ensures forall side :: b.Levels(side) == SideState(LevelsOf(side))
    {
      BookState(symbol, SideState(bids), SideState(asks), index)
    }

    /** The representation invariant: BookOk of the state, and the tags that keep maps apart. */
    ghost predicate Valid()
      reads this, bids, asks, OrdersOf(bids), OrdersOf(asks)
    {
      Tagged(bids, symbol, BUY) && Tagged(asks, symbol, SELL) && BookOk(State())
    }

    /** The side ls and the index ix fit beside the other side, whose state is that of b. */
    ghost predicate Fits(side: Side, ls: seq<PriceLevel>, ix: map<OrderId, Location>, b: BookState)
      reads this, LevelsOf(Opposite(side)), OrdersOf(LevelsOf(Opposite(side))), ls, OrdersOf(ls)
    {
      && symbol == b.symbol && SideState(LevelsOf(Opposite(side))) == b.Levels(Opposite(side))
      && Tagged(ls, symbol, side) && Tagged(LevelsOf(Opposite(side)), symbol, Opposite(side))
      && BookOk(b.With(side, SideState(ls), ix))
    }

    lemma FitsFrom(side: Side, ls: seq<PriceLevel>, ix: map<OrderId, Location>, b: BookState)
      requires symbol == b.symbol && SideState(LevelsOf(Opposite(side))) == b.Levels(Opposite(side))
      requires Tagged(ls, symbol, side) && Tagged(LevelsOf(Opposite(side)), symbol, Opposite(side))
      requires BookOk(b.With(side, SideState(ls), ix))
      ensures Fits(side, ls, ix, b)
    {
    }

    /** Store a new side and index; b is the state the other side still has. */
    method Install(side: Side, ls: seq<PriceLevel>, ix: map<OrderId, Location>, ghost b: BookState)
      requires Fits(side, ls, ix, b)
      modifies this
      ensures Valid() && State() == b.With(side, old(SideState(ls)), ix)
      ensures LevelsOf(side) == ls && LevelsOf(Opposite(side)) == old(LevelsOf(Opposite(side)))
      ensures OrdersOf(ls) == old(OrdersOf(ls))
      ensures OrdersOf(LevelsOf(Opposite(side))) == old(OrdersOf(LevelsOf(Opposite(side))))
    {
      hide BookOk, Tagged, OrdersOf, SideState;
      OrdersAllocated(ls);
      OrdersAllocated(LevelsOf(Opposite(side)));
      if side == BUY { bids := ls; } else { asks := ls; }
      index := ix;
      SideKept(ls);
      SideKept(LevelsOf(Opposite(side)));
    }

    /** What the front of a side does not share with the rest of the book. */
    lemma FrontAlone(side: Side)
      requires Valid() && LevelsOf(side) != []
      ensures FrontApart(LevelsOf(side))
      ensures var level, other := LevelsOf(side)[0], LevelsOf(Opposite(side));
        && level !in other && var maker := level.orders[0];
        && maker !in OrdersOf(other) && maker in OrdersOf(LevelsOf(side))
        && maker.filledQty < maker.quantity && maker.price == level.price
    {
      hide BookOk;
      var b, ls := State(), SideState(LevelsOf(side));
      BookSide(b, side);
      FrontIsLive(side, ls);
      var level, rest := LevelsOf(side)[0], LevelsOf(side)[1..];
      var maker := level.orders[0];
      InOrders(LevelsOf(side), 0, 0);
      forall k | 0 < k < |level.orders| ensures level.orders[k] != maker {
        assert ls[0].orders[k].id != ls[0].orders[0].id;
      }
      forall i | 0 <= i < |rest| ensures rest[i] != level && maker !in rest[i].orders {
        assert ls[i + 1].price != ls[0].price;
      }
    }

    lemma ValidTags(side: Side)
      requires Valid()
      ensures Tagged(LevelsOf(side), symbol, side) && Tagged(LevelsOf(Opposite(side)), symbol, Opposite(side))
      ensures BookOk(State())
    {
      hide BookOk, OrdersOf, SideState;
    }

    /** The front order of the side trades with the incoming one; ls is what remains of the side. */
    method TradeOn(side: Side, incoming: Order) returns (ls: seq<PriceLevel>, trade: Trade, maker: Order)
      requires Valid() && LevelsOf(side) != []
      requires incoming !in AllOrders() && incoming.filledQty < incoming.quantity
      modifies LevelSet(LevelsOf(side)), OrdersOf(LevelsOf(side)), incoming
      ensures Fits(side, ls, if maker.IsFilled() then index - {maker.id} else index, old(State()))
      ensures Traded(side, old(State()), old(incoming.State()),
                old(State()).With(side, SideState(ls), if maker.IsFilled() then index - {maker.id} else index),
                incoming.State(), trade, maker.State())
      ensures maker in old(OrdersOf(LevelsOf(side)))
      ensures OrdersOf(ls) == old(OrdersOf(LevelsOf(side))) - (if maker.IsFilled() then {maker} else {})
      ensures OrdersOf(LevelsOf(Opposite(side))) == old(OrdersOf(LevelsOf(Opposite(side))))
      ensures LevelSet(ls) <= LevelSet(LevelsOf(side))
    {
      hide BookOk, FillFront, OrdersOf, SideState, FillBook, Traded, OrdersTagged, LevelsTagged, Fits, Fill, BookState.With;
      hide State, Valid;
      FrontAlone(side);
      ValidTags(side);
      ghost var b, levels, other := State(), LevelsOf(side), LevelsOf(Opposite(side));
      ghost var mine := OrdersOf(LevelsOf(side));
      maker := LevelsOf(side)[0].Front().value;
      var fillQty := Min(incoming.RemainingQty(), maker.RemainingQty());
      FillBookOk(side, b, fillQty);
      FillBookIs(side, b, fillQty);
      TradedFrom(side, b, incoming.State(), fillQty);
      trade := Trade(symbol, maker.price, fillQty, maker.id, incoming.id);
      OrdersAllocated(other);
      ls := ExchangeFront(LevelsOf(side), incoming, fillQty);
      SideKept(other);
      TaggedFrom(ls, levels, mine, symbol, side);
      FitsFrom(side, ls, if maker.IsFilled() then index - {maker.id} else index, b);
    }

    /** One pass of the matching loop: the front order of the side trades with the incoming one. */
    method TradeFront(side: Side, incoming: Order) returns (trade: Trade, ghost maker: Order)
      requires Valid() && LevelsOf(side) != []
      requires incoming !in AllOrders() && incoming.filledQty < incoming.quantity
      modifies this, LevelSet(LevelsOf(side)), OrdersOf(LevelsOf(side)), incoming
      ensures Valid()
      ensures Traded(side, old(State()), old(incoming.State()), State(), incoming.State(), trade, maker.State())
      ensures maker in old(OrdersOf(LevelsOf(side)))
      ensures OrdersOf(LevelsOf(side)) == old(OrdersOf(LevelsOf(side))) - (if maker.IsFilled() then {maker} else {})
      ensures LevelsOf(Opposite(side)) == old(LevelsOf(Opposite(side)))
      ensures OrdersOf(LevelsOf(Opposite(side))) == old(OrdersOf(LevelsOf(Opposite(side))))
      ensures LevelSet(LevelsOf(side)) <= old(LevelSet(LevelsOf(side)))
    {
      hide BookOk, Traded, OrdersOf, SideState, Fits, Valid, State;
      ghost var b := State();
      var ls, traded, front := TradeOn(side, incoming);
      ghost var m, t := front.State(), incoming.State();
      Install(side, ls, if front.IsFilled() then index - {front.id} else index, b);
      trade, maker := traded, front;
      assert front.State() == m && incoming.State() == t;
    }

    lemma ValidBook()
      requires Valid()
      ensures BookOk(State())
    {
    }

    /** The loop's view: book, incoming order, trades so far, makers filled so far. */
    ghost function Progress(incoming: Order, trades: seq<Trade>, done: seq<Order>): DrainState
      reads this, bids, asks, OrdersOf(bids), OrdersOf(asks), incoming, done
    {
      DrainState(State(), incoming.State(), trades, States(done))
    }

    /** One pass with its bookkeeping: the trade is recorded, a filled maker leaves the book. */
    method Pass(side: Side, incoming: Order, trades: seq<Trade>, ghost done: seq<Order>)
        returns (trades': seq<Trade>, ghost done': seq<Order>)
      requires Valid() && incoming !in AllOrders() && incoming.filledQty < incoming.quantity
      requires LevelsOf(side) != [] && Drainable(Progress(incoming, trades, done))
      requires forall o :: o in done ==> o !in OrdersOf(LevelsOf(side)) && o != incoming
      modifies this, LevelSet(LevelsOf(side)), OrdersOf(LevelsOf(side)), incoming
      ensures Valid()
      ensures Progress(incoming, trades', done') == Step(side, old(Progress(incoming, trades, done)))
      ensures LevelsOf(Opposite(side)) == old(LevelsOf(Opposite(side)))
      ensures OrdersOf(LevelsOf(Opposite(side))) == old(OrdersOf(LevelsOf(Opposite(side))))
      ensures LevelSet(LevelsOf(side)) <= old(LevelSet(LevelsOf(side)))
      ensures done' == done || (exists m :: m in old(OrdersOf(LevelsOf(side))) && done' == done + [m])
      ensures OrdersOf(LevelsOf(side)) == old(OrdersOf(LevelsOf(side))) - (set o | o in done')
    {
      hide BookOk, OrdersOf, SideState, Step, LevelSet, Traded, State, States, Valid;
      ghost var cur := Progress(incoming, trades, done);
      ghost var maker;
      var trade;
      trade, maker := TradeFront(side, incoming);
      StatesKept(done);
      StatesAppend(done, maker);
      trades' := trades + [trade];
      done' := if maker.IsFilled() then done + [maker] else done;
      TradedIsStep(side, cur, State(), incoming.State(), trade, maker.State());
    }

    /** The loop's tests decide whether the drain can step. */
    lemma Steppable(side: Side, incoming: Order, limit: Option<Price>, trades: seq<Trade>, done: seq<Order>)
      requires Drainable(Progress(incoming, trades, done))
      ensures 0 <= Progress(incoming, trades, done).taker.Rem() == incoming.quantity - incoming.filledQty
      ensures CanStep(side, limit, Progress(incoming, trades, done)) <==>
        incoming.RemainingQty() > 0 && LevelsOf(side) != [] && Crosses(side, limit, LevelsOf(side)[0].price)
    {
      hide BookOk, OrdersOf, Crosses;
    }

    lemma ProgressOk(incoming: Order)
      requires Valid() && incoming.filledQty <= incoming.quantity
      ensures Drainable(Progress(incoming, [], []))
    {
      hide BookOk, OrdersOf, SideState;
    }

    /** Match until the incoming order is filled, the side is empty or the price fails. */
    method DrainSide(side: Side, incoming: Order, limit: Option<Price>) returns (trades: seq<Trade>, ghost done: seq<Order>)
      requires Valid() && incoming !in AllOrders() && incoming.filledQty <= incoming.quantity
      modifies this, LevelSet(LevelsOf(side)), OrdersOf(LevelsOf(side)), incoming
      ensures Valid()
      ensures var s := old(Progress(incoming, [], []));
        Drainable(s) && Progress(incoming, trades, done) == Drain(side, limit, s)
      ensures LevelsOf(Opposite(side)) == old(LevelsOf(Opposite(side)))
      ensures OrdersOf(LevelsOf(Opposite(side))) == old(OrdersOf(LevelsOf(Opposite(side))))
      ensures LevelSet(LevelsOf(side)) <= old(LevelSet(LevelsOf(side)))
      ensures OrdersOf(LevelsOf(side)) == old(OrdersOf(LevelsOf(side))) - (set o | o in done)
      ensures forall o :: o in done ==> o in old(OrdersOf(LevelsOf(side)))
    {
      hide BookOk, OrdersOf, SideState, Step, LevelSet, State, States, Valid, Drain, Crosses, Progress, CanStep, Drainable;
      ProgressOk(incoming);
      trades, done := [], [];
      ghost var s := Progress(incoming, [], []);
      Steppable(side, incoming, limit, [], []);
      while incoming.RemainingQty() > 0 && LevelsOf(side) != []
        invariant Valid() && incoming !in AllOrders() && incoming.filledQty <= incoming.quantity
        invariant Drainable(Progress(incoming, trades, done))
        invariant Drain(side, limit, Progress(incoming, trades, done)) == Drain(side, limit, s)
        invariant LevelsOf(Opposite(side)) == old(LevelsOf(Opposite(side)))
        invariant OrdersOf(LevelsOf(Opposite(side))) == old(OrdersOf(LevelsOf(Opposite(side))))
        invariant LevelSet(LevelsOf(side)) <= old(LevelSet(LevelsOf(side)))
        invariant OrdersOf(LevelsOf(side)) == old(OrdersOf(LevelsOf(side))) - (set o | o in done)
        invariant forall o :: o in done ==> o in old(OrdersOf(LevelsOf(side)))
        decreases incoming.quantity - incoming.filledQty
      {
        DrainUnfolds(side, limit, Progress(incoming, trades, done));
        Steppable(side, incoming, limit, trades, done);
        if !Crosses(side, limit, LevelsOf(side)[0].price) { break; }
        trades, done := Pass(side, incoming, trades, done);
        Steppable(side, incoming, limit, trades, done);
      }
      DrainUnfolds(side, limit, Progress(incoming, trades, done));
      Steppable(side, incoming, limit, trades, done);
    }

    /** What addOrder demands: a valid book, and an order for it that has not traded, does
        not rest here and whose id is not in use here. */
    ghost predicate Admits(order: Order)
      reads this, bids, asks, OrdersOf(bids), OrdersOf(asks), order
    {
      Valid() && order !in AllOrders() && Incoming(State(), order.State())
    }

    /** The side of a limit order with the remainder appended to its level. */
    method RestOn(incoming: Order) returns (ls: seq<PriceLevel>)
      requires Valid() && incoming !in AllOrders() && incoming.symbol == symbol
      requires BookOk(Matching.RestOrder(State(), incoming.State()))
      modifies LevelSet(LevelsOf(incoming.side))
      ensures SideState(ls) == RestIn(incoming.side, old(SideState(LevelsOf(incoming.side))), incoming.State())
      ensures Fits(incoming.side, ls, index[incoming.id := Location(incoming.side, incoming.price)], old(State()))
      ensures OrdersOf(ls) <= old(OrdersOf(LevelsOf(incoming.side))) + {incoming}
      ensures fresh(LevelSet(ls) - LevelSet(LevelsOf(incoming.side)))
      ensures OrdersOf(LevelsOf(Opposite(incoming.side))) == old(OrdersOf(LevelsOf(Opposite(incoming.side))))
    {
      hide BookOk, SideState, OrdersOf, RestIn, Valid, SideOk, Tagged;
      var side := incoming.side;
      ghost var other := LevelsOf(Opposite(side));
      ValidSide(side);
      OrdersAllocated(other);
      ls := RestAt(symbol, side, LevelsOf(side), incoming);
      SideKept(other);
    }

    /** Append the remainder of a limit order to its level and index it. */
    method RestOrder(incoming: Order)
      requires Valid() && incoming !in AllOrders() && incoming.symbol == symbol
      requires BookOk(Matching.RestOrder(State(), incoming.State()))
      modifies this, AllLevels()
      ensures Valid() && State() == Matching.RestOrder(old(State()), incoming.State())
      ensures AllOrders() <= old(AllOrders()) + {incoming} && fresh(AllLevels() - old(AllLevels()))
    {
      hide BookOk, SideState, OrdersOf, RestIn, Valid, Fits;
      ghost var b := State();
      var ls := RestOn(incoming);
      Install(incoming.side, ls, index[incoming.id := Location(incoming.side, incoming.price)], b);
    }

    lemma ValidSide(side: Side)
      requires Valid()
      ensures Tagged(LevelsOf(side), symbol, side) && SideOk(side, SideState(LevelsOf(side)))
      ensures Tagged(LevelsOf(Opposite(side)), symbol, Opposite(side))
      ensures LevelSet(LevelsOf(side)) !! LevelSet(LevelsOf(Opposite(side)))
    {
      hide BookOk;
      BookSide(State(), side);
      hide SideOk;
    }

    /** The side that holds an indexed order, without that order. */
    method RemoveOn(side: Side, price: Price, id: OrderId) returns (ls: seq<PriceLevel>)
      requires Valid() && HoldsAt(side, LevelsOf(side), price, id)
      modifies LevelSet(LevelsOf(side))
      ensures SideState(ls) == RemoveIn(side, old(SideState(LevelsOf(side))), price, id)
      ensures Tagged(ls, symbol, side) && Tagged(LevelsOf(Opposite(side)), symbol, Opposite(side))
      ensures SideState(LevelsOf(Opposite(side))) == old(SideState(LevelsOf(Opposite(side))))
      ensures OrdersOf(ls) <= old(OrdersOf(LevelsOf(side)))
      ensures OrdersOf(LevelsOf(Opposite(side))) == old(OrdersOf(LevelsOf(Opposite(side))))
      ensures LevelSet(ls) <= LevelSet(LevelsOf(side))
    {
      hide BookOk, SideState, OrdersOf, Valid, SideOk, Tagged, HoldsAt, RemoveIn;
      ghost var other := LevelsOf(Opposite(side));
      ValidSide(side);
      OrdersAllocated(other);
      ls := RemoveAtPrice(symbol, side, LevelsOf(side), price, id);
      SideKept(other);
    }

    /** In a valid book the level of an indexed order exists and holds it. */
    lemma RemovalOk(id: OrderId)
      requires Valid() && id in index
      ensures var loc := index[id];
        var ls := SideState(LevelsOf(loc.side));
        && HoldsAt(loc.side, LevelsOf(loc.side), loc.price, id)
        && BookOk(State().With(loc.side, RemoveIn(loc.side, ls, loc.price, id), index - {id}))
    {
      ValidBook();
      CancelOk(State(), id);
      var i, k := CancelCuts(State(), id);
      var loc := index[id];
      BookSide(State(), loc.side);
      IndexedPosition(State(), id, i, k);
      PositionIs(loc.side, LevelsOf(loc.side), loc.price);
    }

    /** Remove an indexed order from its level and from the index. */
    method Unlink(side: Side, price: Price, id: OrderId)
      requires Valid() && id in index && index[id] == Location(side, price)
      modifies this, LevelSet(LevelsOf(side))
      ensures Valid()
      ensures State() == old(State()).With(side, RemoveIn(side, old(SideState(LevelsOf(side))), price, id), old(index) - {id})
      ensures AllOrders() <= old(AllOrders()) && AllLevels() <= old(AllLevels())
    {
      hide BookOk, SideState, OrdersOf, Fits, Valid, RemoveIn, LevelSet, HoldsAt, Tagged;
      ghost var b := State();
      RemovalOk(id);
      var ls := RemoveOn(side, price, id);
      FitsFrom(side, ls, index - {id}, b);
      Install(side, ls, index - {id}, b);
    }

    /** Cancel by id; an unknown id changes nothing. The order itself is left as it was. */
    method CancelOrder(id: OrderId) returns (found: bool)
      requires Valid()
      modifies this, AllLevels()
      ensures Valid()
      ensures (State(), found) == Matching.CancelOrder(old(State()), id)
      ensures AllOrders() <= old(AllOrders()) && AllLevels() <= old(AllLevels())
    {
      hide BookOk, SideState, OrdersOf, Valid, RemoveIn, LevelSet;
      if !HasOrder(id) { return false; }
      Unlink(index[id].side, index[id].price, id);
      return true;
    }

    // -------------------------------------------------------------- order types

    /** The quantity a FOK order believes it can get: 64-bit sums, up to the first that suffices. */
    method AvailableFill(side: Side, incoming: Order, limit: Option<Price>) returns (available: Quantity)
      ensures available == Scan(side, limit, SideState(LevelsOf(side)), incoming.quantity, 0)
    {
      available := 0;
      var ls, i := LevelsOf(side), 0;
      ghost var states := SideState(ls);
      hide Crosses, WrapAdd, SideState, OrdersOf;
      while i < |ls|
        invariant i <= |ls|
        invariant Scan(side, limit, states[i..], incoming.quantity, available)
                  == Scan(side, limit, states[0..], incoming.quantity, 0)
      {
        assert states[i..][1..] == states[i + 1..];
        if !Crosses(side, limit, ls[i].price) { break; }
        available := WrapAdd(available, ls[i].totalQty);
        if available >= incoming.quantity { break; }
        i := i + 1;
      }
      assert states[0..] == states;
    }

    /** An incoming order of the given type, already marked ACCEPTED. */
    ghost predicate Accepted(incoming: Order, kind: OrderType)
      reads this, bids, asks, OrdersOf(bids), OrdersOf(asks), incoming
    {
      Admits(incoming) && incoming.kind == kind && incoming.status == ACCEPTED
    }

    /** Match the incoming order against the opposite side, up to its limit. */
    method DrainFor(incoming: Order, limit: Option<Price>) returns (trades: seq<Trade>)
      requires Admits(incoming) && limit == Limit(incoming.State())
      modifies this, AllLevels(), AllOrders(), incoming
      ensures Valid()
      ensures BookOk(old(State())) && var d := DrainOrder(old(State()), old(incoming.State()));
        State() == d.book && incoming.State() == d.taker && trades == d.trades
      ensures AllOrders() <= old(AllOrders()) && AllLevels() <= old(AllLevels())
    {
      hide BookOk, OrdersOf, SideState, Drain, Valid, State;
      ghost var done;
      trades, done := DrainSide(Opposite(incoming.side), incoming, limit);
    }

    /** The matching part of a limit order, up to its status. */
    method DrainLimit(incoming: Order) returns (trades: seq<Trade>)
      requires Accepted(incoming, LIMIT)
      modifies this, AllLevels(), AllOrders(), incoming
      ensures Valid() && BookOk(old(State())) && var d := DrainOrder(old(State()), old(incoming.State()));
        && State() == d.book && trades == d.trades
        && incoming.State() == d.taker.(status := if d.taker.filled == 0 then ACCEPTED
                                                  else if d.taker.IsFilled() then FILLED else PARTIALLY_FILLED)
      ensures AllOrders() <= old(AllOrders()) && AllLevels() <= old(AllLevels())
    {
      hide BookOk, OrdersOf, SideState, DrainOrder, Valid, State;
      ghost var d := (ValidBook(); DrainOrder(State(), incoming.State()));
      trades := DrainFor(incoming, Some(incoming.price));
      incoming.status := if incoming.filledQty == 0 then ACCEPTED
                         else if incoming.IsFilled() then FILLED else PARTIALLY_FILLED;
      assert State() == d.book && Valid();
    }

    method MatchLimit(incoming: Order) returns (trades: seq<Trade>)
      requires Accepted(incoming, LIMIT)
      modifies this, AllLevels(), AllOrders(), incoming
      ensures Valid()
      ensures Placed(old(State()), old(incoming.State()), State(), incoming.State(), trades)
      ensures AllOrders() <= old(AllOrders()) + {incoming} && fresh(AllLevels() - old(AllLevels()))
    {
      hide BookOk, OrdersOf, SideState, DrainOrder, Valid, State, Matching.RestOrder, Matching.AddOrder;
      ValidBook();
      LimitOutcome(State(), incoming.State());
      trades := DrainLimit(incoming);
      if !incoming.IsFilled() {
        ghost var levels := AllLevels();
        assert levels <= old(AllLevels());
        hide AllLevels;
        RestOrder(incoming);
        assert AllLevels() - old(AllLevels()) <= AllLevels() - levels;
      }
    }

    method MatchMarket(incoming: Order) returns (trades: seq<Trade>)
      requires Accepted(incoming, MARKET)
      modifies this, AllLevels(), AllOrders(), incoming
      ensures Valid()
      ensures Placed(old(State()), old(incoming.State()), State(), incoming.State(), trades)
      ensures AllOrders() <= old(AllOrders()) && AllLevels() <= old(AllLevels())
    {
      hide BookOk, OrdersOf, SideState, Drain, Valid, State;
      ghost var b, o := State(), incoming.State();
      ValidBook();
      trades := DrainFor(incoming, None);
      DrainOrderFrame(b, o);
      incoming.status := if incoming.IsFilled() then FILLED else PARTIALLY_FILLED;
      assert State() == DrainOrder(b, o).book && Valid();
    }

    method MatchIoc(incoming: Order) returns (trades: seq<Trade>)
      requires Accepted(incoming, IOC)
      modifies this, AllLevels(), AllOrders(), incoming
      ensures Valid()
      ensures Placed(old(State()), old(incoming.State()), State(), incoming.State(), trades)
      ensures AllOrders() <= old(AllOrders()) && AllLevels() <= old(AllLevels())
    {
      hide BookOk, OrdersOf, SideState, Drain, Valid, State;
      ghost var b, o := State(), incoming.State();
      ValidBook();
      trades := DrainFor(incoming, Some(incoming.price));
      DrainOrderFrame(b, o);
      if incoming.IsFilled() {
        incoming.status := FILLED;
      } else if incoming.filledQty > 0 {
        incoming.status := PARTIALLY_FILLED;
      } else {
        incoming.status := CANCELLED;
      }
      assert State() == DrainOrder(b, o).book && Valid();
    }

    /** The check a FOK order makes before it touches the book. */
    method CanFillNow(incoming: Order) returns (ok: bool)
      requires Accepted(incoming, FOK)
      ensures ok == CanFill(State(), incoming.State())
      ensures Accepted(incoming, FOK) && State() == old(State()) && incoming.State() == old(incoming.State())
      ensures AllOrders() == old(AllOrders()) && AllLevels() == old(AllLevels())
    {
      hide BookOk, SideState, Valid, Scan, OrdersOf;
      OrdersAllocated(bids);
      OrdersAllocated(asks);
      var available := AvailableFill(Opposite(incoming.side), incoming, Some(incoming.price));
      ok := available >= incoming.quantity;
    }

    method MatchFok(incoming: Order) returns (trades: seq<Trade>)
      requires Accepted(incoming, FOK)
      modifies this, AllLevels(), AllOrders(), incoming
      ensures Valid()
      ensures Placed(old(State()), old(incoming.State()), State(), incoming.State(), trades)
      ensures AllOrders() <= old(AllOrders()) && AllLevels() <= old(AllLevels())
    {
      hide BookOk, OrdersOf, SideState, Drain, Valid, State, CanFill;
      ghost var b, o := State(), incoming.State();
      ValidBook();
      DrainOrderFrame(b, o);
      var ok := CanFillNow(incoming);
      if ok {
        trades := DrainFor(incoming, Some(incoming.price));
        incoming.status := FILLED;
        assert State() == DrainOrder(b, o).book && Valid();
      } else {
        incoming.status := CANCELLED;
        assert State() == b && Valid();
        trades := [];
      }
    }

    /** Process an incoming order: match it by its type and rest what a limit order has left. */
    method AddOrder(order: Order) returns (trades: seq<Trade>)
      requires Admits(order)
      modifies this, AllLevels(), AllOrders(), order
      ensures Valid()
      ensures Placed(old(State()), old(order.State()), State(), order.State(), trades)
      ensures AllOrders() <= old(AllOrders()) + {order} && fresh(AllLevels() - old(AllLevels()))
    {
      hide BookOk, OrdersOf, SideState, Matching.AddOrder, State;
      ghost var b, o := State(), order.State();
      order.status := ACCEPTED;
      assert State() == b && Valid();
      AcceptedFirst(b, o);
      match order.kind {
        case MARKET => trades := MatchMarket(order);
        case IOC => trades := MatchIoc(order);
        case FOK => trades := MatchFok(order);
        case LIMIT => trades := MatchLimit(order);
      }
    }

    // -------------------------------------------------------------- queries

    predicate HasOrder(id: OrderId)
      reads this
    {
      id in index
    }

    function BestOf(side: Side): (r: Option<Price>)
      reads this, bids, asks, OrdersOf(bids), OrdersOf(asks)
      ensures r == Best(State().Levels(side))
    {
      if LevelsOf(side) == [] then None else Some(LevelsOf(side)[0].price)
    }

    function SpreadOf(): (r: Option<int>)
      reads this, bids, asks, OrdersOf(bids), OrdersOf(asks)
      ensures r == Spread(State())
    {
      var bid, ask := BestOf(BUY), BestOf(SELL);
      if bid == None || ask == None then None else Some(ask.value - bid.value)
    }

    /** The first n levels of a side. */
    method TopOf(side: Side, n: nat) returns (result: seq<BookLevel>)
      ensures result == Top(State().Levels(side), n)
      ensures State() == old(State())
    {
      result := [];
      var ls, i := LevelsOf(side), 0;
      ghost var states := SideState(ls);
      while i < |ls|
        invariant i <= |ls| && i <= n && |result| == i
        invariant forall j :: 0 <= j < i ==> result[j] == BookLevel(states[j].price, states[j].total, |states[j].orders|)
      {
        if |result| >= n { break; }
        result := result + [BookLevel(ls[i].price, ls[i].totalQty, |ls[i].orders|)];
        i := i + 1;
      }
    }

    /** The cached quantity of a side. */
    method TotalQtyOf(side: Side) returns (total: Quantity)
      ensures total == TotalQty(State().Levels(side))
      ensures State() == old(State())
    {
      total := 0;
      var ls, i := LevelsOf(side), 0;
      ghost var states := SideState(ls);
      hide WrapAdd;
      while i < |ls|
        invariant i <= |ls| && total == TotalQty(states[..i])
      {
        assert states[..i + 1][..i] == states[..i];
        total := WrapAdd(total, ls[i].totalQty);
        i := i + 1;
      }
      assert states[..i] == states;
    }

    /** No order of the side is without a remainder. */
    method AllRemain(side: Side) returns (ok: bool)
      ensures ok <==> NoneFilled(State().Levels(side))
      ensures State() == old(State())
    {
      var ls, i := LevelsOf(side), 0;
      ghost var states := SideState(ls);
      while i < |ls|
        invariant i <= |ls| && NoneFilled(states[..i])
      {
        var k := 0;
        while k < |ls[i].orders|
          invariant k <= |ls[i].orders|
          invariant forall j :: 0 <= j < k ==> states[i].orders[j].quantity != states[i].orders[j].filled
        {
          if ls[i].orders[k].RemainingQty() == 0 {
            assert states[i].orders[k].quantity == states[i].orders[k].filled;
            return false;
          }
          k := k + 1;
        }
        i := i + 1;
      }
      assert states[..i] == states;
      return true;
    }

    /** Every indexed price has a level on its side. */
    method IndexListed() returns (ok: bool)
      ensures ok <==> forall id :: id in index ==> Listed(SideState(LevelsOf(index[id].side)), index[id].price)
    {
      hide SideState;
      var left := index.Keys;
      while left != {}
        invariant left <= index.Keys
        invariant forall id :: id in index && id !in left ==> Listed(SideState(LevelsOf(index[id].side)), index[id].price)
      {
        var id :| id in left;
        var loc := index[id];
        if forall i :: 0 <= i < |LevelsOf(loc.side)| ==> LevelsOf(loc.side)[i].price != loc.price {
          assert !Listed(SideState(LevelsOf(index[id].side)), index[id].price);
          return false;
        }
        left := left - {id};
      }
      return true;
    }

    /** The book's own structural check, on any book, valid or not. */
    method CheckInvariants() returns (ok: bool)
      ensures ok <==> StructureOk(State())
      ensures State() == old(State())
    {
      hide SideState, NoneFilled, Listed;
      OrdersAllocated(bids);
      OrdersAllocated(asks);
      var bid, ask := BestOf(BUY), BestOf(SELL);
      if bid != None && ask != None && bid.value >= ask.value { return false; }
      var bidsRemain := AllRemain(BUY);
      if !bidsRemain { return false; }
      var asksRemain := AllRemain(SELL);
      if !asksRemain { return false; }
      ok := IndexListed();
    }
  }

  lemma BookAllocated(book: OrderBook)
    ensures forall l :: l in book.AllLevels() ==> allocated(l)
    ensures forall o :: o in book.AllOrders() ==> allocated(o)
  {
    OrdersAllocated(book.bids);
    OrdersAllocated(book.asks);
  }

  /** A book whose objects are untouched is unchanged. */
  twostate lemma BookKept(book: OrderBook)
    requires unchanged(book)
    requires forall l :: l in old(book.AllLevels()) ==> unchanged(l)
    requires forall o :: o in old(book.AllOrders()) ==> unchanged(o)
    ensures book.State() == old(book.State()) && book.Valid() == old(book.Valid())
    ensures book.AllOrders() == old(book.AllOrders()) && book.AllLevels() == old(book.AllLevels())
  {
    hide BookOk, OrdersOf, SideState;
    assert forall l :: l in LevelSet(book.bids) ==> l in old(book.AllLevels());
    assert forall l :: l in LevelSet(book.asks) ==> l in old(book.AllLevels());
    assert forall o :: o in old(OrdersOf(book.bids)) ==> o in old(book.AllOrders());
    assert forall o :: o in old(OrdersOf(book.asks)) ==> o in old(book.AllOrders());
    SideKept(book.bids);
    SideKept(book.asks);
  }
}
