/** The order book as a value, and what each book operation makes of it.
    A side is the list of its price levels, best price first. */
module Matching {
  import opened Types

  datatype Location = Location(side: Side, price: Price)

  /** One price point: its orders in arrival order and the cached total. */
  datatype LevelState = LevelState(price: Price, orders: seq<OrderState>, total: Quantity)

  datatype BookState = BookState(symbol: Symbol, bids: seq<LevelState>, asks: seq<LevelState>,
                                 index: map<OrderId, Location>)
  {
    function Levels(side: Side): seq<LevelState> {
      if side == BUY then bids else asks
    }

    function With(side: Side, ls: seq<LevelState>, ix: map<OrderId, Location>): BookState {
      if side == BUY then BookState(symbol, ls, asks, ix) else BookState(symbol, bids, ls, ix)
    }
  }

  /** Smaller keys have priority: asks ascend in price, bids descend. */
  function Key(side: Side, p: Price): int {
    if side == SELL then p else -p
  }

  /** Whether an incoming order with this limit accepts price p on the resting side. */
  predicate Crosses(resting: Side, limit: Option<Price>, p: Price) {
    match limit
    case None => true
    case Some(l) => if resting == SELL then p <= l else p >= l
  }

  // ---------------------------------------------------------------- invariant

  ghost predicate OrderOk(side: Side, price: Price, o: OrderState, k: int) {
    && o.side == side && o.price == price && o.kind == LIMIT
    && o.filled < o.quantity
    && (k > 0 ==> o.filled == 0)
    && o.status == (if o.filled == 0 then ACCEPTED else PARTIALLY_FILLED)
  }

  ghost predicate LevelOk(side: Side, l: LevelState) {
    && l.orders != []
    && (forall k :: 0 <= k < |l.orders| ==> OrderOk(side, l.price, l.orders[k], k))
    && (forall j, k :: 0 <= j < k < |l.orders| ==> l.orders[j].id != l.orders[k].id)
  }

  ghost predicate Sorted(side: Side, ls: seq<LevelState>) {
    forall i, j :: 0 <= i < j < |ls| ==> Key(side, ls[i].price) < Key(side, ls[j].price)
  }

  ghost predicate SideOk(side: Side, ls: seq<LevelState>) {
    Sorted(side, ls) && forall i :: 0 <= i < |ls| ==> LevelOk(side, ls[i])
  }

  ghost predicate Indexed(side: Side, ls: seq<LevelState>, index: map<OrderId, Location>) {
    forall i, k :: 0 <= i < |ls| && 0 <= k < |ls[i].orders| ==>
      ls[i].orders[k].id in index && index[ls[i].orders[k].id] == Location(side, ls[i].price)
  }

  ghost predicate HasAt(ls: seq<LevelState>, price: Price, id: OrderId, i: int, k: int) {
    0 <= i < |ls| && 0 <= k < |ls[i].orders| && ls[i].price == price && ls[i].orders[k].id == id
  }

  ghost predicate Has(ls: seq<LevelState>, price: Price, id: OrderId) {
    exists i, k :: HasAt(ls, price, id, i, k)
  }

  ghost predicate Uncrossed(b: BookState) {
    b.bids != [] && b.asks != [] ==> b.bids[0].price < b.asks[0].price
  }

  /** The representation invariant: both sides sorted without empty levels, only unfilled
      LIMIT orders resting, partial fills only at the front of a level, best bid below best
      ask, and the index in exact correspondence with the resting orders. */
  ghost predicate BookOk(b: BookState) {
    && SideOk(BUY, b.bids) && SideOk(SELL, b.asks)
    && Uncrossed(b)
    && Indexed(BUY, b.bids, b.index) && Indexed(SELL, b.asks, b.index)
    && forall id :: id in b.index ==> Has(b.Levels(b.index[id].side), b.index[id].price, id)
  }

  lemma BookSide(b: BookState, side: Side)
    requires BookOk(b)
    ensures SideOk(side, b.Levels(side)) && Indexed(side, b.Levels(side), b.index)
  {
  }

  // ---------------------------------------------------------------- drain

  datatype DrainState = DrainState(book: BookState, taker: OrderState,
                                   trades: seq<Trade>, done: seq<OrderState>)

  ghost predicate Drainable(s: DrainState) {
    BookOk(s.book) && s.taker.filled <= s.taker.quantity
  }

  predicate CanStep(side: Side, limit: Option<Price>, s: DrainState) {
    && s.taker.Rem() > 0
    && s.book.Levels(side) != []
    && Crosses(side, limit, s.book.Levels(side)[0].price)
  }

  function Fill(o: OrderState, q: int): OrderState
    requires 0 <= q && o.filled + q <= o.quantity
  {
    o.(filled := o.filled + q,
       status := if o.filled + q >= o.quantity then FILLED else PARTIALLY_FILLED)
  }

  /** The levels of a side after its front order has traded q. */
  function FillFront(ls: seq<LevelState>, q: int): seq<LevelState>
    requires ls != [] && ls[0].orders != []
    requires 0 <= q && ls[0].orders[0].filled + q <= ls[0].orders[0].quantity
  {
    var maker := Fill(ls[0].orders[0], q);
    var orders := if maker.IsFilled() then ls[0].orders[1..] else [maker] + ls[0].orders[1..];
    if orders == [] then ls[1..]
    else [LevelState(ls[0].price, orders, SaturatingSub(ls[0].total, q))] + ls[1..]
  }

  /** The book after the front order of a side has traded q. */
  function FillBook(side: Side, b: BookState, q: int): BookState
    requires var ls := b.Levels(side);
      ls != [] && ls[0].orders != [] && 0 <= q && ls[0].orders[0].filled + q <= ls[0].orders[0].quantity
  {
    var ls := b.Levels(side);
    b.With(side, FillFront(ls, q),
           if Fill(ls[0].orders[0], q).IsFilled() then b.index - {ls[0].orders[0].id} else b.index)
  }

  /** The side has a front order with quantity left. */
  ghost predicate FrontLive(side: Side, b: BookState) {
    var ls := b.Levels(side);
    ls != [] && ls[0].orders != [] && ls[0].orders[0].filled < ls[0].orders[0].quantity
  }

  /** One pass of the matching loop: the front order of the best level trades. */
  function Step(side: Side, s: DrainState): DrainState
    requires Drainable(s) && s.taker.Rem() > 0 && s.book.Levels(side) != []
  {
    FrontIsLive(side, s.book.Levels(side));
    var maker := s.book.Levels(side)[0].orders[0];
    var q := Min(s.taker.Rem(), maker.Rem());
    DrainState(FillBook(side, s.book, q),
               s.taker.(filled := s.taker.filled + q),
               s.trades + [Trade(s.book.symbol, maker.price, q, maker.id, s.taker.id)],
               if Fill(maker, q).IsFilled() then s.done + [Fill(maker, q)] else s.done)
  }

  lemma FrontIsLive(side: Side, ls: seq<LevelState>)
    requires SideOk(side, ls) && ls != []
    ensures LevelOk(side, ls[0]) && OrderOk(side, ls[0].price, ls[0].orders[0], 0)
  {
  }

  lemma FrontLevelOk(side: Side, l: LevelState, q: int, total: Quantity)
    requires LevelOk(side, l) && 0 < q <= l.orders[0].Rem()
    ensures var m := Fill(l.orders[0], q);
      var os := if m.IsFilled() then l.orders[1..] else [m] + l.orders[1..];
      os != [] ==> LevelOk(side, LevelState(l.price, os, total))
  {
    var m := Fill(l.orders[0], q);
    var d := if m.IsFilled() then 1 else 0;
    var os := if m.IsFilled() then l.orders[1..] else [m] + l.orders[1..];
    forall k | 0 <= k < |os| ensures OrderOk(side, l.price, os[k], k) && os[k].id == l.orders[k + d].id {
      assert OrderOk(side, l.price, l.orders[k + d], k + d);
    }
  }

  lemma FillFrontSide(side: Side, ls: seq<LevelState>, q: int)
    requires SideOk(side, ls) && ls != []
    requires ls[0].orders != [] && 0 < q <= ls[0].orders[0].Rem()
    ensures SideOk(side, FillFront(ls, q))
    ensures FillFront(ls, q) != [] ==> Key(side, ls[0].price) <= Key(side, FillFront(ls, q)[0].price)
  {
    FrontLevelOk(side, ls[0], q, SaturatingSub(ls[0].total, q));
    hide LevelOk, Fill;
    var ls' := FillFront(ls, q);
    assert ls' == ls[1..] || ls'[1..] == ls[1..];
    if ls' == ls[1..] {
      assert forall i :: 0 <= i < |ls'| ==> ls'[i] == ls[i + 1];
    } else {
      assert forall i :: 0 < i < |ls'| ==> ls'[i] == ls[i];
    }
  }

  /** The front level without its filled maker or with its maker's new fill, unless it is gone. */
  lemma FillFrontShape(ls: seq<LevelState>, q: int)
    requires ls != [] && ls[0].orders != []
    requires 0 <= q && ls[0].orders[0].filled + q <= ls[0].orders[0].quantity
    ensures var filled, ls' := Fill(ls[0].orders[0], q).IsFilled(), FillFront(ls, q);
      if filled && |ls[0].orders| == 1 then |ls'| == |ls| - 1 && forall i :: 0 <= i < |ls'| ==> ls'[i] == ls[i + 1]
      else
        && |ls'| == |ls| && (forall i :: 0 < i < |ls'| ==> ls'[i] == ls[i]) && ls'[0].price == ls[0].price
        && |ls'[0].orders| == |ls[0].orders| - (if filled then 1 else 0)
        && (forall k :: 0 <= k < |ls'[0].orders| ==> ls'[0].orders[k].id == ls[0].orders[if filled then k + 1 else k].id)
  {
  }

  /** Where an order of ls sits after FillFront. */
  lemma FillFrontAt(ls: seq<LevelState>, q: int, price: Price, id: OrderId, i: int, k: int)
    requires ls != [] && ls[0].orders != []
    requires 0 <= q && ls[0].orders[0].filled + q <= ls[0].orders[0].quantity
    requires HasAt(ls, price, id, i, k)
    requires !(i == 0 && k == 0 && Fill(ls[0].orders[0], q).IsFilled())
    ensures Has(FillFront(ls, q), price, id)
  {
    hide FillFront, Fill;
    FillFrontShape(ls, q);
    var filled := Fill(ls[0].orders[0], q).IsFilled();
    if filled && |ls[0].orders| == 1 {
      assert HasAt(FillFront(ls, q), price, id, i - 1, k);
    } else {
      assert HasAt(FillFront(ls, q), price, id, i, if filled && i == 0 then k - 1 else k);
    }
  }

  /** Every order of FillFront sits in ls, and is not the maker if that was filled. */
  lemma FillFrontFrom(ls: seq<LevelState>, q: int, i: int, k: int) returns (i': int, k': int)
    requires ls != [] && ls[0].orders != []
    requires 0 <= q && ls[0].orders[0].filled + q <= ls[0].orders[0].quantity
    requires 0 <= i < |FillFront(ls, q)| && 0 <= k < |FillFront(ls, q)[i].orders|
    ensures 0 <= i' < |ls| && 0 <= k' < |ls[i'].orders|
    ensures ls[i'].price == FillFront(ls, q)[i].price
    ensures ls[i'].orders[k'].id == FillFront(ls, q)[i].orders[k].id
    ensures Fill(ls[0].orders[0], q).IsFilled() ==> i' != 0 || k' != 0
  {
    hide FillFront, Fill;
    FillFrontShape(ls, q);
    var filled := Fill(ls[0].orders[0], q).IsFilled();
    if filled && |ls[0].orders| == 1 {
      i', k' := i + 1, k;
    } else {
      i', k' := i, if filled && i == 0 then k + 1 else k;
    }
  }

  /** Two positions holding the same id are the same position. */
  lemma PositionUnique(side: Side, ls: seq<LevelState>, index: map<OrderId, Location>, i: int, k: int, i': int, k': int)
    requires SideOk(side, ls) && Indexed(side, ls, index)
    requires 0 <= i < |ls| && 0 <= k < |ls[i].orders|
    requires 0 <= i' < |ls| && 0 <= k' < |ls[i'].orders|
    requires ls[i].orders[k].id == ls[i'].orders[k'].id
    ensures i == i' && k == k'
  {
    assert LevelOk(side, ls[i]);
    assert ls[i].price == ls[i'].price;
  }

  /** What an operation must show to replace one side and the index of a valid book. */
  lemma ReplaceSide(side: Side, b: BookState, ls: seq<LevelState>, index: map<OrderId, Location>)
    requires BookOk(b)
    requires SideOk(side, ls) && Indexed(side, ls, index)
    requires Uncrossed(b.With(side, ls, index))
    requires forall id :: id in b.index && b.index[id].side != side ==> id in index && index[id] == b.index[id]
    requires forall id :: id in index ==>
      if index[id].side == side then Has(ls, index[id].price, id)
      else id in b.index && index[id] == b.index[id]
    ensures BookOk(b.With(side, ls, index))
  {
    hide SideOk, Has, Uncrossed;
    var b' := b.With(side, ls, index);
    var opp := Opposite(side);
    assert b'.Levels(side) == ls && b'.Levels(opp) == b.Levels(opp);
    assert Indexed(opp, b.Levels(opp), b.index) && SideOk(opp, b.Levels(opp));
    assert Indexed(opp, b'.Levels(opp), index);
    hide Indexed;
  }

  lemma FillFrontIndexed(side: Side, ls: seq<LevelState>, q: int, index: map<OrderId, Location>)
    requires SideOk(side, ls) && ls != [] && Indexed(side, ls, index)
    requires 0 < q <= ls[0].orders[0].Rem()
    ensures var maker := ls[0].orders[0];
      Indexed(side, FillFront(ls, q), if Fill(maker, q).IsFilled() then index - {maker.id} else index)
  {
    FrontIsLive(side, ls);
    var maker := ls[0].orders[0];
    var ls' := FillFront(ls, q);
    forall i, k | 0 <= i < |ls'| && 0 <= k < |ls'[i].orders|
      ensures ls'[i].orders[k].id in index && index[ls'[i].orders[k].id] == Location(side, ls'[i].price)
      ensures Fill(maker, q).IsFilled() ==> ls'[i].orders[k].id != maker.id
    {
      var i', k' := FillFrontFrom(ls, q, i, k);
      if ls[i'].orders[k'].id == maker.id {
        PositionUnique(side, ls, index, i', k', 0, 0);
      }
    }
  }

  lemma FrontUncrossed(side: Side, b: BookState, ls: seq<LevelState>, index: map<OrderId, Location>)
    requires Uncrossed(b)
    requires ls != [] ==> b.Levels(side) != [] && Key(side, b.Levels(side)[0].price) <= Key(side, ls[0].price)
    ensures Uncrossed(b.With(side, ls, index))
  {
  }

  lemma FillFrontHas(side: Side, ls: seq<LevelState>, q: int, price: Price, id: OrderId)
    requires ls != [] && ls[0].orders != []
    requires 0 <= q && ls[0].orders[0].filled + q <= ls[0].orders[0].quantity
    requires Has(ls, price, id)
    requires Fill(ls[0].orders[0], q).IsFilled() ==> id != ls[0].orders[0].id
    ensures Has(FillFront(ls, q), price, id)
  {
    var i, k :| HasAt(ls, price, id, i, k);
    FillFrontAt(ls, q, price, id, i, k);
  }

  lemma FillBookOk(side: Side, b: BookState, q: int)
    requires BookOk(b) && b.Levels(side) != [] && b.Levels(side)[0].orders != []
    requires 0 < q <= b.Levels(side)[0].orders[0].Rem()
    ensures BookOk(FillBook(side, b, q))
  {
    hide FillFront, Sorted, LevelOk, Has, Crosses;
    var ls := b.Levels(side);
    var maker := ls[0].orders[0];
    var ls' := FillFront(ls, q);
    var index' := if Fill(maker, q).IsFilled() then b.index - {maker.id} else b.index;
    assert SideOk(side, ls) && Indexed(side, ls, b.index);
    FillFrontSide(side, ls, q);
    FillFrontIndexed(side, ls, q, b.index);
    FrontUncrossed(side, b, ls', index');
    forall id | id in index' && index'[id].side == side
      ensures Has(ls', index'[id].price, id)
    {
      FillFrontHas(side, ls, q, index'[id].price, id);
    }
    ReplaceSide(side, b, ls', index');
  }

  lemma StepOk(side: Side, s: DrainState)
    requires Drainable(s) && s.taker.Rem() > 0 && s.book.Levels(side) != []
    ensures Drainable(Step(side, s))
    ensures Step(side, s).taker.Rem() < s.taker.Rem()
  {
    var ls := s.book.Levels(side);
    FrontIsLive(side, ls);
    FillBookOk(side, s.book, Min(s.taker.Rem(), ls[0].orders[0].Rem()));
  }

  /** The matching loop: step until the taker is filled, the side is empty or the price
      condition fails. */
  function Drain(side: Side, limit: Option<Price>, s: DrainState): DrainState
    requires Drainable(s)
    decreases s.taker.Rem()
  {
    if CanStep(side, limit, s) then
      StepOk(side, s);
      Drain(side, limit, Step(side, s))
    else s
  }

  lemma DrainUnfolds(side: Side, limit: Option<Price>, s: DrainState)
    requires Drainable(s)
    ensures if CanStep(side, limit, s)
            then Drainable(Step(side, s)) && Step(side, s).taker.Rem() < s.taker.Rem()
                 && Drain(side, limit, s) == Drain(side, limit, Step(side, s))
            else Drain(side, limit, s) == s
  {
    if CanStep(side, limit, s) { StepOk(side, s); }
    hide BookOk, Step;
  }

  lemma DrainOk(side: Side, limit: Option<Price>, s: DrainState)
    requires Drainable(s)
    ensures var d := Drain(side, limit, s);
      Drainable(d) && !CanStep(side, limit, d)
      && d.taker == s.taker.(filled := d.taker.filled) && s.taker.filled <= d.taker.filled
      && d.book.Levels(Opposite(side)) == s.book.Levels(Opposite(side)) && d.book.symbol == s.book.symbol
    decreases s.taker.Rem()
  {
    if CanStep(side, limit, s) {
      StepOk(side, s);
      DrainOk(side, limit, Step(side, s));
    }
  }

  // ---------------------------------------------------------------- resting and removing

  /** The number of levels with priority over price p. */
  function LowerBound(side: Side, ls: seq<LevelState>, p: Price): (i: nat)
    ensures i <= |ls|
    ensures forall j :: 0 <= j < i ==> Key(side, ls[j].price) < Key(side, p)
    ensures i < |ls| ==> Key(side, p) <= Key(side, ls[i].price)
  {
    if ls == [] || Key(side, p) <= Key(side, ls[0].price) then 0
    else 1 + LowerBound(side, ls[1..], p)
  }

  predicate LevelAt(ls: seq<LevelState>, i: nat, p: Price) {
    i < |ls| && ls[i].price == p
  }

  function Append(l: LevelState, o: OrderState): LevelState {
    LevelState(l.price, l.orders + [o], WrapAdd(l.total, o.Rem()))
  }

  function RestIn(side: Side, ls: seq<LevelState>, o: OrderState): seq<LevelState> {
    var i := LowerBound(side, ls, o.price);
    if LevelAt(ls, i, o.price) then ls[i := Append(ls[i], o)]
    else ls[..i] + [Append(LevelState(o.price, [], 0), o)] + ls[i..]
  }

  function RestOrder(b: BookState, o: OrderState): BookState {
    b.With(o.side, RestIn(o.side, b.Levels(o.side), o), b.index[o.id := Location(o.side, o.price)])
  }

  /** The position of the first order with this id, or the length if there is none. */
  function FindId(os: seq<OrderState>, id: OrderId): (k: nat)
    ensures k <= |os|
    ensures k < |os| ==> os[k].id == id
    ensures forall j :: 0 <= j < k ==> os[j].id != id
  {
    if os == [] || os[0].id == id then 0 else 1 + FindId(os[1..], id)
  }

  /** A level without its k-th order, which the cached total no longer counts. */
  function RemoveAt(l: LevelState, k: nat): LevelState
    requires k < |l.orders|
  {
    LevelState(l.price, l.orders[..k] + l.orders[k + 1..], WrapSub(l.total, l.orders[k].Rem()))
  }

  /** A side without the k-th order of level i; an emptied level disappears. */
  function CutAt(ls: seq<LevelState>, i: nat, k: nat): seq<LevelState>
    requires i < |ls| && k < |ls[i].orders|
  {
    if |ls[i].orders| == 1 then ls[..i] + ls[i + 1..] else ls[i := RemoveAt(ls[i], k)]
  }

  function RemoveIn(side: Side, ls: seq<LevelState>, p: Price, id: OrderId): seq<LevelState> {
    var i := LowerBound(side, ls, p);
    if LevelAt(ls, i, p) then
      var k := FindId(ls[i].orders, id);
      if k < |ls[i].orders| then CutAt(ls, i, k)
      else if ls[i].orders == [] then ls[..i] + ls[i + 1..]
      else ls
    else ls
  }

  /** Cancel by id: false and no change for an id that is not indexed. */
  function CancelOrder(b: BookState, id: OrderId): (BookState, bool) {
    if id !in b.index then (b, false)
    else
      var loc := b.index[id];
      (b.With(loc.side, RemoveIn(loc.side, b.Levels(loc.side), loc.price, id), b.index - {id}), true)
  }

  // ---------------------------------------------------------------- order types

  /** The quantity a FOK order sees: a scan of the crossing levels that stops early. */
  function Scan(side: Side, limit: Option<Price>, ls: seq<LevelState>, want: Quantity, available: Quantity): Quantity {
    if ls == [] || !Crosses(side, limit, ls[0].price) then available
    else
      var a := WrapAdd(available, ls[0].total);
      if a >= want then a else Scan(side, limit, ls[1..], want, a)
  }

  datatype AddResult = AddResult(book: BookState, order: OrderState, trades: seq<Trade>, done: seq<OrderState>)

  /** What the book demands of an incoming order. */
  ghost predicate Incoming(b: BookState, o: OrderState) {
    o.filled == 0 && o.id !in b.index && o.kind != CANCEL && o.symbol == b.symbol
  }

  function Limit(o: OrderState): Option<Price> {
    if o.kind == MARKET then None else Some(o.price)
  }

  function DrainOrder(b: BookState, o: OrderState): DrainState
    requires BookOk(b) && o.filled <= o.quantity
  {
    Drain(Opposite(o.side), Limit(o), DrainState(b, o, [], []))
  }

  predicate CanFill(b: BookState, o: OrderState) {
    Scan(Opposite(o.side), Limit(o), b.Levels(Opposite(o.side)), o.quantity, 0) >= o.quantity
  }

  function Result(d: DrainState, status: OrderStatus): AddResult {
    AddResult(d.book, d.taker.(status := status), d.trades, d.done)
  }

  function AddOrder(b: BookState, order: OrderState): AddResult
    requires BookOk(b) && Incoming(b, order)
  {
    var o := order.(status := ACCEPTED);
    var d := DrainOrder(b, o);
    var t := d.taker;
    if o.kind == MARKET then
      Result(d, if t.IsFilled() then FILLED else PARTIALLY_FILLED)
    else if o.kind == IOC then
      Result(d, if t.IsFilled() then FILLED else if t.filled > 0 then PARTIALLY_FILLED else CANCELLED)
    else if o.kind == FOK then
      if CanFill(b, o) then Result(d, FILLED) else AddResult(b, o.(status := CANCELLED), [], [])
    else
      RestRemainder(Result(d, if t.filled == 0 then ACCEPTED else if t.IsFilled() then FILLED else PARTIALLY_FILLED))
  }

  function RestRemainder(r: AddResult): AddResult {
    if r.order.IsFilled() then r else r.(book := RestOrder(r.book, r.order))
  }

  // ---------------------------------------------------------------- the invariant is kept

  lemma AppendOk(side: Side, l: LevelState, o: OrderState)
    requires l.orders != [] ==> LevelOk(side, l)
    requires OrderOk(side, l.price, o, |l.orders|)
    requires forall k :: 0 <= k < |l.orders| ==> l.orders[k].id != o.id
    ensures LevelOk(side, Append(l, o))
  {
    var l' := Append(l, o);
    forall k | 0 <= k < |l'.orders| ensures OrderOk(side, l'.price, l'.orders[k], k) {
      if k < |l.orders| { assert l'.orders[k] == l.orders[k]; }
    }
  }

  lemma RestInSide(side: Side, ls: seq<LevelState>, o: OrderState)
    requires SideOk(side, ls)
    requires OrderOk(side, o.price, o, 0)
    requires o.filled > 0 ==> forall j :: 0 <= j < |ls| ==> ls[j].price != o.price
    requires forall i, k :: 0 <= i < |ls| && 0 <= k < |ls[i].orders| ==> ls[i].orders[k].id != o.id
    ensures SideOk(side, RestIn(side, ls, o))
  {
    hide LevelOk, SideOk, Append;
    var i := LowerBound(side, ls, o.price);
    if LevelAt(ls, i, o.price) {
      LevelIn(side, ls, i);
      AppendOk(side, ls[i], o);
      AppendPrice(ls[i], o);
      ReplaceLevelOk(side, ls, i, Append(ls[i], o));
    } else {
      var l := LevelState(o.price, [], 0);
      AppendOk(side, l, o);
      AppendPrice(l, o);
      InsertLevelOk(side, ls, i, Append(l, o));
    }
  }

  lemma AppendPrice(l: LevelState, o: OrderState)
    ensures Append(l, o).price == l.price
  {
  }

  lemma LevelIn(side: Side, ls: seq<LevelState>, i: nat)
    requires SideOk(side, ls) && i < |ls|
    ensures LevelOk(side, ls[i])
  {
  }

  lemma ReplaceLevelOk(side: Side, ls: seq<LevelState>, i: nat, l: LevelState)
    requires SideOk(side, ls) && i < |ls| && LevelOk(side, l) && l.price == ls[i].price
    ensures SideOk(side, ls[i := l])
  {
    hide LevelOk;
  }

  lemma InsertLevelOk(side: Side, ls: seq<LevelState>, i: nat, l: LevelState)
    requires SideOk(side, ls) && i <= |ls| && LevelOk(side, l)
    requires forall j :: 0 <= j < i ==> Key(side, ls[j].price) < Key(side, l.price)
    requires i < |ls| ==> Key(side, l.price) < Key(side, ls[i].price)
    ensures SideOk(side, ls[..i] + [l] + ls[i..])
  {
    hide LevelOk, Key;
    var ls' := ls[..i] + [l] + ls[i..];
    assert forall j :: 0 <= j < |ls'| && j != i ==> ls'[j] == ls[if j < i then j else j - 1];
    forall j | i <= j < |ls| ensures Key(side, l.price) < Key(side, ls[j].price) {
      if i < j { assert Key(side, ls[i].price) < Key(side, ls[j].price); }
    }
  }

  lemma RestInIndexed(side: Side, ls: seq<LevelState>, o: OrderState, index: map<OrderId, Location>)
    requires Indexed(side, ls, index)
    requires o.id !in index
    ensures Indexed(side, RestIn(side, ls, o), index[o.id := Location(side, o.price)])
    ensures Has(RestIn(side, ls, o), o.price, o.id)
    ensures forall p, id :: Has(ls, p, id) ==> Has(RestIn(side, ls, o), p, id)
  {
    var i := LowerBound(side, ls, o.price);
    var ls' := RestIn(side, ls, o);
    var at := LevelAt(ls, i, o.price);
    assert HasAt(ls', o.price, o.id, i, |ls'[i].orders| - 1);
    forall p, id | Has(ls, p, id) ensures Has(ls', p, id) {
      var j, k :| HasAt(ls, p, id, j, k);
      assert HasAt(ls', p, id, if at || j < i then j else j + 1, k);
    }
    forall j, k | 0 <= j < |ls'| && 0 <= k < |ls'[j].orders|
      ensures if ls'[j].orders[k].id == o.id then ls'[j].price == o.price
              else ls'[j].orders[k].id in index && index[ls'[j].orders[k].id] == Location(side, ls'[j].price)
    {
      if at {
        if j == i && k < |ls[i].orders| { assert ls'[j].orders[k] == ls[j].orders[k]; }
      } else if j != i {
        assert ls'[j] == ls[if j < i then j else j - 1];
      }
    }
  }

  lemma RestUncrossed(b: BookState, o: OrderState)
    requires Uncrossed(b)
    requires var opp := b.Levels(Opposite(o.side)); opp != [] ==> !Crosses(Opposite(o.side), Some(o.price), opp[0].price)
    ensures Uncrossed(RestOrder(b, o))
  {
    var ls := b.Levels(o.side);
    var ls' := RestIn(o.side, ls, o);
    assert ls'[0].price == o.price || (ls != [] && ls'[0].price == ls[0].price);
  }

  /** A limit order that no longer crosses may rest; one already partly filled finds no
      level at its price. */
  lemma RestOk(b: BookState, o: OrderState)
    requires BookOk(b) && o.id !in b.index
    requires OrderOk(o.side, o.price, o, 0)
    requires o.filled > 0 ==> forall j :: 0 <= j < |b.Levels(o.side)| ==> b.Levels(o.side)[j].price != o.price
    requires var opp := b.Levels(Opposite(o.side)); opp != [] ==> !Crosses(Opposite(o.side), Some(o.price), opp[0].price)
    ensures BookOk(RestOrder(b, o))
  {
    hide Has, Sorted, LevelOk, Crosses, Key;
    var ls := b.Levels(o.side);
    assert SideOk(o.side, ls) && Indexed(o.side, ls, b.index);
    RestUncrossed(b, o);
    RestInSide(o.side, ls, o);
    RestInIndexed(o.side, ls, o, b.index);
    ReplaceSide(o.side, b, RestIn(o.side, ls, o), b.index[o.id := Location(o.side, o.price)]);
  }

  lemma {:induction false} AddOrderOk(b: BookState, o: OrderState)
    requires BookOk(b) && Incoming(b, o)
    ensures BookOk(AddOrder(b, o).book)
  {
    hide BookOk;
    var o1 := o.(status := ACCEPTED);
    DrainOk(Opposite(o.side), Limit(o1), DrainState(b, o1, [], []));
    if o.kind == LIMIT && !DrainOrder(b, o1).taker.IsFilled() {
      LimitRests(b, o1);
    }
  }

  lemma {:induction false} AddOrderFrame(b: BookState, o: OrderState)
    requires BookOk(b) && Incoming(b, o)
    ensures var r := AddOrder(b, o);
      r.book.symbol == b.symbol
      && r.order.filled <= r.order.quantity
      && r.order == o.(filled := r.order.filled, status := r.order.status)
  {
    hide BookOk;
    var o1 := o.(status := ACCEPTED);
    DrainOk(Opposite(o.side), Limit(o1), DrainState(b, o1, [], []));
  }

  /** The remainder of a limit order may rest. If it is partly filled it crossed the best
      opposite price, so in an uncrossed book its own side holds no level at its price. */
  lemma {:induction false} LimitRests(b: BookState, o: OrderState)
    requires BookOk(b) && Incoming(b, o) && o.kind == LIMIT
    requires !DrainOrder(b, o).taker.IsFilled()
    ensures var d := DrainOrder(b, o);
      var t := d.taker.(status := if d.taker.filled == 0 then ACCEPTED else PARTIALLY_FILLED);
      BookOk(RestOrder(d.book, t)) && (t.filled > 0 ==> LowerBound(o.side, d.book.Levels(o.side), o.price) == 0)
  {
    var s := DrainState(b, o, [], []);
    var opp := Opposite(o.side);
    DrainOk(opp, Limit(o), s);
    DrainKeepsOut(opp, Limit(o), s, o.id);
    var d := DrainOrder(b, o);
    if d.taker.filled > 0 {
      NoLevelAtCrossingPrice(b, o);
    }
    hide BookOk;
    RestOk(d.book, d.taker.(status := if d.taker.filled == 0 then ACCEPTED else PARTIALLY_FILLED));
  }

  lemma NoLevelAtCrossingPrice(b: BookState, o: OrderState)
    requires BookOk(b) && b.Levels(Opposite(o.side)) != []
    requires Crosses(Opposite(o.side), Some(o.price), b.Levels(Opposite(o.side))[0].price)
    ensures forall j :: 0 <= j < |b.Levels(o.side)| ==> b.Levels(o.side)[j].price != o.price
    ensures LowerBound(o.side, b.Levels(o.side), o.price) == 0
  {
    var ls := b.Levels(o.side);
    assert Sorted(o.side, ls);
    assert forall j :: 0 <= j < |ls| ==> Key(o.side, ls[0].price) <= Key(o.side, ls[j].price);
  }

  /** Matching never adds an id to the index. */
  lemma DrainKeepsOut(side: Side, limit: Option<Price>, s: DrainState, id: OrderId)
    requires Drainable(s) && id !in s.book.index
    ensures id !in Drain(side, limit, s).book.index
    decreases s.taker.Rem()
  {
    if CanStep(side, limit, s) {
      StepOk(side, s);
      DrainKeepsOut(side, limit, Step(side, s), id);
    }
  }

  /** Cancelling an indexed id cuts its order at the position the index promises. */
  lemma CancelCuts(b: BookState, id: OrderId) returns (i: nat, k: nat)
    requires BookOk(b) && id in b.index
    ensures var side := b.index[id].side;
      var ls := b.Levels(side);
      i < |ls| && k < |ls[i].orders| && ls[i].orders[k].id == id && SideOk(side, ls)
      && CancelOrder(b, id).0 == b.With(side, CutAt(ls, i, k), b.index - {id})
  {
    var loc := b.index[id];
    var ls := b.Levels(loc.side);
    assert SideOk(loc.side, ls) && Indexed(loc.side, ls, b.index);
    i, k :| HasAt(ls, loc.price, id, i, k);
    RemoveInAt(loc.side, ls, b.index, id, i, k);
    hide BookOk, CutAt, RemoveIn, SideOk;
  }

  lemma CancelOk(b: BookState, id: OrderId)
    requires BookOk(b)
    ensures BookOk(CancelOrder(b, id).0)
  {
    if id in b.index {
      hide BookOk, CancelOrder, CutAt;
      var i, k := CancelCuts(b, id);
      CutBook(b.index[id].side, b, i, k);
    }
  }

  lemma CutBook(side: Side, b: BookState, i: nat, k: nat)
    requires BookOk(b) && i < |b.Levels(side)| && k < |b.Levels(side)[i].orders|
    ensures var ls := b.Levels(side); BookOk(b.With(side, CutAt(ls, i, k), b.index - {ls[i].orders[k].id}))
  {
    hide CutAt, Sorted, LevelOk, Has, Crosses;
    var ls := b.Levels(side);
    var ls' := CutAt(ls, i, k);
    var id := ls[i].orders[k].id;
    assert SideOk(side, ls) && Indexed(side, ls, b.index);
    CutAtSide(side, ls, i, k);
    CutAtIndexed(side, ls, b.index, i, k);
    FrontUncrossed(side, b, ls', b.index - {id});
    forall x | x in b.index - {id} && b.index[x].side == side ensures Has(ls', b.index[x].price, x) {
      CutAtHas(ls, i, k, b.index[x].price, x);
    }
    ReplaceSide(side, b, ls', b.index - {id});
  }

  /** The removal cuts the order at the position the index promises. */
  lemma RemoveInAt(side: Side, ls: seq<LevelState>, index: map<OrderId, Location>, id: OrderId, i: int, k: int)
    requires SideOk(side, ls) && Indexed(side, ls, index)
    requires id in index && index[id].side == side && HasAt(ls, index[id].price, id, i, k)
    ensures RemoveIn(side, ls, index[id].price, id) == CutAt(ls, i, k)
  {
    PriceFound(side, ls, i);
    LevelIn(side, ls, i);
    IdFound(side, ls[i], k);
    hide SideOk, Indexed, LevelOk, LowerBound, FindId, CutAt;
  }

  /** The search for a level's price stops at that level. */
  lemma PriceFound(side: Side, ls: seq<LevelState>, i: nat)
    requires SideOk(side, ls) && i < |ls|
    ensures LowerBound(side, ls, ls[i].price) == i
  {
    hide LevelOk, LowerBound;
    var j := LowerBound(side, ls, ls[i].price);
  }

  lemma IdFound(side: Side, l: LevelState, k: nat)
    requires LevelOk(side, l) && k < |l.orders|
    ensures FindId(l.orders, l.orders[k].id) == k
  {
    hide FindId, OrderOk;
    var j := FindId(l.orders, l.orders[k].id);
  }

  lemma CutAtSide(side: Side, ls: seq<LevelState>, i: nat, k: nat)
    requires SideOk(side, ls) && i < |ls| && k < |ls[i].orders|
    ensures var ls' := CutAt(ls, i, k);
      SideOk(side, ls') && (ls' != [] ==> Key(side, ls[0].price) <= Key(side, ls'[0].price))
  {
    hide LevelOk, SideOk, Key, RemoveAt;
    LevelIn(side, ls, i);
    if |ls[i].orders| == 1 {
      DropLevelOk(side, ls, i);
    } else {
      RemoveAtOk(side, ls[i], k);
      ReplaceLevelOk(side, ls, i, RemoveAt(ls[i], k));
    }
  }

  lemma DropLevelOk(side: Side, ls: seq<LevelState>, i: nat)
    requires SideOk(side, ls) && i < |ls|
    ensures var ls' := ls[..i] + ls[i + 1..];
      SideOk(side, ls') && (ls' != [] ==> Key(side, ls[0].price) <= Key(side, ls'[0].price))
  {
    hide LevelOk, Key;
    var ls' := ls[..i] + ls[i + 1..];
    assert forall j :: 0 <= j < |ls'| ==> ls'[j] == ls[if j < i then j else j + 1];
  }

  lemma RemoveAtOk(side: Side, l: LevelState, k: nat)
    requires LevelOk(side, l) && k < |l.orders| && |l.orders| > 1
    ensures LevelOk(side, RemoveAt(l, k)) && RemoveAt(l, k).price == l.price
  {
    var l' := RemoveAt(l, k);
    forall j | 0 <= j < |l'.orders| ensures OrderOk(side, l'.price, l'.orders[j], j) {
      assert OrderOk(side, l.price, l.orders[if j < k then j else j + 1], if j < k then j else j + 1);
    }
    assert forall j :: 0 <= j < |l'.orders| ==> l'.orders[j] == l.orders[if j < k then j else j + 1];
  }

  /** The orders after a cut are the orders before it but one, at shifted positions. */
  lemma CutAtFrom(ls: seq<LevelState>, i: nat, k: nat, j: int, m: int) returns (j': int, m': int)
    requires i < |ls| && k < |ls[i].orders|
    requires 0 <= j < |CutAt(ls, i, k)| && 0 <= m < |CutAt(ls, i, k)[j].orders|
    ensures 0 <= j' < |ls| && 0 <= m' < |ls[j'].orders| && (j' != i || m' != k)
    ensures var ls' := CutAt(ls, i, k);
      ls[j'].orders[m'] == ls'[j].orders[m] && ls[j'].price == ls'[j].price
  {
    var gone := |ls[i].orders| == 1;
    j' := if gone && j >= i then j + 1 else j;
    m' := if j' == i && m >= k then m + 1 else m;
  }

  lemma CutAtHas(ls: seq<LevelState>, i: nat, k: nat, p: Price, x: OrderId)
    requires i < |ls| && k < |ls[i].orders|
    requires Has(ls, p, x) && x != ls[i].orders[k].id
    ensures Has(CutAt(ls, i, k), p, x)
  {
    var j, m :| HasAt(ls, p, x, j, m);
    var ls' := CutAt(ls, i, k);
    if |ls[i].orders| == 1 {
      assert HasAt(ls', p, x, if j > i then j - 1 else j, m);
    } else {
      assert HasAt(ls', p, x, j, if j == i && m > k then m - 1 else m);
    }
  }

  lemma CutAtIndexed(side: Side, ls: seq<LevelState>, index: map<OrderId, Location>, i: nat, k: nat)
    requires SideOk(side, ls) && Indexed(side, ls, index)
    requires i < |ls| && k < |ls[i].orders|
    ensures Indexed(side, CutAt(ls, i, k), index - {ls[i].orders[k].id})
  {
    hide CutAt, SideOk;
    var id := ls[i].orders[k].id;
    var ls' := CutAt(ls, i, k);
    forall j, m | 0 <= j < |ls'| && 0 <= m < |ls'[j].orders|
      ensures ls'[j].orders[m].id != id
      ensures ls'[j].orders[m].id in index && index[ls'[j].orders[m].id] == Location(side, ls'[j].price)
    {
      var j', m' := CutAtFrom(ls, i, k, j, m);
      if ls[j'].orders[m'].id == id { PositionUnique(side, ls, index, j', m', i, k); }
    }
  }
}
