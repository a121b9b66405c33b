/** The level-structured book refines the flat price-time list: every operation commutes
    with flattening. */
module Refinement {
  import opened Types
  import opened Matching
  import opened PriceTime

  /** Insert behind every order of equal or better price. */
  function Insert(side: Side, list: seq<OrderState>, o: OrderState): seq<OrderState> {
    if list == [] || Key(side, o.price) < Key(side, list[0].price) then [o] + list
    else [list[0]] + Insert(side, list[1..], o)
  }

  function Without(list: seq<OrderState>, id: OrderId): seq<OrderState> {
    if list == [] then [] else if list[0].id == id then list[1..] else [list[0]] + Without(list[1..], id)
  }

  function Ids(list: seq<OrderState>): set<OrderId> {
    set i | 0 <= i < |list| :: list[i].id
  }

  datatype FlatBook = FlatBook(symbol: Symbol, bids: seq<OrderState>, asks: seq<OrderState>)
  {
    function List(side: Side): seq<OrderState> { if side == BUY then bids else asks }

    function With(side: Side, list: seq<OrderState>): FlatBook {
      if side == BUY then FlatBook(symbol, list, asks) else FlatBook(symbol, bids, list)
    }
  }

  function Abs(b: BookState): FlatBook {
    FlatBook(b.symbol, Flatten(b.bids), Flatten(b.asks))
  }

  datatype FlatResult = FlatResult(book: FlatBook, order: OrderState, trades: seq<Trade>, done: seq<OrderState>)

  /** The status an order ends with, by type and fill alone; a FOK that executes is FILLED. */
  function FinalStatus(o: OrderState, filled: int, canFill: bool): OrderStatus {
    match o.kind
    case FOK => if canFill then FILLED else CANCELLED
    case MARKET => if filled >= o.quantity then FILLED else PARTIALLY_FILLED
    case IOC => if filled >= o.quantity then FILLED else if filled > 0 then PARTIALLY_FILLED else CANCELLED
    case _ => if filled == 0 then ACCEPTED else if filled >= o.quantity then FILLED else PARTIALLY_FILLED
  }

  function Matched(fb: FlatBook, o: OrderState, canFill: bool): Fills
    requires Live(fb.bids) && Live(fb.asks)
  {
    var opp := Opposite(o.side);
    if o.kind == FOK && !canFill then Fills(fb.List(opp), o.quantity, [], [])
    else Greedy(opp, Limit(o), fb.List(opp), o.quantity, fb.symbol, o.id)
  }

  /** A whole order submission on the flat book. */
  function FlatAdd(fb: FlatBook, o: OrderState, canFill: bool): FlatResult
    requires Live(fb.bids) && Live(fb.asks)
    requires o.filled == 0
  {
    var g := Matched(fb, o, canFill);
    GreedyLeft(Opposite(o.side), Limit(o), fb.List(Opposite(o.side)), o.quantity, fb.symbol, o.id);
    var filled := o.quantity - g.left;
    var o' := o.(filled := filled, status := FinalStatus(o, filled, canFill));
    var b := fb.With(Opposite(o.side), g.list);
    FlatResult(if o.kind == LIMIT && g.left > 0 then b.With(o.side, Insert(o.side, b.List(o.side), o')) else b,
               o', g.trades, g.done)
  }

  lemma GreedyLeft(resting: Side, limit: Option<Price>, list: seq<OrderState>, left: Quantity,
                   symbol: Symbol, taker: OrderId)
    requires Live(list)
    ensures 0 <= Greedy(resting, limit, list, left, symbol, taker).left <= left
    decreases |list|
  {
    if list != [] && Crosses(resting, limit, list[0].price) && list[0].Rem() <= left {
      GreedyLeft(resting, limit, list[1..], left - list[0].Rem(), symbol, taker);
    }
  }

  // ---------------------------------------------------------------- flattening

  lemma FlattenConcat(a: seq<LevelState>, b: seq<LevelState>)
    ensures Flatten(a + b) == Flatten(a) + Flatten(b)
  {
    if a == [] {
      assert a + b == b;
    } else {
      assert (a + b)[1..] == a[1..] + b;
      FlattenConcat(a[1..], b);
    }
  }

  lemma FlattenThree(a: seq<LevelState>, l: LevelState, c: seq<LevelState>)
    ensures Flatten(a + [l] + c) == Flatten(a) + (l.orders + Flatten(c))
  {
    FlattenConcat(a + [l], c);
    FlattenConcat(a, [l]);
    assert Flatten([l]) == l.orders + Flatten([]) == l.orders;
    hide Flatten;
    Assoc(Flatten(a), l.orders, Flatten(c));
  }

  lemma Assoc<T>(a: seq<T>, b: seq<T>, c: seq<T>)
    ensures (a + b) + c == a + (b + c)
  {
  }

  lemma Rejoin<T>(s: seq<T>, i: nat)
    requires i < |s|
    ensures s[..i] + [s[i]] + s[i + 1..] == s
  {
  }

  lemma FlattenSplit(ls: seq<LevelState>, i: nat)
    requires i < |ls|
    ensures Flatten(ls) == Flatten(ls[..i]) + (ls[i].orders + Flatten(ls[i + 1..]))
  {
    hide *;
    Rejoin(ls, i);
    FlattenThree(ls[..i], ls[i], ls[i + 1..]);
  }

  /** Position (i, k) of the levels is position |Flatten(ls[..i])| + k of the list. */
  lemma FlattenAt(ls: seq<LevelState>, i: nat, k: nat) returns (m: nat)
    requires i < |ls| && k < |ls[i].orders|
    ensures m == |Flatten(ls[..i])| + k < |Flatten(ls)| && Flatten(ls)[m] == ls[i].orders[k]
  {
    FlattenSplit(ls, i);
    m := |Flatten(ls[..i])| + k;
  }

  lemma FlattenFrom(ls: seq<LevelState>, m: nat) returns (i: nat, k: nat)
    requires m < |Flatten(ls)|
    ensures i < |ls| && k < |ls[i].orders| && ls[i].orders[k] == Flatten(ls)[m]
    ensures m == |Flatten(ls[..i])| + k
  {
    if m < |ls[0].orders| {
      i, k := 0, m;
    } else {
      i, k := FlattenFrom(ls[1..], m - |ls[0].orders|);
      assert ls[..i + 1][1..] == ls[1..][..i];
      i := i + 1;
    }
  }

  lemma FlattenOk(side: Side, ls: seq<LevelState>)
    requires SideOk(side, ls)
    ensures Live(Flatten(ls))
    ensures forall m :: 0 <= m < |Flatten(ls)| ==> Flatten(ls)[m].side == side && Flatten(ls)[m].kind == LIMIT
  {
    forall m | 0 <= m < |Flatten(ls)|
      ensures Flatten(ls)[m].filled < Flatten(ls)[m].quantity
      ensures Flatten(ls)[m].side == side && Flatten(ls)[m].kind == LIMIT
    {
      var i, k := FlattenFrom(ls, m);
      assert OrderOk(side, ls[i].price, ls[i].orders[k], k);
    }
  }

  lemma BookLive(b: BookState)
    requires BookOk(b)
    ensures Live(Abs(b).bids) && Live(Abs(b).asks)
    ensures forall side :: Abs(b).List(side) == Flatten(b.Levels(side))
  {
    FlattenOk(BUY, b.bids);
    FlattenOk(SELL, b.asks);
  }

  // ---------------------------------------------------------------- matching

  lemma FlattenCons(l: LevelState, rest: seq<LevelState>)
    ensures Flatten([l] + rest) == l.orders + Flatten(rest)
  {
    assert ([l] + rest)[1..] == rest;
  }

  lemma FlattenFront(ls: seq<LevelState>)
    requires ls != [] && ls[0].orders != []
    ensures Flatten(ls) != [] && Flatten(ls)[0] == ls[0].orders[0]
    ensures Flatten(ls)[1..] == ls[0].orders[1..] + Flatten(ls[1..])
  {
  }

  lemma FillFrontPartial(ls: seq<LevelState>, q: int)
    requires ls != [] && ls[0].orders != []
    requires 0 <= q && ls[0].orders[0].filled + q < ls[0].orders[0].quantity
    ensures Flatten(FillFront(ls, q)) == [Fill(ls[0].orders[0], q)] + Flatten(ls)[1..]
  {
    var m, os := Fill(ls[0].orders[0], q), ls[0].orders[1..];
    var level := LevelState(ls[0].price, [m] + os, SaturatingSub(ls[0].total, q));
    assert FillFront(ls, q) == [level] + ls[1..];
    hide FillFront, Fill;
    FlattenFront(ls);
    FlattenCons(level, ls[1..]);
    Assoc([m], os, Flatten(ls[1..]));
  }

  lemma FillFrontWhole(ls: seq<LevelState>)
    requires ls != [] && ls[0].orders != [] && ls[0].orders[0].filled < ls[0].orders[0].quantity
    ensures Flatten(FillFront(ls, ls[0].orders[0].Rem())) == Flatten(ls)[1..]
  {
    var os := ls[0].orders[1..];
    FlattenFront(ls);
    if os != [] {
      FlattenCons(LevelState(ls[0].price, os, SaturatingSub(ls[0].total, ls[0].orders[0].Rem())), ls[1..]);
    }
  }

  lemma {:induction false} StepFlat(side: Side, s: DrainState)
    requires Drainable(s) && s.taker.Rem() > 0 && s.book.Levels(side) != []
    ensures var list := Flatten(s.book.Levels(side));
      var s' := Step(side, s);
      list != [] && var m := list[0];
      && m == s.book.Levels(side)[0].orders[0] && m.price == s.book.Levels(side)[0].price
      && 0 < m.Rem()
      && s'.book.symbol == s.book.symbol && s'.taker.id == s.taker.id
      && if m.Rem() <= s.taker.Rem() then
           && Flatten(s'.book.Levels(side)) == list[1..]
           && s'.taker.Rem() == s.taker.Rem() - m.Rem()
           && s'.trades == s.trades + [Trade(s.book.symbol, m.price, m.Rem(), m.id, s.taker.id)]
           && s'.done == s.done + [Fill(m, m.Rem())]
         else
           && Flatten(s'.book.Levels(side)) == [Fill(m, s.taker.Rem())] + list[1..]
           && s'.taker.Rem() == 0
           && s'.trades == s.trades + [Trade(s.book.symbol, m.price, s.taker.Rem(), m.id, s.taker.id)]
           && s'.done == s.done
  {
    hide BookOk, SideOk, FillFront, Flatten, Crosses;
    var ls := s.book.Levels(side);
    BookSide(s.book, side);
    FrontIsLive(side, ls);
    FlattenFront(ls);
    var m := ls[0].orders[0];
    if m.Rem() <= s.taker.Rem() {
      FillFrontWhole(ls);
      assert Fill(m, m.Rem()).IsFilled();
    } else {
      FillFrontPartial(ls, s.taker.Rem());
      assert !Fill(m, s.taker.Rem()).IsFilled();
    }
    hide Fill;
  }

  ghost predicate DrainsLike(side: Side, s: DrainState, d: DrainState, g: Fills) {
    && Flatten(d.book.Levels(side)) == g.list
    && d.taker.Rem() == g.left
    && d.trades == s.trades + g.trades
    && d.done == s.done + g.done
  }

  /** One greedy step in front of a greedy run. */
  lemma {:induction false} DrainsLikeStep(side: Side, limit: Option<Price>, s: DrainState, d: DrainState)
    requires Drainable(s) && CanStep(side, limit, s)
    requires Live(Flatten(s.book.Levels(side))) && Live(Flatten(Step(side, s).book.Levels(side)))
    requires 0 <= Step(side, s).taker.Rem() < TWO_64
    requires var s' := Step(side, s);
      DrainsLike(side, s', d, Greedy(side, limit, Flatten(s'.book.Levels(side)), s'.taker.Rem(), s.book.symbol, s.taker.id))
    ensures DrainsLike(side, s, d, Greedy(side, limit, Flatten(s.book.Levels(side)), s.taker.Rem(), s.book.symbol, s.taker.id))
  {
    hide BookOk, Step, Flatten, Fill, Live, Crosses, Greedy;
    StepFlat(side, s);
    var list := Flatten(s.book.Levels(side));
    var s' := Step(side, s);
    var list', left' := Flatten(s'.book.Levels(side)), s'.taker.Rem();
    var g' := Greedy(side, limit, list', left', s.book.symbol, s.taker.id);
    if list[0].Rem() <= s.taker.Rem() {
      var t := Trade(s.book.symbol, list[0].price, list[0].Rem(), list[0].id, s.taker.id);
      GreedyWhole(side, limit, list, s.taker.Rem(), s.book.symbol, s.taker.id);
      Assoc(s.trades, [t], g'.trades);
      Assoc(s.done, [Fill(list[0], list[0].Rem())], g'.done);
    } else {
      GreedyPartial(side, limit, list, s.taker.Rem(), s.book.symbol, s.taker.id);
      GreedyStops(side, limit, list', left', s.book.symbol, s.taker.id);
    }
  }

  /** The matching loop on levels computes greedy matching on the flattened side. */
  lemma {:induction false} DrainIsGreedy(side: Side, limit: Option<Price>, s: DrainState)
    requires Drainable(s)
    requires Live(Flatten(s.book.Levels(side)))
    ensures DrainsLike(side, s, Drain(side, limit, s),
                       Greedy(side, limit, Flatten(s.book.Levels(side)), s.taker.Rem(), s.book.symbol, s.taker.id))
    decreases s.taker.Rem()
  {
    hide BookOk, Step, DrainsLike, Flatten, Greedy, Live;
    if CanStep(side, limit, s) {
      var s' := Step(side, s);
      StepOk(side, s);
      StepLive(side, s);
      StepFlat(side, s);
      DrainIsGreedy(side, limit, s');
      DrainsLikeStep(side, limit, s, Drain(side, limit, s'));
    } else {
      DrainStops(side, limit, s);
    }
  }

  lemma DrainStops(side: Side, limit: Option<Price>, s: DrainState)
    requires Drainable(s) && !CanStep(side, limit, s)
    requires Live(Flatten(s.book.Levels(side)))
    ensures DrainsLike(side, s, Drain(side, limit, s),
                       Greedy(side, limit, Flatten(s.book.Levels(side)), s.taker.Rem(), s.book.symbol, s.taker.id))
  {
    hide BookOk, SideOk, OrderOk;
    var ls := s.book.Levels(side);
    if ls != [] {
      BookSide(s.book, side);
      FrontIsLive(side, ls);
      FlattenFront(ls);
    }
  }

  lemma StepLive(side: Side, s: DrainState)
    requires Drainable(s) && s.taker.Rem() > 0 && s.book.Levels(side) != []
    ensures Live(Flatten(Step(side, s).book.Levels(side)))
  {
    StepOk(side, s);
    FlattenOk(side, Step(side, s).book.Levels(side));
  }

  // ---------------------------------------------------------------- resting

  lemma {:induction false} InsertSplit(side: Side, a: seq<OrderState>, b: seq<OrderState>, o: OrderState)
    requires forall i :: 0 <= i < |a| ==> Key(side, a[i].price) <= Key(side, o.price)
    requires b != [] ==> Key(side, o.price) < Key(side, b[0].price)
    ensures Insert(side, a + b, o) == a + ([o] + b)
    decreases |a|
  {
    if a == [] {
      assert a + b == b && a + ([o] + b) == [o] + b;
    } else {
      assert (a + b)[0] == a[0] && (a + b)[1..] == a[1..] + b;
      InsertSplit(side, a[1..], b, o);
      assert [a[0]] + (a[1..] + ([o] + b)) == a + ([o] + b);
    }
  }

  lemma FlattenKeys(side: Side, ls: seq<LevelState>, bound: int)
    requires forall i, k :: 0 <= i < |ls| && 0 <= k < |ls[i].orders| ==> ls[i].orders[k].price == ls[i].price
    requires forall i :: 0 <= i < |ls| ==> Key(side, ls[i].price) <= bound
    ensures forall m :: 0 <= m < |Flatten(ls)| ==> Key(side, Flatten(ls)[m].price) <= bound
  {
    forall m | 0 <= m < |Flatten(ls)| ensures Key(side, Flatten(ls)[m].price) <= bound {
      var i, k := FlattenFrom(ls, m);
    }
  }

  lemma SidePrices(side: Side, ls: seq<LevelState>)
    requires SideOk(side, ls)
    ensures forall i, k :: 0 <= i < |ls| && 0 <= k < |ls[i].orders| ==> ls[i].orders[k].price == ls[i].price
    ensures forall i :: 0 <= i < |ls| ==> ls[i].orders != []
  {
    forall i, k | 0 <= i < |ls| && 0 <= k < |ls[i].orders| ensures ls[i].orders[k].price == ls[i].price {
      assert OrderOk(side, ls[i].price, ls[i].orders[k], k);
    }
  }

  lemma RestInFlat(side: Side, ls: seq<LevelState>, o: OrderState)
    requires SideOk(side, ls)
    ensures Flatten(RestIn(side, ls, o)) == Insert(side, Flatten(ls), o)
  {
    var i := LowerBound(side, ls, o.price);
    SidePrices(side, ls);
    if LevelAt(ls, i, o.price) {
      InsertAt(side, ls, i + 1, o);
      RestAtFlat(ls, i, o);
    } else {
      InsertAt(side, ls, i, o);
      RestNewFlat(ls, i, Append(LevelState(o.price, [], 0), o), o);
    }
  }

  /** The new order goes behind the levels of equal or better price. */
  lemma InsertAt(side: Side, ls: seq<LevelState>, j: nat, o: OrderState)
    requires SideOk(side, ls) && j <= |ls|
    requires forall m :: 0 <= m < j ==> Key(side, ls[m].price) <= Key(side, o.price)
    requires j < |ls| ==> Key(side, o.price) < Key(side, ls[j].price)
    ensures Insert(side, Flatten(ls), o) == Flatten(ls[..j]) + ([o] + Flatten(ls[j..]))
  {
    hide SideOk, Insert, Flatten;
    SidePrices(side, ls);
    var a, b := Flatten(ls[..j]), Flatten(ls[j..]);
    FlattenKeys(side, ls[..j], Key(side, o.price));
    if j < |ls| {
      FlattenFront(ls[j..]);
      assert ls[j].orders[0].price == ls[j].price;
    }
    FlattenConcat(ls[..j], ls[j..]);
    assert ls == ls[..j] + ls[j..];
    if j == |ls| { FlattenEmpty(); }
    InsertSplit(side, a, b, o);
  }

  lemma FlattenEmpty()
    ensures Flatten([]) == []
  {
  }

  lemma RestAtFlat(ls: seq<LevelState>, i: nat, o: OrderState)
    requires i < |ls|
    ensures Flatten(ls[i := Append(ls[i], o)]) == Flatten(ls[..i + 1]) + ([o] + Flatten(ls[i + 1..]))
  {
    var l' := Append(ls[i], o);
    var a, os, c := Flatten(ls[..i]), ls[i].orders, Flatten(ls[i + 1..]);
    assert ls[i := l'] == ls[..i] + [l'] + ls[i + 1..];
    FlattenThree(ls[..i], l', ls[i + 1..]);
    assert ls[..i + 1] == ls[..i] + [ls[i]];
    FlattenConcat(ls[..i], [ls[i]]);
    FlattenCons(ls[i], []);
    FlattenEmpty();
    assert l'.orders == os + [o] && [ls[i]] + [] == [ls[i]] && os + [] == os;
    hide Flatten, Append;
    Assoc(os, [o], c);
    Assoc(a, os, [o] + c);
  }

  lemma RestNewFlat(ls: seq<LevelState>, i: nat, l: LevelState, o: OrderState)
    requires i <= |ls| && l.orders == [o]
    ensures Flatten(ls[..i] + [l] + ls[i..]) == Flatten(ls[..i]) + ([o] + Flatten(ls[i..]))
  {
    hide Flatten;
    FlattenThree(ls[..i], l, ls[i..]);
  }

  // ---------------------------------------------------------------- cancelling

  lemma {:induction false} WithoutAt(list: seq<OrderState>, m: nat)
    requires m < |list|
    requires forall i :: 0 <= i < m ==> list[i].id != list[m].id
    ensures Without(list, list[m].id) == list[..m] + list[m + 1..]
    decreases m
  {
    if m == 0 {
      assert list[..0] + list[1..] == list[1..];
    } else {
      WithoutAt(list[1..], m - 1);
      assert list[..m] + list[m + 1..] == [list[0]] + (list[1..][..m - 1] + list[1..][m..]);
    }
  }

  lemma {:induction false} WithoutNone(list: seq<OrderState>, id: OrderId)
    requires id !in Ids(list)
    ensures Without(list, id) == list
    decreases |list|
  {
    if list != [] {
      assert list[0].id in Ids(list);
      forall x | x in Ids(list[1..]) ensures x in Ids(list) {
        var i :| 0 <= i < |list[1..]| && list[1..][i].id == x;
        assert list[i + 1].id == x;
      }
      WithoutNone(list[1..], id);
    }
  }

  lemma CutAtFlat(ls: seq<LevelState>, i: nat, k: nat)
    requires i < |ls| && k < |ls[i].orders|
    ensures var m := |Flatten(ls[..i])| + k;
      m < |Flatten(ls)| && Flatten(CutAt(ls, i, k)) == Flatten(ls)[..m] + Flatten(ls)[m + 1..]
  {
    hide Flatten;
    var a, os, c := Flatten(ls[..i]), ls[i].orders, Flatten(ls[i + 1..]);
    FlattenSplit(ls, i);
    if |os| == 1 {
      FlattenConcat(ls[..i], ls[i + 1..]);
      CutOnly(a, os, c);
    } else {
      var l' := RemoveAt(ls[i], k);
      assert ls[i := l'] == ls[..i] + [l'] + ls[i + 1..];
      FlattenThree(ls[..i], l', ls[i + 1..]);
      CutMiddle(a, os, c, k);
    }
  }

  lemma CutOnly<T>(a: seq<T>, os: seq<T>, c: seq<T>)
    requires |os| == 1
    ensures a + c == (a + (os + c))[..|a|] + (a + (os + c))[|a| + 1..]
  {
  }

  lemma CutMiddle<T>(a: seq<T>, os: seq<T>, c: seq<T>, k: nat)
    requires k < |os|
    ensures var s := a + (os + c);
      a + ((os[..k] + os[k + 1..]) + c) == s[..|a| + k] + s[|a| + k + 1..]
  {
  }

  // ---------------------------------------------------------------- the flat book of a valid book

  lemma FlatDistinct(b: BookState, side: Side)
    requires BookOk(b)
    ensures Distinct(Flatten(b.Levels(side)))
  {
    var ls := b.Levels(side);
    assert SideOk(side, ls) && Indexed(side, ls, b.index);
    hide BookOk;
    forall m, m' | 0 <= m < m' < |Flatten(ls)| ensures Flatten(ls)[m].id != Flatten(ls)[m'].id {
      var i, k := FlattenFrom(ls, m);
      var i', k' := FlattenFrom(ls, m');
      if Flatten(ls)[m].id == Flatten(ls)[m'].id {
        PositionUnique(side, ls, b.index, i, k, i', k');
      }
    }
  }

  /** The index holds exactly the ids of the flat lists, each with its side. */
  lemma IndexIsFlat(b: BookState, side: Side)
    requires BookOk(b)
    ensures Ids(Flatten(b.Levels(side))) == set id | id in b.index && b.index[id].side == side
  {
    var ls := b.Levels(side);
    assert Indexed(side, ls, b.index);
    forall id | id in b.index && b.index[id].side == side ensures id in Ids(Flatten(ls)) {
      assert Has(ls, b.index[id].price, id);
      var i, k :| HasAt(ls, b.index[id].price, id, i, k);
      var m := FlattenAt(ls, i, k);
    }
    forall id | id in Ids(Flatten(ls)) ensures id in b.index && b.index[id].side == side {
      var m :| 0 <= m < |Flatten(ls)| && Flatten(ls)[m].id == id;
      var i, k := FlattenFrom(ls, m);
    }
  }

  function FlatCancel(fb: FlatBook, id: OrderId): FlatBook {
    FlatBook(fb.symbol, Without(fb.bids, id), Without(fb.asks, id))
  }

  /** Cancelling removes the order from the flat list and touches nothing else. */
  lemma CancelRefines(b: BookState, id: OrderId)
    requires BookOk(b)
    ensures Abs(CancelOrder(b, id).0) == FlatCancel(Abs(b), id)
    ensures CancelOrder(b, id).1 <==> id in Ids(Flatten(b.bids)) + Ids(Flatten(b.asks))
  {
    IndexIsFlat(b, BUY);
    IndexIsFlat(b, SELL);
    if id in b.index {
      var side := b.index[id].side;
      WithoutNone(Flatten(b.Levels(Opposite(side))), id);
      RemoveInFlat(b, id);
    } else {
      WithoutNone(Flatten(b.bids), id);
      WithoutNone(Flatten(b.asks), id);
    }
  }

  lemma RemoveInFlat(b: BookState, id: OrderId)
    requires BookOk(b) && id in b.index
    ensures var loc := b.index[id];
      Flatten(RemoveIn(loc.side, b.Levels(loc.side), loc.price, id)) == Without(Flatten(b.Levels(loc.side)), id)
  {
    var loc := b.index[id];
    var ls := b.Levels(loc.side);
    assert SideOk(loc.side, ls) && Indexed(loc.side, ls, b.index);
    assert Has(ls, loc.price, id);
    FlatDistinct(b, loc.side);
    hide BookOk;
    var i, k :| HasAt(ls, loc.price, id, i, k);
    RemoveInAt(loc.side, ls, b.index, id, i, k);
    CutAtFlat(ls, i, k);
    var m := FlattenAt(ls, i, k);
    WithoutAt(Flatten(ls), m);
  }

  ghost predicate Refines(r: AddResult, f: FlatResult) {
    Abs(r.book) == f.book && r.order == f.order && r.trades == f.trades && r.done == f.done
  }

  /** Submitting an order to the book is submitting it to the flat book; the only thing the
      flat book cannot see is the answer of the FOK scan. */
  lemma AddOrderRefines(b: BookState, o: OrderState)
    requires BookOk(b) && Incoming(b, o)
    ensures Live(Abs(b).bids) && Live(Abs(b).asks)
    ensures Refines(AddOrder(b, o), FlatAdd(Abs(b), o, CanFill(b, o)))
  {
    hide BookOk, Live, Insert, RestIn, DrainOrder, Greedy, Flatten;
    BookLive(b);
    if o.kind == LIMIT {
      LimitRefines(b, o);
    } else {
      NonLimitRefines(b, o);
    }
  }

  lemma NonLimitRefines(b: BookState, o: OrderState)
    requires BookOk(b) && Incoming(b, o) && o.kind != LIMIT
    requires Live(Abs(b).bids) && Live(Abs(b).asks)
    ensures Refines(AddOrder(b, o), FlatAdd(Abs(b), o, CanFill(b, o)))
  {
    hide BookOk, Live, DrainOrder, Greedy, Insert, FlatAdd;
    var o1 := o.(status := ACCEPTED);
    DrainOrderRefines(b, o1);
    var can := CanFill(b, o);
    assert can == CanFill(b, o1);
    var r := AddOrder(b, o);
    FlatAddFrom(Abs(b), o, can, Abs(r.book), r.order);
    hide Abs;
  }

  lemma RestOrderRefines(b: BookState, o: OrderState)
    requires SideOk(o.side, b.Levels(o.side))
    ensures Abs(RestOrder(b, o)) == Abs(b).With(o.side, Insert(o.side, Abs(b).List(o.side), o))
  {
    hide RestIn, Insert, Flatten, SideOk;
    RestInFlat(o.side, b.Levels(o.side), o);
  }

  /** A submission in terms of its matching: who is left, and whether the remainder rests. */
  lemma FlatAddFrom(fb: FlatBook, o: OrderState, canFill: bool, b: FlatBook, t: OrderState)
    requires Live(fb.bids) && Live(fb.asks) && o.filled == 0
    requires var g := Matched(fb, o, canFill);
      && b == fb.With(Opposite(o.side), g.list)
      && 0 <= g.left <= o.quantity
      && t == o.(filled := o.quantity - g.left, status := FinalStatus(o, o.quantity - g.left, canFill))
    ensures FlatAdd(fb, o, canFill) ==
      FlatResult(if o.kind == LIMIT && !t.IsFilled() then b.With(o.side, Insert(o.side, b.List(o.side), t)) else b,
                 t, Matched(fb, o, canFill).trades, Matched(fb, o, canFill).done)
  {
    hide Matched, Insert, Live;
  }

  lemma LimitRefines(b: BookState, o: OrderState)
    requires BookOk(b) && Incoming(b, o) && o.kind == LIMIT
    requires Live(Abs(b).bids) && Live(Abs(b).asks)
    ensures Refines(AddOrder(b, o), FlatAdd(Abs(b), o, CanFill(b, o)))
  {
    hide BookOk, Live, Greedy, RestOrder, SideOk, Insert, FlatAdd, Drain;
    var o1 := o.(status := ACCEPTED);
    var d := DrainOrder(b, o1);
    DrainOrderRefines(b, o1);
    DrainOk(Opposite(o.side), Limit(o1), DrainState(b, o1, [], []));
    BookSide(d.book, o.side);
    hide DrainOrder;
    var t := d.taker.(status := FinalStatus(o, d.taker.filled, CanFill(b, o)));
    FlatAddFrom(Abs(b), o, CanFill(b, o), Abs(d.book), t);
    RestOrderRefines(d.book, t);
    hide Abs;
  }

  lemma DrainOrderRefines(b: BookState, o: OrderState)
    requires BookOk(b) && o.filled == 0
    requires Live(Abs(b).bids) && Live(Abs(b).asks)
    ensures var d := DrainOrder(b, o);
      var opp := Opposite(o.side);
      var g := Greedy(opp, Limit(o), Abs(b).List(opp), o.quantity, b.symbol, o.id);
      && Abs(d.book) == Abs(b).With(opp, g.list)
      && d.trades == g.trades && d.done == g.done
      && 0 <= g.left <= o.quantity && d.taker == o.(filled := o.quantity - g.left)
  {
    hide BookOk, Live, Drain, Greedy, Flatten;
    var opp := Opposite(o.side);
    var s := DrainState(b, o, [], []);
    DrainIsGreedy(opp, Limit(o), s);
    DrainOk(opp, Limit(o), s);
    var d := DrainOrder(b, o);
    assert d.trades == [] + d.trades && d.done == [] + d.done;
  }
}
