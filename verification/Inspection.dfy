/** What a book reports about itself, and the structural check it offers. */
module Inspection {
  import opened Types
  import opened Matching
  import opened PriceTime
  import opened Refinement
  import opened Totals

  datatype BookLevel = BookLevel(price: Price, qty: Quantity, orderCount: nat)

  function Best(ls: seq<LevelState>): Option<Price> {
    if ls == [] then None else Some(ls[0].price)
  }

  function Spread(b: BookState): Option<int> {
    if b.bids == [] || b.asks == [] then None else Some(b.asks[0].price - b.bids[0].price)
  }

  /** In a valid book no resting order has a better price than the best, and the spread is positive. */
  lemma BestIsBest(b: BookState, side: Side, i: nat)
    requires BookOk(b) && i < |b.Levels(side)|
    ensures Best(b.Levels(side)).Some? && Key(side, Best(b.Levels(side)).value) <= Key(side, b.Levels(side)[i].price)
    ensures Spread(b).Some? ==> Spread(b).value > 0
  {
    BookSide(b, side);
    hide SideOk, Indexed, Has;
    assert Sorted(side, b.Levels(side)) by { SideSorted(side, b.Levels(side)); }
  }

  lemma SideSorted(side: Side, ls: seq<LevelState>)
    requires SideOk(side, ls)
    ensures Sorted(side, ls)
  {
  }

  /** The spread is the least difference between a resting ask and a resting bid, and some pair has it. */
  lemma SpreadIs(b: BookState)
    requires BookOk(b)
    ensures Spread(b) == None <==> Flatten(b.bids) == [] || Flatten(b.asks) == []
    ensures Spread(b).Some? ==>
      && (forall x, y :: x in Flatten(b.bids) && y in Flatten(b.asks) ==> y.price - x.price >= Spread(b).value)
      && (exists x, y :: x in Flatten(b.bids) && y in Flatten(b.asks) && y.price - x.price == Spread(b).value)
  {
    BookSide(b, BUY);
    BookSide(b, SELL);
    hide BookOk, Indexed;
    SideBest(BUY, b.bids);
    SideBest(SELL, b.asks);
    hide SideOk, Flatten;
    if Spread(b).Some? {
      var x, y := Flatten(b.bids)[0], Flatten(b.asks)[0];
      assert x in Flatten(b.bids) && y in Flatten(b.asks) && y.price - x.price == Spread(b).value;
    }
  }

  /** The first resting order of a side has the price of its first level, and none has a better one. */
  lemma SideBest(side: Side, ls: seq<LevelState>)
    requires SideOk(side, ls)
    ensures Flatten(ls) == [] <==> ls == []
    ensures ls != [] ==> Flatten(ls)[0].price == ls[0].price
    ensures ls != [] ==> forall x :: x in Flatten(ls) ==> Key(side, ls[0].price) <= Key(side, x.price)
  {
    if ls != [] {
      SidePrices(side, ls);
      FlattenFront(ls);
      hide LevelOk;
      forall x | x in Flatten(ls) ensures Key(side, ls[0].price) <= Key(side, x.price) {
        var m :| 0 <= m < |Flatten(ls)| && Flatten(ls)[m] == x;
        var i, k := FlattenFrom(ls, m);
      }
    }
  }

  /** The first n levels as (price, cached quantity, order count). */
  function Top(ls: seq<LevelState>, n: nat): (r: seq<BookLevel>)
    ensures |r| == Min(n, |ls|)
    ensures forall i :: 0 <= i < |r| ==> r[i] == BookLevel(ls[i].price, ls[i].total, |ls[i].orders|)
  {
    if n == 0 || ls == [] then []
    else [BookLevel(ls[0].price, ls[0].total, |ls[0].orders|)] + Top(ls[1..], n - 1)
  }

  /** The orders at one price, wherever they stand in the list. */
  function AtPrice(list: seq<OrderState>, p: Price): seq<OrderState> {
    if list == [] then [] else (if list[0].price == p then [list[0]] else []) + AtPrice(list[1..], p)
  }

  lemma {:induction false} AtPriceConcat(a: seq<OrderState>, b: seq<OrderState>, p: Price)
    ensures AtPrice(a + b, p) == AtPrice(a, p) + AtPrice(b, p)
    decreases |a|
  {
    if a == [] {
      assert a + b == b;
    } else {
      var front := if a[0].price == p then [a[0]] else [];
      assert (a + b)[0] == a[0] && (a + b)[1..] == a[1..] + b;
      assert AtPrice(a + b, p) == front + AtPrice(a[1..] + b, p) && AtPrice(a, p) == front + AtPrice(a[1..], p);
      hide AtPrice;
      AtPriceConcat(a[1..], b, p);
      Assoc(front, AtPrice(a[1..], p), AtPrice(b, p));
    }
  }

  lemma {:induction false} AtPriceAll(os: seq<OrderState>, q: Price, p: Price)
    requires forall k :: 0 <= k < |os| ==> os[k].price == q
    ensures AtPrice(os, p) == if p == q then os else []
    decreases |os|
  {
    if os != [] { AtPriceAll(os[1..], q, p); }
  }

  /** The orders at the price of a level are the orders of that level. */
  lemma {:induction false} AtLevel(ls: seq<LevelState>, i: nat)
    requires i < |ls| && forall j, k :: 0 <= j < |ls| && 0 <= k < |ls[j].orders| ==> ls[j].orders[k].price == ls[j].price
    requires forall j, k :: 0 <= j < k < |ls| ==> ls[j].price != ls[k].price
    ensures AtPrice(Flatten(ls), ls[i].price) == ls[i].orders
    decreases |ls|
  {
    var p := ls[i].price;
    AtPriceConcat(ls[0].orders, Flatten(ls[1..]), p);
    AtPriceAll(ls[0].orders, ls[0].price, p);
    if i == 0 {
      NotBehind(ls[1..], p);
      assert ls[0].orders + [] == ls[0].orders;
    } else {
      AtLevel(ls[1..], i - 1);
      assert [] + ls[i].orders == ls[i].orders;
    }
  }

  lemma {:induction false} NotBehind(ls: seq<LevelState>, p: Price)
    requires forall j, k :: 0 <= j < |ls| && 0 <= k < |ls[j].orders| ==> ls[j].orders[k].price == ls[j].price
    requires forall j :: 0 <= j < |ls| ==> ls[j].price != p
    ensures AtPrice(Flatten(ls), p) == []
    decreases |ls|
  {
    if ls != [] {
      AtPriceConcat(ls[0].orders, Flatten(ls[1..]), p);
      AtPriceAll(ls[0].orders, ls[0].price, p);
      NotBehind(ls[1..], p);
    }
  }

  /** Each entry of a depth query counts the orders that rest at its price, and with exact
      totals it shows their open quantity; the entries go from the best price on. */
  lemma TopShows(side: Side, ls: seq<LevelState>, n: nat, i: nat)
    requires SideOk(side, ls) && i < |Top(ls, n)|
    ensures var l, os := Top(ls, n)[i], AtPrice(Flatten(ls), Top(ls, n)[i].price);
      && l.orderCount == |os| > 0
      && (Exact(ls) ==> l.qty == SumRem(os))
      && (i > 0 ==> Key(side, Top(ls, n)[i - 1].price) < Key(side, l.price))
  {
    SidePrices(side, ls);
    SideSorted(side, ls);
    hide SideOk, Top, Flatten, SumRem, AtPrice;
    AtLevel(ls, i);
  }

  /** No resting order is missing but those behind n better prices. */
  lemma TopComplete(side: Side, ls: seq<LevelState>, n: nat, x: OrderState)
    requires SideOk(side, ls) && x in Flatten(ls)
    ensures var top := Top(ls, n);
      (exists i :: 0 <= i < |top| && top[i].price == x.price)
      || (|top| == n && forall i :: 0 <= i < n ==> Key(side, top[i].price) < Key(side, x.price))
  {
    var m :| 0 <= m < |Flatten(ls)| && Flatten(ls)[m] == x;
    var i, k := FlattenFrom(ls, m);
    SidePrices(side, ls);
    SideSorted(side, ls);
    hide SideOk, Top, Flatten;
    var top := Top(ls, n);
    if i < |top| { assert top[i].price == x.price; }
  }

  /** The cached quantities of a side added up in 64 bits, best level first. */
  function TotalQty(ls: seq<LevelState>): Quantity {
    if ls == [] then 0 else WrapAdd(TotalQty(ls[..|ls| - 1]), ls[|ls| - 1].total)
  }

  lemma LastLevel(ls: seq<LevelState>)
    requires ls != []
    ensures SumRem(Flatten(ls)) == SumRem(Flatten(ls[..|ls| - 1])) + SumRem(ls[|ls| - 1].orders)
  {
    var n := |ls| - 1;
    FlattenSplit(ls, n);
    assert Flatten(ls[n + 1..]) == [];
    hide Flatten, SumRem;
    assert ls[n].orders + [] == ls[n].orders;
    SumRemConcat(Flatten(ls[..n]), ls[n].orders);
  }

  lemma NoVolume()
    ensures SumRem(Flatten([])) == 0
  {
  }

  /** With exact level totals the reported volume is the open quantity modulo 2^64. */
  lemma {:induction false} TotalQtyIs(ls: seq<LevelState>)
    requires Exact(ls)
    ensures TotalQty(ls) == SumRem(Flatten(ls)) % TWO_64
    decreases |ls|
  {
    hide WrapAdd, SumRem, Flatten;
    if ls == [] {
      NoVolume();
    } else {
      var n := |ls| - 1;
      TotalQtyIs(ls[..n]);
      LastLevel(ls);
      WrapSum(SumRem(Flatten(ls[..n])), ls[n].total);
    }
  }

  // ---------------------------------------------------------------- the structural check

  ghost predicate Listed(ls: seq<LevelState>, p: Price) {
    exists i :: 0 <= i < |ls| && ls[i].price == p
  }

  ghost predicate NoneFilled(ls: seq<LevelState>) {
    forall i, k :: 0 <= i < |ls| && 0 <= k < |ls[i].orders| ==> ls[i].orders[k].quantity != ls[i].orders[k].filled
  }

  /** What the book's own check looks at: not crossed, no order without a remainder, and a
      level at every indexed price. */
  ghost predicate StructureOk(b: BookState) {
    && (b.bids != [] && b.asks != [] ==> b.bids[0].price < b.asks[0].price)
    && NoneFilled(b.bids) && NoneFilled(b.asks)
    && forall id :: id in b.index ==> Listed(b.Levels(b.index[id].side), b.index[id].price)
  }

  /** The check fails for each of three reasons: a crossed book, a resting order without a
      remainder, an indexed price without a level; and for no other. */
  lemma StructureIff(b: BookState)
    ensures StructureOk(b) <==>
      (&& !(b.bids != [] && b.asks != [] && b.bids[0].price >= b.asks[0].price)
       && (forall x :: x in Flatten(b.bids) || x in Flatten(b.asks) ==> x.Rem() != 0)
       && (forall id :: id in b.index ==>
             exists l :: l in b.Levels(b.index[id].side) && l.price == b.index[id].price))
  {
    NoneFilledIff(b.bids);
    NoneFilledIff(b.asks);
    hide Flatten, NoneFilled;
    forall id | id in b.index
      ensures Listed(b.Levels(b.index[id].side), b.index[id].price)
        <==> exists l :: l in b.Levels(b.index[id].side) && l.price == b.index[id].price
    {
      var ls, p := b.Levels(b.index[id].side), b.index[id].price;
      if Listed(ls, p) {
        var i :| 0 <= i < |ls| && ls[i].price == p;
        assert ls[i] in ls;
      }
    }
    hide Listed;
  }

  lemma NoneFilledIff(ls: seq<LevelState>)
    ensures NoneFilled(ls) <==> forall x :: x in Flatten(ls) ==> x.Rem() != 0
  {
    if forall x :: x in Flatten(ls) ==> x.Rem() != 0 {
      forall i, k | 0 <= i < |ls| && 0 <= k < |ls[i].orders| ensures ls[i].orders[k].quantity != ls[i].orders[k].filled {
        var m := FlattenAt(ls, i, k);
        assert Flatten(ls)[m] in Flatten(ls);
      }
    }
    if NoneFilled(ls) {
      forall x | x in Flatten(ls) ensures x.Rem() != 0 {
        var m :| 0 <= m < |Flatten(ls)| && Flatten(ls)[m] == x;
        var i, k := FlattenFrom(ls, m);
      }
    }
  }

  lemma StructureHolds(b: BookState)
    requires BookOk(b)
    ensures StructureOk(b)
  {
    forall side ensures NoneFilled(b.Levels(side)) { SideNoneFilled(side, b.Levels(side)); }
    hide SideOk, Indexed;
    assert NoneFilled(b.Levels(BUY)) && NoneFilled(b.Levels(SELL));
    forall id | id in b.index ensures Listed(b.Levels(b.index[id].side), b.index[id].price) {
      var i, k :| HasAt(b.Levels(b.index[id].side), b.index[id].price, id, i, k);
    }
  }

  lemma SideNoneFilled(side: Side, ls: seq<LevelState>)
    requires SideOk(side, ls)
    ensures NoneFilled(ls)
  {
    forall i, k | 0 <= i < |ls| && 0 <= k < |ls[i].orders|
      ensures ls[i].orders[k].quantity != ls[i].orders[k].filled
    {
      assert LevelOk(side, ls[i]) && OrderOk(side, ls[i].price, ls[i].orders[k], k);
    }
  }

  /** The check is weaker than the invariant: it passes a book whose resting order is missing
      from the index, so that no cancel could ever reach it. */
  lemma StructureIsWeaker() returns (b: BookState)
    ensures StructureOk(b) && !BookOk(b)
    ensures b.bids != [] && b.bids[0].orders != [] && !CancelOrder(b, b.bids[0].orders[0].id).1
  {
    var o := OrderState(7, "X", BUY, LIMIT, 100, 5, 0, ACCEPTED);
    b := BookState("X", [LevelState(100, [o], 5)], [], map[]);
    assert b.bids[0].orders[0].id !in b.index;
    assert !Indexed(BUY, b.bids, b.index);
  }
}
