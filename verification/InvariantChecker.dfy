/** The benchmark's invariant checker: what each check looks at, and that the loops compute it. */
module InvariantChecker {
  import opened Types
  import opened Matching
  import opened PriceTime
  import opened Refinement
  import opened Totals
  import opened Inspection
  import opened OrderBooks

  datatype Rule = BID_LT_ASK | ZERO_QTY_LEVEL(side: Side) | EMPTY_LEVEL(side: Side) | ZERO_VOLUME | STRUCTURE
                | TRADE_PRICE | TRADE_QTY | BID_LT_ASK_AT_TRADE | UNIQUE_IDS

  datatype Violation = Violation(symbol: Symbol, rule: Rule)

  datatype Report = Report(passed: bool, violations: seq<Violation>)

  const DEPTH: nat := 10000

  // ---------------------------------------------------------------- what the checks report

  function LevelViolations(symbol: Symbol, side: Side, l: BookLevel): seq<Violation> {
    (if l.qty == 0 then [Violation(symbol, ZERO_QTY_LEVEL(side))] else [])
    + (if l.orderCount == 0 then [Violation(symbol, EMPTY_LEVEL(side))] else [])
  }

  function LevelsViolations(symbol: Symbol, side: Side, ls: seq<BookLevel>): seq<Violation> {
    if ls == [] then []
    else LevelsViolations(symbol, side, ls[..|ls| - 1]) + LevelViolations(symbol, side, ls[|ls| - 1])
  }

  ghost function BookViolations(b: BookState): seq<Violation> {
    (if b.bids != [] && b.asks != [] && b.bids[0].price >= b.asks[0].price then [Violation(b.symbol, BID_LT_ASK)] else [])
    + LevelsViolations(b.symbol, BUY, Top(b.bids, DEPTH)) + LevelsViolations(b.symbol, SELL, Top(b.asks, DEPTH))
    + (if (b.bids != [] || b.asks != []) && TotalQty(b.bids) == 0 && TotalQty(b.asks) == 0
       then [Violation(b.symbol, ZERO_VOLUME)] else [])
    + (if StructureOk(b) then [] else [Violation(b.symbol, STRUCTURE)])
  }

  /** A trade and the quotes at its time, which are looked at only when quoted holds. */
  function TradeViolations(t: Trade, quoted: bool, bid: Price, ask: Price): seq<Violation> {
    (if t.price <= 0 then [Violation(t.symbol, TRADE_PRICE)] else [])
    + (if t.quantity == 0 then [Violation(t.symbol, TRADE_QTY)] else [])
    + (if quoted && bid > 0 && ask > 0 && bid >= ask then [Violation(t.symbol, BID_LT_ASK_AT_TRADE)] else [])
  }

  /** Quotes count only if there is one for every trade. */
  function TradesViolations(ts: seq<Trade>, n: nat, quotes: seq<(Price, Price)>): seq<Violation>
    requires n <= |ts|
  {
    if n == 0 then []
    else
      var quoted := |quotes| == |ts|;
      TradesViolations(ts, n - 1, quotes)
      + TradeViolations(ts[n - 1], quoted, if quoted then quotes[n - 1].0 else 0, if quoted then quotes[n - 1].1 else 0)
  }

  /** One violation for every id that was seen earlier in the list. */
  function DuplicateViolations(ids: seq<OrderId>): seq<Violation> {
    if ids == [] then []
    else
      var n := |ids| - 1;
      DuplicateViolations(ids[..n]) + (if ids[n] in ids[..n] then [Violation("global", UNIQUE_IDS)] else [])
  }

  function MergeReports(rs: seq<Report>): Report {
    if rs == [] then Report(true, [])
    else
      var m, r := MergeReports(rs[..|rs| - 1]), rs[|rs| - 1];
      Report(m.passed && r.passed, m.violations + r.violations)
  }

  // ---------------------------------------------------------------- what passing means

  lemma {:induction false} LevelsPass(symbol: Symbol, side: Side, ls: seq<BookLevel>)
    ensures LevelsViolations(symbol, side, ls) == [] <==> forall i :: 0 <= i < |ls| ==> ls[i].qty != 0 && ls[i].orderCount != 0
    decreases |ls|
  {
    if ls != [] { LevelsPass(symbol, side, ls[..|ls| - 1]); }
  }

  /** The levels the checker looks at have orders and a nonzero cached quantity. */
  ghost predicate LevelsClean(ls: seq<LevelState>) {
    forall i :: 0 <= i < |ls| && i < DEPTH ==> ls[i].total != 0 && ls[i].orders != []
  }

  lemma SidePasses(symbol: Symbol, side: Side, ls: seq<LevelState>)
    ensures LevelsViolations(symbol, side, Top(ls, DEPTH)) == [] <==> LevelsClean(ls)
  {
    var top := Top(ls, DEPTH);
    LevelsPass(symbol, side, top);
    hide LevelsViolations, Top;
    if LevelsClean(ls) {
      forall i | 0 <= i < |top| ensures top[i].qty != 0 && top[i].orderCount != 0 {
        assert top[i] == BookLevel(ls[i].price, ls[i].total, |ls[i].orders|);
      }
    }
    if forall i :: 0 <= i < |top| ==> top[i].qty != 0 && top[i].orderCount != 0 {
      forall i | 0 <= i < |ls| && i < DEPTH ensures ls[i].total != 0 && ls[i].orders != [] {
        assert top[i] == BookLevel(ls[i].price, ls[i].total, |ls[i].orders|);
      }
    }
  }

  /** A book passes exactly when it is not crossed, its first 10000 levels on each side are
      clean, it reports volume if it has levels, and its structural check holds. */
  lemma BookPasses(b: BookState)
    ensures BookViolations(b) == [] <==>
      (&& (b.bids != [] && b.asks != [] ==> b.bids[0].price < b.asks[0].price)
       && LevelsClean(b.bids) && LevelsClean(b.asks)
       && (b.bids != [] || b.asks != [] ==> TotalQty(b.bids) != 0 || TotalQty(b.asks) != 0)
       && StructureOk(b))
  {
    hide StructureOk, TotalQty, LevelsViolations, Top, LevelsClean;
    SidePasses(b.symbol, BUY, b.bids);
    SidePasses(b.symbol, SELL, b.asks);
  }

  lemma {:induction false} TradesPass(ts: seq<Trade>, n: nat, quotes: seq<(Price, Price)>)
    requires n <= |ts|
    ensures TradesViolations(ts, n, quotes) == [] <==> forall i :: 0 <= i < n ==>
      (&& ts[i].price > 0 && ts[i].quantity != 0
       && (|quotes| == |ts| && quotes[i].0 > 0 && quotes[i].1 > 0 ==> quotes[i].0 < quotes[i].1))
  {
    if n > 0 { TradesPass(ts, n - 1, quotes); }
  }

  lemma {:induction false} IdsPass(ids: seq<OrderId>)
    ensures DuplicateViolations(ids) == [] <==> AllDifferent(ids)
    decreases |ids|
  {
    if ids != [] {
      var n := |ids| - 1;
      IdsPass(ids[..n]);
      assert ids == ids[..n] + [ids[n]];
    }
  }

  lemma {:induction false} MergePasses(rs: seq<Report>)
    ensures MergeReports(rs).passed <==> forall i :: 0 <= i < |rs| ==> rs[i].passed
    decreases |rs|
  {
    if rs != [] { MergePasses(rs[..|rs| - 1]); }
  }

  /** What a side shows is not zero where something rests: no cached quantity among its first
      10000 levels, and not the volume of both sides at once. */
  ghost predicate ShowsQuantity(b: BookState) {
    && (forall i :: 0 <= i < |b.bids| && i < DEPTH ==> b.bids[i].total != 0)
    && (forall i :: 0 <= i < |b.asks| && i < DEPTH ==> b.asks[i].total != 0)
    && (b.bids != [] || b.asks != [] ==> TotalQty(b.bids) != 0 || TotalQty(b.asks) != 0)
  }

  /** Of the conditions a valid book can only fail those on cached quantities. */
  lemma ValidBookPasses(b: BookState)
    requires BookOk(b)
    ensures BookViolations(b) == [] <==> ShowsQuantity(b)
  {
    StructureHolds(b);
    BookPasses(b);
    ValidSideClean(BUY, b.bids);
    ValidSideClean(SELL, b.asks);
    hide BookViolations, StructureOk, TotalQty, LevelsClean, SideOk, Indexed, Has;
  }

  lemma ValidSideClean(side: Side, ls: seq<LevelState>)
    requires SideOk(side, ls)
    ensures LevelsClean(ls) <==> forall i :: 0 <= i < |ls| && i < DEPTH ==> ls[i].total != 0
  {
    assert forall i :: 0 <= i < |ls| ==> LevelOk(side, ls[i]);
  }

  // ---------------------------------------------------------------- what each violation means

  ghost predicate ZeroEntry(ls: seq<BookLevel>) {
    exists i :: 0 <= i < |ls| && ls[i].qty == 0
  }

  ghost predicate BareEntry(ls: seq<BookLevel>) {
    exists i :: 0 <= i < |ls| && ls[i].orderCount == 0
  }

  lemma LastEntry(ls: seq<BookLevel>)
    requires ls != []
    ensures ZeroEntry(ls) <==> ZeroEntry(ls[..|ls| - 1]) || ls[|ls| - 1].qty == 0
    ensures BareEntry(ls) <==> BareEntry(ls[..|ls| - 1]) || ls[|ls| - 1].orderCount == 0
  {
    var n := |ls| - 1;
    assert forall i :: 0 <= i < n ==> ls[..n][i] == ls[i];
  }

  lemma {:induction false} LevelsRules(symbol: Symbol, side: Side, ls: seq<BookLevel>, v: Violation)
    ensures v in LevelsViolations(symbol, side, ls) <==>
      (v.symbol == symbol
       && ((v.rule == ZERO_QTY_LEVEL(side) && ZeroEntry(ls)) || (v.rule == EMPTY_LEVEL(side) && BareEntry(ls))))
    decreases |ls|
  {
    hide ZeroEntry, BareEntry;
    if ls == [] {
      NoEntry();
    } else {
      LevelsRules(symbol, side, ls[..|ls| - 1], v);
      LastEntry(ls);
    }
  }

  /** The entries without quantity, and those without orders. */
  ghost function ZeroEntries(ls: seq<BookLevel>): (r: set<nat>)
    ensures forall i: nat :: i in r <==> (i < |ls| && ls[i].qty == 0)
  {
    if ls == [] then {} else ZeroEntries(ls[..|ls| - 1]) + if ls[|ls| - 1].qty == 0 then {|ls| - 1} else {}
  }

  ghost function BareEntries(ls: seq<BookLevel>): (r: set<nat>)
    ensures forall i: nat :: i in r <==> (i < |ls| && ls[i].orderCount == 0)
  {
    if ls == [] then {} else BareEntries(ls[..|ls| - 1]) + if ls[|ls| - 1].orderCount == 0 then {|ls| - 1} else {}
  }

  /** Each of them is reported once. */
  lemma {:induction false} LevelsCount(symbol: Symbol, side: Side, ls: seq<BookLevel>)
    ensures |LevelsViolations(symbol, side, ls)| == |ZeroEntries(ls)| + |BareEntries(ls)|
    decreases |ls|
  {
    if ls != [] { LevelsCount(symbol, side, ls[..|ls| - 1]); }
  }

  lemma NoEntry()
    ensures !ZeroEntry([]) && !BareEntry([])
  {
  }

  /** Some level the checker looks at shows no quantity, or has no orders. */
  ghost predicate ZeroLevel(ls: seq<LevelState>) {
    exists i :: 0 <= i < |ls| && i < 10000 && ls[i].total == 0
  }

  ghost predicate BareLevel(ls: seq<LevelState>) {
    exists i :: 0 <= i < |ls| && i < 10000 && ls[i].orders == []
  }

  lemma SideRules(symbol: Symbol, side: Side, ls: seq<LevelState>, v: Violation)
    ensures v in LevelsViolations(symbol, side, Top(ls, DEPTH)) <==>
      (v.symbol == symbol
       && ((v.rule == ZERO_QTY_LEVEL(side) && ZeroLevel(ls)) || (v.rule == EMPTY_LEVEL(side) && BareLevel(ls))))
  {
    var top := Top(ls, DEPTH);
    LevelsRules(symbol, side, top, v);
    hide LevelsViolations, Top;
    if ZeroLevel(ls) {
      var i :| 0 <= i < |ls| && i < DEPTH && ls[i].total == 0;
      assert top[i].qty == 0;
    }
    if BareLevel(ls) {
      var i :| 0 <= i < |ls| && i < DEPTH && ls[i].orders == [];
      assert top[i].orderCount == 0;
    }
  }

  ghost predicate BreaksBook(b: BookState, rule: Rule) {
    match rule
    case BID_LT_ASK => b.bids != [] && b.asks != [] && b.bids[0].price >= b.asks[0].price
    case ZERO_QTY_LEVEL(side) => ZeroLevel(b.Levels(side))
    case EMPTY_LEVEL(side) => BareLevel(b.Levels(side))
    case ZERO_VOLUME => (b.bids != [] || b.asks != []) && TotalQty(b.bids) == 0 && TotalQty(b.asks) == 0
    case STRUCTURE => !StructureOk(b)
    case _ => false
  }

  /** A book is reported under a rule exactly if it breaks that rule. */
  lemma BookRules(b: BookState, v: Violation)
    ensures v in BookViolations(b) <==> (v.symbol == b.symbol && BreaksBook(b, v.rule))
  {
    hide StructureOk, TotalQty, LevelsViolations, Top, ZeroLevel, BareLevel;
    SideRules(b.symbol, BUY, b.bids, v);
    SideRules(b.symbol, SELL, b.asks, v);
  }

  /** The order of the checks. */
  function Rank(rule: Rule): nat {
    match rule
    case BID_LT_ASK => 0
    case ZERO_QTY_LEVEL(side) => if side == BUY then 1 else 2
    case EMPTY_LEVEL(side) => if side == BUY then 1 else 2
    case ZERO_VOLUME => 3
    case _ => 4
  }

  ghost predicate Ranked(vs: seq<Violation>, lo: nat, hi: nat) {
    && (forall i :: 0 <= i < |vs| ==> lo <= Rank(vs[i].rule) <= hi)
    && (forall i, j :: 0 <= i < j < |vs| ==> Rank(vs[i].rule) <= Rank(vs[j].rule))
  }

  lemma RankedConcat(a: seq<Violation>, b: seq<Violation>, lo: nat, mid: nat, hi: nat)
    requires Ranked(a, lo, mid) && Ranked(b, mid, hi) && lo <= mid <= hi
    ensures Ranked(a + b, lo, hi)
  {
    hide Rank;
  }

  lemma LevelsRanked(symbol: Symbol, side: Side, ls: seq<BookLevel>, rank: nat)
    requires rank == if side == BUY then 1 else 2
    ensures Ranked(LevelsViolations(symbol, side, ls), rank, rank)
  {
    hide LevelsViolations, ZeroEntry, BareEntry;
    var vs := LevelsViolations(symbol, side, ls);
    forall i | 0 <= i < |vs| ensures Rank(vs[i].rule) == rank { LevelsRules(symbol, side, ls, vs[i]); }
  }

  /** The report follows that order. */
  lemma BookOrder(b: BookState)
    ensures Ranked(BookViolations(b), 0, 4)
  {
    hide StructureOk, TotalQty, LevelsViolations, Top, Ranked;
    var bids, asks := LevelsViolations(b.symbol, BUY, Top(b.bids, DEPTH)), LevelsViolations(b.symbol, SELL, Top(b.asks, DEPTH));
    var crossed := if b.bids != [] && b.asks != [] && b.bids[0].price >= b.asks[0].price then [Violation(b.symbol, BID_LT_ASK)] else [];
    var volume := if (b.bids != [] || b.asks != []) && TotalQty(b.bids) == 0 && TotalQty(b.asks) == 0
      then [Violation(b.symbol, ZERO_VOLUME)] else [];
    var structure := if StructureOk(b) then [] else [Violation(b.symbol, STRUCTURE)];
    LevelsRanked(b.symbol, BUY, Top(b.bids, DEPTH), 1);
    LevelsRanked(b.symbol, SELL, Top(b.asks, DEPTH), 2);
    SingleRanked(crossed, 0);
    SingleRanked(volume, 3);
    SingleRanked(structure, 4);
    Wider(crossed, 0, 0, 1);
    Wider(bids, 1, 1, 2);
    Wider(asks, 2, 2, 3);
    Wider(volume, 3, 3, 4);
    RankedConcat(crossed, bids, 0, 1, 2);
    RankedConcat(crossed + bids, asks, 0, 2, 3);
    RankedConcat(crossed + bids + asks, volume, 0, 3, 4);
    RankedConcat(crossed + bids + asks + volume, structure, 0, 4, 4);
  }

  lemma SingleRanked(vs: seq<Violation>, rank: nat)
    requires |vs| <= 1 && (vs != [] ==> Rank(vs[0].rule) == rank)
    ensures Ranked(vs, rank, rank)
  {
  }

  lemma Wider(vs: seq<Violation>, lo: nat, hi: nat, hi': nat)
    requires Ranked(vs, lo, hi) && hi <= hi'
    ensures Ranked(vs, lo, hi')
  {
  }

  /** The trade breaks the rule; quotes count only if there is one for every trade. */
  ghost predicate Breaks(ts: seq<Trade>, quotes: seq<(Price, Price)>, i: nat, rule: Rule)
    requires i < |ts|
  {
    match rule
    case TRADE_PRICE => ts[i].price <= 0
    case TRADE_QTY => ts[i].quantity == 0
    case BID_LT_ASK_AT_TRADE => |quotes| == |ts| && quotes[i].0 > 0 && quotes[i].1 > 0 && quotes[i].0 >= quotes[i].1
    case _ => false
  }

  /** Some trade of the first n breaks the rule for its symbol. */
  ghost predicate Broken(ts: seq<Trade>, quotes: seq<(Price, Price)>, n: nat, v: Violation)
    requires n <= |ts|
  {
    exists i: nat :: i < n && ts[i].symbol == v.symbol && Breaks(ts, quotes, i, v.rule)
  }

  lemma OneTradeRules(ts: seq<Trade>, i: nat, quotes: seq<(Price, Price)>, v: Violation)
    requires i < |ts|
    ensures var quoted := |quotes| == |ts|;
      var bid, ask := if quoted then quotes[i].0 else 0, if quoted then quotes[i].1 else 0;
      v in TradeViolations(ts[i], quoted, bid, ask) <==> ts[i].symbol == v.symbol && Breaks(ts, quotes, i, v.rule)
  {
  }

  /** A trade is reported under a rule exactly if it breaks that rule. */
  lemma {:induction false} TradeRules(ts: seq<Trade>, n: nat, quotes: seq<(Price, Price)>, v: Violation)
    requires n <= |ts|
    ensures v in TradesViolations(ts, n, quotes) <==> Broken(ts, quotes, n, v)
  {
    hide Breaks, TradeViolations;
    if n > 0 {
      TradeRules(ts, n - 1, quotes, v);
      OneTradeRules(ts, n - 1, quotes, v);
    }
  }

  /** The trades of the first n that break the rule. */
  ghost function Breaking(ts: seq<Trade>, quotes: seq<(Price, Price)>, n: nat, rule: Rule): (r: set<nat>)
    requires n <= |ts|
    ensures forall i: nat :: i in r <==> (i < n && Breaks(ts, quotes, i, rule))
  {
    if n == 0 then {} else Breaking(ts, quotes, n - 1, rule) + if Breaks(ts, quotes, n - 1, rule) then {n - 1} else {}
  }

  lemma BreakingOne(ts: seq<Trade>, quotes: seq<(Price, Price)>, n: nat, rule: Rule)
    requires 0 < n <= |ts|
    ensures |Breaking(ts, quotes, n, rule)| == |Breaking(ts, quotes, n - 1, rule)| + if Breaks(ts, quotes, n - 1, rule) then 1 else 0
  {
    hide Breaks;
  }

  lemma OneTradeCount(ts: seq<Trade>, i: nat, quotes: seq<(Price, Price)>)
    requires i < |ts|
    ensures var quoted := |quotes| == |ts|;
      var bid, ask := if quoted then quotes[i].0 else 0, if quoted then quotes[i].1 else 0;
      |TradeViolations(ts[i], quoted, bid, ask)| == (if Breaks(ts, quotes, i, TRADE_PRICE) then 1 else 0)
        + (if Breaks(ts, quotes, i, TRADE_QTY) then 1 else 0) + (if Breaks(ts, quotes, i, BID_LT_ASK_AT_TRADE) then 1 else 0)
  {
  }

  /** How many reports the rules of a trade make up to the n-th trade. */
  ghost function BreakingCount(ts: seq<Trade>, quotes: seq<(Price, Price)>, n: nat): nat
    requires n <= |ts|
  {
    |Breaking(ts, quotes, n, TRADE_PRICE)| + |Breaking(ts, quotes, n, TRADE_QTY)|
    + |Breaking(ts, quotes, n, BID_LT_ASK_AT_TRADE)|
  }

  lemma BreakingStep(ts: seq<Trade>, quotes: seq<(Price, Price)>, n: nat)
    requires 0 < n <= |ts|
    ensures BreakingCount(ts, quotes, n) == BreakingCount(ts, quotes, n - 1)
      + (if Breaks(ts, quotes, n - 1, TRADE_PRICE) then 1 else 0) + (if Breaks(ts, quotes, n - 1, TRADE_QTY) then 1 else 0)
      + (if Breaks(ts, quotes, n - 1, BID_LT_ASK_AT_TRADE) then 1 else 0)
  {
    hide Breaks, Breaking;
    BreakingOne(ts, quotes, n, TRADE_PRICE);
    BreakingOne(ts, quotes, n, TRADE_QTY);
    BreakingOne(ts, quotes, n, BID_LT_ASK_AT_TRADE);
  }

  /** Each of them is reported once. */
  lemma {:induction false} TradesCount(ts: seq<Trade>, n: nat, quotes: seq<(Price, Price)>)
    requires n <= |ts|
    ensures |TradesViolations(ts, n, quotes)| == BreakingCount(ts, quotes, n)
  {
    hide BreakingCount, Breaks, TradeViolations, TradesViolations;
    if n == 0 {
      NoTradeReported(ts, quotes);
    } else {
      TradesCount(ts, n - 1, quotes);
      LastTradeReported(ts, n, quotes);
      BreakingStep(ts, quotes, n);
    }
  }

  lemma NoTradeReported(ts: seq<Trade>, quotes: seq<(Price, Price)>)
    ensures TradesViolations(ts, 0, quotes) == [] && BreakingCount(ts, quotes, 0) == 0
  {
  }

  lemma LastTradeReported(ts: seq<Trade>, n: nat, quotes: seq<(Price, Price)>)
    requires 0 < n <= |ts|
    ensures |TradesViolations(ts, n, quotes)| == |TradesViolations(ts, n - 1, quotes)|
      + (if Breaks(ts, quotes, n - 1, TRADE_PRICE) then 1 else 0) + (if Breaks(ts, quotes, n - 1, TRADE_QTY) then 1 else 0)
      + (if Breaks(ts, quotes, n - 1, BID_LT_ASK_AT_TRADE) then 1 else 0)
  {
    hide Breaks, TradeViolations;
    OneTradeCount(ts, n - 1, quotes);
  }

  /** Every repetition is reported once. */
  lemma {:induction false} DuplicateRules(ids: seq<OrderId>)
    ensures forall v :: v in DuplicateViolations(ids) ==> v == Violation("global", UNIQUE_IDS)
    ensures |DuplicateViolations(ids)| + |Elements(ids)| == |ids|
    decreases |ids|
  {
    if ids == [] {
      assert Elements(ids) == {};
    } else {
      var n := |ids| - 1;
      DuplicateRules(ids[..n]);
      assert Elements(ids) == Elements(ids[..n]) + {ids[n]};
    }
  }

  /** How many violations the first n reports list. */
  function Listing(rs: seq<Report>, n: nat): nat
    requires n <= |rs|
  {
    if n == 0 then 0 else Listing(rs, n - 1) + |rs[n - 1].violations|
  }

  lemma {:induction false} ListingPrefix(rs: seq<Report>, n: nat, m: nat)
    requires n <= m <= |rs|
    ensures Listing(rs[..m], n) == Listing(rs, n)
  {
    if n > 0 { ListingPrefix(rs, n - 1, m); }
  }

  lemma {:induction false} ListingGrows(rs: seq<Report>, n: nat, m: nat)
    requires n <= m <= |rs|
    ensures Listing(rs, n) <= Listing(rs, m)
    decreases m
  {
    if n < m { ListingGrows(rs, n, m - 1); }
  }

  lemma {:induction false} MergedLength(rs: seq<Report>)
    ensures |MergeReports(rs).violations| == Listing(rs, |rs|)
    decreases |rs|
  {
    if rs != [] {
      MergedLength(rs[..|rs| - 1]);
      ListingPrefix(rs, |rs| - 1, |rs| - 1);
    }
  }

  lemma SliceOfFront<T>(front: seq<T>, last: seq<T>, a: nat, c: nat)
    requires a <= c <= |front|
    ensures (front + last)[a..c] == front[a..c]
  {
  }

  lemma SliceOfLast<T>(front: seq<T>, last: seq<T>)
    ensures (front + last)[|front|..|front| + |last|] == last
  {
  }

  /** The merged list is made of the lists of all reports, in their order. */
  lemma {:induction false} MergedLists(rs: seq<Report>, i: nat)
    requires i < |rs|
    ensures var all := MergeReports(rs).violations;
      && |all| == Listing(rs, |rs|) && Listing(rs, i) <= Listing(rs, i + 1) <= |all|
      && all[Listing(rs, i)..Listing(rs, i + 1)] == rs[i].violations
    decreases |rs|
  {
    var m := |rs| - 1;
    var front, last := MergeReports(rs[..m]).violations, rs[m].violations;
    assert MergeReports(rs).violations == front + last;
    MergedLength(rs);
    MergedLength(rs[..m]);
    ListingGrows(rs, i, i + 1);
    ListingGrows(rs, i + 1, |rs|);
    ListingPrefix(rs, m, m);
    if i < m {
      MergedLists(rs[..m], i);
      ListingPrefix(rs, i, m);
      ListingPrefix(rs, i + 1, m);
      hide MergeReports, Listing;
      SliceOfFront(front, last, Listing(rs, i), Listing(rs, i + 1));
    } else {
      assert Listing(rs, i + 1) == |front| + |last|;
      hide MergeReports, Listing;
      SliceOfLast(front, last);
    }
  }

  // ---------------------------------------------------------------- books of runs pass

  /** A valid book with exact totals passes if its open quantity fits in 64 bits. */
  lemma ExactBookPasses(b: BookState)
    requires BookOk(b) && Exact(b.bids) && Exact(b.asks)
    requires SumRem(Flatten(b.bids)) < TWO_64 && SumRem(Flatten(b.asks)) < TWO_64
    ensures BookViolations(b) == []
  {
    hide BookViolations, StructureOk, TotalQty, Exact, Flatten, SumRem, LevelsClean, SideOk, Indexed, Has;
    StructureHolds(b);
    BookPasses(b);
    SideClean(BUY, b.bids);
    SideClean(SELL, b.asks);
  }

  lemma SideClean(side: Side, ls: seq<LevelState>)
    requires SideOk(side, ls) && Exact(ls) && SumRem(Flatten(ls)) < TWO_64
    ensures LevelsClean(ls) && (ls != [] ==> TotalQty(ls) != 0)
  {
    hide SideOk, Exact, Flatten, SumRem, TotalQty;
    forall i | 0 <= i < |ls| ensures ls[i].total != 0 && ls[i].orders != [] { LevelPositive(side, ls, i); }
    if ls != [] { SidePositive(side, ls); }
  }

  lemma LevelPositive(side: Side, ls: seq<LevelState>, i: nat)
    requires SideOk(side, ls) && Exact(ls) && i < |ls|
    ensures ls[i].total > 0 && ls[i].orders != []
  {
    assert LevelOk(side, ls[i]);
    LevelLive(side, ls[i]);
    SumRemLive(ls[i].orders);
  }

  lemma SidePositive(side: Side, ls: seq<LevelState>)
    requires SideOk(side, ls) && ls != [] && Exact(ls) && SumRem(Flatten(ls)) < TWO_64
    ensures TotalQty(ls) > 0
  {
    TotalQtyIs(ls);
    FlattenOk(side, ls);
    hide SideOk, TotalQty, Exact;
    SumRemLive(Flatten(ls));
  }

  /** Beyond 64 bits the checker can reject a book the engine built: two resting orders of
      2^63 at one price give a level whose cached quantity wraps to zero. */
  lemma WrappedBookFails()
    ensures BookOk(TwoAsks(100)) && BookViolations(TwoAsks(100)) != []
  {
    TwoAsksReached(100);
    BookPasses(TwoAsks(100));
    hide BookViolations, BookOk;
    var b := TwoAsks(100);
    assert b.Levels(SELL)[0].total == 0;
  }

  // ---------------------------------------------------------------- the checks as loops

  method CheckLevels(book: OrderBook, side: Side) returns (violations: seq<Violation>)
    ensures violations == LevelsViolations(book.symbol, side, Top(book.State().Levels(side), DEPTH))
    ensures book.State() == old(book.State())
  {
    hide LevelViolations, OrderBook.State, Top;
    violations := [];
    var levels := book.TopOf(side, DEPTH);
    var i := 0;
    while i < |levels|
      invariant i <= |levels| && violations == LevelsViolations(book.symbol, side, levels[..i])
    {
      assert levels[..i + 1][..i] == levels[..i];
      violations := violations + LevelViolations(book.symbol, side, levels[i]);
      i := i + 1;
    }
    assert levels[..i] == levels;
  }

  method CheckBook(book: OrderBook) returns (report: Report)
    ensures report == Report(BookViolations(book.State()) == [], BookViolations(book.State()))
    ensures book.State() == old(book.State())
  {
    hide SideState, LevelsViolations, TotalQty, StructureOk, Top, OrdersOf, OrderBook.State;
    ghost var b := book.State();
    var bid, ask := book.BestOf(BUY), book.BestOf(SELL);
    var crossed, volume, structure := [], [], [];
    if bid != None && ask != None && bid.value >= ask.value {
      crossed := [Violation(book.symbol, BID_LT_ASK)];
    }
    var bidLevels := CheckLevels(book, BUY);
    var askLevels := CheckLevels(book, SELL);
    var bidQty := book.TotalQtyOf(BUY);
    var askQty := book.TotalQtyOf(SELL);
    if (bid != None || ask != None) && bidQty == 0 && askQty == 0 {
      volume := [Violation(book.symbol, ZERO_VOLUME)];
    }
    var ok := book.CheckInvariants();
    if !ok {
      structure := [Violation(book.symbol, STRUCTURE)];
    }
    var violations := crossed + bidLevels + askLevels + volume + structure;
    report := Report(violations == [], violations);
  }

  method CheckTrades(trades: seq<Trade>, quotes: seq<(Price, Price)>) returns (report: Report)
    ensures report == Report(TradesViolations(trades, |trades|, quotes) == [], TradesViolations(trades, |trades|, quotes))
  {
    report := Report(true, []);
    var quoted := |quotes| == |trades|;
    for i := 0 to |trades|
      invariant report.violations == TradesViolations(trades, i, quotes)
      invariant report.passed <==> report.violations == []
    {
      var t := trades[i];
      if t.price <= 0 {
        report := Report(false, report.violations + [Violation(t.symbol, TRADE_PRICE)]);
      }
      if t.quantity == 0 {
        report := Report(false, report.violations + [Violation(t.symbol, TRADE_QTY)]);
      }
      if quoted {
        var (bid, ask) := quotes[i];
        if bid > 0 && ask > 0 && bid >= ask {
          report := Report(false, report.violations + [Violation(t.symbol, BID_LT_ASK_AT_TRADE)]);
        }
      }
    }
  }

  method CheckUniqueIds(ids: seq<OrderId>) returns (report: Report)
    ensures report == Report(DuplicateViolations(ids) == [], DuplicateViolations(ids))
  {
    report := Report(true, []);
    var seen: set<OrderId> := {};
    for i := 0 to |ids|
      invariant seen == set id | id in ids[..i]
      invariant report.violations == DuplicateViolations(ids[..i])
      invariant report.passed <==> report.violations == []
    {
      assert ids[..i + 1][..i] == ids[..i];
      if ids[i] in seen {
        report := Report(false, report.violations + [Violation("global", UNIQUE_IDS)]);
      }
      seen := seen + {ids[i]};
      assert ids[..i + 1] == ids[..i] + [ids[i]];
    }
    assert ids[..|ids|] == ids;
  }

  method Merge(reports: seq<Report>) returns (combined: Report)
    ensures combined == MergeReports(reports)
  {
    combined := Report(true, []);
    for i := 0 to |reports|
      invariant combined == MergeReports(reports[..i])
    {
      assert reports[..i + 1][..i] == reports[..i];
      var r := reports[i];
      combined := Report(combined.passed && r.passed, combined.violations + r.violations);
    }
    assert reports[..|reports|] == reports;
  }
}
