/** The pipelined benchmark equals the sequential one. */
module PipelineRun {
  import opened Types
  import opened Bits
  import opened Engine
  import opened BenchmarkRunner
  import opened SpscRing
  import opened Pipeline

  /** The loop body as a total function; the loops apply it only where Handle is defined. */
  ghost function HandleAny(t: Tally, o: OrderState): Tally {
    if EngineOk(t.engine) && o.filled == 0 then Handle(t, o) else t
  }

  lemma {:induction false} FoldIsBaseline(symbols: seq<Symbol>, orders: seq<OrderState>)
    requires AllUnfilled(orders)
    ensures Fold(HandleAny, Start(symbols), orders) == Baseline(symbols, orders)
    decreases |orders|
  {
    hide EngineOk, Handle;
    if orders != [] { FoldIsBaseline(symbols, orders[..|orders| - 1]); }
  }

  /** For every stream of orders, every ring size the constructor can choose and every
      interleaving of the two threads: once the consumer has taken the sentinel, its engine,
      counters, trades and accepted ids are those of the sequential run. */
  lemma PipelineEqualsBaseline(symbols: seq<Symbol>, orders: seq<OrderState>, cap: nat, run: seq<Action<Option<OrderState>>>)
    requires AllUnfilled(orders) && IsPow2(cap) && cap >= 2
    requires Schedule(HandleAny, orders, Launch(cap, Start(symbols)), run)
    ensures var p := Reached(HandleAny, orders, Launch(cap, Start(symbols)), run);
      p.finished ==> p.acc == Baseline(symbols, orders)
  {
    PipelinedIsSequential(HandleAny, Start(symbols), orders, cap, run);
    FoldIsBaseline(symbols, orders);
    hide Fold, Schedule, Reached, HandleAny, Baseline;
  }

  /** And from wherever the two threads are, they can get there. */
  lemma PipelineCanEnd(symbols: seq<Symbol>, orders: seq<OrderState>, cap: nat, run: seq<Action<Option<OrderState>>>)
      returns (more: seq<Action<Option<OrderState>>>)
    requires AllUnfilled(orders) && IsPow2(cap) && cap >= 2
    requires Schedule(HandleAny, orders, Launch(cap, Start(symbols)), run)
    ensures var p := Reached(HandleAny, orders, Launch(cap, Start(symbols)), run);
      && p.ring.Cap() > 0 && Schedule(HandleAny, orders, p, more)
      && Reached(HandleAny, orders, p, more).finished
      && Reached(HandleAny, orders, p, more).acc == Baseline(symbols, orders)
  {
    more := NeverStuck(HandleAny, Start(symbols), orders, cap, run);
    FoldIsBaseline(symbols, orders);
    hide Fold, Schedule, Reached, HandleAny, Baseline;
  }
}
