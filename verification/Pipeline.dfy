/** The pipelined run: a producer thread pushes every order and then a sentinel through the
    ring, a consumer thread pops them and handles each until it takes the sentinel. */
module Pipeline {
  import opened Types
  import opened Bits
  import opened SpscRing

  /** The ring with what the consumer thread has accumulated. */
  datatype Pipe<S, T> = Pipe(ring: State<Option<T>>, acc: S, finished: bool)

  /** The n-th thing the producer pushes: an order, or after the last one the null sentinel. */
  function Item<T>(orders: seq<T>, n: nat): Option<T> {
    if n < |orders| then Some(orders[n]) else None
  }

  function Launch<S, T>(cap: nat, init: S): Pipe<S, T> {
    Pipe(Init(cap), init, false)
  }

  /** The producer starts a push only for its next item; the consumer stops at the sentinel. */
  predicate May<S, T(==)>(orders: seq<T>, p: Pipe<S, T>, a: Action<Option<T>>) {
    && Enabled(p.ring, a)
    && (a.PushStart? ==> |p.ring.pushed| <= |orders| && a.item == Item(orders, |p.ring.pushed|))
    && (a.PopStart? ==> !p.finished)
  }

  /** One step of either thread; a returned pop is handled, the sentinel ends the loop. */
  function Advance<S, T>(handle: (S, T) -> S, p: Pipe<S, T>, a: Action<Option<T>>): Pipe<S, T>
    requires p.ring.Cap() > 0 && Enabled(p.ring, a)
  {
    var ring := Do(p.ring, a);
    if !a.PopReturn? then p.(ring := ring)
    else
      match p.ring.consumer.item
      case None => Pipe(ring, p.acc, true)
      case Some(order) => Pipe(ring, handle(p.acc, order), p.finished)
  }

  predicate Schedule<S, T(==)>(handle: (S, T) -> S, orders: seq<T>, p: Pipe<S, T>, run: seq<Action<Option<T>>>)
    requires p.ring.Cap() > 0
    decreases |run|
  {
    run == [] || (May(orders, p, run[0]) && Schedule(handle, orders, Advance(handle, p, run[0]), run[1..]))
  }

  function Reached<S, T(==)>(handle: (S, T) -> S, orders: seq<T>, p: Pipe<S, T>, run: seq<Action<Option<T>>>): Pipe<S, T>
    requires p.ring.Cap() > 0 && Schedule(handle, orders, p, run)
    decreases |run|
  {
    if run == [] then p else Reached(handle, orders, Advance(handle, p, run[0]), run[1..])
  }

  /** The sequential loop. */
  function Fold<S, T>(handle: (S, T) -> S, init: S, orders: seq<T>): S {
    if orders == [] then init else handle(Fold(handle, init, orders[..|orders| - 1]), orders[|orders| - 1])
  }

  // ---------------------------------------------------------------- the invariant

  /** How many orders the consumer has handled. */
  ghost function HandledCount<S, T>(p: Pipe<S, T>): int {
    |p.ring.popped| - (if p.ring.consumer.CGot? then 1 else 0) - (if p.finished then 1 else 0)
  }

  ghost predicate PipeInv<S, T>(handle: (S, T) -> S, init: S, orders: seq<T>, p: Pipe<S, T>) {
    && Inv(p.ring)
    && |p.ring.pushed| <= |orders| + 1
    && (forall i :: 0 <= i < |p.ring.pushed| ==> p.ring.pushed[i] == Item(orders, i))
    && Producing(orders, p.ring)
    && (p.finished ==> p.ring.consumer.CIdle? && |p.ring.popped| == |orders| + 1)
    && (!p.finished && !p.ring.consumer.CGot? ==> |p.ring.popped| <= |orders|)
    && 0 <= HandledCount(p) <= |orders|
    && p.acc == Fold(handle, init, orders[..HandledCount(p)])
  }

  /** The item inside a push is the next one of the stream. */
  ghost predicate Producing<T>(orders: seq<T>, s: State<Option<T>>) {
    && (!s.producer.PIdle? ==> |s.pushed| <= |orders|)
    && (s.producer.PLoading? || s.producer.PWriting? || s.producer.PStoring? ==> s.producer.item == Item(orders, |s.pushed|))
  }

  lemma LaunchOk<S, T>(handle: (S, T) -> S, init: S, orders: seq<T>, cap: nat)
    requires IsPow2(cap) && cap >= 2
    ensures PipeInv(handle, init, orders, Launch(cap, init))
  {
    InitOk<Option<T>>(cap);
    hide Inv;
  }

  lemma AdvanceOk<S, T>(handle: (S, T) -> S, init: S, orders: seq<T>, p: Pipe<S, T>, a: Action<Option<T>>)
    requires PipeInv(handle, init, orders, p) && May(orders, p, a)
    ensures PipeInv(handle, init, orders, Advance(handle, p, a))
    ensures Advance(handle, p, a).ring.Cap() == p.ring.Cap()
  {
    hide SlotsOk, And, At, IsPow2;
    StepOk(p.ring, a);
    if a.PopReturn? {
      var n := |p.ring.popped| - 1;
      if n < |orders| { assert orders[..n + 1][..n] == orders[..n]; }
    }
  }

  lemma {:induction false} ScheduleOk<S, T>(handle: (S, T) -> S, init: S, orders: seq<T>, p: Pipe<S, T>, run: seq<Action<Option<T>>>)
    requires PipeInv(handle, init, orders, p) && Schedule(handle, orders, p, run)
    ensures PipeInv(handle, init, orders, Reached(handle, orders, p, run))
    decreases |run|
  {
    if run != [] {
      AdvanceOk(handle, init, orders, p, run[0]);
      ScheduleOk(handle, init, orders, Advance(handle, p, run[0]), run[1..]);
    }
  }

  /** Pipelined equals sequential: for every stream of orders, every capacity and every
      interleaving, once the consumer has taken the sentinel it has handled exactly the orders,
      in order; before that it has handled a prefix of them. */
  lemma PipelinedIsSequential<S, T>(handle: (S, T) -> S, init: S, orders: seq<T>, cap: nat, run: seq<Action<Option<T>>>)
    requires IsPow2(cap) && cap >= 2 && Schedule(handle, orders, Launch(cap, init), run)
    ensures var p := Reached(handle, orders, Launch(cap, init), run);
      && (p.finished ==> p.acc == Fold(handle, init, orders))
      && (exists n :: 0 <= n <= |orders| && p.acc == Fold(handle, init, orders[..n]))
  {
    LaunchOk(handle, init, orders, cap);
    ScheduleOk(handle, init, orders, Launch(cap, init), run);
    hide Inv, Fold, Schedule, Reached;
    var p := Reached(handle, orders, Launch(cap, init), run);
    var n := HandledCount(p);
    assert p.acc == Fold(handle, init, orders[..n]);
    assert orders[..|orders|] == orders;
  }

  // ---------------------------------------------------------------- no state is stuck

  /** Steps the producer and the consumer still need if no load fails. */
  ghost function PushSteps<T>(orders: seq<T>, s: State<Option<T>>): int {
    4 * (|orders| + 1 - |s.pushed|) +
    match s.producer
    case PIdle => 0
    case PFull => 1
    case PLoading(_, _, _) => -1
    case PWriting(_, _, _) => -2
    case PStoring(_, _) => -3
  }

  ghost function PopSteps<T>(orders: seq<T>, s: State<Option<T>>): int {
    6 * (|orders| + 1 - |s.popped|) +
    match s.consumer
    case CIdle => 0
    case CEmpty => 1
    case CGot(_) => 1
    case CLoading(_) => -1
    case CReading(_) => -2
    case CDestroying(_, _) => -3
    case CStoring(_, _) => -4
  }

  ghost function StepsLeft<S, T>(orders: seq<T>, p: Pipe<S, T>): int {
    PushSteps(orders, p.ring) + PopSteps(orders, p.ring)
  }

  /** A step that makes progress: the consumer's if it is inside an access or the ring holds an
      item, otherwise the producer's, whose ring is then empty and so not full. */
  function Productive<S, T>(orders: seq<T>, p: Pipe<S, T>): Action<Option<T>> {
    var s := p.ring;
    if s.consumer.CReading? then PopRead
    else if s.consumer.CDestroying? then PopDestroy
    else if s.consumer.CStoring? then PopStore
    else if s.consumer.CGot? then PopReturn
    else if s.consumer.CEmpty? then PopRetry
    else if |s.popped| < |s.pushed| then
      if s.consumer.CIdle? then PopStart else PopLoad(|s.pushed|)
    else
      match s.producer
      case PIdle => PushStart(Item(orders, |s.pushed|))
      case PFull => PushRetry
      case PLoading(_, _, _) => PushLoad(|s.popped|)
      case PWriting(_, _, _) => PushWrite
      case PStoring(_, _) => PushStore
  }

  lemma ProductiveMay<S, T>(handle: (S, T) -> S, init: S, orders: seq<T>, p: Pipe<S, T>)
    requires PipeInv(handle, init, orders, p) && !p.finished
    ensures May(orders, p, Productive(orders, p))
  {
    hide SlotsOk, Fold, And, At, IsPow2;
    InvSafe(p.ring);
  }

  lemma ProductiveSteps<S, T>(handle: (S, T) -> S, init: S, orders: seq<T>, p: Pipe<S, T>)
    requires PipeInv(handle, init, orders, p) && !p.finished && May(orders, p, Productive(orders, p))
    ensures StepsLeft(orders, Advance(handle, p, Productive(orders, p))) < StepsLeft(orders, p)
  {
    hide SlotsOk, Fold, And, At, IsPow2, NoRace, Ordered;
    var a, s := Productive(orders, p), p.ring;
    InvSafe(s);
    if a.PushLoad? { PushFullIff(s, a.v); }
    if a.PopLoad? { PopEmptyIff(s, a.v); }
  }

  lemma StepsNonNegative<S, T>(handle: (S, T) -> S, init: S, orders: seq<T>, p: Pipe<S, T>)
    requires PipeInv(handle, init, orders, p)
    ensures StepsLeft(orders, p) >= 0
  {
    hide SlotsOk, Fold, And, At, IsPow2;
  }

  /** From every reachable state the run can still be finished, so no state is stuck: the ring
      is never full and empty at once. */
  lemma {:induction false} CanFinish<S, T>(handle: (S, T) -> S, init: S, orders: seq<T>, p: Pipe<S, T>)
      returns (run: seq<Action<Option<T>>>)
    requires PipeInv(handle, init, orders, p)
    ensures Schedule(handle, orders, p, run) && Reached(handle, orders, p, run).finished
    decreases StepsLeft(orders, p)
  {
    hide Inv, Fold, StepsLeft;
    if p.finished {
      run := [];
    } else {
      var a := Productive(orders, p);
      ProductiveMay(handle, init, orders, p);
      ProductiveSteps(handle, init, orders, p);
      StepsNonNegative(handle, init, orders, p);
      PositiveCap(p.ring);
      AdvanceOk(handle, init, orders, p, a);
      hide PipeInv, May, Productive;
      var rest := CanFinish(handle, init, orders, Advance(handle, p, a));
      run := [a] + rest;
      assert run[1..] == rest;
    }
  }

  lemma PositiveCap<T>(s: State<T>)
    requires Inv(s)
    ensures s.Cap() > 0
  {
  }

  /** Whatever happened so far, the run can be continued to its end, where the consumer has
      the sequential result. */
  lemma NeverStuck<S, T>(handle: (S, T) -> S, init: S, orders: seq<T>, cap: nat, run: seq<Action<Option<T>>>)
      returns (more: seq<Action<Option<T>>>)
    requires IsPow2(cap) && cap >= 2 && Schedule(handle, orders, Launch(cap, init), run)
    ensures var p := Reached(handle, orders, Launch(cap, init), run);
      && p.ring.Cap() > 0 && Schedule(handle, orders, p, more)
      && Reached(handle, orders, p, more).finished
      && Reached(handle, orders, p, more).acc == Fold(handle, init, orders)
  {
    LaunchOk(handle, init, orders, cap);
    ScheduleOk(handle, init, orders, Launch(cap, init), run);
    var p := Reached(handle, orders, Launch(cap, init), run);
    more := CanFinish(handle, init, orders, p);
    ScheduleOk(handle, init, orders, p, more);
    hide Fold, Schedule, Reached, CountsOk, ProducerOk, ConsumerOk, SlotsOk;
    assert orders[..|orders|] == orders;
  }

  // ---------------------------------------------------------------- how long a run takes

  /** Failed attempts of either thread: those given up in the run, and those about to be. */
  function Retries<T>(run: seq<Action<Option<T>>>): nat {
    if run == [] then 0 else (if run[0].PushRetry? || run[0].PopRetry? then 1 else 0) + Retries(run[1..])
  }

  ghost function Failing<T>(s: State<Option<T>>): nat {
    (if s.producer.PFull? then 1 else 0) + (if s.consumer.CEmpty? then 1 else 0)
  }

  /** A step of a thread uses up one of its own steps, or begins or ends a failing attempt. */
  lemma PushCounts<T>(orders: seq<T>, s: State<Option<T>>, a: Action<Option<T>>)
    requires s.Cap() > 0 && Enabled(s, a)
    requires a.PushStart? || a.PushLoad? || a.PushRetry? || a.PushWrite? || a.PushStore?
    ensures var s' := Do(s, a);
      && PushSteps(orders, s') - 3 * (if s'.producer.PFull? then 1 else 0)
           == PushSteps(orders, s) - 3 * (if s.producer.PFull? then 1 else 0) - 1 + (if a.PushRetry? then 3 else 0)
      && s'.consumer == s.consumer && PopSteps(orders, s') == PopSteps(orders, s)
  {
    hide And;
  }

  lemma PopCounts<T>(orders: seq<T>, s: State<Option<T>>, a: Action<Option<T>>)
    requires s.Cap() > 0 && Enabled(s, a)
    requires !(a.PushStart? || a.PushLoad? || a.PushRetry? || a.PushWrite? || a.PushStore?)
    ensures var s' := Do(s, a);
      && PopSteps(orders, s') - 3 * (if s'.consumer.CEmpty? then 1 else 0)
           == PopSteps(orders, s) - 3 * (if s.consumer.CEmpty? then 1 else 0) - 1 + (if a.PopRetry? then 3 else 0)
      && s'.producer == s.producer && PushSteps(orders, s') == PushSteps(orders, s)
  {
    hide And;
  }

  lemma StepCounts<S, T>(handle: (S, T) -> S, orders: seq<T>, p: Pipe<S, T>, a: Action<Option<T>>)
    requires p.ring.Cap() > 0 && Enabled(p.ring, a)
    ensures var p' := Advance(handle, p, a);
      StepsLeft(orders, p') - 3 * Failing(p'.ring)
        == StepsLeft(orders, p) - 3 * Failing(p.ring) - 1 + 3 * Retries([a])
  {
    hide Do, Enabled, PushSteps, PopSteps;
    assert [a][1..] == [];
    if a.PushStart? || a.PushLoad? || a.PushRetry? || a.PushWrite? || a.PushStore? {
      PushCounts(orders, p.ring, a);
    } else {
      PopCounts(orders, p.ring, a);
    }
  }

  lemma {:induction false} ScheduleCounts<S, T>(handle: (S, T) -> S, orders: seq<T>, p: Pipe<S, T>, run: seq<Action<Option<T>>>)
    requires p.ring.Cap() > 0 && Schedule(handle, orders, p, run)
    ensures var p' := Reached(handle, orders, p, run);
      StepsLeft(orders, p') - 3 * Failing(p'.ring)
        == StepsLeft(orders, p) - 3 * Failing(p.ring) - |run| + 3 * Retries(run)
    decreases |run|
  {
    hide StepsLeft, Failing, Do;
    if run != [] {
      StepCounts(handle, orders, p, run[0]);
      assert Retries(run) == Retries([run[0]]) + Retries(run[1..]) by { assert [run[0]][1..] == []; }
      ScheduleCounts(handle, orders, Advance(handle, p, run[0]), run[1..]);
    }
  }

  lemma NothingLeft<S, T>(handle: (S, T) -> S, init: S, orders: seq<T>, p: Pipe<S, T>)
    requires PipeInv(handle, init, orders, p)
    ensures StepsLeft(orders, p) >= 5 * Failing(p.ring)
    ensures p.finished <==> StepsLeft(orders, p) == 0
  {
    hide SlotsOk, Fold, And, At, IsPow2;
  }

  /** Every interleaving takes the same number of steps: four for each push, six for each pop
      and three for each attempt that fails. So a schedule can only be prolonged by failing
      attempts, and a run is finished exactly when it has made all its steps. */
  lemma RunLength<S, T>(handle: (S, T) -> S, init: S, orders: seq<T>, cap: nat, run: seq<Action<Option<T>>>)
    requires IsPow2(cap) && cap >= 2 && Schedule(handle, orders, Launch(cap, init), run)
    ensures var p := Reached(handle, orders, Launch(cap, init), run);
      && |run| <= 10 * (|orders| + 1) + 3 * Retries(run)
      && (p.finished <==> |run| == 10 * (|orders| + 1) + 3 * Retries(run))
  {
    hide Inv, PipeInv, Fold, Schedule, Reached, Retries;
    LaunchOk(handle, init, orders, cap);
    ScheduleOk(handle, init, orders, Launch(cap, init), run);
    ScheduleCounts(handle, orders, Launch(cap, init), run);
    assert StepsLeft(orders, Launch(cap, init)) == 10 * (|orders| + 1) && Failing(Launch<S, T>(cap, init).ring) == 0;
    NothingLeft(handle, init, orders, Reached(handle, orders, Launch(cap, init), run));
    hide StepsLeft, Failing;
  }
}
