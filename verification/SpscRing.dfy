/** The single-producer single-consumer ring as a two-thread step system. Every atomic load,
    slot access and store is a step of its own, and a load of the other thread's index may
    return any value between the one last seen and the current one. */
module SpscRing {
  import opened Bits
  import opened Types

  /** A slot is raw storage, holds an item, or holds one that has been moved out. */
  datatype Slot<T> = Raw | Holds(item: T) | Moved

  /** Where the producer is inside push; tail and next are its local variables. */
  datatype Producer<T> = PIdle | PLoading(item: T, tail: nat, next: nat) | PFull
                       | PWriting(item: T, tail: nat, next: nat) | PStoring(item: T, next: nat)

  /** Where the consumer is inside pop. */
  datatype Consumer<T> = CIdle | CLoading(head: nat) | CEmpty | CReading(head: nat)
                       | CDestroying(head: nat, item: T) | CStoring(head: nat, item: T) | CGot(item: T)

  /** pushed and popped list the items whose tail and head stores have happened; seenPops and
      seenPushes say how many stores of the other thread a thread has acquired. */
  datatype State<T> = State(slots: seq<Slot<T>>, head: nat, tail: nat, producer: Producer<T>, consumer: Consumer<T>,
                            pushed: seq<T>, popped: seq<T>, seenPops: nat, seenPushes: nat)
  {
    function Cap(): nat { |slots| }
  }

  datatype Action<T> = PushStart(item: T) | PushLoad(v: nat) | PushRetry | PushWrite | PushStore
                     | PopStart | PopLoad(v: nat) | PopRetry | PopRead | PopDestroy | PopStore | PopReturn

  function Init<T>(cap: nat): State<T> {
    State(seq(cap, i => Raw), 0, 0, PIdle, CIdle, [], [], 0, 0)
  }

  predicate Enabled<T>(s: State<T>, a: Action<T>) {
    match a
    case PushStart(_) => s.producer.PIdle?
    case PushLoad(v) => s.producer.PLoading? && s.seenPops <= v <= |s.popped|
    case PushRetry => s.producer.PFull?
    case PushWrite => s.producer.PWriting? && s.producer.tail < s.Cap()
    case PushStore => s.producer.PStoring?
    case PopStart => s.consumer.CIdle?
    case PopLoad(v) => s.consumer.CLoading? && s.seenPushes <= v <= |s.pushed|
    case PopRetry => s.consumer.CEmpty?
    case PopRead => s.consumer.CReading? && s.consumer.head < s.Cap() && s.slots[s.consumer.head].Holds?
    case PopDestroy => s.consumer.CDestroying? && s.consumer.head < s.Cap()
    case PopStore => s.consumer.CStoring?
    case PopReturn => s.consumer.CGot?
  }

  function Do<T>(s: State<T>, a: Action<T>): (s': State<T>)
    requires s.Cap() > 0 && Enabled(s, a)
    ensures s'.Cap() == s.Cap()
  {
    var mask := s.Cap() - 1;
    match a
    case PushStart(x) => s.(producer := PLoading(x, s.tail, And(s.tail + 1, mask)))
    case PushLoad(v) =>
      var p := s.producer;
      s.(seenPops := v, producer := if p.next == v % s.Cap() then PFull else PWriting(p.item, p.tail, p.next))
    case PushRetry => s.(producer := PIdle)
    case PushWrite =>
      var p := s.producer;
      s.(slots := s.slots[p.tail := Holds(p.item)], producer := PStoring(p.item, p.next))
    case PushStore => s.(tail := s.producer.next, pushed := s.pushed + [s.producer.item], producer := PIdle)
    case PopStart => s.(consumer := CLoading(s.head))
    case PopLoad(v) =>
      var h := s.consumer.head;
      s.(seenPushes := v, consumer := if h == v % s.Cap() then CEmpty else CReading(h))
    case PopRetry => s.(consumer := CIdle)
    case PopRead =>
      var h := s.consumer.head;
      s.(slots := s.slots[h := Moved], consumer := CDestroying(h, s.slots[h].item))
    case PopDestroy =>
      var c := s.consumer;
      s.(slots := s.slots[c.head := Raw], consumer := CStoring(c.head, c.item))
    case PopStore =>
      var c := s.consumer;
      s.(head := And(c.head + 1, mask), popped := s.popped + [c.item], consumer := CGot(c.item))
    case PopReturn => s.(consumer := CIdle)
  }

  // ---------------------------------------------------------------- the invariant

  /** The oldest item a slot still holds, one past the newest, and all items written so far. */
  ghost function Lo<T>(s: State<T>): nat {
    |s.popped| + if s.consumer.CStoring? then 1 else 0
  }

  ghost function Hi<T>(s: State<T>): nat {
    |s.pushed| + if s.producer.PStoring? then 1 else 0
  }

  ghost function Written<T>(s: State<T>): seq<T> {
    s.pushed + if s.producer.PStoring? then [s.producer.item] else []
  }

  /** What the slot of position n must contain, for one lap of positions from Lo on. */
  ghost function Content<T>(s: State<T>, n: nat): Slot<T> {
    if n < Hi(s) && n < |Written(s)| then
      if s.consumer.CDestroying? && n == |s.popped| then Moved else Holds(Written(s)[n])
    else Raw
  }

  ghost predicate SlotsOk<T>(s: State<T>) {
    s.Cap() > 0 && forall n :: Lo(s) <= n < Lo(s) + s.Cap() ==> s.slots[At(n, s.Cap())] == Content(s, n)
  }

  /** The stores a thread has acquired lag behind, never ahead, and bound what it may do. */
  ghost predicate CountsOk<T>(s: State<T>) {
    && s.seenPops <= |s.popped| <= s.seenPushes <= |s.pushed|
    && |s.pushed| < s.seenPops + s.Cap()
    && s.popped <= s.pushed
    && s.head == At(|s.popped|, s.Cap()) && s.tail == At(|s.pushed|, s.Cap())
  }

  ghost predicate ProducerOk<T>(s: State<T>)
    requires s.Cap() > 0
  {
    match s.producer
    case PIdle => true
    case PFull => true
    case PLoading(_, t, next) => t == s.tail && next == At(|s.pushed| + 1, s.Cap())
    case PWriting(_, t, next) => t == s.tail && next == At(|s.pushed| + 1, s.Cap()) && |s.pushed| + 1 < s.seenPops + s.Cap()
    case PStoring(_, next) => next == At(|s.pushed| + 1, s.Cap()) && |s.pushed| + 1 < s.seenPops + s.Cap()
  }

  ghost predicate ConsumerOk<T>(s: State<T>) {
    match s.consumer
    case CIdle => true
    case CEmpty => true
    case CGot(x) => |s.popped| > 0 && s.popped[|s.popped| - 1] == x
    case CLoading(h) => h == s.head
    case CReading(h) => h == s.head && |s.popped| < s.seenPushes
    case CDestroying(h, x) => h == s.head && |s.popped| < s.seenPushes && |s.popped| < |s.pushed| && x == s.pushed[|s.popped|]
    case CStoring(h, x) => h == s.head && |s.popped| < s.seenPushes && |s.popped| < |s.pushed| && x == s.pushed[|s.popped|]
  }

  ghost predicate Inv<T>(s: State<T>) {
    IsPow2(s.Cap()) && s.Cap() >= 2 && CountsOk(s) && ProducerOk(s) && ConsumerOk(s) && SlotsOk(s)
  }

  // ---------------------------------------------------------------- every step keeps it

  lemma InitOk<T>(cap: nat)
    requires IsPow2(cap) && cap >= 2
    ensures Inv<T>(Init(cap))
  {
  }

  /** The masked successor of an index is the index of the next position. */
  lemma Successor(n: nat, cap: nat)
    requires IsPow2(cap) && cap >= 2
    ensures And(At(n, cap) + 1, cap - 1) == At(n + 1, cap)
  {
    var k: nat :| cap == Pow2(k);
    MaskIsMod(At(n, cap) + 1, k);
    AtNext(n, cap);
  }

  lemma PushLoadOk<T>(s: State<T>, v: nat)
    requires Inv(s) && Enabled(s, PushLoad(v))
    ensures Inv(Do(s, PushLoad(v)))
  {
    AtPeriod(v, s.Cap());
    if |s.pushed| + 1 == v + s.Cap() {
      AtPeriod(v, s.Cap());
    }
    assert At(v, s.Cap()) == v % s.Cap();
    hide At, Content;
  }

  lemma PopLoadOk<T>(s: State<T>, v: nat)
    requires Inv(s) && Enabled(s, PopLoad(v))
    ensures Inv(Do(s, PopLoad(v)))
  {
    assert At(v, s.Cap()) == v % s.Cap();
    hide At, Content;
  }

  lemma PushWriteOk<T>(s: State<T>)
    requires Inv(s) && Enabled(s, PushWrite)
    ensures Inv(Do(s, PushWrite))
  {
    var s' := Do(s, PushWrite);
    var cap := s.Cap();
    forall n | Lo(s) <= n < Lo(s) + cap ensures s'.slots[At(n, cap)] == Content(s', n) {
      var m := |s.pushed|;
      if n <= m { AtDistinct(n, m, cap); } else { AtDistinct(m, n, cap); }
    }
    hide At, And, Content;
  }

  lemma PushStoreOk<T>(s: State<T>)
    requires Inv(s) && Enabled(s, PushStore)
    ensures Inv(Do(s, PushStore))
  {
    var s' := Do(s, PushStore);
    assert Written(s') == Written(s);
    forall n | Lo(s) <= n < Lo(s) + s.Cap() ensures Content(s', n) == Content(s, n) {}
    hide At, And, Content;
  }

  lemma PopReadOk<T>(s: State<T>)
    requires Inv(s) && Enabled(s, PopRead)
    ensures Inv(Do(s, PopRead))
  {
    var s' := Do(s, PopRead);
    var cap := s.Cap();
    var m := |s.popped|;
    assert s.slots[At(m, cap)] == Content(s, m);
    forall n | Lo(s) <= n < Lo(s) + cap ensures s'.slots[At(n, cap)] == Content(s', n) {
      AtDistinct(m, n, cap);
    }
    hide At, And, Content;
  }

  lemma PopDestroyOk<T>(s: State<T>)
    requires Inv(s) && Enabled(s, PopDestroy)
    ensures Inv(Do(s, PopDestroy))
  {
    var s' := Do(s, PopDestroy);
    var cap := s.Cap();
    var m := |s.popped|;
    forall n | m + 1 <= n < m + 1 + cap ensures s'.slots[At(n, cap)] == Content(s', n) {
      if n < m + cap { AtDistinct(m, n, cap); } else { AtPeriod(m, cap); }
    }
    hide At, And, Content;
  }

  lemma PopStoreOk<T>(s: State<T>)
    requires Inv(s) && Enabled(s, PopStore)
    ensures Inv(Do(s, PopStore))
  {
    var s' := Do(s, PopStore);
    Successor(|s.popped|, s.Cap());
    assert Written(s') == Written(s);
    forall n | Lo(s) <= n < Lo(s) + s.Cap() ensures Content(s', n) == Content(s, n) {}
    hide At, And, Content;
  }

  lemma StepOk<T>(s: State<T>, a: Action<T>)
    requires Inv(s) && Enabled(s, a)
    ensures Inv(Do(s, a)) && Do(s, a).Cap() == s.Cap()
  {
    hide Inv, Do;
    if a.PushLoad? { PushLoadOk(s, a.v); }
    else if a.PopLoad? { PopLoadOk(s, a.v); }
    else if a.PushWrite? { PushWriteOk(s); }
    else if a.PushStore? { PushStoreOk(s); }
    else if a.PopRead? { PopReadOk(s); }
    else if a.PopDestroy? { PopDestroyOk(s); }
    else if a.PopStore? { PopStoreOk(s); }
    else { LocalStepOk(s, a); }
  }

  /** A step that only moves a thread inside its operation. */
  lemma LocalStepOk<T>(s: State<T>, a: Action<T>)
    requires Inv(s) && Enabled(s, a) && (a.PushStart? || a.PushRetry? || a.PopStart? || a.PopRetry? || a.PopReturn?)
    ensures Inv(Do(s, a))
  {
    hide At, And, IsPow2;
    Successor(|s.pushed|, s.Cap());
    var s' := Do(s, a);
    forall n | Lo(s) <= n < Lo(s) + s.Cap() ensures Content(s', n) == Content(s, n) {}
    hide Content;
  }

  // ---------------------------------------------------------------- safety of every run

  /** All actions of a schedule are possible one after the other. */
  predicate Possible<T>(s: State<T>, run: seq<Action<T>>)
    requires s.Cap() > 0
    decreases |run|
  {
    run == [] || (Enabled(s, run[0]) && Possible(Do(s, run[0]), run[1..]))
  }

  function After<T>(s: State<T>, run: seq<Action<T>>): State<T>
    requires s.Cap() > 0 && Possible(s, run)
    decreases |run|
  {
    if run == [] then s else After(Do(s, run[0]), run[1..])
  }

  lemma {:induction false} RunOk<T>(s: State<T>, run: seq<Action<T>>)
    requires Inv(s) && Possible(s, run)
    ensures Inv(After(s, run)) && After(s, run).Cap() == s.Cap()
    decreases |run|
  {
    if run != [] {
      StepOk(s, run[0]);
      RunOk(Do(s, run[0]), run[1..]);
    }
  }

  /** No slot is read before it is constructed, written before it is consumed, or accessed by
      both threads at once. */
  ghost predicate NoRace<T>(s: State<T>) {
    && (s.producer.PWriting? ==> s.producer.tail < s.Cap() && s.slots[s.producer.tail] == Raw)
    && (s.consumer.CReading? ==>
         s.consumer.head < s.Cap() && |s.popped| < |s.pushed| && s.slots[s.consumer.head] == Holds(s.pushed[|s.popped|]))
    && (s.consumer.CDestroying? ==> s.consumer.head < s.Cap() && s.slots[s.consumer.head] == Moved)
    && (s.producer.PWriting? && (s.consumer.CReading? || s.consumer.CDestroying?) ==> s.producer.tail != s.consumer.head)
  }

  /** Every slot access is ordered after the accesses it depends on: the reader has acquired
      the store that published the item, the writer the store that freed the slot. */
  ghost predicate Ordered<T>(s: State<T>) {
    && (s.consumer.CReading? || s.consumer.CDestroying? ==> |s.popped| < s.seenPushes)
    && (s.producer.PWriting? ==> |s.pushed| < s.seenPops + s.Cap())
  }

  /** Ring safety under stale index loads, in every state any schedule can reach: what was
      popped is a prefix of what was pushed, at most capacity - 1 items are in flight, slot
      accesses never collide and are ordered by the acquired stores. */
  lemma RingSafe<T>(cap: nat, run: seq<Action<T>>)
    requires IsPow2(cap) && cap >= 2 && Possible(Init<T>(cap), run)
    ensures var s := After(Init<T>(cap), run);
      s.popped <= s.pushed && |s.pushed| - |s.popped| <= cap - 1 && NoRace(s) && Ordered(s)
  {
    InitOk<T>(cap);
    RunOk(Init<T>(cap), run);
    InvSafe(After(Init<T>(cap), run));
    hide Inv, After, Possible;
  }

  lemma InvSafe<T>(s: State<T>)
    requires Inv(s)
    ensures s.popped <= s.pushed && |s.pushed| - |s.popped| <= s.Cap() - 1 && NoRace(s) && Ordered(s)
  {
    var cap := s.Cap();
    if s.producer.PWriting? {
      assert s.slots[At(|s.pushed|, cap)] == Content(s, |s.pushed|);
    }
    if s.consumer.CReading? || s.consumer.CDestroying? {
      assert s.slots[At(|s.popped|, cap)] == Content(s, |s.popped|);
      AtDistinct(|s.popped|, |s.pushed|, cap);
    }
    hide At;
  }

  // ---------------------------------------------------------------- when push and pop fail

  /** A push reports full exactly when the acquired pops leave capacity - 1 items in flight:
      one slot always stays unused. */
  lemma PushFullIff<T>(s: State<T>, v: nat)
    requires Inv(s) && Enabled(s, PushLoad(v))
    ensures Do(s, PushLoad(v)).producer.PFull? <==> |s.pushed| - v == s.Cap() - 1
  {
    AtDistinct(v, if |s.pushed| + 1 < v + s.Cap() then |s.pushed| + 1 else v, s.Cap());
    AtPeriod(v, s.Cap());
    hide Content, And;
  }

  /** A pop reports empty exactly when no push beyond the popped ones was acquired. */
  lemma PopEmptyIff<T>(s: State<T>, v: nat)
    requires Inv(s) && Enabled(s, PopLoad(v))
    ensures Do(s, PopLoad(v)).consumer.CEmpty? <==> v == |s.popped|
  {
    AtDistinct(|s.popped|, v, s.Cap());
    hide Content, And;
  }

  /** The size computed from the two indices in 64-bit arithmetic. */
  function ApproxSize<T>(s: State<T>): nat
    requires s.Cap() > 0
  {
    And(WrapAdd(WrapSub(s.tail, s.head), s.Cap()), s.Cap() - 1)
  }

  /** With both threads at rest the size is exactly the number of items in the ring, which sit
      in consecutive slots from the head on. */
  lemma ApproxSizeExact<T>(s: State<T>)
    requires Inv(s) && s.Cap() <= TWO_63 && s.producer.PIdle? && s.consumer.CIdle?
    ensures ApproxSize(s) == |s.pushed| - |s.popped|
    ensures forall n :: |s.popped| <= n < |s.popped| + s.Cap() ==>
      s.slots[At(n, s.Cap())] == if n < |s.pushed| then Holds(s.pushed[n]) else Raw
  {
    SizeOf(|s.pushed|, |s.popped|, s.Cap());
    hide At, And;
    assert Written(s) == s.pushed;
    assert forall n :: |s.popped| <= n < |s.popped| + s.Cap() ==> s.slots[At(n, s.Cap())] == Content(s, n);
  }

  lemma SizeOf(p: nat, q: nat, cap: nat)
    requires IsPow2(cap) && 2 <= cap <= TWO_63 && q <= p < q + cap
    ensures And(WrapAdd(WrapSub(At(p, cap), At(q, cap)), cap), cap - 1) == p - q
  {
    hide And;
    var d := At(p, cap) - At(q, cap) + cap;
    Difference(p, q, cap);
    Wrapped(At(p, cap), At(q, cap), cap);
    var k: nat :| cap == Pow2(k);
    MaskIsMod(d, k);
  }

  lemma Wrapped(t: nat, h: nat, cap: nat)
    requires t < cap && h < cap <= TWO_63
    ensures WrapAdd(WrapSub(t, h), cap) == t - h + cap
  {
  }

  lemma Difference(p: nat, q: nat, cap: nat)
    requires cap > 0 && q <= p < q + cap
    ensures At(p, cap) - At(q, cap) + cap >= 0 && At(At(p, cap) - At(q, cap) + cap, cap) == p - q
  {
    AtBelow(p, cap);
    AtBelow(q, cap);
    hide At;
    var a, b, d := p / cap, q / cap, At(p, cap) - At(q, cap) + cap;
    Laps(a, b, cap);
    LapResidue(d, cap, b - a + 1, p - q);
  }

  lemma AtBelow(n: nat, cap: nat)
    requires cap > 0
    ensures n == n / cap * cap + At(n, cap)
  {
  }

  lemma Laps(a: nat, b: nat, cap: nat)
    ensures (b - a + 1) * cap == b * cap - a * cap + cap
  {
  }

  lemma LapResidue(d: nat, cap: nat, q: int, r: int)
    requires cap > 0 && d == q * cap + r && 0 <= r < cap
    ensures At(d, cap) == r
  {
    ModUnique(d, cap, q, r);
  }
}
