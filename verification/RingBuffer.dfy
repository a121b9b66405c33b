/** The ring as the two methods each thread calls, in runs where no other step comes between:
    push and pop are then schedules of the step system. */
module RingBuffer {
  import opened Types
  import opened Bits
  import opened SpscRing

  /** The steps of one push, with a fresh load of the other index. */
  function PushRun<T>(item: T, pops: nat, ok: bool): seq<Action<T>> {
    [PushStart(item), PushLoad(pops)] + if ok then [PushWrite, PushStore] else [PushRetry]
  }

  function PopRun<T>(pushes: nat, ok: bool): seq<Action<T>> {
    [PopStart, PopLoad(pushes)] + if ok then [PopRead, PopDestroy, PopStore, PopReturn] else [PopRetry]
  }

  class SpscRingBuffer<T> {
    const capacity: nat
    const mask: nat
    const slots: array<Slot<T>>
    var head: nat
    var tail: nat
    ghost var pushed: seq<T>
    ghost var popped: seq<T>
    ghost var seenPops: nat
    ghost var seenPushes: nat

    ghost function State(): State<T>
      reads this, slots
    {
      SpscRing.State(slots[..], head, tail, PIdle, CIdle, pushed, popped, seenPops, seenPushes)
    }

    ghost predicate Valid()
      reads this, slots
    {
      slots.Length == capacity && mask == capacity - 1 && Inv(State())
    }

    constructor (capacity: nat)
      requires capacity <= TWO_63
      ensures Valid() && fresh(slots) && this.capacity >= capacity && this.capacity <= TWO_63
      ensures forall q: nat :: IsPow2(q) && q >= capacity && q >= 2 ==> this.capacity <= q
      ensures State() == Init(this.capacity)
    {
      var cap := NextPow2(capacity);
      this.capacity, mask := cap, cap - 1;
      slots := new Slot<T>[cap](i => Raw);
      head, tail := 0, 0;
      pushed, popped, seenPops, seenPushes := [], [], 0, 0;
      new;
      assert slots[..] == seq(cap, i => Raw);
      InitOk<T>(cap);
    }

    /** Push without interruption: fails exactly if capacity - 1 items wait to be popped. */
    method Push(item: T) returns (ok: bool)
      requires Valid()
      modifies this, slots
      ensures Valid() && ok == (|old(pushed)| - |old(popped)| < capacity - 1)
      ensures pushed == (if ok then old(pushed) + [item] else old(pushed)) && popped == old(popped)
      ensures Possible(old(State()), PushRun(item, |popped|, ok))
        && State() == After(old(State()), PushRun(item, |popped|, ok))
    {
      hide Inv, Possible, After, And, PushRun;
      ghost var s := State();
      SizeBound(s);
      var next := And(tail + 1, mask);
      FullIff(s);
      seenPops := |popped|;
      if next == head {
        PushFails(s, item);
        RunKeeps(s, PushRun(item, |popped|, false));
        return false;
      }
      PushSucceeds(s, item);
      RunKeeps(s, PushRun(item, |popped|, true));
      slots[tail] := Holds(item);
      tail := next;
      pushed := pushed + [item];
      return true;
    }

    /** Pop without interruption: the oldest item not yet popped, if there is one. */
    method Pop() returns (item: Option<T>)
      requires Valid()
      modifies this, slots
      ensures Valid()
      ensures |old(popped)| < |old(pushed)| || item == None
      ensures |old(popped)| < |old(pushed)| ==> item == Some(old(pushed)[|old(popped)|])
      ensures popped == (if item == None then old(popped) else old(popped) + [item.value]) && pushed == old(pushed)
      ensures Possible(old(State()), PopRun(|pushed|, item != None))
        && State() == After(old(State()), PopRun(|pushed|, item != None))
    {
      hide Inv, Possible, After, And, PopRun;
      ghost var s := State();
      SizeBound(s);
      EmptyIff(s);
      seenPushes := |pushed|;
      if head == tail {
        PopFails(s);
        RunKeeps(s, PopRun(|pushed|, false));
        return None;
      }
      PopSucceeds(s);
      RunKeeps(s, PopRun(|pushed|, true));
      var taken := slots[head].item;
      slots[head] := Raw;
      head := And(head + 1, mask);
      popped := popped + [taken];
      return Some(taken);
    }

    /** The number of items between the two indices. */
    method Size() returns (n: nat)
      requires Valid() && capacity <= TWO_63
      ensures n == |pushed| - |popped|
    {
      ApproxSizeExact(State());
      n := And(WrapAdd(WrapSub(tail, head), capacity), mask);
    }
  }

  lemma SizeBound<T>(s: State<T>)
    requires Inv(s)
    ensures s.Cap() >= 2 && |s.popped| <= |s.pushed| <= |s.popped| + s.Cap() - 1
  {
  }

  /** The masked successor of the tail meets the head exactly when one slot is left. */
  lemma FullIff<T>(s: State<T>)
    requires Inv(s)
    ensures And(s.tail + 1, s.Cap() - 1) == s.head <==> |s.pushed| - |s.popped| == s.Cap() - 1
  {
    Successor(|s.pushed|, s.Cap());
    AtPeriod(|s.popped|, s.Cap());
    AtDistinct(|s.popped|, if |s.pushed| + 1 < |s.popped| + s.Cap() then |s.pushed| + 1 else |s.popped|, s.Cap());
    hide And, At;
  }

  lemma EmptyIff<T>(s: State<T>)
    requires Inv(s)
    ensures s.head == s.tail <==> |s.pushed| == |s.popped|
  {
    AtDistinct(|s.popped|, |s.pushed|, s.Cap());
    hide And, At;
  }

  /** A schedule with one more step in front. */
  lemma RunCons<T>(s: State<T>, a: Action<T>, rest: seq<Action<T>>)
    requires s.Cap() > 0 && Enabled(s, a) && Possible(Do(s, a), rest)
    ensures Possible(s, [a] + rest) && After(s, [a] + rest) == After(Do(s, a), rest)
  {
    assert ([a] + rest)[1..] == rest;
  }

  lemma RunThree<T>(s: State<T>, a: Action<T>, b: Action<T>, c: Action<T>)
    requires s.Cap() > 0 && Enabled(s, a) && Enabled(Do(s, a), b) && Enabled(Do(Do(s, a), b), c)
    ensures Possible(s, [a, b] + [c]) && After(s, [a, b] + [c]) == Do(Do(Do(s, a), b), c)
  {
    hide Enabled, Do;
    var s1 := Do(s, a);
    var s2 := Do(s1, b);
    RunCons(s2, c, []);
    RunCons(s1, b, [c] + []);
    RunCons(s, a, [b] + ([c] + []));
    assert [a] + ([b] + ([c] + [])) == [a, b] + [c];
  }

  lemma PushFails<T>(s: State<T>, item: T)
    requires Inv(s) && s.producer.PIdle? && |s.pushed| - |s.popped| == s.Cap() - 1
    ensures Possible(s, PushRun(item, |s.popped|, false))
      && After(s, PushRun(item, |s.popped|, false)) == s.(seenPops := |s.popped|)
  {
    var s1 := Do(s, PushStart(item));
    StepOk(s, PushStart(item));
    PushFullIff(s1, |s.popped|);
    RunThree(s, PushStart(item), PushLoad(|s.popped|), PushRetry);
    hide Possible, After, Inv;
  }

  /** The state when the producer is about to write its slot. */
  lemma PushLoads<T>(s: State<T>, item: T)
    requires Inv(s) && s.producer.PIdle? && |s.pushed| - |s.popped| < s.Cap() - 1
    ensures Enabled(Do(s, PushStart(item)), PushLoad(|s.popped|))
    ensures var t := Do(Do(s, PushStart(item)), PushLoad(|s.popped|));
      && t == s.(seenPops := |s.popped|, producer := PWriting(item, s.tail, And(s.tail + 1, s.Cap() - 1)))
      && s.tail < s.Cap()
  {
    var s1 := Do(s, PushStart(item));
    StepOk(s, PushStart(item));
    StepOk(s1, PushLoad(|s.popped|));
    PushFullIff(s1, |s.popped|);
    InvSafe(Do(s1, PushLoad(|s.popped|)));
    hide Inv;
  }

  lemma PushSucceeds<T>(s: State<T>, item: T)
    requires Inv(s) && s.producer.PIdle? && |s.pushed| - |s.popped| < s.Cap() - 1
    ensures s.tail < s.Cap() && Possible(s, PushRun(item, |s.popped|, true))
      && After(s, PushRun(item, |s.popped|, true)) ==
         s.(seenPops := |s.popped|, slots := s.slots[s.tail := Holds(item)],
            tail := And(s.tail + 1, s.Cap() - 1), pushed := s.pushed + [item])
  {
    hide Inv, Possible, After;
    PushLoads(s, item);
    var s1 := Do(s, PushStart(item));
    RunThree(s1, PushLoad(|s.popped|), PushWrite, PushStore);
    RunCons(s, PushStart(item), [PushLoad(|s.popped|), PushWrite] + [PushStore]);
    assert [PushStart(item)] + ([PushLoad(|s.popped|), PushWrite] + [PushStore]) == PushRun(item, |s.popped|, true);
  }

  lemma PopFails<T>(s: State<T>)
    requires Inv(s) && s.consumer.CIdle? && |s.pushed| == |s.popped|
    ensures Possible(s, PopRun(|s.pushed|, false)) && After(s, PopRun(|s.pushed|, false)) == s.(seenPushes := |s.pushed|)
  {
    var s1 := Do(s, PopStart);
    StepOk(s, PopStart);
    PopEmptyIff(s1, |s.pushed|);
    RunThree(s, PopStart, PopLoad(|s.pushed|), PopRetry);
    hide Possible, After, Inv;
  }

  /** The state when the consumer is about to read the slot of the oldest item. */
  lemma PopReads<T>(s: State<T>)
    requires Inv(s) && s.consumer.CIdle? && |s.pushed| > |s.popped|
    ensures Enabled(s, PopStart) && Enabled(Do(s, PopStart), PopLoad(|s.pushed|))
    ensures var t := Do(Do(s, PopStart), PopLoad(|s.pushed|));
      && t == s.(seenPushes := |s.pushed|, consumer := CReading(s.head)) && Inv(t)
      && s.head < s.Cap() && s.slots[s.head] == Holds(s.pushed[|s.popped|])
  {
    var s1 := Do(s, PopStart);
    StepOk(s, PopStart);
    StepOk(s1, PopLoad(|s.pushed|));
    PopEmptyIff(s1, |s.pushed|);
    InvSafe(Do(s1, PopLoad(|s.pushed|)));
    hide Inv;
  }

  lemma PopSucceeds<T>(s: State<T>)
    requires Inv(s) && s.consumer.CIdle? && |s.pushed| > |s.popped|
    ensures s.head < s.Cap() && s.slots[s.head] == Holds(s.pushed[|s.popped|])
    ensures Possible(s, PopRun(|s.pushed|, true))
      && After(s, PopRun(|s.pushed|, true)) ==
         s.(seenPushes := |s.pushed|, slots := s.slots[s.head := Raw],
            head := And(s.head + 1, s.Cap() - 1), popped := s.popped + [s.pushed[|s.popped|]])
  {
    hide Inv, Possible, After;
    PopReads(s);
    var s1 := Do(s, PopStart);
    var s2 := Do(s1, PopLoad(|s.pushed|));
    var s3 := Do(s2, PopRead);
    assert s.slots[s.head := Moved][s.head := Raw] == s.slots[s.head := Raw];
    RunThree(s3, PopDestroy, PopStore, PopReturn);
    var rest := [PopDestroy, PopStore] + [PopReturn];
    RunCons(s2, PopRead, rest);
    RunCons(s1, PopLoad(|s.pushed|), [PopRead] + rest);
    RunCons(s, PopStart, [PopLoad(|s.pushed|)] + ([PopRead] + rest));
    assert [PopStart] + ([PopLoad(|s.pushed|)] + ([PopRead] + rest)) == PopRun(|s.pushed|, true);
  }

  lemma RunKeeps<T>(s: State<T>, run: seq<Action<T>>)
    requires Inv(s) && Possible(s, run)
    ensures Inv(After(s, run))
  {
    RunOk(s, run);
  }
}
