/** The slab allocator: a freelist of 32-bit slot indices over a fixed array of slots. */
module MemoryPools {
  import opened Types

  const TWO_32: int := 0x1_0000_0000

  /** The freelist a new pool builds: the slots in descending order, each cut to 32 bits. */
  function FreshList(from: nat): seq<nat> {
    if from == 0 then [] else [(from - 1) % TWO_32] + FreshList(from - 1)
  }

  lemma {:induction false} FreshListAt(from: nat, k: nat)
    requires k < from
    ensures |FreshList(from)| == from && FreshList(from)[k] == (from - 1 - k) % TWO_32
    decreases from
  {
    if from == 1 {
      assert FreshList(0) == [];
    } else {
      FreshListAt(from - 1, if k > 0 then k - 1 else 0);
    }
  }

  /** Up to 2^32 slots the list counts down without a cut, beyond that it repeats its first entry. */
  lemma FreshListShape(capacity: nat)
    ensures |FreshList(capacity)| == capacity
    ensures capacity <= TWO_32 ==> forall k :: 0 <= k < capacity ==> FreshList(capacity)[k] == capacity - 1 - k
    ensures capacity > TWO_32 ==> FreshList(capacity)[TWO_32] == FreshList(capacity)[0]
  {
    if capacity > TWO_32 {
      FreshListAt(capacity, 0);
      FreshListAt(capacity, TWO_32);
      OneLap(capacity - 1);
    } else if capacity > 0 {
      FreshListAt(capacity, 0);
      forall k | 0 <= k < capacity ensures FreshList(capacity)[k] == capacity - 1 - k {
        FreshListAt(capacity, k);
      }
    }
  }

  lemma OneLap(x: int)
    ensures (x - TWO_32) % TWO_32 == x % TWO_32
  {
  }

  /** Every slot once: true of a new pool exactly up to 2^32 slots. */
  lemma FreshListPartitionIff(capacity: nat)
    ensures |FreshList(capacity)| == capacity
    ensures AllDifferent(FreshList(capacity)) <==> capacity <= 0x1_0000_0000
  {
    hide FreshList;
    FreshListShape(capacity);
  }

  lemma AllListed(capacity: nat)
    requires capacity <= TWO_32
    ensures forall k: nat :: k < capacity ==> k in FreshList(capacity)
    ensures forall i :: 0 <= i < |FreshList(capacity)| ==> FreshList(capacity)[i] < capacity
  {
    hide FreshList;
    FreshListShape(capacity);
    forall k: nat | k < capacity ensures k in FreshList(capacity) { assert FreshList(capacity)[capacity - 1 - k] == k; }
  }

  lemma {:induction false} ListCard(list: seq<nat>)
    requires AllDifferent(list)
    ensures |Elements(list)| == |list|
    decreases |list|
  {
    if list == [] {
      assert Elements(list) == {};
    } else {
      var n := |list| - 1;
      ListCard(list[..n]);
      assert Elements(list) == Elements(list[..n]) + {list[n]};
    }
  }

  /** The slots of a pool. */
  function Below(n: nat): (s: set<nat>)
    ensures |s| == n && forall k: nat :: k in s <==> k < n
  {
    if n == 0 then {} else Below(n - 1) + {n - 1}
  }

  /** A list that misses a slot is shorter than the slots. */
  lemma PositiveCount(list: seq<nat>, capacity: nat, k: nat)
    requires AllDifferent(list) && k < capacity && k !in list
    requires forall i :: 0 <= i < |list| ==> list[i] < capacity
    ensures |list| < capacity
  {
    ListCard(list);
    assert k in Below(capacity) && k !in Elements(list);
    Smaller(Elements(list), Below(capacity) - {k});
  }

  lemma {:induction false} Smaller(a: set<nat>, b: set<nat>)
    requires a <= b
    ensures |a| <= |b|
    decreases |a|
  {
    if a != {} {
      var x :| x in a;
      Smaller(a - {x}, b - {x});
    }
  }

  class MemoryPool<T> {
    const capacity: nat
    const storage: array<Option<T>>
    var freelist: seq<nat>
    var allocatedCount: nat

    /** Free and live slots partition the slots, without repetition. */
    ghost predicate Valid()
      reads this, storage
    {
      && storage.Length == capacity <= TWO_32
      && AllDifferent(freelist)
      && (forall i :: 0 <= i < |freelist| ==> freelist[i] < capacity)
      && (forall k :: 0 <= k < capacity ==> (storage[k] == None <==> k in freelist))
      && allocatedCount + |freelist| == capacity
    }

    ghost function Live(): set<nat>
      reads this, storage
    {
      set k | 0 <= k < storage.Length && storage[k] != None
    }

    constructor (capacity: nat)
      ensures fresh(storage) && this.capacity == capacity && Live() == {}
      ensures freelist == FreshList(capacity) && allocatedCount == 0
      ensures Valid() <==> capacity <= TWO_32
    {
      this.capacity := capacity;
      storage := new Option<T>[capacity](i => None);
      allocatedCount := 0;
      freelist := [];
      new;
      var i := capacity;
      while i > 0
        invariant freelist + FreshList(i) == FreshList(capacity)
        invariant forall k :: 0 <= k < capacity ==> storage[k] == None
        invariant allocatedCount == 0
      {
        i := i - 1;
        assert FreshList(i + 1) == [i % TWO_32] + FreshList(i);
        assert freelist + ([i % TWO_32] + FreshList(i)) == freelist + [i % TWO_32] + FreshList(i);
        freelist := freelist + [i % TWO_32];
      }
      FreshListPartitionIff(capacity);
      if capacity <= TWO_32 { AllListed(capacity); }
      assert freelist + FreshList(0) == freelist;
    }

    /** Construct x in a free slot, the one freed last; no slot is the exception a full pool throws. */
    method Alloc(x: T) returns (slot: Option<nat>)
      requires Valid()
      modifies this, storage
      ensures Valid() && (slot == None <==> old(freelist) == [])
      ensures slot == None ==> unchanged(this) && unchanged(storage)
      ensures slot.Some? ==>
        && freelist + [slot.value] == old(freelist) && slot.value < capacity && slot.value !in old(Live())
        && storage[..] == old(storage[..])[slot.value := Some(x)]
        && Live() == old(Live()) + {slot.value}
    {
      if freelist == [] { return None; }
      var idx := freelist[|freelist| - 1];
      freelist := freelist[..|freelist| - 1];
      allocatedCount := allocatedCount + 1;
      storage[idx] := Some(x);
      return Some(idx);
    }

    /** Destroy the object in a live slot and return the slot; no pointer, no change. */
    method Dealloc(slot: Option<nat>)
      requires Valid() && (slot.Some? ==> slot.value in Live())
      modifies this, storage
      ensures Valid()
      ensures slot == None ==> unchanged(this) && unchanged(storage)
      ensures slot.Some? ==>
        && freelist == old(freelist) + [slot.value]
        && storage[..] == old(storage[..])[slot.value := None]
        && Live() == old(Live()) - {slot.value}
    {
      if slot == None { return; }
      var idx := slot.value;
      storage[idx] := None;
      freelist := freelist + [idx % TWO_32];
      PositiveCount(old(freelist), capacity, idx);
      allocatedCount := allocatedCount - 1;
    }

    /** The counter counts the live slots, and a pool with a dead slot is not full. */
    lemma Counts()
      requires Valid()
      ensures allocatedCount == |Live()| && |Live()| + |freelist| == capacity
    {
      ListCard(freelist);
      assert Elements(freelist) !! Live() && Elements(freelist) + Live() == Below(capacity);
      assert |Elements(freelist) + Live()| == |Elements(freelist)| + |Live()|;
    }
  }
}
