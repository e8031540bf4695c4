/** The block index of `ImplicitProducer`: a ring of entries, each holding the base index
    of a block and the block, searched by arithmetic from the newest entry instead of by
    looking. A base is the true (unbounded) index of a block's first element; the entries
    hold it as a wrapped 64-bit word. */
module BlockIndex {
  import opened Bits
  import opened Options
  import opened Words

  const BLOCK_SIZE: int := 32
  /** 2^59: `TWO_64 / BLOCK_SIZE`. */
  const MAX_CAPACITY: nat := 0x800_0000_0000_0000
  /** No base is odd. */
  const INVALID_BLOCK_BASE: nat := 1

  type Block = nat

  // ----- Slots of the ring -------------------------------------------------------

  /** How many slots behind `tail` slot `i` is. */
  function Age(tail: nat, capacity: nat, i: nat): (age: nat)
    requires tail < capacity && i < capacity
    ensures age < capacity
  {
    if i <= tail then tail - i else tail - i + capacity
  }

  /** The slot `get_block_index_index_for_index` computes from the tail slot, the key it
      holds and the wrapped index. The difference is a signed word, but `BLOCK_SIZE` is
      unsigned, so the word is divided as an unsigned one. */
  function LookupSlot(tail: nat, capacity: nat, tailKey: nat, index: nat): nat
    requires capacity > 0
  {
    var base := index - index % BLOCK_SIZE;
    var offset := Wrap(base - tailKey) / BLOCK_SIZE;
    And(Wrap(tail + offset), capacity - 1)
  }

  /** The base of the block that holds element `index`. */
  function BaseOf(index: int): int {
    index - index % BLOCK_SIZE
  }

  lemma {:induction false} Pow2Divides(k: nat, m: nat)
    requires k <= m
    ensures Pow2(m) % Pow2(k) == 0 && Pow2(k) <= Pow2(m)
  {
    Pow2Sum(k, m - k);
    Pow2Monotone(k, m);
    DivUnique(Pow2(m), Pow2(k), Pow2(m - k), 0);
  }

  lemma {:induction false} MaxCapacityIsPow2()
    ensures MAX_CAPACITY == Pow2(59)
  {
    assert Pow2(6) == 64;
    assert Pow2(12) == 4096 by { Pow2Sum(6, 6); }
    assert Pow2(24) == 0x100_0000 by { Pow2Sum(12, 12); }
    assert Pow2(48) == 0x1_0000_0000_0000 by { Pow2Sum(24, 24); }
    assert Pow2(5) == 32;
    assert Pow2(11) == 2048 by { Pow2Sum(5, 6); }
    Pow2Sum(11, 48);
  }

  /** The power of two below the maximum divides it. */
  lemma {:induction false} CapacityDivides(capacity: nat) returns (q: nat)
    requires IsPow2(capacity) && capacity <= MAX_CAPACITY
    ensures capacity > 0 && MAX_CAPACITY == q * capacity
  {
    var k: nat :| capacity == Pow2(k);
    MaxCapacityIsPow2();
    if k > 59 {
      Pow2Monotone(60, k);
    }
    Pow2Divides(k, 59);
    q := MAX_CAPACITY / capacity;
  }

  /** The tail of a doubled ring: the last position of its first half. */
  lemma {:induction false} TailOfOldHalf(capacity: nat)
    requires IsPow2(capacity)
    ensures capacity > 0 && IsPow2(2 * capacity)
    ensures And(capacity - 1, 2 * capacity - 1) == capacity - 1
  {
    var k: nat :| capacity == Pow2(k);
    assert 2 * capacity == Pow2(k + 1);
    MaskIsMod(capacity - 1, k + 1);
    DivUnique(capacity - 1, 2 * capacity, 0, capacity - 1);
  }

  lemma {:induction false} LastWord(capacity: nat)
    requires IsPow2(capacity) && capacity <= MAX_CAPACITY
    ensures capacity > 0 && Wrap(-1) % capacity == capacity - 1
  {
    var q := CapacityDivides(capacity);
    assert Wrap(-1) == TWO_64 - 1 == BLOCK_SIZE * (q * capacity) - 1;
    assert capacity * (BLOCK_SIZE * q - 1) == BLOCK_SIZE * (q * capacity) - capacity;
    DivUnique(TWO_64 - 1, capacity, BLOCK_SIZE * q - 1, capacity - 1);
  }

  /** The slot before the tail; from slot 0 the unsigned word wraps around first. */
  lemma {:induction false} MaskedPredecessor(tail: nat, capacity: nat)
    requires IsPow2(capacity) && capacity <= MAX_CAPACITY && tail < capacity
    ensures And(Wrap(tail - 1), capacity - 1) == if tail == 0 then capacity - 1 else tail - 1
  {
    var k: nat :| capacity == Pow2(k);
    MaskIsMod(Wrap(tail - 1), k);
    if tail == 0 {
      LastWord(capacity);
    } else {
      WrapSmall(tail - 1);
      DivUnique(tail - 1, capacity, 0, tail - 1);
    }
  }

  /** The word of a base is never the invalid one. */
  lemma {:induction false} KeyIsValid(base: int)
    requires base % BLOCK_SIZE == 0
    ensures Wrap(base) != INVALID_BLOCK_BASE
  {
    WrapBase(base);
  }

  lemma {:induction false} ModShift(x: int, q: int)
    ensures (x + BLOCK_SIZE * q) % BLOCK_SIZE == x % BLOCK_SIZE
  {
  }

  lemma {:induction false} WrapSmall(x: int)
    requires 0 <= x < TWO_64
    ensures Wrap(x) == x
  {
  }

  lemma {:induction false} WrapBase(index: int)
    ensures Wrap(index) - Wrap(index) % BLOCK_SIZE == Wrap(BaseOf(index))
  {
    var q, w := index / TWO_64, Wrap(index);
    assert index == w + BLOCK_SIZE * (q * MAX_CAPACITY) by {
      assert TWO_64 == BLOCK_SIZE * MAX_CAPACITY;
    }
    ModShift(w, q * MAX_CAPACITY);
    WrapShift(w - w % BLOCK_SIZE, q);
    WrapSmall(w - w % BLOCK_SIZE);
  }

  /** The offset of the block `k` before the newest one, as the unsigned division leaves it. */
  lemma {:induction false} OffsetBack(k: nat)
    requires k < MAX_CAPACITY
    ensures Wrap(-BLOCK_SIZE * k) / BLOCK_SIZE == if k == 0 then 0 else MAX_CAPACITY - k
  {
    if k > 0 {
      WrapShift(-BLOCK_SIZE * k, 1);
      assert Wrap(-BLOCK_SIZE * k) == TWO_64 - BLOCK_SIZE * k;
    }
  }

  lemma {:induction false} SlotBack(tail: nat, capacity: nat, k: nat, i: nat)
    requires IsPow2(capacity) && capacity <= MAX_CAPACITY
    requires tail < capacity && i < capacity && Age(tail, capacity, i) == k
    ensures And(Wrap(tail + if k == 0 then 0 else MAX_CAPACITY - k), capacity - 1) == i
  {
    var p: nat :| capacity == Pow2(p);
    var q := CapacityDivides(capacity);
    var x := tail + if k == 0 then 0 else MAX_CAPACITY - k;
    WrapSmall(x);
    MaskIsMod(x, p);
    if k == 0 {
      DivUnique(x, capacity, 0, i);
    } else if i <= tail {
      assert capacity * q == q * capacity;
      DivUnique(x, capacity, q, i);
    } else {
      assert capacity * (q - 1) == q * capacity - capacity;
      DivUnique(x, capacity, q - 1, i);
    }
  }

  /** Looking up an element of the block `Age` slots before the newest one finds its slot,
      although the distance is negative and divided as an unsigned word. */
  lemma {:induction false} LookupFindsSlot(tail: nat, capacity: nat, tailBase: int, index: int, i: nat)
    requires IsPow2(capacity) && capacity <= MAX_CAPACITY
    requires tail < capacity && i < capacity
    requires BaseOf(index) == tailBase - BLOCK_SIZE * Age(tail, capacity, i)
    ensures LookupSlot(tail, capacity, Wrap(tailBase), Wrap(index)) == i
  {
    var k := Age(tail, capacity, i);
    WrapBase(index);
    WrapDifference(BaseOf(index), tailBase);
    OffsetBack(k);
    SlotBack(tail, capacity, k, i);
  }

  /** Some slot and distance for which the arithmetic does not find the slot. */
  ghost predicate Misses(capacity: nat) {
    exists tail: nat, i: nat, index: int :: tail < capacity && i < capacity &&
      BaseOf(index) == -BLOCK_SIZE * Age(tail, capacity, i) &&
      LookupSlot(tail, capacity, Wrap(0), Wrap(index)) != i
  }

  /** 2^59 entries are exactly what the unsigned division allows: with any larger power of
      two the block before the newest one is already looked for in the wrong slot. */
  lemma {:induction false} CapacityLimit(capacity: nat)
    requires IsPow2(capacity)
    ensures Misses(capacity) <==> capacity > MAX_CAPACITY
  {
    if capacity <= MAX_CAPACITY {
      if Misses(capacity) {
        var tail: nat, i: nat, index: int :| tail < capacity && i < capacity &&
          BaseOf(index) == -BLOCK_SIZE * Age(tail, capacity, i) &&
          LookupSlot(tail, capacity, Wrap(0), Wrap(index)) != i;
        LookupFindsSlot(tail, capacity, 0, index, i);
      }
    } else {
      var k: nat :| capacity == Pow2(k);
      var index := -BLOCK_SIZE;
      OffsetBack(1);
      WrapBase(index);
      var x := MAX_CAPACITY - 1;
      MaskIsMod(x, k);
      DivUnique(x, capacity, 0, x);
      WrapSmall(x);
      assert Age(0, capacity, capacity - 1) == 1;
      assert LookupSlot(0, capacity, Wrap(0), Wrap(index)) == x != capacity - 1;
    }
  }

  // ----- The index ---------------------------------------------------------------

  class Entry {
    var key: nat
    var value: Option<Block>

    constructor ()
      ensures key == INVALID_BLOCK_BASE
    {
      key := INVALID_BLOCK_BASE;
      value := *;
    }
  }

  /** The value a plain map has at `base`. */
  function Find(blocks: map<int, Block>, base: int): Option<Block> {
    if base in blocks then Some(blocks[base]) else None
  }

  /** The entry holds the base and, while it has one, the block of that base. */
  predicate Holds(e: Entry, base: int, blocks: map<int, Block>)
    reads e
  {
    e.key == Wrap(base) && e.value == Find(blocks, base)
  }

  /** The entry may be taken for a new block. */
  predicate Spare(e: Entry)
    reads e
  {
    e.key == INVALID_BLOCK_BASE || e.value == None
  }

  /** Distinct new entries, none of them in use. */
  method MakeEntries(count: nat) returns (entries: array<Entry>)
    ensures fresh(entries) && entries.Length == count
    ensures forall i :: 0 <= i < count ==> fresh(entries[i]) && entries[i].key == INVALID_BLOCK_BASE
    ensures forall i, j :: 0 <= i < j < count ==> entries[i] != entries[j]
  {
    var first := new Entry();
    entries := new Entry[count](_ => first);
    var i := 0;
    while i < count
      invariant 0 <= i <= count
      invariant forall j :: 0 <= j < count ==> fresh(entries[j])
      invariant forall j :: 0 <= j < i ==> entries[j].key == INVALID_BLOCK_BASE
      invariant forall j, k :: 0 <= j < k < i ==> entries[j] != entries[k]
    {
      entries[i] := new Entry();
      i := i + 1;
    }
  }

  /** What slot `i` holds: the newest `depth` slots the consecutive bases down from
      `tailBase`, the others nothing that is still in use. */
  predicate SlotOk(e: Entry, age: nat, depth: nat, tailBase: int, blocks: map<int, Block>)
    reads e
  {
    if age < depth then Holds(e, tailBase - BLOCK_SIZE * age, blocks) else Spare(e)
  }

  lemma {:induction false} SlotAges(e: Entry, age: nat, depth: nat, capacity: nat, tailBase: int, blocks: map<int, Block>)
    requires SlotOk(e, age, depth, tailBase, blocks) && depth <= capacity && age + 1 < capacity
    ensures SlotOk(e, age + 1, if depth < capacity then depth + 1 else depth, tailBase + BLOCK_SIZE, blocks)
  {
    assert tailBase + BLOCK_SIZE - BLOCK_SIZE * (age + 1) == tailBase - BLOCK_SIZE * age;
  }

  /** Base `b` is one of the newest `depth` bases. */
  predicate InWindow(b: int, depth: nat, tailBase: int) {
    b % BLOCK_SIZE == 0 && tailBase - BLOCK_SIZE * depth < b <= tailBase
  }

  predicate Distinct(index: array<Entry>)
    reads index
  {
    forall i, j :: 0 <= i < j < index.Length ==> index[i] != index[j]
  }

  /** Where the entry at position `j` of a doubled ring stood before. */
  function OldPosition(tail: nat, capacity: nat, j: nat): (p: nat)
    requires tail < capacity && j < capacity
    ensures p < capacity && Age(tail, capacity, p) == capacity - 1 - j
  {
    if tail + 1 + j < capacity then tail + 1 + j else tail + 1 + j - capacity
  }

  /** The two loops of `new_block_index`: the old entries from the oldest to the newest,
      then as many new ones. */
  method Doubled(prev: array<Entry>, prevTail: nat) returns (wider: array<Entry>)
    requires IsPow2(prev.Length) && prevTail < prev.Length && Distinct(prev)
    ensures fresh(wider) && wider.Length == 2 * prev.Length && Distinct(wider)
    ensures forall j :: 0 <= j < prev.Length ==> wider[j] == prev[OldPosition(prevTail, prev.Length, j)]
    ensures forall j :: prev.Length <= j < wider.Length ==> fresh(wider[j]) && wider[j].key == INVALID_BLOCK_BASE
  {
    var prevCapacity := prev.Length;
    var entries := MakeEntries(prevCapacity);
    var filler := entries[0];
    wider := new Entry[2 * prevCapacity](_ => filler);
    var prevPos: nat, i: nat := prevTail, 0;
    while i == 0 || prevPos != prevTail
      modifies wider
      invariant 0 <= i <= prevCapacity && prevPos < prevCapacity
      invariant Age(prevTail, prevCapacity, prevPos) == if i == 0 then 0 else prevCapacity - i
      invariant forall j :: 0 <= j < i ==> wider[j] == prev[OldPosition(prevTail, prevCapacity, j)]
      decreases prevCapacity - i
    {
      MaskedSuccessor(prevPos, prevCapacity);
      prevPos := And(prevPos + 1, prevCapacity - 1);
      wider[i] := prev[prevPos];
      i := i + 1;
    }
    assert i == prevCapacity;
    i := 0;
    while i < prevCapacity
      modifies wider
      invariant 0 <= i <= prevCapacity
      invariant forall j :: 0 <= j < prevCapacity ==> wider[j] == prev[OldPosition(prevTail, prevCapacity, j)]
      invariant forall j :: prevCapacity <= j < prevCapacity + i ==> wider[j] == entries[j - prevCapacity]
    {
      wider[prevCapacity + i] := entries[i];
      i := i + 1;
    }
  }

  /** The entries of the ring, except for `e`. */
  ghost function Others(index: array<Entry>, e: Entry?): set<Entry>
    reads index
  {
    set i | 0 <= i < index.Length && index[i] != e :: index[i]
  }

  /** Every slot is as it should be, except for what entry `e` holds. */
  ghost predicate SlotsOk(index: array<Entry>, e: Entry?, tail: nat, depth: nat, tailBase: int, blocks: map<int, Block>)
    requires tail < index.Length
    reads index, Others(index, e)
  {
    forall i :: 0 <= i < index.Length && index[i] != e ==>
      SlotOk(index[i], Age(tail, index.Length, i), depth, tailBase, blocks)
  }

  class Index {
    var index: array<Entry>  // its length is the capacity
    var tail: nat
    var nextCapacity: nat

    /** The plain map the index stands for, the newest base that was inserted, and how
        many slots, counted back from the tail, hold consecutive bases. */
    ghost var blocks: map<int, Block>
    ghost var tailBase: int
    ghost var depth: nat

    ghost predicate Shape()
      reads this
    {
      && IsPow2(index.Length) && index.Length <= MAX_CAPACITY
      && nextCapacity == 2 * index.Length
      && tail < index.Length && depth <= index.Length
      && tailBase % BLOCK_SIZE == 0
    }

    ghost function Entries(): set<Entry>
      reads this, index
    {
      Others(index, null)
    }

    ghost predicate Valid()
      reads this, index, Entries()
    {
      ValidBut(null)
    }

    /** All of `Valid`, except for what entry `e` holds. */
    ghost predicate ValidBut(e: Entry?)
      reads this, index, Others(index, e)
    {
      && Shape() && Distinct(index) && SlotsOk(index, e, tail, depth, tailBase, blocks)
      && (forall b <- blocks :: InWindow(b, depth, tailBase))
    }

    /** The oldest base that would still fit beside a new one is not in use. */
    ghost predicate HasRoom()
      reads this, index
    {
      tailBase - BLOCK_SIZE * (index.Length - 1) !in blocks
    }

    constructor (initialCapacity: nat)
      requires IsPow2(initialCapacity) && initialCapacity <= MAX_CAPACITY
      ensures Valid() && fresh(index) && fresh(Entries())
      ensures blocks == map[] && tailBase == -BLOCK_SIZE
    {
      var entries := MakeEntries(initialCapacity);
      index := entries;
      tail := initialCapacity - 1;
      nextCapacity := 2 * initialCapacity;
      blocks := map[];
      tailBase := -BLOCK_SIZE;
      depth := 0;
    }

    /** `new_block_index`: a ring of twice the size, with the old entries in their order
        from the oldest to the newest and then new ones. `memory` is whether the
        allocation succeeds. */
    method NewBlockIndex(memory: bool) returns (ok: bool)
      requires Valid()
      requires memory ==> nextCapacity <= MAX_CAPACITY
      modifies this
      ensures Valid() && blocks == old(blocks) && tailBase == old(tailBase) && depth == old(depth)
      ensures ok == memory
      ensures !ok ==> index == old(index) && tail == old(tail)
      ensures ok ==> fresh(index) && index.Length == 2 * old(index.Length) && tail == old(index.Length) - 1
      ensures ok ==> index[tail + 1].key == INVALID_BLOCK_BASE
      ensures fresh(Entries() - old(Entries()))
    {
      if !memory {
        return false;
      }
      var prevCapacity := index.Length;
      var wider := Doubled(index, tail);
      TailOfOldHalf(prevCapacity);
      index, tail := wider, And(prevCapacity - 1, nextCapacity - 1);
      nextCapacity := 2 * nextCapacity;
      return true;
    }

    /** The slot after the tail. */
    function NextSlot(): (next: nat)
      requires tail < index.Length
      reads this
      ensures next < index.Length
    {
      if tail + 1 == index.Length then 0 else tail + 1
    }

    /** The slot before the tail. */
    function PrevSlot(): (prev: nat)
      requires tail < index.Length
      reads this
      ensures prev < index.Length
    {
      if tail == 0 then index.Length - 1 else tail - 1
    }

    /** The slot after the tail, as the mask computes it. */
    method MaskedNext() returns (next: nat)
      requires Shape()
      ensures next == NextSlot()
    {
      MaskedSuccessor(tail, index.Length);
      next := And(tail + 1, index.Length - 1);
    }

    /** The slot before the tail, as the mask computes it. */
    method MaskedPrev() returns (prev: nat)
      requires Shape()
      ensures prev == PrevSlot()
    {
      MaskedPredecessor(tail, index.Length);
      prev := And(Wrap(tail - 1), index.Length - 1);
    }

    /** Seen from the next slot, every other slot is one block older. */
    lemma {:induction false} AllAge()
      requires Valid()
      ensures SlotsOk(index, index[NextSlot()], NextSlot(), NextDepth(), tailBase + BLOCK_SIZE, blocks)
    {
      forall i | 0 <= i < index.Length && i != NextSlot()
        ensures SlotOk(index[i], Age(NextSlot(), index.Length, i), NextDepth(), tailBase + BLOCK_SIZE, blocks)
      {
        assert SlotOk(index[i], Age(tail, index.Length, i), depth, tailBase, blocks);
        assert Age(NextSlot(), index.Length, i) == Age(tail, index.Length, i) + 1;
        SlotAges(index[i], Age(tail, index.Length, i), depth, index.Length, tailBase, blocks);
      }
    }

    ghost function NextDepth(): nat
      reads this
    {
      if depth < index.Length then depth + 1 else depth
    }

    /** All is as it should be once the tail has moved to the next slot, except for what
        that slot holds. */
    ghost predicate NextIsOk()
      requires tail < index.Length
      reads this, index, Others(index, index[NextSlot()])
    {
      && SlotsOk(index, index[NextSlot()], NextSlot(), NextDepth(), tailBase + BLOCK_SIZE, blocks)
      && (forall b <- blocks :: InWindow(b, NextDepth(), tailBase + BLOCK_SIZE))
      && tailBase + BLOCK_SIZE !in blocks
    }

    /** The window of bases moves on without losing one that is in use. */
    lemma {:induction false} RoomForNext()
      requires Valid() && HasRoom()
      ensures NextIsOk()
    {
      hide Wrap;
      AllAge();
    }

    /** Stores the key of a new block in the slot after the tail and moves the tail there. */
    method Occupy(start: int) returns (entry: Entry)
      requires Shape() && Distinct(index) && NextIsOk() && start == tailBase + BLOCK_SIZE
      modifies this, Entries()
      ensures index == old(index) && blocks == old(blocks)
      ensures ValidBut(entry) && entry == index[tail] && entry.key == Wrap(start)
      ensures depth > 0 && tailBase == start && start !in blocks
    {
      hide Wrap;
      var newTail := MaskedNext();
      entry := index[newTail];
      entry.key := Wrap(start);
      tail, depth, tailBase := newTail, NextDepth(), start;
    }

    /** `insert_block_index_entry`: fails only when the ring is full of blocks in use and no
        larger one can be had. */
    method InsertEntry(start: int, canAlloc: bool, memory: bool) returns (entry: Entry?)
      requires Valid() && start == tailBase + BLOCK_SIZE
      requires memory ==> nextCapacity <= MAX_CAPACITY
      modifies this, Entries()
      ensures entry == null <==> !old(HasRoom()) && !(canAlloc && memory)
      ensures blocks == old(blocks)
      ensures entry == null ==> Valid() && tailBase == old(tailBase)
      ensures entry != null ==> entry in old(Entries()) || fresh(entry)
      ensures entry != null ==>
                && ValidBut(entry) && entry == index[tail] && entry.key == Wrap(start)
                && depth > 0 && tailBase == start && start !in blocks
    {
      var newTail := MaskedNext();
      RoomIsSpare();
      if index[newTail].key == INVALID_BLOCK_BASE || index[newTail].value == None {
        RoomForNext();
        entry := Occupy(start);
        return;
      }
      if !canAlloc {
        return null;
      }
      var ok := NewBlockIndex(memory);
      if !ok {
        return null;
      }
      RoomIsSpare();
      RoomForNext();
      entry := Occupy(start);
    }

    /** The slot after the tail may be taken exactly when the plain map has room. */
    lemma {:induction false} RoomIsSpare()
      requires Valid()
      ensures Spare(index[NextSlot()]) <==> HasRoom()
    {
      var age := index.Length - 1;
      assert Age(tail, index.Length, NextSlot()) == age;
      assert SlotOk(index[NextSlot()], age, depth, tailBase, blocks);
      if age < depth {
        KeyIsValid(tailBase - BLOCK_SIZE * age);
      }
    }

    /** Seen from the slot before, every slot but the tail is one block younger. */
    lemma {:induction false} AllRejuvenate()
      requires depth > 0 && tail < index.Length && ValidBut(index[tail])
      ensures SlotsOk(index, index[tail], PrevSlot(), depth - 1, tailBase - BLOCK_SIZE, blocks)
    {
      forall i | 0 <= i < index.Length && i != tail
        ensures SlotOk(index[i], Age(PrevSlot(), index.Length, i), depth - 1, tailBase - BLOCK_SIZE, blocks)
      {
        assert SlotOk(index[i], Age(tail, index.Length, i), depth, tailBase, blocks);
        assert Age(PrevSlot(), index.Length, i) == Age(tail, index.Length, i) - 1;
        assert tailBase - BLOCK_SIZE - BLOCK_SIZE * Age(PrevSlot(), index.Length, i)
            == tailBase - BLOCK_SIZE * Age(tail, index.Length, i);
      }
    }

    /** `rewind_block_index_tail`, while the newest entry has no block yet. */
    method RewindTail()
      requires depth > 0 && tail < index.Length && ValidBut(index[tail]) && tailBase !in blocks
      modifies this
      ensures index == old(index) && blocks == old(blocks) && tailBase == old(tailBase) - BLOCK_SIZE
      ensures ValidBut(old(index[tail]))
      ensures depth < index.Length && Age(tail, index.Length, old(tail)) >= depth
    {
      var prevTail := MaskedPrev();
      AllRejuvenate();
      tail, tailBase, depth := prevTail, tailBase - BLOCK_SIZE, depth - 1;
    }

    /** The other slots do not care which block the newest base gets. */
    lemma {:induction false} AllKept(block: Block)
      requires depth > 0 && tail < index.Length && ValidBut(index[tail])
      ensures SlotsOk(index, index[tail], tail, depth, tailBase, blocks[tailBase := block])
    {
      forall i | 0 <= i < index.Length && i != tail
        ensures SlotOk(index[i], Age(tail, index.Length, i), depth, tailBase, blocks[tailBase := block])
      {
        assert SlotOk(index[i], Age(tail, index.Length, i), depth, tailBase, blocks);
        assert Age(tail, index.Length, i) > 0;
      }
    }

    /** How `enqueue` starts a block: the index entry first, then the block itself
        (`requisitioned`, if there is one), then either both are kept or the entry is
        rewound. To the plain map this is one update, or none. */
    method StartBlock(start: int, requisitioned: Option<Block>, canAlloc: bool, memory: bool) returns (ok: bool)
      requires Valid() && start == tailBase + BLOCK_SIZE
      requires memory ==> nextCapacity <= MAX_CAPACITY
      modifies this, Entries()
      ensures Valid()
      ensures ok <==> requisitioned.Some? && (old(HasRoom()) || (canAlloc && memory))
      ensures if ok then blocks == old(blocks)[start := requisitioned.value] && tailBase == start
              else blocks == old(blocks) && tailBase == old(tailBase)
    {
      var entry := InsertEntry(start, canAlloc, memory);
      if entry == null {
        return false;
      }
      if requisitioned == None {
        ghost var slot := tail;
        RewindTail();
        entry.value := None;
        Completed(slot, entry);
        return false;
      }
      AllKept(requisitioned.value);
      entry.value := requisitioned;
      blocks := blocks[start := requisitioned.value];
      Completed(tail, entry);
      return true;
    }

    /** `get_block_index_entry_for_index`: the arithmetic finds the entry of the block that
        holds element `i`, for every block in use. `word` is the index as the queue has it. */
    method Lookup(word: nat, ghost i: int) returns (entry: Entry)
      requires Valid() && word == Wrap(i) && BaseOf(i) in blocks
      ensures entry == index[SlotOf(BaseOf(i))] && entry.key == Wrap(BaseOf(i))
      ensures entry.value == Some(blocks[BaseOf(i)])
    {
      ghost var s := SlotOf(BaseOf(i));
      assert SlotOk(index[s], Age(tail, index.Length, s), depth, tailBase, blocks);
      assert SlotOk(index[tail], 0, depth, tailBase, blocks);
      LookupFindsSlot(tail, index.Length, tailBase, i, s);
      var slot := LookupSlot(tail, index.Length, index[tail].key, word);
      entry := index[slot];
    }

    /** The slot of a base in use. */
    ghost function SlotOf(base: int): (s: nat)
      requires Shape() && InWindow(base, depth, tailBase)
      reads this
      ensures s < index.Length && Age(tail, index.Length, s) < depth
      ensures base == tailBase - BLOCK_SIZE * Age(tail, index.Length, s)
    {
      var age := (tailBase - base) / BLOCK_SIZE;
      if age <= tail then tail - age else tail - age + index.Length
    }

    /** Without one of the blocks, every other slot is as it should be. */
    lemma {:induction false} AllBut(base: int)
      requires Valid() && base in blocks
      ensures SlotsOk(index, index[SlotOf(base)], tail, depth, tailBase, blocks - {base})
      ensures index[SlotOf(base)].key == Wrap(base)
    {
      forall i | 0 <= i < index.Length && i != SlotOf(base)
        ensures SlotOk(index[i], Age(tail, index.Length, i), depth, tailBase, blocks - {base})
      {
        assert SlotOk(index[i], Age(tail, index.Length, i), depth, tailBase, blocks);
        assert Age(tail, index.Length, i) != Age(tail, index.Length, SlotOf(base));
      }
      assert SlotOk(index[SlotOf(base)], Age(tail, index.Length, SlotOf(base)), depth, tailBase, blocks);
    }

    /** An entry with the value the plain map has completes the ring. */
    lemma {:induction false} Completed(i: nat, e: Entry)
      requires i < index.Length && index[i] == e && ValidBut(e)
      requires SlotOk(e, Age(tail, index.Length, i), depth, tailBase, blocks)
      ensures Valid()
    {
    }

    /** What the consumer does that finds a block drained: it clears the entry. */
    method Release(word: nat, ghost i: int)
      requires Valid() && word == Wrap(i) && BaseOf(i) in blocks
      modifies this, Entries()
      ensures Valid() && index == old(index) && tailBase == old(tailBase)
      ensures blocks == old(blocks) - {BaseOf(i)}
    {
      AllBut(BaseOf(i));
      var entry := Lookup(word, i);
      entry.value := None;
      blocks := blocks - {BaseOf(i)};
      Completed(SlotOf(BaseOf(i)), entry);
    }
  }
}
