/** How a consumer finds a block, access by access: it loads the ring of the block index, the
    tail of that ring and the key at the tail, computes the slot from these, and loads the
    block in it, while the producer stores keys, moves the tail on and back, and replaces the
    ring by a larger one. Everything else is as in `MultiQueue`, where a lookup is one step. */
module RingQueue {
  import B = BlockIndex
  import Drain = BlockDrain
  import Free = FreeList
  import M = MultiQueue
  import Tickets = TicketDequeue
  import opened Bits
  import opened Options
  import opened Words

  const BLOCK_SIZE := M.BLOCK_SIZE

  type Tid = M.Tid
  type Id = nat

  /** A `BlockIndexEntry`: the number of a block, which the code holds as the wrapped word of
      the block's first index, and the block. */
  datatype Cell = Cell(key: Option<nat>, value: Option<M.Block>)

  /** A `BlockIndexHeader`: the cells it refers to and the slot of the newest. Two histories:
      the number of the newest block, and by how much slots and numbers differ. */
  datatype Ring = Ring(cells: seq<Id>, tail: nat, top: int, shift: int)

  /** Where the producer is: between its insertions, or it has stored the key of a block, or
      also moved the tail to it, or taken the tail back for want of a block, or it has taken
      the newest block out and is about to take the tail back. */
  datatype Producer = Resting | Keyed | Inserted | Rewound | Unwinding

  /** What a consumer has loaded: nothing, a ring, its tail (and as a history the number of
      the block there), or it has computed a slot. */
  datatype Look =
    | Unlooked
    | SawRing(ring: nat)
    | SawTail(ring: nat, tail: nat, top: int)
    | AtSlot(ring: nat, slot: nat)

  /** The queue, the cells, all rings so far, of which the last is current, and the threads.
      A history: the greatest number a key was ever stored for. */
  datatype State = State(queue: M.State, cells: seq<Cell>, rings: seq<Ring>, producer: Producer,
                         look: map<Tid, Look>, high: int)

  /** The slot of block number `n`. */
  function SlotOf(r: Ring, n: int): (slot: nat)
    requires r.cells != []
    ensures slot < |r.cells|
  {
    (n + r.shift) % |r.cells|
  }

  /** The cell of block number `n`. */
  function At(r: Ring, n: int): Id
    requires r.cells != []
  {
    r.cells[SlotOf(r, n)]
  }

  function Current(s: State): Ring
    requires s.rings != []
  {
    s.rings[|s.rings| - 1]
  }

  ghost predicate Init(s: State) {
    && M.Init(s.queue)
    && IsPow2(|s.cells|) && |s.cells| <= B.MAX_CAPACITY && (forall i :: 0 <= i < |s.cells| ==> s.cells[i].key == None)
    && s.rings == [Ring(seq(|s.cells|, i => i), |s.cells| - 1, -1, 0)]
    && s.producer == Resting && s.high == -1
    && s.look.Keys == s.queue.work.Keys && (forall t <- s.look :: s.look[t] == Unlooked)
  }

  // ----- Steps -------------------------------------------------------------------

  datatype Action =
    | StoreKey                            // the key of a new block is stored in a free cell
    | Widen(garbage: seq<Option<M.Block>>)  // a larger ring is published
    | StoreTail                           // the tail moves on to the new block's cell
    | StoreBlock(a: Free.Action, block: M.Block, junk: seq<M.Element>)  // which gets its block
    | Rewind                              // or there is none, and the tail moves back
    | StoreNull                           // and the cell is marked free
    | Cancel(f: Tid)                      // the newest block, unused, is taken out
    | Unwind                              // and the tail moves back
    | LoadRing(t: Tid)
    | LoadTail(t: Tid)
    | LoadKey(t: Tid)
    | LoadBlock(t: Tid)
    | Consume(t: Tid)                     // another step of a consumer's loop
    | Other(q: M.Action)                  // a step that has to do with no block

  /** All rings have slots, and all slots have cells. */
  predicate Shaped(s: State) {
    s.rings != [] && forall h :: 0 <= h < |s.rings| ==> RingShaped(s.rings[h], |s.cells|)
  }

  predicate RingShaped(r: Ring, n: nat) {
    r.tail < |r.cells| && forall i :: 0 <= i < |r.cells| ==> r.cells[i] < n
  }

  predicate Next(s: State, a: Action, s': State) {
    Shaped(s) &&
    match a
    case StoreKey => StoreKeyStep(s, s')
    case Widen(garbage) => WidenStep(s, garbage, s')
    case StoreTail => s.producer == Keyed && s' == WithTail(s, TailAfter(Current(s)), 1, Inserted)
    case StoreBlock(fa, block, junk) => StoreBlockStep(s, fa, block, junk, s')
    case Rewind => s.producer == Inserted && s' == WithTail(s, TailBefore(Current(s)), -1, Rewound)
    case StoreNull => StoreNullStep(s, s')
    case Cancel(f) => CancelStep(s, f, s')
    case Unwind => s.producer == Unwinding && s' == WithTail(s, TailBefore(Current(s)), -1, Resting)
    case LoadRing(t) =>
      t in s.look && AtBlock(s, t) && s.look[t] == Unlooked && s' == WithLook(s, t, SawRing(|s.rings| - 1))
    case LoadTail(t) => t in s.look && AtBlock(s, t) && LoadTailStep(s, t, s')
    case LoadKey(t) => t in s.look && AtBlock(s, t) && LoadKeyStep(s, t, s')
    case LoadBlock(t) => t in s.look && AtBlock(s, t) && LoadBlockStep(s, t, s')
    case Consume(t) => t in s.look && t in s.queue.work && ConsumeStep(s, t, s')
    case Other(q) => (q.Write? || q.Publish? || q.Ticket? || q.Elsewhere?) && M.Next(s.queue, q, s'.queue) && s' == s.(queue := s'.queue)
  }

  /** The slots after and before the tail, as the mask computes them. */
  function TailAfter(r: Ring): (slot: nat)
    requires r.cells != []
  {
    And(r.tail + 1, |r.cells| - 1)
  }

  function TailBefore(r: Ring): nat
    requires r.cells != []
  {
    And(Wrap(r.tail - 1), |r.cells| - 1)
  }

  function WithTail(s: State, tail: nat, step: int, producer: Producer): State
    requires s.rings != []
  {
    var r := Current(s);
    s.(rings := s.rings[|s.rings| - 1 := r.(tail := tail, top := r.top + step)], producer := producer)
  }

  function WithValue(s: State, id: Id, value: Option<M.Block>): State
    requires id < |s.cells|
  {
    s.(cells := s.cells[id := s.cells[id].(value := value)])
  }

  function WithLook(s: State, t: Tid, l: Look): State {
    s.(look := s.look[t := l])
  }

  predicate Spare(c: Cell) {
    c.key == None || c.value == None
  }

  /** `insert_block_index_entry`: the cell after the tail is free. */
  predicate StoreKeyStep(s: State, s': State)
    requires Shaped(s)
  {
    var n := |s.queue.blocks|;
    && s.producer == Resting && TailAfter(Current(s)) < |Current(s).cells|
    && var id := Current(s).cells[TailAfter(Current(s))];
       && Spare(s.cells[id])
       && s' == s.(cells := s.cells[id := s.cells[id].(key := Some(n))], producer := Keyed,
                   high := if n > s.high then n else s.high)
  }

  /** The new ring: the old cells from the oldest on, and as many new ones. */
  function Wider(r: Ring, n: nat): Ring
    requires r.tail < |r.cells|
  {
    var size := |r.cells|;
    Ring(seq(2 * size, j requires 0 <= j < 2 * size =>
               if j < size then r.cells[B.OldPosition(r.tail, size, j)] else n + (j - size)),
         And(size - 1, 2 * size - 1), r.top, size - 1 - r.top)
  }

  /** `new_block_index`: the cell after the tail is not free. */
  predicate WidenStep(s: State, garbage: seq<Option<M.Block>>, s': State)
    requires Shaped(s)
  {
    var r := Current(s);
    && s.producer == Resting && TailAfter(r) < |r.cells| && !Spare(s.cells[r.cells[TailAfter(r)]])
    && |garbage| == |r.cells| && 2 * |r.cells| <= B.MAX_CAPACITY
    && s' == s.(cells := s.cells + seq(|garbage|, i requires 0 <= i < |garbage| => Cell(None, garbage[i])),
                rings := s.rings + [Wider(r, |s.cells|)])
  }

  predicate StoreBlockStep(s: State, a: Free.Action, block: M.Block, junk: seq<M.Element>, s': State)
    requires Shaped(s)
  {
    && s.producer == Inserted && M.StartStep(s.queue, a, block, junk, s'.queue)
    && s' == WithValue(s, Current(s).cells[Current(s).tail], Some(block)).(queue := s'.queue, producer := Resting)
  }

  predicate StoreNullStep(s: State, s': State)
    requires Shaped(s)
  {
    var slot := TailAfter(Current(s));
    && s.producer == Rewound && slot < |Current(s).cells|
    && s' == WithValue(s, Current(s).cells[slot], None).(producer := Resting)
  }

  predicate CancelStep(s: State, f: Tid, s': State)
    requires Shaped(s)
  {
    && s.producer == Resting && M.CancelStep(s.queue, f, s'.queue)
    && s' == WithValue(s, Current(s).cells[Current(s).tail], None).(queue := s'.queue, producer := Unwinding)
  }

  predicate AtBlock(s: State, t: Tid) {
    t in s.queue.work && s.queue.work[t].AtBlock?
  }

  predicate LoadTailStep(s: State, t: Tid, s': State)
    requires t in s.look
  {
    && s.look[t].SawRing? && s.look[t].ring < |s.rings|
    && var r := s.rings[s.look[t].ring]; s' == WithLook(s, t, SawTail(s.look[t].ring, r.tail, r.top))
  }

  /** The load of the key at the tail, and the arithmetic of `get_block_index_index_for_index`. */
  predicate LoadKeyStep(s: State, t: Tid, s': State)
    requires Shaped(s) && t in s.look && AtBlock(s, t)
  {
    && s.look[t].SawTail? && s.look[t].ring < |s.rings|
    && var r := s.rings[s.look[t].ring];
       && s.look[t].tail < |r.cells|
       && var key := s.cells[r.cells[s.look[t].tail]].key;
          && key.Some?
          && var slot := B.LookupSlot(s.look[t].tail, |r.cells|, Wrap(BLOCK_SIZE * key.value), Wrap(s.queue.work[t].from));
             s' == WithLook(s, t, AtSlot(s.look[t].ring, slot))
  }

  /** The cell a consumer has got to. */
  predicate HasCell(s: State, t: Tid)
    requires Shaped(s) && t in s.look
  {
    s.look[t].AtSlot? && s.look[t].ring < |s.rings| && s.look[t].slot < |s.rings[s.look[t].ring].cells|
  }

  function CellOf(s: State, t: Tid): (id: Id)
    requires Shaped(s) && t in s.look && HasCell(s, t)
    ensures id < |s.cells|
  {
    s.rings[s.look[t].ring].cells[s.look[t].slot]
  }

  /** The block in the cell, whatever it is, is the one the consumer reads from. */
  predicate LoadBlockStep(s: State, t: Tid, s': State)
    requires Shaped(s) && t in s.look && AtBlock(s, t)
  {
    && HasCell(s, t) && s.cells[CellOf(s, t)].value.Some?
    && var w, block := s.queue.work[t], s.cells[CellOf(s, t)].value.value;
       s' == s.(queue := M.WithWork(s.queue, t, M.Reading(block, w.from, w.from, M.StopOf(w.from, w.end), w.end)))
  }

  /** From one block of a claim the consumer goes on to the next slot of the same ring. */
  function LookAfter(s: State, t: Tid, w: M.Work): Look
    requires Shaped(s) && t in s.look && HasCell(s, t)
  {
    var l := s.look[t];
    if w.Nothing? then Unlooked
    else if w.AtBlock? then AtSlot(l.ring, And(l.slot + 1, |s.rings[l.ring].cells| - 1))
    else l
  }

  /** Reading, reporting, and giving back a block; a drained block is taken out of its cell. */
  predicate ConsumeStep(s: State, t: Tid, s': State)
    requires Shaped(s) && t in s.look && t in s.queue.work
  {
    var w := s.queue.work[t];
    && (w.Reading? || w.Clearing? || w.Freeing?) && HasCell(s, t)
    && M.ConsumeStep(s.queue, t, s'.queue) && t in s'.queue.work
    && var after := if w.Clearing? then WithValue(s, CellOf(s, t), None) else s;
       s' == WithLook(after, t, LookAfter(s, t, s'.queue.work[t])).(queue := s'.queue)
  }

  // ----- The invariant -----------------------------------------------------------

  ghost predicate RingOk(r: Ring, n: nat) {
    && IsPow2(|r.cells|) && |r.cells| <= B.MAX_CAPACITY && RingShaped(r, n)
    && r.tail == SlotOf(r, r.top)
    && (forall i, j :: 0 <= i < j < |r.cells| ==> r.cells[i] != r.cells[j])
  }

  /** The producer has moved the tail to a block that is not in the queue yet, or no more. */
  function Ahead(producer: Producer): nat {
    if producer == Inserted || producer == Unwinding then 1 else 0
  }

  /** The producer has stored a key for a block that has yet to come. */
  predicate Started(producer: Producer) {
    producer == Keyed || producer == Inserted || producer == Rewound
  }

  /** A block in the index is in its cell of the current ring, and the cells from it to the
      greatest number so far have their numbers. */
  ghost predicate UseOk(r: Ring, cells: seq<Cell>, index: map<nat, M.Block>, high: int, n: nat)
    requires RingShaped(r, |cells|) && n in index
  {
    && high - n < |r.cells| && cells[At(r, n)].value == Some(index[n])
    && forall k: nat {:trigger At(r, k)} :: n <= k <= high ==> cells[At(r, k)].key == Some(k)
  }

  /** The cells of numbers beyond the blocks of the queue have their numbers and are free. */
  ghost predicate SpareOk(r: Ring, cells: seq<Cell>, count: nat, producer: Producer, k: nat)
    requires RingShaped(r, |cells|)
  {
    cells[At(r, k)].key == Some(k) && (cells[At(r, k)].value == None || (k == count && Started(producer)))
  }

  ghost predicate CellsOk(r: Ring, cells: seq<Cell>, index: map<nat, M.Block>, high: int, count: nat, producer: Producer) {
    && RingOk(r, |cells|)
    && r.top == count - 1 + Ahead(producer) && r.top <= high < count + |r.cells|
    && (Started(producer) ==> high >= count)
    && (forall n {:trigger n in index} :: n in index ==> n < count && UseOk(r, cells, index, high, n))
    && (forall k: nat {:trigger SpareOk(r, cells, count, producer, k)} :: count <= k <= high ==> SpareOk(r, cells, count, producer, k))
  }

  /** The two rings have the same cell for the block. */
  predicate Agree(r: Ring, cur: Ring, n: int) {
    r.cells != [] && cur.cells != [] && At(r, n) == At(cur, n)
  }

  /** From the block `top` of the ring, every block from that of index `from` to that before
      index `end` can be reached: they are as near as the slots allow, and in the same cells
      as in the current ring. */
  ghost predicate Reach(r: Ring, cur: Ring, high: int, top: int, from: nat, end: nat) {
    var first := Drain.BlockOf(from);
    && (forall n: nat {:trigger Agree(r, cur, n)} :: first <= n && n * BLOCK_SIZE < end ==> Agree(r, cur, n) && n <= top)
    && Agree(r, cur, top) && first <= top <= high && top - first < |r.cells|
  }

  /** The number of the block a consumer is at. */
  function NumberOf(w: M.Work): nat
    requires !w.Nothing?
  {
    if w.Clearing? || w.Freeing? then w.number else Drain.BlockOf(w.from)
  }

  /** A stretch ends with its block or with the claim. */
  predicate StopsOk(w: M.Work) {
    match w
    case Reading(_, from, _, stop, end) => stop < end ==> stop == (Drain.BlockOf(from) + 1) * BLOCK_SIZE
    case Clearing(_, number, from, end) => number * BLOCK_SIZE < end && (from < end ==> from == (number + 1) * BLOCK_SIZE)
    case Freeing(_, number, from, end) => number * BLOCK_SIZE < end && (from < end ==> from == (number + 1) * BLOCK_SIZE)
    case _ => true
  }

  ghost predicate LookOk(l: Look, w: M.Work, rings: seq<Ring>, high: int, index: map<nat, M.Block>)
    requires rings != []
  {
    var cur := rings[|rings| - 1];
    match l
    case Unlooked => w.Nothing? || w.AtBlock?
    case SawRing(h) => w.AtBlock? && h < |rings| && Reach(rings[h], cur, high, rings[h].top, w.from, w.end)
    case SawTail(h, tail, top) =>
      && w.AtBlock? && h < |rings| && Reach(rings[h], cur, high, top, w.from, w.end)
      && tail == SlotOf(rings[h], top)
    case AtSlot(h, slot) =>
      && !w.Nothing? && h < |rings| && rings[h].cells != [] && slot == SlotOf(rings[h], NumberOf(w)) && StopsOk(w)
      && forall n {:trigger n in index} :: n in index && NumberOf(w) <= n && n * BLOCK_SIZE < w.end ==> Agree(rings[h], cur, n)
  }

  ghost predicate ConsumerOk(s: State, t: Tid)
    requires s.rings != [] && t in s.look && t in s.queue.work
  {
    && LookOk(s.look[t], s.queue.work[t], s.rings, s.high, s.queue.index)
    && (!s.queue.work[t].Nothing? ==> s.queue.work[t].end <= |s.queue.elements|)
  }

  ghost predicate LooksOk(s: State)
    requires s.rings != []
  {
    s.look.Keys == s.queue.work.Keys && forall t {:trigger ConsumerOk(s, t)} :: t in s.look ==> ConsumerOk(s, t)
  }

  ghost predicate RingsOk(s: State) {
    && s.rings != [] && (forall h {:trigger s.rings[h]} :: 0 <= h < |s.rings| ==> RingOk(s.rings[h], |s.cells|))
    && CellsOk(Current(s), s.cells, s.queue.index, s.high, |s.queue.blocks|, s.producer)
  }

  ghost predicate Inv(s: State) {
    M.Inv(s.queue) && RingsOk(s) && LooksOk(s)
  }

  // ----- Slots -------------------------------------------------------------------

  lemma {:induction false} ModUnique(x: int, c: nat, q: int, r: nat)
    requires c > 0 && x == c * q + r && r < c
    ensures x % c == r
  {
    var q', r' := x / c, x % c;
    assert x == c * q' + r';
    Multiples(c, q, q');
    Multiples(c, q', q);
  }

  lemma {:induction false} Multiples(c: nat, a: int, b: int)
    ensures a < b ==> c * a + c <= c * b
  {
    if a < b {
      MulAtLeast(c, b - a);
      assert c * (b - a) == c * b - c * a;
    }
  }

  lemma {:induction false} ModAdd(x: int, d: nat, c: nat)
    requires d < c
    ensures (x + d) % c == if x % c + d < c then x % c + d else x % c + d - c
  {
    var q, r := x / c, x % c;
    assert x == c * q + r;
    if r + d < c {
      ModUnique(x + d, c, q, r + d);
    } else {
      assert c * (q + 1) == c * q + c;
      ModUnique(x + d, c, q + 1, r + d - c);
    }
  }

  /** A block is as many slots behind a newer one as the numbers say. */
  lemma {:induction false} SlotAge(r: Ring, top: int, n: int)
    requires 0 <= top - n < |r.cells|
    ensures B.Age(SlotOf(r, top), |r.cells|, SlotOf(r, n)) == top - n
  {
    ModAdd(n + r.shift, top - n, |r.cells|);
  }

  /** Blocks nearer than the ring is large have different slots. */
  lemma {:induction false} SlotsDiffer(r: Ring, m: int, n: int)
    requires m < n < m + |r.cells|
    ensures SlotOf(r, m) != SlotOf(r, n)
  {
    SlotAge(r, n, m);
  }

  lemma {:induction false} CellsDiffer(r: Ring, n: nat, a: int, b: int)
    requires RingOk(r, n) && a != b && a < b + |r.cells| && b < a + |r.cells|
    ensures At(r, a) != At(r, b)
  {
    if a < b {
      SlotsDiffer(r, a, b);
    } else {
      SlotsDiffer(r, b, a);
    }
  }

  lemma {:induction false} SlotRoundTheRing(r: Ring, n: int)
    requires r.cells != []
    ensures SlotOf(r, n + |r.cells|) == SlotOf(r, n)
  {
    var x, c := n + r.shift, |r.cells|;
    assert x == c * (x / c) + x % c;
    assert c * (x / c + 1) == c * (x / c) + c;
    ModUnique(x + c, c, x / c + 1, x % c);
  }

  /** The mask steps to the slot of the next block. */
  lemma {:induction false} NextSlot(r: Ring, n: int)
    requires IsPow2(|r.cells|)
    ensures And(SlotOf(r, n) + 1, |r.cells| - 1) == SlotOf(r, n + 1)
  {
    MaskedSuccessor(SlotOf(r, n), |r.cells|);
    if |r.cells| == 1 {
      assert SlotOf(r, n) == 0 == SlotOf(r, n + 1);
    } else {
      ModAdd(n + r.shift, 1, |r.cells|);
    }
  }

  lemma {:induction false} PreviousSlot(r: Ring, n: int)
    requires IsPow2(|r.cells|) && |r.cells| <= B.MAX_CAPACITY
    ensures And(Wrap(SlotOf(r, n) - 1), |r.cells| - 1) == SlotOf(r, n - 1)
  {
    B.MaskedPredecessor(SlotOf(r, n), |r.cells|);
    if |r.cells| == 1 {
      assert SlotOf(r, n) == 0 == SlotOf(r, n - 1);
    } else {
      ModAdd(n - 1 + r.shift, 1, |r.cells|);
    }
  }

  /** The arithmetic of the lookup finds the slot, from the tail it is given and the key there. */
  lemma {:induction false} SlotFound(r: Ring, top: nat, from: nat)
    requires IsPow2(|r.cells|) && |r.cells| <= B.MAX_CAPACITY && 0 <= top - Drain.BlockOf(from) < |r.cells|
    ensures B.LookupSlot(SlotOf(r, top), |r.cells|, Wrap(BLOCK_SIZE * top), Wrap(from)) == SlotOf(r, Drain.BlockOf(from))
  {
    var n := Drain.BlockOf(from);
    SlotAge(r, top, n);
    assert B.BaseOf(from) == BLOCK_SIZE * n;
    B.LookupFindsSlot(SlotOf(r, top), |r.cells|, BLOCK_SIZE * top, from, SlotOf(r, n));
  }

  /** In the wider ring the newest blocks have their old cells. */
  lemma {:induction false} WiderAgrees(r: Ring, n: nat, k: int)
    requires RingOk(r, n) && r.top - |r.cells| < k <= r.top
    ensures Wider(r, n).cells != [] && At(Wider(r, n), k) == At(r, k)
  {
    var size, w := |r.cells|, Wider(r, n);
    var j := size - 1 - (r.top - k);
    ModUnique(k + w.shift, 2 * size, 0, j);
    assert SlotOf(w, k) == j;
    SlotAge(r, r.top, k);
    SameAge(r.tail, size, B.OldPosition(r.tail, size, j), SlotOf(r, k));
  }

  lemma {:induction false} SameAge(tail: nat, size: nat, i: nat, j: nat)
    requires tail < size && i < size && j < size && B.Age(tail, size, i) == B.Age(tail, size, j)
    ensures i == j
  {
  }

  lemma {:induction false} WiderIsOk(r: Ring, n: nat)
    requires RingOk(r, n) && 2 * |r.cells| <= B.MAX_CAPACITY
    ensures RingOk(Wider(r, n), n + |r.cells|)
  {
    var size, w := |r.cells|, Wider(r, n);
    B.TailOfOldHalf(size);
    ModUnique(r.top + w.shift, 2 * size, 0, size - 1);
    forall i, j | 0 <= i < j < 2 * size ensures w.cells[i] != w.cells[j] {
      if j < size {
        assert B.Age(r.tail, size, B.OldPosition(r.tail, size, i)) != B.Age(r.tail, size, B.OldPosition(r.tail, size, j));
      }
    }
  }

  // ----- What the parts say ------------------------------------------------------

  /** The blocks a consumer has yet to read from are in the index. */
  lemma {:induction false} ClaimedInIndex(q: M.State, t: Tid, n: nat)
    requires M.Inv(q) && t in q.work && q.work[t].AtBlock?
    requires Drain.BlockOf(q.work[t].from) <= n && n * BLOCK_SIZE < q.work[t].end
    ensures n in q.index && n < |q.blocks|
  {
    hide M.WorkersOk, M.ContentsOk, M.DeliveriesOk;
    var w := q.work[t];
    var i := if n * BLOCK_SIZE < w.from then w.from else n * BLOCK_SIZE;
    assert Drain.BlockOf(i) == n;
    ClaimIsNotEmpty(q, t);
    assert M.Pending(w, i);
    M.PendingBelow(q, t, i);
    M.UnreadBlock(q, i);
  }

  lemma {:induction false} ClaimIsNotEmpty(q: M.State, t: Tid)
    requires M.Inv(q) && t in q.work && q.work[t].AtBlock?
    ensures q.work[t].from < q.work[t].end
  {
    assert M.WorkOk(q.work[t], q.blocks, q.given, q.index, q.drain.read);
  }

  /** A consumer that has just loaded the current ring reaches all its blocks from the tail. */
  lemma {:induction false} CurrentReaches(s: State, t: Tid)
    requires M.Inv(s.queue) && RingsOk(s) && AtBlock(s, t)
    ensures Reach(Current(s), Current(s), s.high, Current(s).top, s.queue.work[t].from, s.queue.work[t].end)
  {
    hide M.Inv;
    var w := s.queue.work[t];
    var first := Drain.BlockOf(w.from);
    ClaimIsNotEmpty(s.queue, t);
    ClaimedInIndex(s.queue, t, first);
    forall n: nat | first <= n && n * BLOCK_SIZE < w.end ensures Agree(Current(s), Current(s), n) && n <= Current(s).top {
      ClaimedInIndex(s.queue, t, n);
    }
  }

  lemma {:induction false} InitInv(s: State)
    requires Init(s)
    ensures Inv(s)
  {
    M.InitInv(s.queue);
    hide M.Inv;
    var size := |s.cells|;
    assert -1 == size * -1 + (size - 1);
    ModUnique(-1, size, -1, size - 1);
  }

  // ----- Steps that leave the queue alone ----------------------------------------

  /** The same rings, but for the tail of the current one. */
  predicate SameRings(rings: seq<Ring>, rings': seq<Ring>) {
    && |rings'| == |rings| > 0
    && (forall h {:trigger rings[h]} :: 0 <= h < |rings| - 1 ==> rings'[h] == rings[h])
    && rings'[|rings| - 1].cells == rings[|rings| - 1].cells && rings'[|rings| - 1].shift == rings[|rings| - 1].shift
  }

  lemma {:induction false} LookKept(l: Look, w: M.Work, rings: seq<Ring>, rings': seq<Ring>, high: int, high': int,
                                    index: map<nat, M.Block>, index': map<nat, M.Block>)
    requires SameRings(rings, rings') && LookOk(l, w, rings, high, index) && high <= high'
    requires forall n :: n in index' && !w.Nothing? && n * BLOCK_SIZE < w.end ==> n in index
    requires var cur := rings'[|rings| - 1];
             l == SawRing(|rings| - 1) && w.AtBlock? ==> Reach(cur, cur, high', cur.top, w.from, w.end)
    ensures LookOk(l, w, rings', high', index')
  {
    hide Reach, Agree;
    var cur, cur' := rings[|rings| - 1], rings'[|rings| - 1];
    if !l.Unlooked? {
      assert rings'[l.ring].cells == rings[l.ring].cells && rings'[l.ring].shift == rings[l.ring].shift;
      forall n: int ensures Agree(rings[l.ring], cur, n) == Agree(rings'[l.ring], cur', n) {
        SameAgreement(rings[l.ring], cur, rings'[l.ring], cur', n);
      }
      match l
      case SawRing(h) =>
        if h < |rings| - 1 {
          ReachKept(rings[h], cur, rings'[h], cur', high, high', rings[h].top, w.from, w.end);
        }
      case SawTail(h, tail, top) => ReachKept(rings[h], cur, rings'[h], cur', high, high', top, w.from, w.end);
      case AtSlot(h, slot) =>
    }
  }

  predicate SameSlots(r: Ring, r': Ring) {
    r'.cells == r.cells && r'.shift == r.shift
  }

  lemma {:induction false} SameAgreement(r: Ring, cur: Ring, r': Ring, cur': Ring, n: int)
    requires SameSlots(r, r') && SameSlots(cur, cur')
    ensures Agree(r, cur, n) == Agree(r', cur', n)
  {
  }

  lemma {:induction false} ReachKept(r: Ring, cur: Ring, r': Ring, cur': Ring, high: int, high': int, top: int, from: nat, end: nat)
    requires Reach(r, cur, high, top, from, end) && SameSlots(r, r') && SameSlots(cur, cur') && high <= high'
    ensures Reach(r', cur', high', top, from, end)
  {
    hide Agree;
    forall n: nat | Drain.BlockOf(from) <= n && n * BLOCK_SIZE < end ensures Agree(r', cur', n) && n <= top {
      SameAgreement(r, cur, r', cur', n);
      assert Agree(r, cur, n);
    }
    SameAgreement(r, cur, r', cur', top);
  }

  /** The looks are kept when the queue's work and the rings stay, but for the tail. */
  lemma {:induction false} LooksKept(s: State, s': State)
    requires M.Inv(s.queue) && s.rings != [] && LooksOk(s) && M.Inv(s'.queue) && RingsOk(s')
    requires SameRings(s.rings, s'.rings) && s.high <= s'.high && s'.look == s.look
    requires s'.queue.work == s.queue.work && |s.queue.elements| <= |s'.queue.elements|
    requires forall n :: n in s'.queue.index ==> n in s.queue.index || n * BLOCK_SIZE >= |s.queue.elements|
    ensures LooksOk(s')
  {
    hide M.Inv, RingsOk, LookOk, Reach;
    forall t | t in s'.look ensures ConsumerOk(s', t) {
      assert ConsumerOk(s, t);
      if s.queue.work[t].AtBlock? {
        CurrentReaches(s', t);
      }
      LookKept(s.look[t], s.queue.work[t], s.rings, s'.rings, s.high, s'.high, s.queue.index, s'.queue.index);
    }
  }

  /** Storing the next key: no block in the index is so old that its cell is taken. */
  lemma {:induction false} KeyKeepsUse(r: Ring, cells: seq<Cell>, index: map<nat, M.Block>, high: int, n: nat, m: nat)
    requires RingOk(r, |cells|) && m in index && m < n && UseOk(r, cells, index, high, m)
    requires n - 1 <= high && Spare(cells[At(r, n)])
    ensures var high' := if n > high then n else high;
            UseOk(r, cells[At(r, n) := cells[At(r, n)].(key := Some(n))], index, high', m)
  {
    var high' := if n > high then n else high;
    assert cells[At(r, m)].key == Some(m);
    if high' - m == |r.cells| {
      SlotRoundTheRing(r, m);
    }
    forall k: nat | m <= k <= high' && k != n ensures At(r, k) != At(r, n) {
      CellsDiffer(r, |cells|, k, n);
    }
  }

  lemma {:induction false} StoreKeyKeepsInv(s: State, s': State)
    requires Inv(s) && Shaped(s) && StoreKeyStep(s, s')
    ensures Inv(s')
  {
    hide M.Inv, UseOk, LookOk, Reach, Spare;
    var r, n := Current(s), |s.queue.blocks|;
    NextSlot(r, r.top);
    forall m {:trigger m in s.queue.index} | m in s.queue.index
      ensures m < n && UseOk(r, s'.cells, s.queue.index, s'.high, m)
    {
      KeyKeepsUse(r, s.cells, s.queue.index, s.high, n, m);
    }
    forall k: nat | n <= k <= s'.high ensures SpareOk(r, s'.cells, n, Keyed, k) {
      if k != n {
        assert SpareOk(r, s.cells, n, Resting, k);
        CellsDiffer(r, |s.cells|, k, n);
      }
    }
    LooksKept(s, s');
  }

  /** A value stored in the cell of a number beyond those in the index. */
  lemma {:induction false} ValueKeepsUse(r: Ring, cells: seq<Cell>, index: map<nat, M.Block>, high: int, n: nat, m: nat, value: Option<M.Block>)
    requires RingOk(r, |cells|) && m in index && m != n && UseOk(r, cells, index, high, m)
    requires n <= high && m < n + |r.cells|
    ensures UseOk(r, cells[At(r, n) := cells[At(r, n)].(value := value)], index, high, m)
  {
    CellsDiffer(r, |cells|, m, n);
  }

  lemma {:induction false} StoreNullKeepsInv(s: State, s': State)
    requires Inv(s) && Shaped(s) && StoreNullStep(s, s')
    ensures Inv(s')
  {
    hide M.Inv, LookOk, Reach;
    var r, n := Current(s), |s.queue.blocks|;
    NextSlot(r, r.top);
    forall m {:trigger m in s.queue.index} | m in s.queue.index
      ensures m < n && UseOk(r, s'.cells, s.queue.index, s.high, m)
    {
      ValueKeepsUse(r, s.cells, s.queue.index, s.high, n, m, None);
    }
    forall k: nat | n <= k <= s.high ensures SpareOk(r, s'.cells, n, Resting, k) {
      assert SpareOk(r, s.cells, n, Rewound, k);
    }
    LooksKept(s, s');
  }

  lemma {:induction false} SameUse(r: Ring, r': Ring, cells: seq<Cell>, index: map<nat, M.Block>, high: int, m: nat)
    requires RingShaped(r, |cells|) && RingShaped(r', |cells|) && SameSlots(r, r') && m in index && UseOk(r, cells, index, high, m)
    ensures UseOk(r', cells, index, high, m)
  {
    assert forall k: int :: At(r', k) == At(r, k);
  }

  lemma {:induction false} SameSpare(r: Ring, r': Ring, cells: seq<Cell>, n: nat, producer: Producer, producer': Producer, k: nat)
    requires RingShaped(r, |cells|) && RingShaped(r', |cells|) && SameSlots(r, r') && SpareOk(r, cells, n, producer, k)
    requires Started(producer) ==> Started(producer')
    ensures SpareOk(r', cells, n, producer', k)
  {
    assert At(r', k) == At(r, k);
  }

  /** The tail moves one slot on or back. */
  lemma {:induction false} TailKeepsInv(s: State, tail: nat, step: int, producer: Producer, s': State)
    requires Inv(s) && s' == WithTail(s, tail, step, producer)
    requires tail < |Current(s).cells| && tail == SlotOf(Current(s), Current(s).top + step)
    requires Ahead(producer) == Ahead(s.producer) + step && Current(s).top + step <= s.high
    requires Started(s.producer) <==> Started(producer)
    ensures Inv(s')
  {
    hide M.Inv, LookOk, Reach, UseOk, SpareOk;
    var r, r', n := Current(s), Current(s'), |s.queue.blocks|;
    forall m {:trigger m in s.queue.index} | m in s.queue.index
      ensures m < n && UseOk(r', s.cells, s.queue.index, s.high, m)
    {
      SameUse(r, r', s.cells, s.queue.index, s.high, m);
    }
    forall k: nat | n <= k <= s.high ensures SpareOk(r', s.cells, n, producer, k) {
      assert At(r', k) == At(r, k);
      SameSpare(r, r', s.cells, n, s.producer, producer, k);
    }
    forall h | 0 <= h < |s'.rings| ensures RingOk(s'.rings[h], |s.cells|) {
      assert RingOk(s.rings[h], |s.cells|);
    }
    LooksKept(s, s');
  }

  /** What agrees with the current ring agrees with the wider one, as far as the ring reaches back. */
  lemma {:induction false} AgreesWithWider(r: Ring, cur: Ring, n: nat, k: int)
    requires RingOk(cur, n) && Agree(r, cur, k) && cur.top - |cur.cells| < k <= cur.top
    ensures Agree(r, Wider(cur, n), k)
  {
    WiderAgrees(cur, n, k);
  }

  lemma {:induction false} WiderReach(s: State, t: Tid, r: Ring, top: int)
    requires M.Inv(s.queue) && RingsOk(s) && AtBlock(s, t) && Current(s).top == s.high
    requires Reach(r, Current(s), s.high, top, s.queue.work[t].from, s.queue.work[t].end)
    ensures Reach(r, Wider(Current(s), |s.cells|), s.high, top, s.queue.work[t].from, s.queue.work[t].end)
  {
    hide M.Inv, Agree, Wider;
    var w, cur := s.queue.work[t], Current(s);
    var first := Drain.BlockOf(w.from);
    ClaimIsNotEmpty(s.queue, t);
    ClaimedInIndex(s.queue, t, first);
    assert UseOk(cur, s.cells, s.queue.index, s.high, first);
    forall n: nat | first <= n && n * BLOCK_SIZE < w.end ensures Agree(r, Wider(cur, |s.cells|), n) && n <= top {
      assert Agree(r, cur, n);
      AgreesWithWider(r, cur, |s.cells|, n);
    }
    AgreesWithWider(r, cur, |s.cells|, top);
  }

  lemma {:induction false} WiderLook(s: State, t: Tid, rings': seq<Ring>)
    requires M.Inv(s.queue) && RingsOk(s) && LooksOk(s) && t in s.look && Current(s).top == s.high
    requires rings' == s.rings + [Wider(Current(s), |s.cells|)]
    ensures LookOk(s.look[t], s.queue.work[t], rings', s.high, s.queue.index)
  {
    assert RingShaped(Current(s), |s.cells|);
    hide M.Inv, Reach, Agree, Wider, RingsOk;
    var l, w, cur := s.look[t], s.queue.work[t], Current(s);
    assert ConsumerOk(s, t);
    match l
    case Unlooked =>
    case SawRing(h) => WiderReach(s, t, s.rings[h], s.rings[h].top);
    case SawTail(h, _, top) => WiderReach(s, t, s.rings[h], top);
    case AtSlot(h, slot) =>
      forall n {:trigger n in s.queue.index} | n in s.queue.index && NumberOf(w) <= n && n * BLOCK_SIZE < w.end
        ensures Agree(s.rings[h], Wider(cur, |s.cells|), n)
      {
        WiderInUse(s, s.rings[h], n);
      }
  }

  lemma {:induction false} WiderInUse(s: State, r: Ring, n: nat)
    requires RingsOk(s) && Current(s).top == s.high && n in s.queue.index && Agree(r, Current(s), n)
    ensures Agree(r, Wider(Current(s), |s.cells|), n)
  {
    hide Wider, Agree;
    assert UseOk(Current(s), s.cells, s.queue.index, s.high, n);
    AgreesWithWider(r, Current(s), |s.cells|, n);
  }

  lemma {:induction false} WiderUse(r: Ring, cells: seq<Cell>, cells': seq<Cell>, index: map<nat, M.Block>, high: int, m: nat)
    requires RingOk(r, |cells|) && RingOk(Wider(r, |cells|), |cells'|) && cells <= cells' && r.top == high && m <= r.top
    requires m in index && UseOk(r, cells, index, high, m)
    ensures UseOk(Wider(r, |cells|), cells', index, high, m)
  {
    hide Wider;
    var r' := Wider(r, |cells|);
    WiderSize(r, |cells|);
    forall k: nat | m <= k <= high ensures At(r', k) == At(r, k) {
      WiderAgrees(r, |cells|, k);
    }
  }

  lemma {:induction false} WiderSize(r: Ring, n: nat)
    requires r.tail < |r.cells|
    ensures |Wider(r, n).cells| == 2 * |r.cells| && Wider(r, n).top == r.top
  {
  }

  /** The ring is widened only when every number a key was stored for is a block of the queue. */
  lemma {:induction false} FullMeansNoneAhead(s: State)
    requires RingsOk(s) && Shaped(s) && s.producer == Resting && TailAfter(Current(s)) < |Current(s).cells|
    requires !Spare(s.cells[Current(s).cells[TailAfter(Current(s))]])
    ensures s.high == Current(s).top == |s.queue.blocks| - 1
  {
    var r, n := Current(s), |s.queue.blocks|;
    NextSlot(r, r.top);
    assert s.high >= n ==> SpareOk(r, s.cells, n, Resting, n);
  }

  lemma {:induction false} WidenKeepsInv(s: State, garbage: seq<Option<M.Block>>, s': State)
    requires Inv(s) && Shaped(s) && WidenStep(s, garbage, s')
    ensures Inv(s')
  {
    hide M.Inv, Spare, Wider, LookOk, UseOk;
    var r, n := Current(s), |s.cells|;
    FullMeansNoneAhead(s);
    WiderIsOk(r, n);
    WiderSize(r, n);
    forall m {:trigger m in s.queue.index} | m in s.queue.index
      ensures m < |s.queue.blocks| && UseOk(Wider(r, n), s'.cells, s.queue.index, s.high, m)
    {
      WiderUse(r, s.cells, s'.cells, s.queue.index, s.high, m);
    }
    forall h | 0 <= h < |s'.rings| ensures RingOk(s'.rings[h], |s'.cells|) {
      assert h < |s.rings| ==> RingOk(s.rings[h], n) && s'.rings[h] == s.rings[h];
    }
    forall t | t in s.look ensures ConsumerOk(s', t) {
      assert ConsumerOk(s, t);
      WiderLook(s, t, s'.rings);
    }
  }

  // ----- Steps of the producer in the queue --------------------------------------

  lemma {:induction false} QueueSizes(q: M.State)
    requires M.Inv(q)
    ensures |q.elements| <= BLOCK_SIZE * |q.blocks|
    ensures forall n :: n in q.index ==> n < |q.blocks|
  {
  }

  lemma {:induction false} StartIsStep(q: M.State, a: Free.Action, block: M.Block, junk: seq<M.Element>, q': M.State)
    requires M.StartStep(q, a, block, junk, q')
    ensures M.Next(q, M.Start(a, block, junk), q')
    ensures q'.work == q.work && q'.elements == q.elements && q'.blocks == q.blocks + [block]
    ensures q'.index == q.index[|q.blocks| := block]
  {
  }

  lemma {:induction false} StoreBlockKeepsInv(s: State, a: Free.Action, block: M.Block, junk: seq<M.Element>, s': State)
    requires Inv(s) && Shaped(s) && StoreBlockStep(s, a, block, junk, s')
    ensures Inv(s')
  {
    hide M.Inv, M.Next, M.StartStep, LookOk, Reach, CellsOk, RingOk;
    StartIsStep(s.queue, a, block, junk, s'.queue);
    M.StepKeepsInv(s.queue, M.Start(a, block, junk), s'.queue);
    QueueSizes(s.queue);
    StoreBlockCells(Current(s), s.cells, s.queue.index, s.high, |s.queue.blocks|, block);
    SameRingsSameSize(s.rings, |s.cells|, |s'.cells|);
    LooksKept(s, s');
  }

  lemma {:induction false} SameRingsSameSize(rings: seq<Ring>, n: nat, n': nat)
    requires n' == n && forall h {:trigger rings[h]} :: 0 <= h < |rings| ==> RingOk(rings[h], n)
    ensures forall h {:trigger rings[h]} :: 0 <= h < |rings| ==> RingOk(rings[h], n')
  {
  }

  lemma {:induction false} StoreBlockCells(r: Ring, cells: seq<Cell>, index: map<nat, M.Block>, high: int, n: nat, block: M.Block)
    requires CellsOk(r, cells, index, high, n, Inserted)
    ensures r.cells[r.tail] == At(r, n) && n !in index
    ensures CellsOk(r, cells[At(r, n) := cells[At(r, n)].(value := Some(block))], index[n := block], high, n + 1, Resting)
  {
    hide UseOk, SpareOk;
    var cells' := cells[At(r, n) := cells[At(r, n)].(value := Some(block))];
    forall m {:trigger m in index[n := block]} | m in index[n := block]
      ensures m < n + 1 && UseOk(r, cells', index[n := block], high, m)
    {
      if m == n {
        NewUse(r, cells, index, high, n, Inserted, block);
      } else {
        ValueKeepsUse(r, cells, index, high, n, m, Some(block));
        MoreInIndex(r, cells', index, high, m, n, block);
      }
    }
    forall k: nat {:trigger SpareOk(r, cells', n + 1, Resting, k)} | n + 1 <= k <= high ensures SpareOk(r, cells', n + 1, Resting, k) {
      StillSpare(r, cells, high, n, Inserted, block, k);
    }
  }

  lemma {:induction false} MoreInIndex(r: Ring, cells: seq<Cell>, index: map<nat, M.Block>, high: int, m: nat, n: nat, block: M.Block)
    requires RingShaped(r, |cells|) && m in index && m != n && UseOk(r, cells, index, high, m)
    ensures UseOk(r, cells, index[n := block], high, m)
  {
  }

  /** The block just stored is where it should be, and the numbers from it on too. */
  lemma {:induction false} NewUse(r: Ring, cells: seq<Cell>, index: map<nat, M.Block>, high: int, n: nat, producer: Producer, block: M.Block)
    requires RingOk(r, |cells|) && n <= high < n + |r.cells|
    requires forall k: nat {:trigger SpareOk(r, cells, n, producer, k)} :: n <= k <= high ==> SpareOk(r, cells, n, producer, k)
    ensures UseOk(r, cells[At(r, n) := cells[At(r, n)].(value := Some(block))], index[n := block], high, n)
  {
    forall k: nat | n <= k <= high ensures cells[At(r, k)].key == Some(k) && (k != n ==> At(r, k) != At(r, n)) {
      assert SpareOk(r, cells, n, producer, k);
      if k != n {
        CellsDiffer(r, |cells|, k, n);
      }
    }
  }

  lemma {:induction false} StillSpare(r: Ring, cells: seq<Cell>, high: int, n: nat, producer: Producer, block: M.Block, k: nat)
    requires RingOk(r, |cells|) && n < k <= high < n + |r.cells| && SpareOk(r, cells, n, producer, k)
    ensures SpareOk(r, cells[At(r, n) := cells[At(r, n)].(value := Some(block))], n + 1, Resting, k)
  {
    CellsDiffer(r, |cells|, k, n);
  }

  lemma {:induction false} CancelIsStep(q: M.State, f: Tid, q': M.State)
    requires M.Inv(q) && M.CancelStep(q, f, q')
    ensures M.Next(q, M.Cancel(f), q') && q.blocks != [] && q'.work == q.work && q'.elements == q.elements
    ensures var n := |q.blocks| - 1; n in q.index && |q'.blocks| == n && q'.index == q.index - {n}
  {
    hide M.WorkersOk, M.ContentsOk, M.DeliveriesOk;
    var n := |q.blocks| - 1;
    M.FreshBlock(q, n);
    assert M.BlockOk(q, n);
  }

  lemma {:induction false} CancelKeepsInv(s: State, f: Tid, s': State)
    requires Inv(s) && Shaped(s) && CancelStep(s, f, s')
    ensures Inv(s')
  {
    hide M.Inv, M.Next, M.CancelStep, LookOk, Reach, CellsOk, RingOk;
    CancelIsStep(s.queue, f, s'.queue);
    M.StepKeepsInv(s.queue, M.Cancel(f), s'.queue);
    QueueSizes(s'.queue);
    CancelCells(Current(s), s.cells, s.queue.index, s.high, |s.queue.blocks| - 1);
    SameRingsSameSize(s.rings, |s.cells|, |s'.cells|);
    LooksKept(s, s');
  }

  lemma {:induction false} CancelCells(r: Ring, cells: seq<Cell>, index: map<nat, M.Block>, high: int, n: nat)
    requires CellsOk(r, cells, index, high, n + 1, Resting) && n in index
    ensures r.cells[r.tail] == At(r, n)
    ensures CellsOk(r, cells[At(r, n) := cells[At(r, n)].(value := None)], index - {n}, high, n, Unwinding)
  {
    hide UseOk;
    var cells' := cells[At(r, n) := cells[At(r, n)].(value := None)];
    assert UseOk(r, cells, index, high, n);
    forall m {:trigger m in index - {n}} | m in index - {n}
      ensures m < n && UseOk(r, cells', index - {n}, high, m)
    {
      ValueKeepsUse(r, cells, index, high, n, m, None);
      FewerUse(r, cells', index, high, m, n);
    }
    NewestUse(r, cells, index, high, n);
    forall k: nat {:trigger SpareOk(r, cells', n, Unwinding, k)} | n <= k <= high ensures SpareOk(r, cells', n, Unwinding, k) {
      assert k > n ==> SpareOk(r, cells, n + 1, Resting, k);
    }
  }

  lemma {:induction false} FewerUse(r: Ring, cells: seq<Cell>, index: map<nat, M.Block>, high: int, m: nat, n: nat)
    requires RingShaped(r, |cells|) && m in index && m != n && UseOk(r, cells, index, high, m)
    ensures UseOk(r, cells, index - {n}, high, m)
  {
  }

  lemma {:induction false} NewestUse(r: Ring, cells: seq<Cell>, index: map<nat, M.Block>, high: int, n: nat)
    requires RingShaped(r, |cells|) && n in index && n <= high && UseOk(r, cells, index, high, n)
    ensures high - n < |r.cells| && cells[At(r, n)].key == Some(n)
  {
  }

  // ----- The consumers -----------------------------------------------------------

  /** A consumer loads something; the rest stays. */
  lemma {:induction false} LookKeepsInv(s: State, t: Tid, l: Look, s': State)
    requires Inv(s) && t in s.look && s' == WithLook(s, t, l)
    requires LookOk(l, s.queue.work[t], s.rings, s.high, s.queue.index)
    ensures Inv(s')
  {
    assert s.rings != [] && t in s.queue.work && ConsumerOk(s, t);
    hide M.Inv, RingsOk, LooksOk, LookOk, ConsumerOk, OthersStay;
    SameRingsOk(s, s');
    OwnLook(s, t, l, s');
    WorkKeepsInv(s, t, s');
  }

  lemma {:induction false} OwnLook(s: State, t: Tid, l: Look, s': State)
    requires s.rings != [] && t in s.look && t in s.queue.work && ConsumerOk(s, t) && s' == WithLook(s, t, l)
    requires LookOk(l, s.queue.work[t], s.rings, s.high, s.queue.index)
    ensures ConsumerOk(s', t) && OthersStay(s, t, s')
  {
    hide LookOk;
  }

  lemma {:induction false} LoadRingKeepsInv(s: State, t: Tid, s': State)
    requires Inv(s) && t in s.look && AtBlock(s, t) && s' == WithLook(s, t, SawRing(|s.rings| - 1))
    ensures Inv(s')
  {
    hide M.Inv;
    CurrentReaches(s, t);
    LookKeepsInv(s, t, SawRing(|s.rings| - 1), s');
  }

  lemma {:induction false} LoadTailKeepsInv(s: State, t: Tid, s': State)
    requires Inv(s) && t in s.look && AtBlock(s, t) && LoadTailStep(s, t, s')
    ensures Inv(s')
  {
    hide M.Inv, Reach;
    assert ConsumerOk(s, t);
    LookKeepsInv(s, t, s'.look[t], s');
  }

  /** The key at the tail that was loaded is still that of the block that was newest then,
      although the tail may have moved and the ring may have been replaced. */
  lemma {:induction false} KeyAtTail(s: State, t: Tid)
    requires Inv(s) && t in s.look && AtBlock(s, t) && s.look[t].SawTail?
    ensures var l, w := s.look[t], s.queue.work[t];
            && l.ring < |s.rings| && l.top >= 0 && RingOk(s.rings[l.ring], |s.cells|)
            && l.tail == SlotOf(s.rings[l.ring], l.top)
            && s.cells[s.rings[l.ring].cells[l.tail]].key == Some(l.top)
            && Reach(s.rings[l.ring], Current(s), s.high, l.top, w.from, w.end)
            && Drain.BlockOf(w.from) in s.queue.index
  {
    hide M.Inv;
    var l, w := s.look[t], s.queue.work[t];
    assert ConsumerOk(s, t);
    var first := Drain.BlockOf(w.from);
    ClaimIsNotEmpty(s.queue, t);
    ClaimedInIndex(s.queue, t, first);
    assert UseOk(Current(s), s.cells, s.queue.index, s.high, first);
    assert At(s.rings[l.ring], l.top) == At(Current(s), l.top);
  }

  lemma {:induction false} LoadKeyKeepsInv(s: State, t: Tid, s': State)
    requires Inv(s) && Shaped(s) && t in s.look && AtBlock(s, t) && LoadKeyStep(s, t, s')
    ensures Inv(s')
  {
    hide M.Inv, RingsOk, LooksOk, UseOk;
    var l, w := s.look[t], s.queue.work[t];
    KeyAtTail(s, t);
    SlotFound(s.rings[l.ring], l.top, w.from);
    FoundLook(s, t);
    LookKeepsInv(s, t, s'.look[t], s');
  }

  lemma {:induction false} FoundLook(s: State, t: Tid)
    requires s.rings != [] && t in s.look && AtBlock(s, t) && s.look[t].SawTail? && s.look[t].ring < |s.rings|
    requires Reach(s.rings[s.look[t].ring], Current(s), s.high, s.look[t].top, s.queue.work[t].from, s.queue.work[t].end)
    ensures var r, w := s.rings[s.look[t].ring], s.queue.work[t];
            r.cells != [] && LookOk(AtSlot(s.look[t].ring, SlotOf(r, Drain.BlockOf(w.from))), w, s.rings, s.high, s.queue.index)
  {
    var r, w := s.rings[s.look[t].ring], s.queue.work[t];
    forall n {:trigger n in s.queue.index} | n in s.queue.index && NumberOf(w) <= n && n * BLOCK_SIZE < w.end
      ensures Agree(r, Current(s), n)
    {
      assert Agree(r, Current(s), n);
    }
  }

  /** The cell a consumer has got to is the one of its block, while that is in the index. */
  lemma {:induction false} CellIsRight(s: State, t: Tid)
    requires Inv(s) && Shaped(s) && t in s.look && s.look[t].AtSlot?
    ensures HasCell(s, t) && t in s.queue.work && !s.queue.work[t].Nothing?
    ensures var w := s.queue.work[t];
            NumberOf(w) in s.queue.index && NumberOf(w) * BLOCK_SIZE < w.end ==>
              && CellOf(s, t) == At(Current(s), NumberOf(w))
              && s.cells[CellOf(s, t)] == Cell(Some(NumberOf(w)), Some(s.queue.index[NumberOf(w)]))
  {
    hide M.Inv;
    var w := s.queue.work[t];
    assert ConsumerOk(s, t);
    assert RingOk(s.rings[s.look[t].ring], |s.cells|);
    if NumberOf(w) in s.queue.index {
      assert UseOk(Current(s), s.cells, s.queue.index, s.high, NumberOf(w));
    }
  }

  /** The lookup, access by access, ends with the block that the index has: it is the lookup
      that `MultiQueue` makes in one step. */
  lemma {:induction false} LoadBlockIsLookup(s: State, t: Tid, s': State)
    requires Inv(s) && Shaped(s) && t in s.look && AtBlock(s, t) && LoadBlockStep(s, t, s')
    ensures M.Next(s.queue, M.Consume(t), s'.queue)
  {
    hide M.Inv;
    var w := s.queue.work[t];
    ClaimIsNotEmpty(s.queue, t);
    ClaimedInIndex(s.queue, t, Drain.BlockOf(w.from));
    CellIsRight(s, t);
    assert M.LookupStep(s.queue, t, w.from, w.end, s'.queue);
  }

  lemma {:induction false} StopIsInBlock(from: nat, end: nat)
    requires from < end
    ensures M.StopOf(from, end) < end ==> M.StopOf(from, end) == (Drain.BlockOf(from) + 1) * BLOCK_SIZE
  {
    assert from == BLOCK_SIZE * Drain.BlockOf(from) + from % BLOCK_SIZE;
  }

  /** One consumer goes on; for another nothing changes but that blocks may leave the index. */
  predicate OthersStay(s: State, t: Tid, s': State) {
    && s'.rings == s.rings && s'.high == s.high && s'.look.Keys == s.look.Keys
    && s'.queue.work.Keys == s.queue.work.Keys && s'.queue.elements == s.queue.elements
    && (forall u :: u in s.look && u != t ==> s'.look[u] == s.look[u])
    && (forall u :: u in s.queue.work && u != t ==> s'.queue.work[u] == s.queue.work[u])
    && (forall n :: n in s'.queue.index ==> n in s.queue.index)
  }

  lemma {:induction false} OtherStays(s: State, t: Tid, s': State, u: Tid)
    requires OthersStay(s, t, s') && s.rings != [] && u in s.look && u in s.queue.work && u != t && ConsumerOk(s, u)
    ensures ConsumerOk(s', u)
  {
    FewerInIndex(s.look[u], s.queue.work[u], s.rings, s.high, s.queue.index, s'.queue.index);
  }

  lemma {:induction false} WorkKeepsInv(s: State, t: Tid, s': State)
    requires Inv(s) && M.Inv(s'.queue) && RingsOk(s') && t in s.look && OthersStay(s, t, s')
    requires ConsumerOk(s', t)
    ensures Inv(s')
  {
    assert s.rings != [];
    hide M.Inv, RingsOk, ConsumerOk, OthersStay;
    assert s'.look.Keys == s'.queue.work.Keys by { SameKeys(s, t, s'); }
    forall u | u in s'.look ensures ConsumerOk(s', u) {
      SameKeys(s, t, s');
      if u != t {
        assert ConsumerOk(s, u);
        OtherStays(s, t, s', u);
      }
    }
  }

  lemma {:induction false} SameKeys(s: State, t: Tid, s': State)
    requires s.rings != [] && LooksOk(s) && OthersStay(s, t, s')
    ensures s'.rings != [] && s'.look.Keys == s'.queue.work.Keys == s.look.Keys
  {
  }

  lemma {:induction false} FewerInIndex(l: Look, w: M.Work, rings: seq<Ring>, high: int, index: map<nat, M.Block>, index': map<nat, M.Block>)
    requires rings != [] && LookOk(l, w, rings, high, index) && forall n :: n in index' ==> n in index
    ensures LookOk(l, w, rings, high, index')
  {
    hide Reach, Agree;
  }

  lemma {:induction false} LoadBlockKeepsInv(s: State, t: Tid, s': State)
    requires Inv(s) && Shaped(s) && t in s.look && AtBlock(s, t) && LoadBlockStep(s, t, s')
    ensures Inv(s')
  {
    hide M.Inv, M.Next, RingsOk, Agree, M.StopOf;
    var w := s.queue.work[t];
    LoadBlockIsLookup(s, t, s');
    M.StepKeepsInv(s.queue, M.Consume(t), s'.queue);
    ClaimIsNotEmpty(s.queue, t);
    StopIsInBlock(w.from, w.end);
    SameRingsOk(s, s');
    assert ConsumerOk(s, t);
    WorkKeepsInv(s, t, s');
  }

  lemma {:induction false} SameRingsOk(s: State, s': State)
    requires RingsOk(s) && s'.rings == s.rings && s'.cells == s.cells && s'.high == s.high && s'.producer == s.producer
    requires s'.queue.index == s.queue.index && s'.queue.blocks == s.queue.blocks
    ensures RingsOk(s')
  {
  }

  /** From one step of a loop to the next: the claim is done, or the next block is looked
      up, or it is still the same block. */
  predicate GoesOn(w: M.Work, w': M.Work) {
    !w.Nothing? &&
    (w'.Nothing?
     || (w'.AtBlock? && NumberOf(w') == NumberOf(w) + 1 && w'.end == w.end)
     || (!w'.Nothing? && !w'.AtBlock? && NumberOf(w') == NumberOf(w) && w'.end == w.end && StopsOk(w')))
  }

  lemma {:induction false} ConsumeEffect(q: M.State, t: Tid, q': M.State)
    requires M.Inv(q) && t in q.work && M.ConsumeStep(q, t, q') && StopsOk(q.work[t])
    requires q.work[t].Reading? || q.work[t].Clearing? || q.work[t].Freeing?
    ensures q'.work == q.work[t := q'.work[t]] && q'.elements == q.elements && q'.blocks == q.blocks
    ensures q'.index == if q.work[t].Clearing? then q.index - {q.work[t].number} else q.index
    ensures GoesOn(q.work[t], q'.work[t])
  {
    hide M.Inv, M.ReportStep;
    var w := q.work[t];
    WorkInOrder(q, t);
    if w.Reading? && w.next >= w.stop {
      ReportEffect(q, t, q');
    }
  }

  /** What a consumer reads lies in one block, and it stays within its claim. */
  lemma {:induction false} WorkInOrder(q: M.State, t: Tid)
    requires M.Inv(q) && t in q.work && (q.work[t].Reading? || q.work[t].Clearing? || q.work[t].Freeing?)
    ensures q.work[t].from <= q.work[t].end
    ensures q.work[t].Reading? ==> q.work[t].from < q.work[t].stop <= q.work[t].end
  {
    hide M.PartsOk, M.ClaimsOk, M.BlocksOk, M.Apart, M.ContentsOk, M.DeliveriesOk, M.LeaverOk;
    assert M.WorkOk(q.work[t], q.blocks, q.given, q.index, q.drain.read);
  }

  lemma {:induction false} ReportEffect(q: M.State, t: Tid, q': M.State)
    requires t in q.work && q.work[t].Reading? && StopsOk(q.work[t]) && q.work[t].from < q.work[t].stop <= q.work[t].end
    requires var w := q.work[t]; M.ReportStep(q, t, w.block, w.from, w.stop, w.end, q')
    ensures t in q'.work && q'.work == q.work[t := q'.work[t]] && q'.elements == q.elements && q'.blocks == q.blocks && q'.index == q.index
    ensures GoesOn(q.work[t], q'.work[t])
  {
    hide Drain.Counted;
    var w := q.work[t];
    assert Drain.BlockOf(w.from) * BLOCK_SIZE <= w.from;
  }

  lemma {:induction false} LookGoesOn(s: State, t: Tid, w': M.Work, index': map<nat, M.Block>)
    requires Shaped(s) && t in s.look && t in s.queue.work && HasCell(s, t)
    requires IsPow2(|s.rings[s.look[t].ring].cells|)
    requires LookOk(s.look[t], s.queue.work[t], s.rings, s.high, s.queue.index)
    requires GoesOn(s.queue.work[t], w') && forall n :: n in index' ==> n in s.queue.index
    ensures LookOk(LookAfter(s, t, w'), w', s.rings, s.high, index')
  {
    hide Agree, SlotOf;
    var l, w := s.look[t], s.queue.work[t];
    if w'.AtBlock? {
      NextSlot(s.rings[l.ring], NumberOf(w));
    }
  }

  /** A block is taken out of its cell. */
  lemma {:induction false} ClearCells(r: Ring, cells: seq<Cell>, index: map<nat, M.Block>, high: int, count: nat, producer: Producer, n: nat)
    requires CellsOk(r, cells, index, high, count, producer) && n in index
    ensures CellsOk(r, cells[At(r, n) := cells[At(r, n)].(value := None)], index - {n}, high, count, producer)
  {
    hide SpareOk;
    assert UseOk(r, cells, index, high, n);
    var cells' := cells[At(r, n) := cells[At(r, n)].(value := None)];
    forall m {:trigger m in index - {n}} | m in index - {n}
      ensures m < count && UseOk(r, cells', index - {n}, high, m)
    {
      assert UseOk(r, cells, index, high, m);
      ValueKeepsUse(r, cells, index, high, n, m, None);
    }
    forall k: nat {:trigger SpareOk(r, cells', count, producer, k)} | count <= k <= high ensures SpareOk(r, cells', count, producer, k) {
      ClearedSpare(r, cells, count, producer, n, k);
    }
  }

  lemma {:induction false} ClearedSpare(r: Ring, cells: seq<Cell>, count: nat, producer: Producer, n: nat, k: nat)
    requires RingShaped(r, |cells|) && SpareOk(r, cells, count, producer, k)
    ensures SpareOk(r, cells[At(r, n) := cells[At(r, n)].(value := None)], count, producer, k)
  {
  }

  lemma {:induction false} NumberIsThere(s: State, t: Tid)
    requires Inv(s) && t in s.look && t in s.queue.work && s.queue.work[t].Clearing?
    ensures s.queue.work[t].number in s.queue.index && s.queue.work[t].number * BLOCK_SIZE < s.queue.work[t].end
    ensures s.look[t].AtSlot? && s.rings != []
  {
    assert s.rings != [];
    hide RingsOk, M.Inv, Reach, Agree;
    LeaverInIndex(s.queue, t);
    assert ConsumerOk(s, t);
  }

  lemma {:induction false} LeaverInIndex(q: M.State, t: Tid)
    requires M.Inv(q) && t in q.work && q.work[t].Clearing?
    ensures q.work[t].number in q.index
  {
    hide M.PartsOk, M.ClaimsOk, M.BlocksOk, M.ContentsOk, M.DeliveriesOk, M.WorkersOk;
    M.LeaverIsBlock(q, t);
  }

  lemma {:induction false} ClearRings(s: State, t: Tid, s': State)
    requires Inv(s) && Shaped(s) && t in s.look && t in s.queue.work && s.queue.work[t].Clearing? && HasCell(s, t)
    requires s'.rings == s.rings && s'.cells == WithValue(s, CellOf(s, t), None).cells && s'.high == s.high && s'.producer == s.producer
    requires s'.queue.blocks == s.queue.blocks && s'.queue.index == s.queue.index - {s.queue.work[t].number}
    ensures RingsOk(s')
  {
    hide M.Inv, CellsOk, RingOk, LooksOk, UseOk, ConsumerOk;
    var w := s.queue.work[t];
    NumberIsThere(s, t);
    CellIsRight(s, t);
    ClearCells(Current(s), s.cells, s.queue.index, s.high, |s.queue.blocks|, s.producer, w.number);
    SameRingsSameSize(s.rings, |s.cells|, |s'.cells|);
  }

  lemma {:induction false} ConsumeCells(s: State, t: Tid, s': State)
    requires Inv(s) && Shaped(s) && t in s.look && t in s.queue.work && ConsumeStep(s, t, s')
    requires s'.queue.blocks == s.queue.blocks
    requires s'.queue.index == if s.queue.work[t].Clearing? then s.queue.index - {s.queue.work[t].number} else s.queue.index
    ensures RingsOk(s')
  {
    hide M.Inv, M.ConsumeStep, RingsOk, LooksOk, LookAfter;
    if s.queue.work[t].Clearing? {
      ClearRings(s, t, s');
    } else {
      SameRingsOk(s, s');
    }
  }

  lemma {:induction false} StopOfLook(s: State, t: Tid)
    requires s.rings != [] && t in s.look && t in s.queue.work && ConsumerOk(s, t) && s.look[t].AtSlot?
    ensures StopsOk(s.queue.work[t])
  {
  }

  lemma {:induction false} ConsumeKeepsInv(s: State, t: Tid, s': State)
    requires Inv(s) && Shaped(s) && t in s.look && t in s.queue.work && ConsumeStep(s, t, s')
    ensures Inv(s')
  {
    hide M.Inv, M.ConsumeStep, M.Next, RingsOk, LooksOk, ConsumerOk, OthersStay, ConsumeStep;
    StepIsConsume(s, t, s');
    ConsumeGoesOn(s, t, s');
    ConsumeCells(s, t, s');
    WorkKeepsInv(s, t, s');
  }

  lemma {:induction false} StepIsConsume(s: State, t: Tid, s': State)
    requires Inv(s) && Shaped(s) && t in s.look && t in s.queue.work && ConsumeStep(s, t, s')
    ensures M.Inv(s'.queue)
  {
    hide M.Inv, M.ConsumeStep;
    QueueSteps(s.queue, 0, t, s'.queue);
    hide M.Next;
    M.StepKeepsInv(s.queue, M.Consume(t), s'.queue);
  }

  lemma {:induction false} RingOfLook(s: State, t: Tid)
    requires Inv(s) && Shaped(s) && t in s.look && t in s.queue.work && HasCell(s, t)
    ensures IsPow2(|s.rings[s.look[t].ring].cells|) && ConsumerOk(s, t)
  {
    hide M.Inv;
    assert RingOk(s.rings[s.look[t].ring], |s.cells|);
  }

  lemma {:induction false} ConsumeGoesOn(s: State, t: Tid, s': State)
    requires Inv(s) && Shaped(s) && t in s.look && t in s.queue.work && ConsumeStep(s, t, s')
    ensures s'.rings != [] && t in s'.look && t in s'.queue.work && ConsumerOk(s', t) && OthersStay(s, t, s')
    ensures s'.queue.blocks == s.queue.blocks
    ensures s'.queue.index == if s.queue.work[t].Clearing? then s.queue.index - {s.queue.work[t].number} else s.queue.index
  {
    hide M.Inv, M.ConsumeStep, RingsOk, LooksOk, LookOk, LookAfter, GoesOn;
    RingOfLook(s, t);
    StopOfLook(s, t);
    ConsumeEffect(s.queue, t, s'.queue);
    EndStays(s.queue.work[t], s'.queue.work[t]);
    LookGoesOn(s, t, s'.queue.work[t], s'.queue.index);
  }

  lemma {:induction false} EndStays(w: M.Work, w': M.Work)
    requires GoesOn(w, w')
    ensures !w.Nothing? && (!w'.Nothing? ==> w'.end == w.end)
  {
  }

  // ----- The other steps ---------------------------------------------------------

  lemma {:induction false} OtherEffect(q: M.State, a: M.Action, q': M.State, t: Tid)
    requires M.Inv(q) && M.Inv(q') && M.Next(q, a, q') && (a.Write? || a.Publish? || a.Ticket? || a.Elsewhere?)
    ensures q'.index == q.index && q'.blocks == q.blocks && |q.elements| <= |q'.elements| && q'.work.Keys == q.work.Keys
    ensures t in q.work ==>
              q'.work[t] == q.work[t]
              || (q.work[t].Nothing? && q'.work[t].AtBlock? && q'.work[t].end <= |q'.elements|)
  {
    hide Free.Inv, Tickets.Inv, M.ClaimsOk, M.BlocksOk, M.WorkersOk, M.ContentsOk, M.DeliveriesOk, Free.Next;
    if a.Ticket? {
      M.TicketEffect(q.tickets, a.q, q'.tickets);
    }
  }

  lemma {:induction false} OtherKeepsInv(s: State, a: M.Action, s': State)
    requires Inv(s) && M.Next(s.queue, a, s'.queue) && (a.Write? || a.Publish? || a.Ticket? || a.Elsewhere?)
    requires s' == s.(queue := s'.queue)
    ensures Inv(s')
  {
    hide M.Inv, M.Next, LookOk, CellsOk;
    M.StepKeepsInv(s.queue, a, s'.queue);
    OtherEffect(s.queue, a, s'.queue, 0);
    SameRingsOk(s, s');
    forall t | t in s'.look ensures ConsumerOk(s', t) {
      assert ConsumerOk(s, t);
      OtherEffect(s.queue, a, s'.queue, t);
      if s'.queue.work[t] != s.queue.work[t] {
        NewClaim(s.look[t], s.queue.work[t], s'.queue.work[t], s.rings, s.high, s.queue.index);
      }
    }
  }

  lemma {:induction false} NewClaim(l: Look, w: M.Work, w': M.Work, rings: seq<Ring>, high: int, index: map<nat, M.Block>)
    requires rings != [] && w.Nothing? && w'.AtBlock? && LookOk(l, w, rings, high, index)
    ensures LookOk(l, w', rings, high, index)
  {
  }

  lemma {:induction false} TailStepKeepsInv(s: State, a: Action, s': State)
    requires Inv(s) && Next(s, a, s') && (a.StoreTail? || a.Rewind? || a.Unwind?)
    ensures Inv(s')
  {
    hide M.Inv, LooksOk;
    var r := Current(s);
    NextSlot(r, r.top);
    PreviousSlot(r, r.top);
    match a
    case StoreTail => TailKeepsInv(s, TailAfter(r), 1, Inserted, s');
    case Rewind => TailKeepsInv(s, TailBefore(r), -1, Rewound, s');
    case Unwind => TailKeepsInv(s, TailBefore(r), -1, Resting, s');
  }

  lemma {:induction false} StepKeepsInv(s: State, a: Action, s': State)
    requires Inv(s) && Next(s, a, s')
    ensures Inv(s')
  {
    hide Inv;
    match a
    case StoreKey => StoreKeyKeepsInv(s, s');
    case Widen(garbage) => WidenKeepsInv(s, garbage, s');
    case StoreBlock(fa, block, junk) => StoreBlockKeepsInv(s, fa, block, junk, s');
    case StoreNull => StoreNullKeepsInv(s, s');
    case Cancel(f) => CancelKeepsInv(s, f, s');
    case LoadRing(t) => LoadRingKeepsInv(s, t, s');
    case LoadTail(t) => LoadTailKeepsInv(s, t, s');
    case LoadKey(t) => LoadKeyKeepsInv(s, t, s');
    case LoadBlock(t) => LoadBlockKeepsInv(s, t, s');
    case Consume(t) => ConsumeKeepsInv(s, t, s');
    case Other(q) => OtherKeepsInv(s, q, s');
    case _ => TailStepKeepsInv(s, a, s');
  }

  /** Every step of the producer and of a consumer's lookup leaves the queue as it is or is a
      step of `MultiQueue`, where a lookup is one step. */
  lemma {:induction false} StepRefines(s: State, a: Action, s': State)
    requires Inv(s) && Next(s, a, s')
    ensures s'.queue == s.queue || exists q :: M.Next(s.queue, q, s'.queue)
  {
    hide Inv, M.Next, M.StartStep, M.CancelStep, M.ConsumeStep;
    match a
    case StoreBlock(fa, block, junk) => StartIsStep(s.queue, fa, block, junk, s'.queue);
    case Cancel(f) => QueueSteps(s.queue, f, 0, s'.queue);
    case LoadBlock(t) => LoadBlockIsLookup(s, t, s');
    case Consume(t) => QueueSteps(s.queue, 0, t, s'.queue);
    case Other(q) => assert M.Next(s.queue, q, s'.queue);
    case _ =>
  }

  lemma {:induction false} QueueSteps(q: M.State, f: Tid, t: Tid, q': M.State)
    ensures M.CancelStep(q, f, q') ==> M.Next(q, M.Cancel(f), q')
    ensures t in q.work && M.ConsumeStep(q, t, q') ==> M.Next(q, M.Consume(t), q')
  {
  }
}
