/** The single-producer queue from its construction through whole runs: it is a FIFO
    sequence, rejects only when it is full, and counts its elements right. */
module SpscRuns {
  import opened Bits
  import opened SpscQueue
  import opened Words

  // ----- Construction ------------------------------------------------------------

  /** A queue as its constructor leaves it. */
  ghost predicate Fresh(s: State) {
    && Inv(s) && s.tailPos == 0 && Contents(s) == []
    && s.producer == PIdle && s.consumer == CIdle && s.produced == [] && s.consumed == []
  }

  function EmptyBlock(size: nat, next: BlockId): Block {
    Block(size, 0, 0, 0, 0, next, seq(size, _ => 0))
  }

  /** The number of blocks reserved leaves room for `maxSize` even without one of them, but
      not without two. */
  lemma {:induction false} EnoughBlocks(maxSize: nat, maxBlockSize: nat)
    requires maxSize > 0 && maxBlockSize >= 2
    ensures var count := (maxSize + maxBlockSize * 2 - 3) / (maxBlockSize - 1);
            count >= 2 && (count - 2) * (maxBlockSize - 1) < maxSize <= (count - 1) * (maxBlockSize - 1)
  {
    var d := maxBlockSize - 1;
    var total := maxSize + maxBlockSize * 2 - 3;
    var count := total / d;
    assert total == d * count + total % d;
    assert maxSize + d <= d * count < maxSize + 2 * d;
    assert d * (count - 1) == d * count - d;
    assert d * (count - 2) == d * count - 2 * d;
    MulStep(d, count, 2);
  }

  /** The least power of two above the size. */
  lemma {:induction false} LeastAbove(maxSize: nat, power: nat, maxBlockSize: nat)
    requires 0 < maxSize < power && IsPow2(power) && IsPow2(maxBlockSize)
    requires forall k: nat :: maxSize + 1 <= Pow2(k) ==> power <= Pow2(k)
    ensures power <= 2 * maxSize && (power <= 2 * maxBlockSize <==> maxSize < 2 * maxBlockSize)
  {
    var j: nat :| power == Pow2(j);
    var k: nat :| maxBlockSize == Pow2(k);
    assert Pow2(k + 1) == 2 * maxBlockSize;
    assert j > 0 && Pow2(j) == 2 * Pow2(j - 1);
  }

  lemma {:induction false} UniformCapacity(blocks: map<BlockId, Block>, ids: seq<BlockId>, size: nat)
    requires forall id <- ids :: id in blocks && blocks[id].size == size
    ensures Capacity(blocks, ids) == |ids| * (size - 1)
  {
    if ids != [] {
      UniformCapacity(blocks, ids[1..], size);
      assert |ids| * (size - 1) == (|ids| - 1) * (size - 1) + (size - 1);
    }
  }

  /** `count` blocks of equal size, linked in a ring in the order of their numbers. */
  predicate RingOf(blocks: map<BlockId, Block>, ring: seq<BlockId>, size: nat) {
    && (forall i :: 0 <= i < |ring| ==> ring[i] == i)
    && (forall id <- blocks :: id < |ring|)
    && (forall i :: 0 <= i < |ring| ==> i in blocks && blocks[i] == EmptyBlock(size, Succ(i, |ring|)))
  }

  ghost predicate RingBuilt(s: State) {
    && RingOf(s.blocks, s.ring, s.largestBlockSize) && |s.ring| >= 1
    && s.tailPos == 0 && s.frontBlock == 0 && s.tailBlock == 0
    && IsPow2(s.largestBlockSize) && IsPow2(s.maxBlockSize) && 2 <= s.largestBlockSize
    && (if |s.ring| == 1 then s.largestBlockSize - 1 >= s.maxSize
        else (|s.ring| - 1) * (s.largestBlockSize - 1) >= s.maxSize)
  }

  lemma {:induction false} RingCore(s: State)
    requires RingBuilt(s)
    ensures Core(s)
  {
    assert Sound(s);
    UniformCapacity(s.blocks, s.ring, s.largestBlockSize);
    assert |s.ring| * (s.largestBlockSize - 1) == (|s.ring| - 1) * (s.largestBlockSize - 1) + (s.largestBlockSize - 1);
    forall i | 0 <= i < |s.ring| ensures LinkOk(s, i) {
      assert s.ring[Succ(i, |s.ring|)] == Succ(i, |s.ring|);
    }
    forall id | id in s.blocks ensures SizeOk(s, id) {
      assert s.ring[id] == id;
    }
  }

  lemma {:induction false} RingIsFresh(s: State)
    requires RingBuilt(s)
    requires s.producer == PIdle && s.consumer == CIdle && s.produced == [] && s.consumed == []
    ensures Fresh(s)
  {
    RingCore(s);
    forall i | 0 <= i < |s.ring| ensures FillOk(s, i) {
      assert s.blocks[s.ring[i]] == EmptyBlock(s.largestBlockSize, Succ(i, |s.ring|));
    }
    SplitContents(s, 0);
  }

  /** The constructor: one block if two of the largest allowed would do, else a ring of
      enough blocks of the largest allowed size. */
  method Construct(maxSize: nat, maxBlockSize: nat) returns (s: State)
    requires 0 < maxSize < Pow2(63)
    requires IsPow2(maxBlockSize) && 2 <= maxBlockSize
    ensures Fresh(s) && s.maxSize == maxSize && s.maxBlockSize == maxBlockSize
    ensures |s.ring| == 1 <==> maxSize < 2 * maxBlockSize
    ensures |s.ring| == 1 ==> maxSize < s.largestBlockSize <= 2 * maxSize
    ensures |s.ring| > 1 ==> s.largestBlockSize == maxBlockSize
                             && (|s.ring| - 2) * (maxBlockSize - 1) < maxSize <= (|s.ring| - 1) * (maxBlockSize - 1)
  {
    hide Pow2, Inv, IsPow2, Fresh;
    var largestBlockSize := CeilToPow2(maxSize + 1);
    LeastAbove(maxSize, largestBlockSize, maxBlockSize);
    var blocks: map<BlockId, Block>, ring: seq<BlockId>;
    if largestBlockSize > maxBlockSize * 2 {
      EnoughBlocks(maxSize, maxBlockSize);
      var initialBlockCount := (maxSize + maxBlockSize * 2 - 3) / (maxBlockSize - 1);
      largestBlockSize := maxBlockSize;
      blocks, ring := map[], [];
      var i := 0;
      while i != initialBlockCount
        invariant 0 <= i <= initialBlockCount && |ring| == i
        invariant RingOf(blocks, ring, largestBlockSize)
        decreases initialBlockCount - i
      {
        var block := i;
        if i > 0 {
          var lastBlock := i - 1;
          blocks := blocks[lastBlock := blocks[lastBlock].(next := block)];
        }
        blocks := blocks[block := EmptyBlock(largestBlockSize, 0)];
        ring := ring + [block];
        i := i + 1;
      }
    } else {
      blocks, ring := map[0 := EmptyBlock(largestBlockSize, 0)], [0];
    }
    s := State(blocks, 0, 0, largestBlockSize, maxBlockSize, maxSize, PIdle, CIdle, ring, 0, [], []);
    RingIsFresh(s);
  }

  // ----- Whole runs --------------------------------------------------------------

  ghost predicate Run(run: seq<State>, actions: seq<Action>) {
    && |run| == |actions| + 1
    && Fresh(run[0])
    && forall i :: 0 <= i < |actions| ==> Next(run[i], actions[i], run[i + 1])
  }

  lemma {:induction false} RunKeepsInv(run: seq<State>, actions: seq<Action>, n: nat)
    requires Run(run, actions) && n < |run|
    ensures Inv(run[n])
  {
    if n > 0 {
      RunKeepsInv(run, actions, n - 1);
      StepKeepsInv(run[n - 1], actions[n - 1], run[n]);
    }
  }

  /** In every interleaving of the producer and the consumer the queue is a FIFO sequence:
      what it holds is what was accepted and not yet dequeued, every dequeue and peek
      answers with the oldest of these, and "empty" is answered only if the queue was
      empty at an instant of that call. */
  lemma {:induction false} EveryRunIsFifo(run: seq<State>, actions: seq<Action>, n: nat)
    requires Run(run, actions) && n < |run|
    ensures var s := run[n];
            && Sound(s)
            && FifoAnswers(s.consumed, Sent(s.produced))
            && Taken(s.consumed) <= |Sent(s.produced)|
            && Sent(s.produced)[Taken(s.consumed)..] == Contents(s)
  {
    RunKeepsInv(run, actions, n);
  }

  /** A queue built for `maxSize` elements rejects one only if, at an instant of that
      call, it held at least `maxSize`. */
  lemma {:induction false} RejectedOnlyWhenFull(run: seq<State>, actions: seq<Action>, n: nat)
    requires Run(run, actions) && n < |run|
    ensures RejectsOnlyWhenFull(run[n].produced, run[n].maxSize)
  {
    RunKeepsInv(run, actions, n);
  }

  /** Throughout every run the blocks between the front and the tail block are full, those
      beyond the tail block are empty but for an element not yet published, and the block
      the consumer is about to enter is not empty. */
  lemma {:induction false} BlocksStayInOrder(run: seq<State>, actions: seq<Action>, n: nat, i: nat)
    requires Run(run, actions) && n < |run| && 0 < i < |run[n].ring|
    ensures var s := run[n];
            && Sound(s)
            && (i < s.tailPos ==> Full(s.blocks[s.ring[i]]))
            && (s.tailPos < i && Fill(s.blocks[s.ring[i]]) > 0 ==> s.producer.PAdvance? && i == s.tailPos + 1)
            && (i == 1 && (s.consumer.CNextTail? || s.consumer.CAdvance? || s.consumer.CPeekNext?) ==>
                  s.consumer.nb == s.ring[1] && Fill(s.blocks[s.ring[1]]) > 0)
  {
    var s := run[n];
    RunKeepsInv(run, actions, n);
    assert FillOk(s, i);
    if s.consumer.CNextTail? || s.consumer.CAdvance? || s.consumer.CPeekNext? {
      NextBlockNotEmpty(s, s.consumer.nb);
    }
  }

  // ----- size_approx -------------------------------------------------------------

  lemma {:induction false} Pow2Of64()
    ensures Pow2(64) == TWO_64
  {
    SmallPowers();
    hide Pow2;
    Pow2Sum(8, 8);
    Pow2Sum(16, 16);
    Pow2Sum(32, 32);
  }

  lemma {:induction false} SmallPowers()
    ensures Pow2(8) == 256
  {
  }

  /** A negative difference wraps to a multiple of the size plus its remainder. */
  lemma {:induction false} WrapNegative(d: nat, k: nat)
    requires 0 < d < Pow2(k) && k <= 64
    ensures Wrap(0 - d) == Pow2(k) * (Pow2(64 - k) - 1) + (Pow2(k) - d)
  {
    Pow2Of64();
    Pow2Monotone(k, 64);
    Pow2Sum(k, 64 - k);
    hide Pow2;
    WrapBelowZero(d);
    OneTimeLess(Pow2(k), Pow2(64 - k));
  }

  lemma {:induction false} WrapBelowZero(d: nat)
    requires 0 < d <= TWO_64
    ensures Wrap(0 - d) == TWO_64 - d
  {
  }

  lemma {:induction false} OneTimeLess(p: nat, q: nat)
    ensures p * (q - 1) == p * q - p
  {
  }

  /** `(tail - front) & sizeMask`, with the difference wrapped to 64 bits, is the distance. */
  lemma {:induction false} MaskedDistance(front: nat, tail: nat, size: nat, k: nat)
    requires front < size && tail < size && size == Pow2(k) && k <= 64
    ensures And(Wrap(tail - front), size - 1) == Dist(size, front, tail)
  {
    hide And, Pow2;
    MaskIsMod(Wrap(tail - front), k);
    if front <= tail {
      Pow2Of64();
      Pow2Monotone(k, 64);
      DivUnique(tail - front, size, 0, tail - front);
    } else {
      var d := front - tail;
      WrapNegative(d, k);
      DivUnique(Wrap(0 - d), size, Pow2(64 - k) - 1, size - d);
    }
  }

  /** The masked distance in a block is the number of its elements, and 0 beyond the tail block. */
  lemma {:induction false} CountInBlock(s: State, p: nat)
    requires Inv(s) && s.producer == PIdle && s.largestBlockSize <= TWO_64 && p < |s.ring|
    ensures var b := s.blocks[s.ring[p]];
            && And(Wrap(b.tail - b.front), b.size - 1) == |Items(b)|
            && (p > s.tailPos ==> |Items(b)| == 0) && b.next == s.ring[Succ(p, |s.ring|)]
  {
    hide And, Capacity;
    var b := s.blocks[s.ring[p]];
    assert SizeOk(s, s.ring[p]) && LinkOk(s, p) && FillOk(s, p);
    var k: nat :| b.size == Pow2(k);
    ExponentAtMost64(k);
    MaskedDistance(b.front, b.tail, b.size, k);
  }

  /** `size_approx`, called while no other call is in progress, is exact. */
  method SizeApprox(s: State) returns (result: nat)
    requires Inv(s) && s.producer == PIdle && s.largestBlockSize <= TWO_64
    ensures result == |Contents(s)|
  {
    hide Items, Capacity, And;
    result := 0;
    var block := s.frontBlock;
    ghost var p := 0;
    while true
      invariant 0 <= p < |s.ring| && block == s.ring[p]
      invariant result == |Join(s.blocks, s.ring[..if p < s.tailPos + 1 then p else s.tailPos + 1])|
      decreases |s.ring| - p
    {
      var b := s.blocks[block];
      CountInBlock(s, p);
      JoinNext(s, p);
      result := result + And(Wrap(b.tail - b.front), b.size - 1);
      block := b.next;
      if block == s.frontBlock {
        break;
      }
      p := p + 1;
    }
  }

  lemma {:induction false} ExponentAtMost64(k: nat)
    requires Pow2(k) <= TWO_64
    ensures k <= 64
  {
    Pow2Of64();
    if k > 64 {
      Pow2Monotone(65, k);
    }
  }

  lemma {:induction false} JoinNext(s: State, p: nat)
    requires Sound(s) && p < |s.ring|
    ensures p <= s.tailPos ==> Join(s.blocks, s.ring[..p + 1]) == Join(s.blocks, s.ring[..p]) + Items(s.blocks[s.ring[p]])
  {
    if p <= s.tailPos {
      assert s.ring[..p + 1] == s.ring[..p] + [s.ring[p]];
      JoinConcat(s.blocks, s.ring[..p], [s.ring[p]]);
      assert [s.ring[p]][1..] == [];
    }
  }
}
