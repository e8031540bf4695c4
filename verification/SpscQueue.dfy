/** `ReaderWriterQueue`: a single-producer, single-consumer queue built from ring buffers
    (blocks) that are themselves linked in a ring. The producer owns every tail, the
    consumer every front; each keeps a possibly stale copy of the other's index. One step
    is one access to a variable the other thread can see, together with the accesses to
    the thread's own variables before it; steps of the two threads interleave freely. */
module SpscQueue {
  import opened Bits

  type Element = int
  type BlockId = nat

  datatype Block = Block(size: nat, front: nat, tail: nat, localFront: nat, localTail: nat,
                         next: BlockId, data: seq<Element>)

  /** Between two steps of `inner_enqueue`. */
  datatype Producer =
    | PIdle
    | PCheck(e: Element, canAlloc: bool)
    | PFull(e: Element, canAlloc: bool, peak: nat)
    | PWrite(e: Element)
    | PPublish(e: Element)
    | PNextFront(e: Element)
    | PNextWrite(e: Element)
    | PNextTail(e: Element)
    | PSplice(e: Element, nb: BlockId)
    | PAdvance(e: Element)

  /** Between two steps of `try_dequeue` or `peek`. */
  datatype Consumer =
    | CIdle
    | CLoadTail(peek: bool)
    | CLoadTailBlock(peek: bool, wasEmpty: bool)
    | CReload(peek: bool)
    | CNext(peek: bool)
    | CNextTail(nb: BlockId)
    | CAdvance(nb: BlockId)
    | CPeekNext(nb: BlockId)
    | CRead(peek: bool)
    | CConsume(r: Element)

  /** What a call returned. */
  datatype Outcome =
    | Enqueued(e: Element)
    | Rejected(peak: nat)        // the most elements seen at an instant of the call
    | Dequeued(e: Element)
    | Peeked(e: Element)
    | FoundEmpty(wasEmpty: bool) // whether the queue was empty at an instant of the call

  /** The queue, its two threads, and histories: the blocks in ring order from the front
      block on, the position of the tail block in it, and what each call returned. */
  datatype State = State(blocks: map<BlockId, Block>, frontBlock: BlockId, tailBlock: BlockId,
                         largestBlockSize: nat, maxBlockSize: nat, maxSize: nat,
                         producer: Producer, consumer: Consumer,
                         ring: seq<BlockId>, tailPos: nat,
                         produced: seq<Outcome>, consumed: seq<Outcome>)

  // ----- Indices within a block --------------------------------------------------

  /** `(i + 1) & sizeMask`. */
  function After(b: Block, i: nat): nat
    requires b.size > 0
  {
    And(i + 1, b.size - 1)
  }

  /** The slot `k` places after `i`. */
  function Slot(size: nat, i: nat, k: nat): nat
    requires i < size && k <= size
  {
    if i + k < size then i + k else i + k - size
  }

  /** How many places `j` is after `i`. */
  function Dist(size: nat, i: nat, j: nat): (d: nat)
    requires i < size && j < size
    ensures d < size && Slot(size, i, d) == j
  {
    if i <= j then j - i else j + size - i
  }

  predicate BlockOk(b: Block) {
    b.front < b.size && b.tail < b.size && b.localFront < b.size && b.localTail < b.size && |b.data| == b.size
  }

  function Fill(b: Block): nat
    requires BlockOk(b)
  {
    Dist(b.size, b.front, b.tail)
  }

  /** The elements of a block, oldest first. */
  function Items(b: Block): (items: seq<Element>)
    requires BlockOk(b)
    ensures |items| == Fill(b)
  {
    seq(Fill(b), i requires 0 <= i < Fill(b) => b.data[Slot(b.size, b.front, i)])
  }

  predicate Full(b: Block)
    requires BlockOk(b)
  {
    Fill(b) == b.size - 1
  }

  /** The elements of the blocks of `ids` one after the other. */
  function Join(blocks: map<BlockId, Block>, ids: seq<BlockId>): seq<Element>
    requires forall id <- ids :: id in blocks && BlockOk(blocks[id])
  {
    if ids == [] then [] else Items(blocks[ids[0]]) + Join(blocks, ids[1..])
  }

  /** The abstract queue: everything from the front block to the tail block. */
  function Contents(s: State): seq<Element>
    requires Sound(s)
  {
    Join(s.blocks, s.ring[..s.tailPos + 1])
  }

  predicate Sound(s: State) {
    && s.tailPos < |s.ring|
    && (forall id <- s.ring :: id in s.blocks)
    && (forall id <- s.blocks :: BlockOk(s.blocks[id]))
    && s.frontBlock == s.ring[0] && s.tailBlock == s.ring[s.tailPos]
  }

  // ----- Steps -------------------------------------------------------------------

  function FrontB(s: State): Block
    requires Sound(s)
  {
    s.blocks[s.frontBlock]
  }

  function TailB(s: State): Block
    requires Sound(s)
  {
    s.blocks[s.tailBlock]
  }

  function Put(s: State, id: BlockId, b: Block): State {
    s.(blocks := s.blocks[id := b])
  }

  datatype Action = StartEnqueue(e: Element, canAlloc: bool) | Produce | Allocate(nb: BlockId)
                  | StartDequeue(peek: bool) | Consume

  predicate Next(s: State, a: Action, s': State) {
    Sound(s) &&
    match a
    case StartEnqueue(e, canAlloc) =>
      s.producer == PIdle &&
      s' == s.(producer := if After(TailB(s), TailB(s).tail) != TailB(s).localFront then PWrite(e) else PCheck(e, canAlloc))
    case Produce => ProducerStep(s, s')
    case Allocate(nb) => AllocStep(s, nb, s')
    case StartDequeue(peek) =>
      s.consumer == CIdle &&
      s' == s.(consumer := if FrontB(s).front != FrontB(s).localTail then CRead(peek) else CLoadTail(peek))
    case Consume => ConsumerStep(s, s')
  }

  predicate ProducerStep(s: State, s': State)
    requires Sound(s)
  {
    match s.producer
    case PIdle => false
    case PCheck(e, canAlloc) => CheckStep(s, e, canAlloc, s')
    case PFull(e, canAlloc, peak) => !(TailB(s).next == s.frontBlock && canAlloc) && FullStep(s, e, peak, s')
    case PWrite(e) => WriteStep(s, e, s')
    case PPublish(e) => PublishStep(s, e, s')
    case PNextFront(e) => NextFrontStep(s, e, s')
    case PNextWrite(e) => NextWriteStep(s, e, s')
    case PNextTail(e) => NextTailStep(s, e, s')
    case PSplice(e, nb) => SpliceStep(s, e, nb, s')
    case PAdvance(e) => AdvanceStep(s, e, s')
  }

  /** Reload the tail block's front. */
  predicate CheckStep(s: State, e: Element, canAlloc: bool, s': State)
    requires Sound(s)
  {
    var b := TailB(s);
    s' == Put(s, s.tailBlock, b.(localFront := b.front))
          .(producer := if After(b, b.tail) != b.front then PWrite(e) else PFull(e, canAlloc, |Contents(s)|))
  }

  /** The tail block is full: is the next block the front block? If it is and nothing may
      be allocated, the enqueue fails. */
  predicate FullStep(s: State, e: Element, peak: nat, s': State)
    requires Sound(s)
  {
    if TailB(s).next != s.frontBlock then s' == s.(producer := PNextFront(e))
    else
      var seen := if peak < |Contents(s)| then |Contents(s)| else peak;
      s' == s.(producer := PIdle, produced := s.produced + [Rejected(seen)])
  }

  predicate WriteStep(s: State, e: Element, s': State)
    requires Sound(s)
  {
    var b := TailB(s);
    s' == Put(s, s.tailBlock, b.(data := b.data[b.tail := e])).(producer := PPublish(e))
  }

  predicate PublishStep(s: State, e: Element, s': State)
    requires Sound(s)
  {
    var b := TailB(s);
    s' == Put(s, s.tailBlock, b.(tail := After(b, b.tail))).(producer := PIdle, produced := s.produced + [Enqueued(e)])
  }

  predicate NextFrontStep(s: State, e: Element, s': State)
    requires Sound(s)
  {
    var nb := TailB(s).next;
    && nb in s.blocks
    && var b := s.blocks[nb];
       s' == Put(s, nb, b.(localFront := b.front)).(producer := PNextWrite(e))
  }

  predicate NextWriteStep(s: State, e: Element, s': State)
    requires Sound(s)
  {
    var nb := TailB(s).next;
    && nb in s.blocks
    && var b := s.blocks[nb];
       s' == Put(s, nb, b.(data := b.data[b.tail := e])).(producer := PNextTail(e))
  }

  predicate NextTailStep(s: State, e: Element, s': State)
    requires Sound(s)
  {
    var nb := TailB(s).next;
    && nb in s.blocks
    && var b := s.blocks[nb];
       s' == Put(s, nb, b.(tail := After(b, b.tail))).(producer := PAdvance(e))
  }

  /** A new block, at least as large as any before, that already holds the element. */
  predicate AllocStep(s: State, nb: BlockId, s': State)
    requires Sound(s)
  {
    && s.producer.PFull? && s.producer.canAlloc && TailB(s).next == s.frontBlock && nb !in s.blocks
    && var e := s.producer.e;
       var size := if s.largestBlockSize >= s.maxBlockSize then s.largestBlockSize else 2 * s.largestBlockSize;
       s' == Put(s, nb, Block(size, 0, 1, 0, 1, TailB(s).next, seq(size, _ => e)))
             .(largestBlockSize := size, producer := PSplice(e, nb))
  }

  predicate SpliceStep(s: State, e: Element, nb: BlockId, s': State)
    requires Sound(s)
  {
    s' == Put(s, s.tailBlock, TailB(s).(next := nb))
          .(ring := s.ring[..s.tailPos + 1] + [nb] + s.ring[s.tailPos + 1..], producer := PAdvance(e))
  }

  predicate AdvanceStep(s: State, e: Element, s': State)
    requires Sound(s)
  {
    s' == s.(tailBlock := TailB(s).next, tailPos := s.tailPos + 1, producer := PIdle,
             produced := s.produced + [Enqueued(e)])
  }

  predicate ConsumerStep(s: State, s': State)
    requires Sound(s)
  {
    match s.consumer
    case CIdle => false
    case CLoadTail(peek) => LoadTailStep(s, peek, s')
    case CLoadTailBlock(peek, wasEmpty) =>
      s' == if s.frontBlock != s.tailBlock then s.(consumer := CReload(peek))
            else s.(consumer := CIdle, consumed := s.consumed + [FoundEmpty(wasEmpty)])
    case CReload(peek) => ReloadStep(s, peek, s')
    case CNext(peek) =>
      s' == s.(consumer := if peek then CPeekNext(FrontB(s).next) else CNextTail(FrontB(s).next))
    case CNextTail(nb) => nb in s.blocks && EnterStep(s, nb, s')
    case CAdvance(nb) => LeaveStep(s, nb, s')
    case CPeekNext(nb) =>
      nb in s.blocks &&
      s' == s.(consumer := CIdle, consumed := s.consumed + [Peeked(s.blocks[nb].data[s.blocks[nb].front])])
    case CRead(peek) => ReadStep(s, peek, s')
    case CConsume(r) => ConsumeStep(s, r, s')
  }

  predicate LoadTailStep(s: State, peek: bool, s': State)
    requires Sound(s)
  {
    var b := FrontB(s);
    s' == Put(s, s.frontBlock, b.(localTail := b.tail))
          .(consumer := if b.front != b.tail then CRead(peek) else CLoadTailBlock(peek, Contents(s) == []))
  }

  predicate ReloadStep(s: State, peek: bool, s': State)
    requires Sound(s)
  {
    var b := FrontB(s);
    s' == Put(s, s.frontBlock, b.(localTail := b.tail))
          .(consumer := if b.front != b.tail then CRead(peek) else CNext(peek))
  }

  /** Load the tail of the block about to be entered. */
  predicate EnterStep(s: State, nb: BlockId, s': State)
    requires Sound(s) && nb in s.blocks
  {
    var b := s.blocks[nb];
    s' == Put(s, nb, b.(localTail := b.tail)).(consumer := CAdvance(nb))
  }

  /** The store to `frontBlock`; the block left behind is now the last of the ring. */
  predicate LeaveStep(s: State, nb: BlockId, s': State)
    requires Sound(s)
  {
    s.tailPos > 0 &&
    s' == s.(frontBlock := nb, ring := s.ring[1..] + [s.ring[0]], tailPos := s.tailPos - 1, consumer := CRead(false))
  }

  predicate ReadStep(s: State, peek: bool, s': State)
    requires Sound(s)
  {
    var r := FrontB(s).data[FrontB(s).front];
    s' == if peek then s.(consumer := CIdle, consumed := s.consumed + [Peeked(r)])
          else s.(consumer := CConsume(r))
  }

  predicate ConsumeStep(s: State, r: Element, s': State)
    requires Sound(s)
  {
    var b := FrontB(s);
    s' == Put(s, s.frontBlock, b.(front := After(b, b.front)))
          .(consumer := CIdle, consumed := s.consumed + [Dequeued(r)])
  }

  // ----- What the answers should be ----------------------------------------------

  /** The elements accepted, in the order in which they were accepted. */
  function Sent(produced: seq<Outcome>): seq<Element> {
    if produced == [] then []
    else
      var last := produced[|produced| - 1];
      Sent(produced[..|produced| - 1]) + (if last.Enqueued? then [last.e] else [])
  }

  function Taken(consumed: seq<Outcome>): nat {
    if consumed == [] then 0
    else Taken(consumed[..|consumed| - 1]) + (if consumed[|consumed| - 1].Dequeued? then 1 else 0)
  }

  /** Each dequeue or peek answered with the oldest element not yet dequeued, or found the
      queue empty when it was empty at an instant of the call. */
  predicate FifoAnswers(consumed: seq<Outcome>, sent: seq<Element>) {
    consumed == [] ||
    var before := consumed[..|consumed| - 1];
    && FifoAnswers(before, sent)
    && match consumed[|consumed| - 1]
       case Dequeued(e) => Taken(before) < |sent| && sent[Taken(before)] == e
       case Peeked(e) => Taken(before) < |sent| && sent[Taken(before)] == e
       case FoundEmpty(wasEmpty) => wasEmpty
       case _ => false
  }

  /** An enqueue is rejected only if the queue held at least `maxSize` elements at an
      instant of the call. */
  predicate RejectsOnlyWhenFull(produced: seq<Outcome>, maxSize: nat) {
    forall i :: 0 <= i < |produced| ==> match produced[i]
                                        case Enqueued(_) => true
                                        case Rejected(peak) => peak >= maxSize
                                        case _ => false
  }

  // ----- The invariant -----------------------------------------------------------

  function Succ(i: nat, n: nat): nat
    requires i < n
  {
    if i + 1 == n then 0 else i + 1
  }

  /** The next pointers follow the ring. */
  predicate LinkOk(s: State, i: nat)
    requires Sound(s)
  {
    i < |s.ring| ==> s.blocks[s.ring[i]].next == s.ring[Succ(i, |s.ring|)]
  }

  ghost predicate SizeOk(s: State, id: BlockId)
    requires id in s.blocks
  {
    IsPow2(s.blocks[id].size) && 2 <= s.blocks[id].size <= s.largestBlockSize
  }

  /** How many elements the blocks of `ids` can hold: one slot of each stays unused. */
  function Capacity(blocks: map<BlockId, Block>, ids: seq<BlockId>): int
    requires forall id <- ids :: id in blocks
  {
    if ids == [] then 0 else blocks[ids[0]].size - 1 + Capacity(blocks, ids[1..])
  }

  /** With more than one block, `maxSize` elements fit even if one block cannot be used. */
  predicate Roomy(s: State)
    requires Sound(s)
  {
    if |s.ring| == 1 then s.blocks[s.ring[0]].size - 1 >= s.maxSize
    else forall id <- s.ring :: Capacity(s.blocks, s.ring) - (s.blocks[id].size - 1) >= s.maxSize
  }

  predicate Distinct(ids: seq<BlockId>) {
    forall i, j :: 0 <= i < j < |ids| ==> ids[i] != ids[j]
  }

  /** What never changes but by adding a block. */
  ghost predicate Core(s: State) {
    && Sound(s) && Distinct(s.ring) && Roomy(s)
    && (forall i {:trigger LinkOk(s, i)} :: 0 <= i < |s.ring| ==> LinkOk(s, i))
    && (forall id {:trigger SizeOk(s, id)} :: id in s.blocks ==> SizeOk(s, id))
    && IsPow2(s.largestBlockSize) && IsPow2(s.maxBlockSize) && 2 <= s.largestBlockSize
  }

  /** Blocks strictly between the front and the tail block are full, a tail block behind
      the front block is not empty, and the blocks beyond the tail block are empty, except
      for the one the producer has just written to and is about to make the tail block. */
  predicate FillOk(s: State, i: nat)
    requires Sound(s) && i < |s.ring|
  {
    var b := s.blocks[s.ring[i]];
    && (0 < i < s.tailPos ==> Full(b))
    && (0 < i == s.tailPos ==> Fill(b) > 0)
    && (s.tailPos < i && !(s.producer.PAdvance? && i == s.tailPos + 1) ==> Fill(b) == 0)
  }

  /** The producer's copy of the front lies at or before the front. */
  predicate TailCacheOk(b: Block)
    requires BlockOk(b)
  {
    Dist(b.size, b.localFront, b.front) <= Dist(b.size, b.localFront, b.tail)
  }

  /** The consumer's copy of the tail lies at or before the tail. */
  predicate FrontCacheOk(b: Block)
    requires BlockOk(b)
  {
    Dist(b.size, b.front, b.localTail) <= Fill(b)
  }

  predicate HasRoom(b: Block)
    requires BlockOk(b)
  {
    Dist(b.size, b.localFront, b.tail) < b.size - 1
  }

  predicate ProducerOk(s: State)
    requires Sound(s)
  {
    var b := TailB(s);
    match s.producer
    case PIdle => true
    case PCheck(_, _) => true
    case PWrite(e) => HasRoom(b)
    case PPublish(e) => HasRoom(b) && b.data[b.tail] == e
    case PFull(_, _, peak) => (s.tailPos > 0 ==> Full(b)) && (|s.ring| == 1 ==> peak >= s.maxSize)
    case PSplice(e, nb) => (s.tailPos > 0 ==> Full(b)) && NewBlockOk(s, e, nb)
    case PNextFront(_) => NextFree(s)
    case PNextWrite(_) => NextFree(s) && NextB(s).localFront == NextB(s).front
    case PNextTail(e) => NextFree(s) && NextB(s).localFront == NextB(s).front && NextB(s).data[NextB(s).tail] == e
    case PAdvance(e) => NextFree(s) && NextB(s).localFront == NextB(s).front && Items(NextB(s)) == [e]
  }

  /** The tail block was found full, and the block after it is not the front block. */
  predicate NextFree(s: State)
    requires Sound(s)
  {
    (s.tailPos > 0 ==> Full(TailB(s))) && s.tailPos + 1 < |s.ring|
  }

  function NextB(s: State): Block
    requires Sound(s) && s.tailPos + 1 < |s.ring|
  {
    s.blocks[s.ring[s.tailPos + 1]]
  }

  predicate NewBlockOk(s: State, e: Element, nb: BlockId)
    requires Sound(s)
  {
    && nb in s.blocks && nb !in s.ring
    && var n := s.blocks[nb];
       && n.next == TailB(s).next && n.localFront == n.front && Items(n) == [e]
       && n.size == s.largestBlockSize
  }

  predicate ConsumerOk(s: State)
    requires Sound(s)
  {
    var b := FrontB(s);
    match s.consumer
    case CIdle => true
    case CLoadTail(_) => true
    case CLoadTailBlock(_, wasEmpty) => s.tailPos == 0 ==> wasEmpty
    case CReload(_) => s.tailPos > 0
    case CNext(_) => s.tailPos > 0 && Fill(b) == 0
    case CNextTail(nb) => Leaving(s, nb)
    case CPeekNext(nb) => Leaving(s, nb)
    case CAdvance(nb) =>
      Leaving(s, nb) && s.blocks[nb].front != s.blocks[nb].localTail && FrontCacheOk(s.blocks[nb])
    case CRead(_) => b.front != b.localTail
    case CConsume(r) => b.front != b.localTail && b.data[b.front] == r
  }

  /** The front block is used up and `nb` is the block after it. */
  predicate Leaving(s: State, nb: BlockId)
    requires Sound(s)
  {
    s.tailPos > 0 && Fill(FrontB(s)) == 0 && nb == s.ring[1]
  }

  /** The history agrees with what the queue holds. */
  predicate HistoryOk(s: State)
    requires Sound(s)
  {
    && FifoAnswers(s.consumed, Sent(s.produced))
    && RejectsOnlyWhenFull(s.produced, s.maxSize)
    && Taken(s.consumed) <= |Sent(s.produced)|
    && Sent(s.produced)[Taken(s.consumed)..] == Contents(s)
  }

  ghost predicate Inv(s: State) {
    && Core(s)
    && (forall i {:trigger FillOk(s, i)} :: 0 <= i < |s.ring| ==> FillOk(s, i))
    && TailCacheOk(TailB(s)) && FrontCacheOk(FrontB(s))
    && ProducerOk(s) && ConsumerOk(s)
    && HistoryOk(s)
  }

  // ----- Blocks and their elements -----------------------------------------------

  lemma {:induction false} AfterIsSlot(b: Block, i: nat)
    requires IsPow2(b.size) && i < b.size && 2 <= b.size
    ensures After(b, i) == Slot(b.size, i, 1)
  {
    MaskedSuccessor(i, b.size);
  }

  lemma {:induction false} PublishItems(b: Block)
    requires BlockOk(b) && IsPow2(b.size) && 2 <= b.size && !Full(b)
    ensures var b' := b.(tail := After(b, b.tail));
            && BlockOk(b') && Fill(b') == Fill(b) + 1
            && Items(b') == Items(b) + [b.data[b.tail]]
  {
    AfterIsSlot(b, b.tail);
  }

  lemma {:induction false} ConsumeItems(b: Block)
    requires BlockOk(b) && IsPow2(b.size) && 2 <= b.size && Fill(b) > 0
    ensures var b' := b.(front := After(b, b.front));
            && BlockOk(b') && Fill(b') == Fill(b) - 1
            && Items(b) == [b.data[b.front]] + Items(b')
  {
    AfterIsSlot(b, b.front);
  }

  /** The slot to be written next holds none of the elements. */
  lemma {:induction false} WriteItems(b: Block, e: Element)
    requires BlockOk(b)
    ensures var b' := b.(data := b.data[b.tail := e]); BlockOk(b') && Items(b') == Items(b)
  {
  }

  lemma {:induction false} JoinConcat(blocks: map<BlockId, Block>, a: seq<BlockId>, b: seq<BlockId>)
    requires forall id <- a + b :: id in blocks && BlockOk(blocks[id])
    ensures forall id <- a :: id in blocks && BlockOk(blocks[id])
    ensures forall id <- b :: id in blocks && BlockOk(blocks[id])
    ensures Join(blocks, a + b) == Join(blocks, a) + Join(blocks, b)
  {
    hide Items, BlockOk;
    assert forall id <- a :: id in a + b;
    assert forall id <- b :: id in a + b;
    if a == [] {
      assert a + b == b;
    } else {
      assert (a + b)[1..] == a[1..] + b;
      JoinConcat(blocks, a[1..], b);
    }
  }

  lemma {:induction false} JoinFrame(blocks: map<BlockId, Block>, blocks': map<BlockId, Block>, ids: seq<BlockId>)
    requires forall id <- ids :: id in blocks && BlockOk(blocks[id])
    requires forall id <- ids :: id in blocks' && BlockOk(blocks'[id]) && Items(blocks'[id]) == Items(blocks[id])
    ensures Join(blocks', ids) == Join(blocks, ids)
  {
    if ids != [] {
      JoinFrame(blocks, blocks', ids[1..]);
    }
  }

  lemma {:induction false} CapacityFrame(blocks: map<BlockId, Block>, blocks': map<BlockId, Block>, ids: seq<BlockId>)
    requires forall id <- ids :: id in blocks && id in blocks' && blocks'[id].size == blocks[id].size
    ensures Capacity(blocks', ids) == Capacity(blocks, ids)
  {
    if ids != [] {
      CapacityFrame(blocks, blocks', ids[1..]);
    }
  }

  lemma {:induction false} CapacityConcat(blocks: map<BlockId, Block>, a: seq<BlockId>, b: seq<BlockId>)
    requires forall id <- a :: id in blocks
    requires forall id <- b :: id in blocks
    ensures Capacity(blocks, a + b) == Capacity(blocks, a) + Capacity(blocks, b)
  {
    if a == [] {
      assert a + b == b;
    } else {
      assert (a + b)[1..] == a[1..] + b;
      CapacityConcat(blocks, a[1..], b);
    }
  }

  // ----- Steps that change one block ---------------------------------------------

  /** Only the indices or data of the block at position `p` of the ring change. */
  ghost predicate OneBlock(s: State, p: nat, b: Block, s': State)
    requires Sound(s)
  {
    && p < |s.ring| && BlockOk(b)
    && b.size == s.blocks[s.ring[p]].size && b.next == s.blocks[s.ring[p]].next
    && s'.blocks == s.blocks[s.ring[p] := b]
    && SameRing(s, s')
  }

  predicate SameRing(s: State, s': State) {
    && s'.ring == s.ring && s'.tailPos == s.tailPos
    && s'.frontBlock == s.frontBlock && s'.tailBlock == s.tailBlock
    && s'.largestBlockSize == s.largestBlockSize && s'.maxBlockSize == s.maxBlockSize && s'.maxSize == s.maxSize
  }

  lemma {:induction false} OneBlockCore(s: State, p: nat, b: Block, s': State)
    requires Core(s) && OneBlock(s, p, b, s')
    ensures Core(s')
  {
    forall i | 0 <= i < |s'.ring| ensures LinkOk(s', i) {
      assert LinkOk(s, i);
    }
    forall id | id in s'.blocks ensures SizeOk(s', id) {
      assert SizeOk(s, id);
    }
    CapacityFrame(s.blocks, s'.blocks, s.ring);
  }

  lemma {:induction false} OneBlockFills(s: State, p: nat, b: Block, s': State, i: nat)
    requires Sound(s) && Sound(s') && Distinct(s.ring) && OneBlock(s, p, b, s') && i < |s.ring| && i != p
    requires FillOk(s, i)
    requires s'.producer.PAdvance? || !s.producer.PAdvance?
    ensures FillOk(s', i)
  {
  }

  /** Blocks at other positions keep their elements. */
  lemma {:induction false} OneBlockJoin(s: State, p: nat, b: Block, s': State, from: nat, to: nat)
    requires Sound(s) && Sound(s') && Distinct(s.ring) && OneBlock(s, p, b, s')
    requires from <= to <= |s.ring| && !(from <= p < to)
    ensures Join(s'.blocks, s.ring[from..to]) == Join(s.blocks, s.ring[from..to])
  {
    JoinFrame(s.blocks, s'.blocks, s.ring[from..to]);
  }

  /** The contents change as the elements of the one block do. */
  lemma {:induction false} OneBlockContents(s: State, p: nat, b: Block, s': State)
    requires Sound(s) && Sound(s') && Distinct(s.ring) && OneBlock(s, p, b, s')
    ensures p > s.tailPos ==> Contents(s') == Contents(s)
    ensures p <= s.tailPos ==>
      && Contents(s) == Join(s.blocks, s.ring[..p]) + Items(s.blocks[s.ring[p]]) + Join(s.blocks, s.ring[p + 1..s.tailPos + 1])
      && Contents(s') == Join(s.blocks, s.ring[..p]) + Items(b) + Join(s.blocks, s.ring[p + 1..s.tailPos + 1])
  {
    if p > s.tailPos {
      OneBlockJoin(s, p, b, s', 0, s.tailPos + 1);
    } else {
      SplitContents(s, p);
      SplitContents(s', p);
      OneBlockJoin(s, p, b, s', 0, p);
      OneBlockJoin(s, p, b, s', p + 1, s.tailPos + 1);
    }
  }

  lemma {:induction false} SplitContents(s: State, p: nat)
    requires Sound(s) && p <= s.tailPos
    ensures Contents(s) == Join(s.blocks, s.ring[..p]) + Items(s.blocks[s.ring[p]]) + Join(s.blocks, s.ring[p + 1..s.tailPos + 1])
  {
    hide Join, Items;
    var a, z := s.ring[..p], s.ring[p + 1..s.tailPos + 1];
    var m := [s.ring[p]] + z;
    assert s.ring[..s.tailPos + 1] == a + m;
    JoinConcat(s.blocks, a, m);
    JoinFirst(s.blocks, s.ring[p], z);
  }

  lemma {:induction false} JoinFirst(blocks: map<BlockId, Block>, id: BlockId, rest: seq<BlockId>)
    requires forall i <- [id] + rest :: i in blocks && BlockOk(blocks[i])
    ensures id in blocks && (forall i <- rest :: i in blocks && BlockOk(blocks[i]))
    ensures Join(blocks, [id] + rest) == Items(blocks[id]) + Join(blocks, rest)
  {
    hide Items, BlockOk;
    assert id in [id] + rest;
    assert forall i <- rest :: i in [id] + rest;
    assert ([id] + rest)[1..] == rest;
  }

  /** A change of the block at `p` keeps the invariant if the block is as full as its
      place in the ring demands and what the two threads and the history say still holds. */
  lemma {:induction false} OneBlockInv(s: State, p: nat, b: Block, s': State)
    requires Inv(s) && OneBlock(s, p, b, s') && Core(s')
    requires s'.producer.PAdvance? || !s.producer.PAdvance?
    requires FillOk(s', p)
    requires TailCacheOk(TailB(s')) && FrontCacheOk(FrontB(s')) && ProducerOk(s') && ConsumerOk(s') && HistoryOk(s')
    ensures Inv(s')
  {
    forall i | 0 <= i < |s'.ring| ensures FillOk(s', i) {
      if i != p {
        assert FillOk(s, i);
        OneBlockFills(s, p, b, s', i);
      }
    }
  }

  /** A step that changes no block, only what a thread is about to do. */
  lemma {:induction false} NoBlockInv(s: State, s': State)
    requires Inv(s) && s'.blocks == s.blocks && SameRing(s, s')
    requires s'.producer.PAdvance? <==> s.producer.PAdvance?
    requires Sound(s') ==> ProducerOk(s') && ConsumerOk(s') && HistoryOk(s')
    ensures Inv(s')
  {
    forall i | 0 <= i < |s'.ring| ensures LinkOk(s', i) && FillOk(s', i) {
      assert LinkOk(s, i) && FillOk(s, i);
    }
    forall id | id in s'.blocks ensures SizeOk(s', id) {
      assert SizeOk(s, id);
    }
  }

  // ----- The producer's steps ----------------------------------------------------

  lemma {:induction false} CheckKeepsInv(s: State, e: Element, canAlloc: bool, s': State)
    requires Inv(s) && s.producer == PCheck(e, canAlloc) && CheckStep(s, e, canAlloc, s')
    ensures Inv(s')
  {
    hide FifoAnswers, RejectsOnlyWhenFull, Sent, Taken;
    var b := TailB(s);
    var b' := b.(localFront := b.front);
    assert SizeOk(s, s.tailBlock) && FillOk(s, s.tailPos);
    AfterIsSlot(b, b.tail);
    OneBlockCore(s, s.tailPos, b', s');
    OneBlockContents(s, s.tailPos, b', s');
    assert Items(b') == Items(b);
    if |s.ring| == 1 {
      SplitContents(s, 0);
    }
    OneBlockInv(s, s.tailPos, b', s');
  }

  lemma {:induction false} WriteKeepsInv(s: State, e: Element, s': State)
    requires Inv(s) && s.producer == PWrite(e) && WriteStep(s, e, s')
    ensures Inv(s')
  {
    hide Roomy, Taken, Dist;
    var b := TailB(s);
    var b' := b.(data := b.data[b.tail := e]);
    assert SizeOk(s, s.tailBlock) && FillOk(s, s.tailPos);
    WriteItems(b, e);
    OneBlockCore(s, s.tailPos, b', s');
    OneBlockContents(s, s.tailPos, b', s');
    OneBlockInv(s, s.tailPos, b', s');
  }

  lemma {:induction false} PublishKeepsInv(s: State, e: Element, s': State)
    requires Inv(s) && s.producer == PPublish(e) && PublishStep(s, e, s')
    ensures Inv(s')
  {
    hide Items, IsPow2;
    var b := TailB(s);
    var b' := b.(tail := After(b, b.tail));
    assert SizeOk(s, s.tailBlock) && FillOk(s, s.tailPos);
    AfterIsSlot(b, b.tail);
    PublishItems(b);
    OneBlockCore(s, s.tailPos, b', s');
    OneBlockContents(s, s.tailPos, b', s');
    assert s.ring[s.tailPos + 1..s.tailPos + 1] == [];
    SentAppend(s, Enqueued(e), s', [e]);
    OneBlockInv(s, s.tailPos, b', s');
  }

  /** An enqueue that returns: the accepted elements and the contents grow by the same. */
  lemma {:induction false} SentAppend(s: State, o: Outcome, s': State, added: seq<Element>)
    requires Sound(s) && Sound(s') && HistoryOk(s)
    requires s'.produced == s.produced + [o] && s'.consumed == s.consumed && s'.maxSize == s.maxSize
    requires (o.Rejected? && o.peak >= s.maxSize && added == []) || (o.Enqueued? && added == [o.e])
    requires Contents(s') == Contents(s) + added
    ensures HistoryOk(s')
  {
    assert s'.produced[..|s'.produced| - 1] == s.produced;
    assert Sent(s'.produced) == Sent(s.produced) + added;
    AnswersStay(s.consumed, Sent(s.produced), added);
  }

  lemma {:induction false} AnswersStay(consumed: seq<Outcome>, sent: seq<Element>, added: seq<Element>)
    requires FifoAnswers(consumed, sent)
    ensures FifoAnswers(consumed, sent + added)
  {
    if consumed != [] {
      AnswersStay(consumed[..|consumed| - 1], sent, added);
    }
  }

  lemma {:induction false} FullBlocksHold(blocks: map<BlockId, Block>, ids: seq<BlockId>)
    requires forall id <- ids :: id in blocks && BlockOk(blocks[id]) && Full(blocks[id])
    ensures |Join(blocks, ids)| == Capacity(blocks, ids)
  {
    if ids != [] {
      FullBlocksHold(blocks, ids[1..]);
    }
  }

  /** With no block left beyond a full tail block, all blocks but the front one are full. */
  lemma {:induction false} NoBlockLeft(s: State)
    requires Inv(s) && s.tailPos == |s.ring| - 1 > 0 && Full(TailB(s))
    ensures |Contents(s)| >= s.maxSize
  {
    var others := s.ring[1..];
    forall id <- others ensures Full(s.blocks[id]) {
      var i :| 0 <= i < |others| && others[i] == id;
      assert FillOk(s, i + 1);
    }
    FullBlocksHold(s.blocks, others);
    SplitContents(s, 0);
    assert s.ring[0 + 1..s.tailPos + 1] == others;
  }

  /** The next pointer of the tail block leads to the front block exactly when the tail
      block is the last of the ring. */
  lemma {:induction false} TailNext(s: State)
    requires Core(s)
    ensures TailB(s).next == s.ring[Succ(s.tailPos, |s.ring|)]
    ensures TailB(s).next == s.frontBlock <==> s.tailPos == |s.ring| - 1
  {
    assert LinkOk(s, s.tailPos);
  }

  lemma {:induction false} FullKeepsInv(s: State, e: Element, canAlloc: bool, peak: nat, s': State)
    requires Inv(s) && s.producer == PFull(e, canAlloc, peak) && FullStep(s, e, peak, s')
    ensures Inv(s')
  {
    hide Roomy, Slot;
    TailNext(s);
    if TailB(s).next == s.frontBlock {
      if s.tailPos > 0 {
        NoBlockLeft(s);
      }
      var seen := if peak < |Contents(s)| then |Contents(s)| else peak;
      SentAppend(s, Rejected(seen), s', []);
    }
    NoBlockInv(s, s');
  }

  lemma {:induction false} NextFrontKeepsInv(s: State, e: Element, s': State)
    requires Inv(s) && s.producer == PNextFront(e) && NextFrontStep(s, e, s')
    ensures Inv(s')
  {
    hide Roomy, FifoAnswers, RejectsOnlyWhenFull, Sent, Taken;
    TailNext(s);
    var p, b := s.tailPos + 1, NextB(s);
    var b' := b.(localFront := b.front);
    assert FillOk(s, p);
    OneBlockCore(s, p, b', s');
    OneBlockContents(s, p, b', s');
    OneBlockInv(s, p, b', s');
  }

  lemma {:induction false} NextWriteKeepsInv(s: State, e: Element, s': State)
    requires Inv(s) && s.producer == PNextWrite(e) && NextWriteStep(s, e, s')
    ensures Inv(s')
  {
    hide Roomy, FifoAnswers;
    TailNext(s);
    var p, b := s.tailPos + 1, NextB(s);
    var b' := b.(data := b.data[b.tail := e]);
    assert FillOk(s, p);
    OneBlockCore(s, p, b', s');
    OneBlockContents(s, p, b', s');
    OneBlockInv(s, p, b', s');
  }

  lemma {:induction false} NextTailKeepsInv(s: State, e: Element, s': State)
    requires Inv(s) && s.producer == PNextTail(e) && NextTailStep(s, e, s')
    ensures Inv(s')
  {
    hide Roomy, Taken, Dist;
    TailNext(s);
    var p, b := s.tailPos + 1, NextB(s);
    var b' := b.(tail := After(b, b.tail));
    assert SizeOk(s, s.ring[p]) && FillOk(s, p);
    AfterIsSlot(b, b.tail);
    PublishItems(b);
    assert Items(b') == [e];
    OneBlockCore(s, p, b', s');
    OneBlockContents(s, p, b', s');
    OneBlockInv(s, p, b', s');
  }

  /** The store to `tailBlock`: the element written to the next block is now in the queue. */
  lemma {:induction false} AdvanceKeepsInv(s: State, e: Element, s': State)
    requires Inv(s) && s.producer == PAdvance(e) && AdvanceStep(s, e, s')
    ensures Inv(s')
  {
    TailNext(s);
    forall i | 0 <= i < |s'.ring| ensures LinkOk(s', i) && FillOk(s', i) {
      assert LinkOk(s, i) && FillOk(s, i);
    }
    forall id | id in s'.blocks ensures SizeOk(s', id) {
      assert SizeOk(s, id);
    }
    SplitContents(s', s'.tailPos);
    assert s'.ring[s'.tailPos + 1..s'.tailPos + 1] == [];
    SentAppend(s, Enqueued(e), s', [e]);
  }

  lemma {:induction false} AllocCore(s: State, nb: BlockId, s': State)
    requires Core(s) && AllocStep(s, nb, s')
    ensures Core(s') && SizeOk(s', nb)
  {
    Pow2Double(s.largestBlockSize);
    forall id | id in s'.blocks ensures SizeOk(s', id) {
      assert id != nb ==> SizeOk(s, id);
    }
    forall i | 0 <= i < |s'.ring| ensures LinkOk(s', i) {
      assert LinkOk(s, i);
    }
    CapacityFrame(s.blocks, s'.blocks, s.ring);
  }

  lemma {:induction false} AllocKeepsInv(s: State, nb: BlockId, s': State)
    requires Inv(s) && AllocStep(s, nb, s')
    ensures Inv(s')
  {
    hide Join, BlockOk, Roomy;
    AllocCore(s, nb, s');
    forall i | 0 <= i < |s'.ring| ensures FillOk(s', i) {
      assert FillOk(s, i);
    }
    JoinFrame(s.blocks, s'.blocks, s.ring[..s.tailPos + 1]);
    assert Items(s'.blocks[nb]) == [s.producer.e];
  }

  lemma {:induction false} Pow2Double(p: nat)
    requires IsPow2(p)
    ensures IsPow2(2 * p)
  {
    var k: nat :| p == Pow2(k);
    assert 2 * p == Pow2(k + 1);
  }

  lemma {:induction false} SpliceLinks(s: State, e: Element, nb: BlockId, s': State, i: nat)
    requires Core(s) && NewBlockOk(s, e, nb) && SpliceStep(s, e, nb, s') && Sound(s')
    requires i < |s'.ring|
    ensures LinkOk(s', i)
  {
    TailNext(s);
    assert s'.ring[s.tailPos + 1] == nb;
    if i < s.tailPos {
      assert LinkOk(s, i);
    } else if i > s.tailPos + 1 {
      assert LinkOk(s, i - 1);
    }
  }

  /** The new block adds its own capacity. */
  lemma {:induction false} CapacityFirst(blocks: map<BlockId, Block>, id: BlockId, rest: seq<BlockId>)
    requires forall i <- [id] + rest :: i in blocks
    ensures id in blocks && (forall i <- rest :: i in blocks)
    ensures Capacity(blocks, [id] + rest) == blocks[id].size - 1 + Capacity(blocks, rest)
  {
    assert id in [id] + rest;
    assert forall i <- rest :: i in [id] + rest;
    assert ([id] + rest)[1..] == rest;
  }

  lemma {:induction false} SpliceCapacity(s: State, e: Element, nb: BlockId, s': State)
    requires Sound(s) && NewBlockOk(s, e, nb) && SpliceStep(s, e, nb, s') && Sound(s')
    ensures Capacity(s'.blocks, s'.ring) == Capacity(s.blocks, s.ring) + s.blocks[nb].size - 1
  {
    hide Items, Fill, BlockOk, Capacity;
    var a, z := s.ring[..s.tailPos + 1], s.ring[s.tailPos + 1..];
    assert s.ring == a + z && s'.ring == a + ([nb] + z);
    CapacityConcat(s.blocks, a, z);
    CapacityConcat(s.blocks, a, [nb] + z);
    CapacityFirst(s.blocks, nb, z);
    CapacityFrame(s.blocks, s'.blocks, s'.ring);
  }

  lemma {:induction false} SpliceRoom(s: State, e: Element, nb: BlockId, s': State)
    requires Core(s) && NewBlockOk(s, e, nb) && SpliceStep(s, e, nb, s') && Sound(s')
    ensures Roomy(s')
  {
    hide Items, Fill, BlockOk, LinkOk, Distinct;
    SpliceCapacity(s, e, nb, s');
    assert SizeOk(s, nb) && SizeOk(s, s.ring[0]);
    forall id <- s.ring ensures SizeOk(s, id) {
    }
    if |s.ring| == 1 {
      assert s.ring[1..] == [];
      assert Capacity(s.blocks, s.ring) == s.blocks[s.ring[0]].size - 1;
    }
  }

  lemma {:induction false} SpliceCore(s: State, e: Element, nb: BlockId, s': State)
    requires Core(s) && NewBlockOk(s, e, nb) && SpliceStep(s, e, nb, s')
    ensures Core(s')
  {
    hide Items, Fill, Capacity, Roomy;
    assert s'.ring[s.tailPos + 1] == nb;
    assert forall id <- s'.ring :: id == nb || id in s.ring;
    SpliceRoom(s, e, nb, s');
    forall i | 0 <= i < |s'.ring| ensures LinkOk(s', i) {
      SpliceLinks(s, e, nb, s', i);
    }
    forall id | id in s'.blocks ensures SizeOk(s', id) {
      assert SizeOk(s, id);
    }
  }

  lemma {:induction false} SpliceFills(s: State, e: Element, nb: BlockId, s': State, i: nat)
    requires Sound(s) && Sound(s') && NewBlockOk(s, e, nb) && SpliceStep(s, e, nb, s') && i < |s'.ring|
    requires !s.producer.PAdvance?
    requires i <= s.tailPos ==> FillOk(s, i)
    requires i > s.tailPos + 1 ==> FillOk(s, i - 1)
    ensures FillOk(s', i)
  {
    assert i <= s.tailPos ==> s'.ring[i] == s.ring[i];
    assert i > s.tailPos + 1 ==> s'.ring[i] == s.ring[i - 1];
  }

  lemma {:induction false} RelinkedItems(b: Block, nb: BlockId)
    requires BlockOk(b) && BlockOk(b.(next := nb))
    ensures Items(b.(next := nb)) == Items(b)
  {
  }

  lemma {:induction false} SpliceContents(s: State, e: Element, nb: BlockId, s': State)
    requires Sound(s) && Sound(s') && NewBlockOk(s, e, nb) && SpliceStep(s, e, nb, s')
    ensures Contents(s') == Contents(s)
    ensures NextB(s') == s.blocks[nb]
  {
    RelinkedItems(TailB(s), nb);
    hide Join, Items;
    assert s'.ring[..s.tailPos + 1] == s.ring[..s.tailPos + 1];
    assert forall i :: 0 <= i <= s.tailPos ==> s'.ring[i] == s.ring[i];
    JoinFrame(s.blocks, s'.blocks, s.ring[..s.tailPos + 1]);
  }

  lemma {:induction false} SpliceConsumer(s: State, e: Element, nb: BlockId, s': State)
    requires Sound(s) && Sound(s') && NewBlockOk(s, e, nb) && SpliceStep(s, e, nb, s')
    requires ConsumerOk(s)
    ensures ConsumerOk(s')
  {
    assert s.tailPos > 0 ==> s'.ring[1] == s.ring[1];
  }

  /** A block is spliced in between the tail block and the block after it. */
  lemma {:induction false} SpliceKeepsInv(s: State, e: Element, nb: BlockId, s': State)
    requires Inv(s) && s.producer == PSplice(e, nb) && SpliceStep(s, e, nb, s')
    ensures Inv(s')
  {
    SpliceCore(s, e, nb, s');
    SpliceContents(s, e, nb, s');
    SpliceConsumer(s, e, nb, s');
    forall i | 0 <= i < |s'.ring| ensures FillOk(s', i) {
      if i <= s.tailPos {
        assert FillOk(s, i);
      } else if i > s.tailPos + 1 {
        assert FillOk(s, i - 1);
      }
      SpliceFills(s, e, nb, s', i);
    }
  }

  // ----- The consumer's steps ----------------------------------------------------

  /** A dequeue or peek that returns what the specification allows. */
  lemma {:induction false} AnswerAppend(s: State, o: Outcome, s': State)
    requires Sound(s) && Sound(s') && HistoryOk(s)
    requires s'.produced == s.produced && s'.consumed == s.consumed + [o] && s'.maxSize == s.maxSize
    requires match o
             case Dequeued(e) => Contents(s) == [e] + Contents(s')
             case Peeked(e) => Contents(s) != [] && Contents(s)[0] == e && Contents(s') == Contents(s)
             case FoundEmpty(wasEmpty) => wasEmpty && Contents(s') == Contents(s)
             case _ => false
    ensures HistoryOk(s')
  {
    var sent, n := Sent(s.produced), Taken(s.consumed);
    assert s'.consumed[..|s'.consumed| - 1] == s.consumed;
    if o.Dequeued? || o.Peeked? {
      assert sent[n..][0] == sent[n];
    }
    if o.Dequeued? {
      assert sent[n + 1..] == sent[n..][1..];
    }
  }

  lemma {:induction false} LoadTailKeepsInv(s: State, peek: bool, s': State)
    requires Inv(s) && s.consumer == CLoadTail(peek) && LoadTailStep(s, peek, s')
    ensures Inv(s')
  {
    hide Roomy, FifoAnswers, RejectsOnlyWhenFull, Sent, Taken;
    var b := FrontB(s);
    var b' := b.(localTail := b.tail);
    assert FillOk(s, 0);
    OneBlockCore(s, 0, b', s');
    OneBlockContents(s, 0, b', s');
    assert Items(b') == Items(b);
    if s.tailPos == 0 {
      SplitContents(s, 0);
    }
    OneBlockInv(s, 0, b', s');
  }

  lemma {:induction false} ReloadKeepsInv(s: State, peek: bool, s': State)
    requires Inv(s) && s.consumer == CReload(peek) && ReloadStep(s, peek, s')
    ensures Inv(s')
  {
    var b := FrontB(s);
    var b' := b.(localTail := b.tail);
    assert FillOk(s, 0);
    OneBlockCore(s, 0, b', s');
    OneBlockContents(s, 0, b', s');
    assert Items(b') == Items(b);
    OneBlockInv(s, 0, b', s');
  }

  /** The block after a used-up front block is never empty. */
  lemma {:induction false} NextBlockNotEmpty(s: State, nb: BlockId)
    requires Inv(s) && Leaving(s, nb)
    ensures nb == FrontB(s).next && Fill(s.blocks[nb]) > 0
  {
    assert LinkOk(s, 0) && FillOk(s, 1) && SizeOk(s, nb);
  }

  lemma {:induction false} NextKeepsInv(s: State, peek: bool, s': State)
    requires Inv(s) && s.consumer == CNext(peek)
    requires s' == s.(consumer := if peek then CPeekNext(FrontB(s).next) else CNextTail(FrontB(s).next))
    ensures Inv(s')
  {
    assert LinkOk(s, 0);
    NoBlockInv(s, s');
  }

  lemma {:induction false} EnterKeepsInv(s: State, nb: BlockId, s': State)
    requires Inv(s) && s.consumer == CNextTail(nb) && EnterStep(s, nb, s')
    ensures Inv(s')
  {
    hide Join, Roomy, Taken, Dist;
    var b := s.blocks[nb];
    var b' := b.(localTail := b.tail);
    NextBlockNotEmpty(s, nb);
    assert FillOk(s, 1);
    OneBlockCore(s, 1, b', s');
    OneBlockContents(s, 1, b', s');
    assert Items(b') == Items(b);
    OneBlockInv(s, 1, b', s');
  }

  lemma {:induction false} LeaveCore(s: State, nb: BlockId, s': State)
    requires Core(s) && Leaving(s, nb) && LeaveStep(s, nb, s')
    ensures Core(s')
  {
    hide Capacity, Pow2;
    forall i | 0 <= i < |s'.ring| ensures LinkOk(s', i) {
      if i < |s.ring| - 1 {
        assert LinkOk(s, i + 1);
      } else {
        assert LinkOk(s, 0);
      }
    }
    forall id | id in s'.blocks ensures SizeOk(s', id) {
      assert SizeOk(s, id);
    }
    assert s.ring == s.ring[..1] + s.ring[1..] && [s.ring[0]] == s.ring[..1];
    CapacityConcat(s.blocks, s.ring[..1], s.ring[1..]);
    CapacityConcat(s.blocks, s.ring[1..], s.ring[..1]);
  }

  lemma {:induction false} LeaveFills(s: State, nb: BlockId, s': State, i: nat)
    requires Sound(s) && Sound(s') && Leaving(s, nb) && LeaveStep(s, nb, s') && i < |s'.ring|
    requires i < |s.ring| - 1 ==> FillOk(s, i + 1)
    requires s.producer.PAdvance? ==> s.tailPos + 1 < |s.ring|
    ensures FillOk(s', i)
  {
    assert i < |s.ring| - 1 ==> s'.ring[i] == s.ring[i + 1];
  }

  /** The front block left behind was empty, so the contents stay the same. */
  lemma {:induction false} LeaveKeepsInv(s: State, nb: BlockId, s': State)
    requires Inv(s) && s.consumer == CAdvance(nb) && LeaveStep(s, nb, s')
    ensures Inv(s')
  {
    hide Roomy, Slot, Items, Capacity, Join, FifoAnswers, RejectsOnlyWhenFull, Sent, Taken, SizeOk, LinkOk;
    LeaveCore(s, nb, s');
    LeaveContents(s, nb, s');
    forall i | 0 <= i < |s'.ring| ensures FillOk(s', i) {
      if i < |s.ring| - 1 {
        assert FillOk(s, i + 1);
      }
      LeaveFills(s, nb, s', i);
    }
  }

  lemma {:induction false} LeaveContents(s: State, nb: BlockId, s': State)
    requires Sound(s) && Sound(s') && Leaving(s, nb) && LeaveStep(s, nb, s')
    ensures Contents(s') == Contents(s)
  {
    hide Slot;
    LeaveRing(s, nb, s');
    SplitContents(s, 0);
    assert Items(FrontB(s)) == [];
  }

  lemma {:induction false} LeaveRing(s: State, nb: BlockId, s': State)
    requires Sound(s) && Leaving(s, nb) && LeaveStep(s, nb, s')
    ensures s'.ring[..s'.tailPos + 1] == s.ring[0 + 1..s.tailPos + 1]
  {
  }

  lemma {:induction false} ReadKeepsInv(s: State, peek: bool, s': State)
    requires Inv(s) && s.consumer == CRead(peek) && ReadStep(s, peek, s')
    ensures Inv(s')
  {
    hide Taken, Sent, IsPow2, Dist, Fill, And;
    SplitContents(s, 0);
    if peek {
      AnswerAppend(s, Peeked(FrontB(s).data[FrontB(s).front]), s');
    }
    NoBlockInv(s, s');
  }

  lemma {:induction false} PeekNextKeepsInv(s: State, nb: BlockId, s': State)
    requires Inv(s) && s.consumer == CPeekNext(nb) && nb in s.blocks
    requires s' == s.(consumer := CIdle, consumed := s.consumed + [Peeked(s.blocks[nb].data[s.blocks[nb].front])])
    ensures Inv(s')
  {
    NextBlockNotEmpty(s, nb);
    SplitContents(s, 0);
    assert s.ring[1..s.tailPos + 1][0] == nb;
    AnswerAppend(s, Peeked(s.blocks[nb].data[s.blocks[nb].front]), s');
    NoBlockInv(s, s');
  }

  /** Moving the front forward leaves the stale copies on their side of it. */
  lemma {:induction false} ConsumeCaches(b: Block)
    requires BlockOk(b) && IsPow2(b.size) && 2 <= b.size
    requires b.front != b.localTail && FrontCacheOk(b)
    ensures var b' := b.(front := After(b, b.front));
            && BlockOk(b') && FrontCacheOk(b') && Fill(b) > 0
            && (TailCacheOk(b) ==> TailCacheOk(b'))
  {
    AfterIsSlot(b, b.front);
  }

  lemma {:induction false} ConsumeContents(s: State, r: Element, b: Block, s': State)
    requires Core(s) && Sound(s') && OneBlock(s, 0, b, s') && Items(FrontB(s)) == [r] + Items(b)
    ensures Contents(s) == [r] + Contents(s')
  {
    hide Contents, Items;
    OneBlockContents(s, 0, b, s');
    assert s.ring[..0] == [];
  }

  lemma {:induction false} ConsumeKeepsInv(s: State, r: Element, s': State)
    requires Inv(s) && s.consumer == CConsume(r) && ConsumeStep(s, r, s')
    ensures Inv(s')
  {
    hide RejectsOnlyWhenFull, Contents, BlockOk, Fill, TailCacheOk;
    var b := FrontB(s);
    var b' := b.(front := After(b, b.front));
    assert SizeOk(s, s.frontBlock);
    ConsumeCaches(b);
    ConsumeItems(b);
    OneBlockCore(s, 0, b', s');
    ConsumeContents(s, r, b', s');
    ConsumeProducer(s, b', s');
    AnswerAppend(s, Dequeued(r), s');
    OneBlockInv(s, 0, b', s');
  }

  /** What the producer knows does not depend on the front of a block it has left, and of
      its own block it knows only what its stale copy of the front says. */
  lemma {:induction false} ConsumeProducer(s: State, b: Block, s': State)
    requires Sound(s) && Sound(s') && Distinct(s.ring) && ProducerOk(s)
    requires OneBlock(s, 0, b, s') && b == FrontB(s).(front := b.front) && s'.producer == s.producer
    ensures ProducerOk(s')
  {
  }

  lemma {:induction false} LoadTailBlockKeepsInv(s: State, peek: bool, wasEmpty: bool, s': State)
    requires Inv(s) && s.consumer == CLoadTailBlock(peek, wasEmpty)
    requires s' == if s.frontBlock != s.tailBlock then s.(consumer := CReload(peek))
                   else s.(consumer := CIdle, consumed := s.consumed + [FoundEmpty(wasEmpty)])
    ensures Inv(s')
  {
    if s.frontBlock == s.tailBlock {
      AnswerAppend(s, FoundEmpty(wasEmpty), s');
    }
    NoBlockInv(s, s');
  }

  // ----- All steps ---------------------------------------------------------------

  lemma {:induction false} StartEnqueueKeepsInv(s: State, e: Element, canAlloc: bool, s': State)
    requires Inv(s) && s.producer == PIdle
    requires s' == s.(producer := if After(TailB(s), TailB(s).tail) != TailB(s).localFront then PWrite(e) else PCheck(e, canAlloc))
    ensures Inv(s')
  {
    assert SizeOk(s, s.tailBlock);
    AfterIsSlot(TailB(s), TailB(s).tail);
    NoBlockInv(s, s');
  }

  lemma {:induction false} ProducerKeepsInv(s: State, s': State)
    requires Inv(s) && ProducerStep(s, s')
    ensures Inv(s')
  {
    match s.producer
    case PCheck(e, canAlloc) => CheckKeepsInv(s, e, canAlloc, s');
    case PFull(e, canAlloc, peak) => FullKeepsInv(s, e, canAlloc, peak, s');
    case PWrite(e) => WriteKeepsInv(s, e, s');
    case PPublish(e) => PublishKeepsInv(s, e, s');
    case PNextFront(e) => NextFrontKeepsInv(s, e, s');
    case PNextWrite(e) => NextWriteKeepsInv(s, e, s');
    case PNextTail(e) => NextTailKeepsInv(s, e, s');
    case PSplice(e, nb) => SpliceKeepsInv(s, e, nb, s');
    case PAdvance(e) => AdvanceKeepsInv(s, e, s');
  }

  lemma {:induction false} ConsumerKeepsInv(s: State, s': State)
    requires Inv(s) && ConsumerStep(s, s')
    ensures Inv(s')
  {
    match s.consumer
    case CLoadTail(peek) => LoadTailKeepsInv(s, peek, s');
    case CLoadTailBlock(peek, wasEmpty) => LoadTailBlockKeepsInv(s, peek, wasEmpty, s');
    case CReload(peek) => ReloadKeepsInv(s, peek, s');
    case CNext(peek) => NextKeepsInv(s, peek, s');
    case CNextTail(nb) => EnterKeepsInv(s, nb, s');
    case CAdvance(nb) => LeaveKeepsInv(s, nb, s');
    case CPeekNext(nb) => PeekNextKeepsInv(s, nb, s');
    case CRead(peek) => ReadKeepsInv(s, peek, s');
    case CConsume(r) => ConsumeKeepsInv(s, r, s');
  }

  lemma {:induction false} StepKeepsInv(s: State, a: Action, s': State)
    requires Inv(s) && Next(s, a, s')
    ensures Inv(s')
  {
    match a
    case StartEnqueue(e, canAlloc) => StartEnqueueKeepsInv(s, e, canAlloc, s');
    case Produce => ProducerKeepsInv(s, s');
    case Allocate(nb) => AllocKeepsInv(s, nb, s');
    case StartDequeue(peek) => NoBlockInv(s, s');
    case Consume => ConsumerKeepsInv(s, s');
  }
}
