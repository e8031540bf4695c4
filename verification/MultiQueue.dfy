/** One producer's part of the multi-consumer queue, put together. The ticket protocol says
    which consumer gets which indices; the index from block numbers to blocks says where their
    elements lie; the counters in the blocks say when a block has been read; the free list
    hands blocks out and takes them back. Any number of consumers, the producer and the other
    users of the free list take their steps in any order. */
module MultiQueue {
  import Drain = BlockDrain
  import Free = FreeList
  import Tickets = TicketDequeue

  const BLOCK_SIZE := Drain.BLOCK_SIZE

  type Tid = nat
  type Block = Free.Node
  type Element = int

  /** What is left to do for a consumer that has claimed the indices up to `end`: to look up
      the block of index `from`; to read the stretch `from .. stop`, of which it has read up to
      `next`, and to report it; to forget a drained block and then to give it back, before it
      goes on with index `from`. */
  datatype Work =
    | Nothing
    | AtBlock(from: nat, end: nat)
    | Reading(block: Block, from: nat, next: nat, stop: nat, end: nat)
    | Clearing(block: Block, number: nat, from: nat, end: nat)
    | Freeing(block: Block, number: nat, from: nat, end: nat)

  /** A consumer got the element at index `at`. */
  datatype Delivery = Delivery(taker: Tid, at: nat, value: Element)

  /** The ticket counters, the free list, the elements of the blocks in use and their counters,
      the index (whose keys are bases divided by the block size), the blocks the producer has
      started, and the consumers' work. Histories: the elements in the order they were put in,
      what has been read and reported, the numbers of the blocks given back, the deliveries. */
  datatype State = State(tickets: Tickets.State, free: Free.State, slots: map<Block, seq<Element>>,
                         counters: map<Block, nat>, index: map<nat, Block>, blocks: seq<Block>, work: map<Tid, Work>,
                         elements: seq<Element>, drain: Drain.State, given: set<nat>, delivered: seq<Delivery>)

  ghost predicate Init(s: State) {
    && Tickets.Init(s.tickets) && Free.Init(s.free) && Drain.Init(s.drain)
    && s.slots == map[] && s.counters == map[] && s.index == map[] && s.blocks == []
    && s.work.Keys == s.tickets.pcs.Keys && (forall t <- s.work :: s.work[t] == Nothing)
    && s.elements == [] && s.given == {} && s.delivered == []
  }

  function WithWork(s: State, t: Tid, w: Work): State {
    s.(work := s.work[t := w])
  }

  /** The loop over the blocks of a claim goes on, or is over. */
  function Onward(from: nat, end: nat): Work {
    if from < end then AtBlock(from, end) else Nothing
  }

  /** Where the stretch that begins at an index ends: with its block, or with the claim. */
  function StopOf(from: nat, end: nat): nat {
    var blockEnd := from - from % BLOCK_SIZE + BLOCK_SIZE;
    if end < blockEnd then end else blockEnd
  }

  // ----- Steps -------------------------------------------------------------------

  datatype Action =
    | Start(a: Free.Action, block: Block, junk: seq<Element>)  // the producer starts a block
    | Cancel(f: Tid)                                           // and gives it back unused
    | Write(v: Element)                                        // an element is put into its slot
    | Publish                                                  // tailIndex is stored
    | Ticket(q: Tickets.Action)                                // a step of the ticket protocol
    | Consume(t: Tid)                                          // the next step of a consumer's loop
    | Elsewhere(a: Free.Action)                                // any other step in the free list

  predicate Next(s: State, a: Action, s': State) {
    match a
    case Start(fa, block, junk) => StartStep(s, fa, block, junk, s')
    case Cancel(f) => CancelStep(s, f, s')
    case Write(v) => WriteStep(s, v, s')
    case Publish => PublishStep(s, s')
    case Ticket(q) => TicketStep(s, q, s')
    case Consume(t) => t in s.work && ConsumeStep(s, t, s')
    case Elsewhere(fa) => ElsewhereStep(s, fa, s')
  }

  /** A block is requisitioned, whatever it held before, its counter is reset, and it is entered
      into the index: in `enqueue` when the last block is full, in `enqueue_bulk` for all the
      blocks it will need. */
  predicate StartStep(s: State, a: Free.Action, block: Block, junk: seq<Element>, s': State) {
    && |junk| == BLOCK_SIZE
    && Free.Next(s.free, a, s'.free) && s'.free.log == s.free.log + [Free.Issued(block)]
    && s' == s.(free := s'.free, slots := s.slots[block := junk], counters := s.counters[block := 0],
                index := s.index[|s.blocks| := block], blocks := s.blocks + [block])
  }

  /** A bulk enqueue that cannot get all its blocks takes the ones it has out of the index and
      gives them back. */
  predicate CancelStep(s: State, f: Tid, s': State) {
    && s.blocks != [] && |s.elements| <= (|s.blocks| - 1) * BLOCK_SIZE
    && var n := |s.blocks| - 1;
       && Free.Next(s.free, Free.Return(f, s.blocks[n]), s'.free)
       && s' == s.(free := s'.free, slots := s.slots - {s.blocks[n]}, counters := s.counters - {s.blocks[n]},
                   index := s.index - {n}, blocks := s.blocks[..n])
  }

  /** The next element goes into the producer's block for it. */
  predicate WriteStep(s: State, v: Element, s': State) {
    var i := |s.elements|;
    && Drain.BlockOf(i) < |s.blocks|
    && var block := s.blocks[Drain.BlockOf(i)];
       && block in s.slots && |s.slots[block]| == BLOCK_SIZE
       && s' == s.(slots := s.slots[block := s.slots[block][i % BLOCK_SIZE := v]], elements := s.elements + [v])
  }

  /** All that was written becomes visible. */
  predicate PublishStep(s: State, s': State) {
    && Tickets.Fits(s.tickets) && s.tickets.tail < |s.elements|
    && Tickets.Next(s.tickets, Tickets.Publish(|s.elements| - s.tickets.tail), s'.tickets)
    && s' == s.(tickets := s'.tickets)
  }

  /** The step is the fetch_add on `headIndex`. */
  predicate IsTake(q: Tickets.State, a: Tickets.Action) {
    a.Advance? && a.t in q.pcs && q.pcs[a.t].Claiming?
  }

  /** A consumer in the ticket protocol, or beginning a dequeue; the last step leaves it with a claim. */
  predicate TicketStep(s: State, a: Tickets.Action, s': State) {
    && !a.Publish? && a.t in s.work && s.work[a.t] == Nothing
    && Tickets.Fits(s.tickets) && Tickets.Next(s.tickets, a, s'.tickets)
    && s' == s.(tickets := s'.tickets,
                work := if IsTake(s.tickets, a)
                        then s.work[a.t := AtBlock(s.tickets.head, s.tickets.head + s.tickets.pcs[a.t].actual)]
                        else s.work)
  }

  predicate ConsumeStep(s: State, t: Tid, s': State)
    requires t in s.work
  {
    match s.work[t]
    case Nothing => false
    case AtBlock(from, end) => LookupStep(s, t, from, end, s')
    case Reading(block, from, next, stop, end) =>
      if next < stop then ReadStep(s, t, block, from, next, stop, end, s') else ReportStep(s, t, block, from, stop, end, s')
    case Clearing(block, number, from, end) =>
      s' == WithWork(s, t, Freeing(block, number, from, end)).(index := s.index - {number})
    case Freeing(block, number, from, end) => GiveStep(s, t, block, number, from, end, s')
  }

  predicate LookupStep(s: State, t: Tid, from: nat, end: nat, s': State) {
    && Drain.BlockOf(from) in s.index
    && s' == WithWork(s, t, Reading(s.index[Drain.BlockOf(from)], from, from, StopOf(from, end), end))
  }

  predicate ReadStep(s: State, t: Tid, block: Block, from: nat, next: nat, stop: nat, end: nat, s': State) {
    && block in s.slots && |s.slots[block]| == BLOCK_SIZE
    && s' == WithWork(s, t, Reading(block, from, next + 1, stop, end))
             .(delivered := s.delivered + [Delivery(t, next, s.slots[block][next % BLOCK_SIZE])])
  }

  /** `set_many_empty`: the block's counter grows by the stretch, and says if the block is drained. */
  predicate ReportStep(s: State, t: Tid, block: Block, from: nat, stop: nat, end: nat, s': State) {
    && block in s.counters && from <= stop
    && var count := s.counters[block] + (stop - from);
       s' == WithWork(s, t, if count == BLOCK_SIZE then Clearing(block, Drain.BlockOf(from), stop, end) else Onward(stop, end))
             .(counters := s.counters[block := count], drain := Drain.Counted(s.drain, Drain.Stretch(from, stop)))
  }

  /** `add_block_to_free_list` is called. */
  predicate GiveStep(s: State, t: Tid, block: Block, number: nat, from: nat, end: nat, s': State) {
    && Free.Next(s.free, Free.Return(t, block), s'.free)
    && s' == WithWork(s, t, Onward(from, end))
             .(free := s'.free, slots := s.slots - {block}, counters := s.counters - {block}, given := s.given + {number})
  }

  /** Blocks are returned by those who were given them. */
  predicate ElsewhereStep(s: State, a: Free.Action, s': State) {
    && Free.Next(s.free, a, s'.free) && (a.Return? ==> a.n !in s.slots)
    && s' == s.(free := s'.free)
  }

  // ----- The invariant -----------------------------------------------------------

  /** Index `i` is claimed by the consumer and not yet reported. */
  predicate Pending(w: Work, i: nat) {
    !w.Nothing? && w.from <= i < w.end
  }

  ghost predicate IsPending(work: map<Tid, Work>, i: nat) {
    exists t :: t in work && Pending(work[t], i)
  }

  /** Some dequeue of `t` claimed the index. */
  ghost predicate TakenBy(claims: seq<Tickets.Claim>, t: Tid, i: nat) {
    exists k :: 0 <= k < |claims| && claims[k].taker == t && Tickets.Covers(claims[k], i)
  }

  ghost predicate PartsOk(s: State) {
    && Tickets.Inv(s.tickets) && Free.Inv(s.free) && Drain.Inv(s.drain)
    && s.work.Keys == s.tickets.pcs.Keys
    && s.tickets.head <= s.tickets.tail <= |s.elements| <= BLOCK_SIZE * |s.blocks|
  }

  /** Of the indices below the head, each has been reported or is pending with one consumer,
      who claimed it. */
  ghost predicate ClaimsOk(read: set<nat>, head: nat, claims: seq<Tickets.Claim>, work: map<Tid, Work>) {
    && (forall i: nat :: i in read ==> i < head && !IsPending(work, i))
    && (forall i: nat :: i < head && i !in read ==> IsPending(work, i))
    && (forall i: nat, t, u :: t in work && u in work && Pending(work[t], i) && Pending(work[u], i) ==> t == u)
    && (forall i: nat, t :: t in work && Pending(work[t], i) ==> i < head && TakenBy(claims, t, i))
  }

  /** Every index of the block has been read and reported. */
  predicate Drained(read: set<nat>, n: nat) {
    Drain.BlockIndices(n) <= read
  }

  /** The consumer is the one that gives the block back. */
  predicate Leaves(w: Work, n: nat) {
    (w.Clearing? || w.Freeing?) && w.number == n
  }

  ghost predicate IsLeaving(work: map<Tid, Work>, n: nat) {
    exists t :: t in work && Leaves(work[t], n)
  }

  /** Block number `n` is in use and its counter counts what has been reported of it. */
  predicate InUse(s: State, n: nat)
    requires n < |s.blocks|
  {
    var block := s.blocks[n];
    && block in s.slots && |s.slots[block]| == BLOCK_SIZE
    && block in s.counters && s.counters[block] == Drain.Counter(s.drain, n)
    && Free.IsOut(s.free.log, block)
  }

  /** A block started is in use until it is given back, and in the index until it is drained;
      a drained block is given back, or a consumer is about to. */
  ghost predicate BlockOk(s: State, n: nat)
    requires n < |s.blocks|
  {
    if n in s.given then Drained(s.drain.read, n) && n !in s.index
    else
      && InUse(s, n)
      && (n in s.index ==> s.index[n] == s.blocks[n])
      && (if Drained(s.drain.read, n) then IsLeaving(s.work, n) else n in s.index)
  }

  ghost predicate BlocksOk(s: State) {
    && (forall n: nat {:trigger BlockOk(s, n)} :: n < |s.blocks| ==> BlockOk(s, n))
    && (forall n <- s.given :: n < |s.blocks|)
    && (forall n <- s.index :: n < |s.blocks|)
  }

  /** No block serves under two numbers at once. */
  predicate Apart(blocks: seq<Block>, given: set<nat>) {
    forall m, n :: 0 <= m < n < |blocks| && m !in given && n !in given ==> blocks[m] != blocks[n]
  }

  predicate WorkOk(w: Work, blocks: seq<Block>, given: set<nat>, index: map<nat, Block>, read: set<nat>) {
    match w
    case Nothing => true
    case AtBlock(from, end) => from < end
    case Reading(block, from, next, stop, end) =>
      && from <= next <= stop <= end && Drain.InOneBlock(Drain.Stretch(from, stop))
      && Drain.BlockOf(from) < |blocks| && blocks[Drain.BlockOf(from)] == block
    case Clearing(block, number, from, end) => from <= end && LeaverOk(block, number, blocks, given, read) && number in index
    case Freeing(block, number, from, end) => from <= end && LeaverOk(block, number, blocks, given, read) && number !in index
  }

  predicate LeaverOk(block: Block, number: nat, blocks: seq<Block>, given: set<nat>, read: set<nat>) {
    number < |blocks| && number !in given && blocks[number] == block && Drained(read, number)
  }

  ghost predicate WorkersOk(s: State) {
    && (forall t {:trigger s.work[t]} :: t in s.work ==> WorkOk(s.work[t], s.blocks, s.given, s.index, s.drain.read))
    && (forall t, u, n :: t in s.work && u in s.work && Leaves(s.work[t], n) && Leaves(s.work[u], n) ==> t == u)
  }

  /** Element `i` lies in its slot. */
  predicate Stored(s: State, i: nat)
    requires i < |s.elements|
  {
    && Drain.BlockOf(i) < |s.blocks|
    && var block := s.blocks[Drain.BlockOf(i)];
       block in s.slots && |s.slots[block]| == BLOCK_SIZE && s.slots[block][i % BLOCK_SIZE] == s.elements[i]
  }

  ghost predicate ContentsOk(s: State) {
    forall i: nat {:trigger Stored(s, i)} :: i < |s.elements| && i !in s.drain.read ==> Stored(s, i)
  }

  /** The consumer has read index `i` and not reported it. */
  predicate HasRead(w: Work, i: nat) {
    w.Reading? && w.from <= i < w.next
  }

  ghost predicate IsSeen(read: set<nat>, work: map<Tid, Work>, i: nat) {
    i in read || exists t :: t in work && HasRead(work[t], i)
  }

  ghost predicate WasDelivered(delivered: seq<Delivery>, i: nat) {
    exists k :: 0 <= k < |delivered| && delivered[k].at == i
  }

  /** The delivery is of an element, to the consumer that claimed its index. */
  ghost predicate Rightly(d: Delivery, elements: seq<Element>, claims: seq<Tickets.Claim>) {
    d.at < |elements| && d.value == elements[d.at] && TakenBy(claims, d.taker, d.at)
  }

  predicate Once(delivered: seq<Delivery>) {
    forall j, k :: 0 <= j < k < |delivered| ==> delivered[j].at != delivered[k].at
  }

  ghost predicate DeliveriesOk(delivered: seq<Delivery>, elements: seq<Element>, claims: seq<Tickets.Claim>, read: set<nat>, work: map<Tid, Work>) {
    && (forall k :: 0 <= k < |delivered| ==> Rightly(delivered[k], elements, claims))
    && Once(delivered)
    && (forall i: nat :: WasDelivered(delivered, i) <==> IsSeen(read, work, i))
  }

  ghost predicate Inv(s: State) {
    && PartsOk(s) && ClaimsOk(s.drain.read, s.tickets.head, s.tickets.claims, s.work)
    && BlocksOk(s) && Apart(s.blocks, s.given) && WorkersOk(s) && ContentsOk(s)
    && DeliveriesOk(s.delivered, s.elements, s.tickets.claims, s.drain.read, s.work)
  }

  lemma {:induction false} InitInv(s: State)
    requires Init(s)
    ensures Inv(s)
  {
    Tickets.InitInv(s.tickets);
    Free.InitInv(s.free);
    forall b: nat ensures Drain.CounterOk(s.drain, b) {
      assert s.drain.read * Drain.BlockIndices(b) == {};
    }
  }

  // ----- What the parts say ------------------------------------------------------

  lemma {:induction false} InItsBlock(i: nat)
    ensures i in Drain.BlockIndices(Drain.BlockOf(i))
  {
    assert i == BLOCK_SIZE * Drain.BlockOf(i) + i % BLOCK_SIZE;
  }

  /** The block of an index that has not been reported is in use and in the index. */
  lemma {:induction false} UnreadBlock(s: State, i: nat)
    requires BlocksOk(s) && i !in s.drain.read && Drain.BlockOf(i) < |s.blocks|
    ensures var n := Drain.BlockOf(i);
            !Drained(s.drain.read, n) && n !in s.given && InUse(s, n) && n in s.index && s.index[n] == s.blocks[n]
  {
    hide InUse, IsLeaving;
    InItsBlock(i);
    assert BlockOk(s, Drain.BlockOf(i));
  }

  /** Nothing has been reported of the indices from the head on. */
  lemma {:induction false} FreshBlock(s: State, n: nat)
    requires Drain.Inv(s.drain) && ClaimsOk(s.drain.read, s.tickets.head, s.tickets.claims, s.work)
    requires s.tickets.head <= n * BLOCK_SIZE
    ensures !Drained(s.drain.read, n) && Drain.Counter(s.drain, n) == 0
  {
    assert Drain.CounterOk(s.drain, n);
    assert s.drain.read * Drain.BlockIndices(n) == {};
    assert n * BLOCK_SIZE in Drain.BlockIndices(n);
  }

  lemma {:induction false} FreeStep(f: Free.State, a: Free.Action, f': Free.State)
    requires Free.Inv(f) && Free.Next(f, a, f')
    ensures Free.Inv(f')
    ensures f'.log == f.log || exists e :: f'.log == f.log + [e] && (e.Returned? ==> a.Return? && a.n == e.n)
  {
    hide Free.Inv, Free.Next;
    Free.StepKeepsInv(f, a, f');
    LogGrows(f, a, f');
  }

  /** A step in the free list adds at most one event to its history. */
  lemma {:induction false} LogGrows(f: Free.State, a: Free.Action, f': Free.State)
    requires Free.Next(f, a, f')
    ensures f'.log == f.log || exists e :: f'.log == f.log + [e] && (e.Returned? ==> a.Return? && a.n == e.n)
  {
    match a
    case Return(t, n) => assert f'.log == f.log + [Free.Returned(n)];
    case Create(t, n) => assert f'.log == f.log + [Free.Issued(n)];
    case Advance(t) => AdvanceGrows(f, t, f');
    case _ =>
  }

  lemma {:induction false} AdvanceGrows(f: Free.State, t: Tid, f': Free.State)
    requires t in f.pcs && Free.Advances(f, t, f')
    ensures f'.log == f.log || exists n :: f'.log == f.log + [Free.Issued(n)]
  {
    match f.pcs[t]
    case DrawPool => assert f'.log == f.log || f'.log == f.log + [Free.Issued(f.poolIndex)];
    case Unlinked(n) => assert f'.log == f.log + [Free.Issued(n)];
    case _ =>
  }

  /** A block that is out stays so unless it is returned. */
  lemma {:induction false} StaysOut(f: Free.State, a: Free.Action, f': Free.State, block: Block)
    requires Free.Inv(f) && Free.Next(f, a, f') && Free.IsOut(f.log, block) && !(a.Return? && a.n == block)
    ensures Free.IsOut(f'.log, block)
  {
    hide Free.Inv, Free.Next;
    FreeStep(f, a, f');
    if f'.log != f.log {
      var e :| f'.log == f.log + [e] && (e.Returned? ==> a.Return? && a.n == e.n);
      assert f'.log[..|f.log|] == f.log;
    }
  }

  /** A block that is handed out was not out before. */
  lemma {:induction false} NewlyOut(f: Free.State, a: Free.Action, f': Free.State, block: Block)
    requires Free.Inv(f) && Free.Next(f, a, f') && f'.log == f.log + [Free.Issued(block)]
    ensures !a.Return? && !Free.IsOut(f.log, block) && Free.IsOut(f'.log, block)
  {
    Free.StepKeepsInv(f, a, f');
    assert Free.Alternates(f'.log);
    assert f'.log[..|f.log|] == f.log && f'.log[|f.log|] == Free.Issued(block);
  }

  // ----- The producer ------------------------------------------------------------

  lemma {:induction false} StartKeepsInv(s: State, a: Free.Action, block: Block, junk: seq<Element>, s': State)
    requires Inv(s) && StartStep(s, a, block, junk, s')
    ensures Inv(s')
  {
    hide Free.Inv, Free.Next, Tickets.Inv, Drain.Inv, ClaimsOk, DeliveriesOk, IsLeaving, Drained, Free.IsOut, WorkOk;
    var n := |s.blocks|;
    FreeStep(s.free, a, s'.free);
    NewlyOut(s.free, a, s'.free, block);
    FreshBlock(s, n);
    forall m: nat | m < n && m !in s.given ensures s.blocks[m] != block && Free.IsOut(s'.free.log, s.blocks[m]) {
      assert BlockOk(s, m);
      StaysOut(s.free, a, s'.free, s.blocks[m]);
    }
    forall m: nat | m <= n ensures BlockOk(s', m) {
      if m < n {
        assert BlockOk(s, m);
      }
    }
    forall t <- s.work ensures WorkOk(s.work[t], s'.blocks, s'.given, s'.index, s'.drain.read) {
      MoreBlocks(s.work[t], s.blocks, s.given, s.index, s.drain.read, block);
    }
    forall i: nat | i < |s'.elements| && i !in s'.drain.read ensures Stored(s', i) {
      assert Stored(s, i);
      UnreadBlock(s, i);
    }
  }

  lemma {:induction false} MoreBlocks(w: Work, blocks: seq<Block>, given: set<nat>, index: map<nat, Block>, read: set<nat>, block: Block)
    requires WorkOk(w, blocks, given, index, read)
    ensures WorkOk(w, blocks + [block], given, index[|blocks| := block], read)
  {
  }

  /** Pending indices have been claimed, and so have an element and a block. */
  lemma {:induction false} PendingBelow(s: State, t: Tid, i: nat)
    requires PartsOk(s) && ClaimsOk(s.drain.read, s.tickets.head, s.tickets.claims, s.work)
    requires t in s.work && Pending(s.work[t], i)
    ensures i !in s.drain.read && i < s.tickets.head <= |s.elements| && Drain.BlockOf(i) < |s.blocks|
  {
    hide Tickets.Inv, Free.Inv, Drain.Inv;
    assert IsPending(s.work, i);
  }

  /** Nobody works on a block in which no element lies. */
  lemma {:induction false} UnwrittenIsIdle(s: State, t: Tid, n: nat)
    requires PartsOk(s) && ClaimsOk(s.drain.read, s.tickets.head, s.tickets.claims, s.work)
    requires t in s.work && WorkOk(s.work[t], s.blocks, s.given, s.index, s.drain.read)
    requires |s.elements| <= n * BLOCK_SIZE && n == |s.blocks| - 1
    ensures WorkOk(s.work[t], s.blocks[..n], s.given, s.index - {n}, s.drain.read)
  {
    hide Tickets.Inv, Free.Inv, ClaimsOk;
    FreshBlock(s, n);
    if s.work[t].Reading? {
      PendingBelow(s, t, s.work[t].from);
    }
  }

  lemma {:induction false} CancelKeepsInv(s: State, f: Tid, s': State)
    requires Inv(s) && CancelStep(s, f, s')
    ensures Inv(s')
  {
    hide Free.Inv, Free.Next, Tickets.Inv, Drain.Inv, ClaimsOk, DeliveriesOk, IsLeaving, Drained, Free.IsOut, WorkOk;
    var n := |s.blocks| - 1;
    var a := Free.Return(f, s.blocks[n]);
    FreeStep(s.free, a, s'.free);
    FreshBlock(s, n);
    assert BlockOk(s, n);
    forall m: nat | m < n ensures BlockOk(s', m) {
      assert BlockOk(s, m);
      if m !in s.given {
        StaysOut(s.free, a, s'.free, s.blocks[m]);
      }
    }
    forall t <- s.work ensures WorkOk(s.work[t], s'.blocks, s'.given, s'.index, s'.drain.read) {
      UnwrittenIsIdle(s, t, n);
    }
    forall i: nat | i < |s.elements| && i !in s.drain.read ensures Stored(s', i) {
      assert Stored(s, i);
      UnreadBlock(s, i);
    }
  }

  lemma {:induction false} SlotsDiffer(i: nat, j: nat)
    requires i < j && Drain.BlockOf(i) == Drain.BlockOf(j)
    ensures i % BLOCK_SIZE != j % BLOCK_SIZE
  {
  }

  lemma {:induction false} UnclaimedIsUnread(s: State, i: nat)
    requires ClaimsOk(s.drain.read, s.tickets.head, s.tickets.claims, s.work) && i >= s.tickets.head
    ensures i !in s.drain.read
  {
  }

  /** Writing one more element leaves the unread ones alone. */
  lemma {:induction false} WriteKeepsStored(s: State, v: Element, s': State, i: nat)
    requires BlocksOk(s) && Apart(s.blocks, s.given) && WriteStep(s, v, s') && |s.elements| !in s.drain.read
    requires i < |s.elements| && i !in s.drain.read && Stored(s, i)
    ensures Stored(s', i)
  {
    hide BlocksOk;
    var j := |s.elements|;
    UnreadBlock(s, i);
    UnreadBlock(s, j);
    if Drain.BlockOf(i) == Drain.BlockOf(j) {
      SlotsDiffer(i, j);
    }
  }

  lemma {:induction false} WriteKeepsInv(s: State, v: Element, s': State)
    requires Inv(s) && WriteStep(s, v, s')
    ensures Inv(s')
  {
    hide Free.Inv, Tickets.Inv, Drain.Inv, ClaimsOk, IsLeaving, Drained, Free.IsOut, WorkOk, IsSeen, WasDelivered, TakenBy;
    UnclaimedIsUnread(s, |s.elements|);
    forall m: nat | m < |s.blocks| ensures BlockOk(s', m) {
      assert BlockOk(s, m);
    }
    forall i: nat | i < |s'.elements| && i !in s.drain.read ensures Stored(s', i) {
      if i < |s.elements| {
        assert Stored(s, i);
        WriteKeepsStored(s, v, s', i);
      }
    }
  }

  lemma {:induction false} PublishKeepsInv(s: State, s': State)
    requires Inv(s) && PublishStep(s, s')
    ensures Inv(s')
  {
    hide Free.Inv, Tickets.Inv, Drain.Inv, ClaimsOk, InUse, IsLeaving, Drained, WorkOk, DeliveriesOk;
    Tickets.StepKeepsInv(s.tickets, Tickets.Publish(|s.elements| - s.tickets.tail), s'.tickets);
    Tickets.InvMeans(s'.tickets);
    SameBlocks(s, s');
  }

  /** Steps that leave the blocks and what lies in them alone. */
  predicate BlocksUnchanged(s: State, s': State) {
    && s'.slots == s.slots && s'.counters == s.counters && s'.index == s.index && s'.blocks == s.blocks
    && s'.elements == s.elements && s'.drain == s.drain && s'.given == s.given
  }

  lemma {:induction false} SameBlocks(s: State, s': State)
    requires BlocksOk(s) && ContentsOk(s) && BlocksUnchanged(s, s') && s'.free == s.free
    requires forall n: nat :: IsLeaving(s.work, n) ==> IsLeaving(s'.work, n)
    ensures BlocksOk(s') && ContentsOk(s')
  {
    hide IsLeaving, Drained, Free.IsOut;
    forall m: nat | m < |s.blocks| ensures BlockOk(s', m) {
      assert BlockOk(s, m);
    }
    forall i: nat | i < |s'.elements| && i !in s.drain.read ensures Stored(s', i) {
      assert Stored(s, i);
    }
  }

  // ----- The ticket protocol -----------------------------------------------------

  lemma {:induction false} TicketEffect(q: Tickets.State, a: Tickets.Action, q': Tickets.State)
    requires Tickets.Inv(q) && Tickets.Fits(q) && Tickets.Next(q, a, q') && !a.Publish?
    ensures Tickets.Inv(q') && q'.head <= q'.tail == q.tail && q'.pcs.Keys == q.pcs.Keys
    ensures if IsTake(q, a) then
              var n := q.pcs[a.t].actual;
              n > 0 && q'.head == q.head + n && q'.claims == q.claims + [Tickets.Claim(a.t, q.head, n)]
            else q'.head == q.head && q'.claims == q.claims
  {
    Tickets.StepKeepsInv(q, a, q');
    Tickets.InvMeans(q');
    if IsTake(q, a) {
      assert Tickets.PcOk(q, a.t);
    }
  }

  lemma {:induction false} MoreClaims(claims: seq<Tickets.Claim>, c: Tickets.Claim, t: Tid, i: nat)
    requires TakenBy(claims, t, i) || (c.taker == t && Tickets.Covers(c, i))
    ensures TakenBy(claims + [c], t, i)
  {
    if TakenBy(claims, t, i) {
      var k :| 0 <= k < |claims| && claims[k].taker == t && Tickets.Covers(claims[k], i);
      assert (claims + [c])[k] == claims[k];
    } else {
      assert (claims + [c])[|claims|] == c;
    }
  }

  /** A new claim begins at the head, where no other reaches. */
  lemma {:induction false} TakeKeepsClaims(read: set<nat>, head: nat, claims: seq<Tickets.Claim>, work: map<Tid, Work>, t: Tid, n: nat)
    requires ClaimsOk(read, head, claims, work) && t in work && work[t] == Nothing && n > 0
    ensures ClaimsOk(read, head + n, claims + [Tickets.Claim(t, head, n)], work[t := AtBlock(head, head + n)])
  {
    hide TakenBy;
    var c := Tickets.Claim(t, head, n);
    var work' := work[t := AtBlock(head, head + n)];
    forall i: nat, u | u in work' && Pending(work'[u], i) ensures i < head + n && TakenBy(claims + [c], u, i) {
      assert u != t ==> Pending(work[u], i);
      MoreClaims(claims, c, u, i);
    }
    forall i: nat ensures IsPending(work', i) <==> IsPending(work, i) || head <= i < head + n {
      if IsPending(work, i) {
        var u :| u in work && Pending(work[u], i);
        assert Pending(work'[u], i);
      }
      if head <= i < head + n {
        assert Pending(work'[t], i);
      }
    }
    forall i: nat, u, v | u in work' && v in work' && Pending(work'[u], i) && Pending(work'[v], i) ensures u == v {
      assert u != t ==> Pending(work[u], i);
      assert v != t ==> Pending(work[v], i);
    }
  }

  lemma {:induction false} TicketKeepsInv(s: State, a: Tickets.Action, s': State)
    requires Inv(s) && TicketStep(s, a, s')
    ensures Inv(s')
  {
    hide Free.Inv, Tickets.Inv, Drain.Inv, Tickets.Next, ClaimsOk, BlocksOk, ContentsOk, WorkersOk, DeliveriesOk;
    TicketEffect(s.tickets, a, s'.tickets);
    if IsTake(s.tickets, a) {
      var n := s.tickets.pcs[a.t].actual;
      var w := AtBlock(s.tickets.head, s.tickets.head + n);
      TakeKeepsClaims(s.drain.read, s.tickets.head, s.tickets.claims, s.work, a.t, n);
      NoBlockYet(w, s.blocks, s.given, s.index, s.drain.read);
      WorkChanges(s, a.t, w, s');
      TakeKeepsDeliveries(s, a.t, w, Tickets.Claim(a.t, s.tickets.head, n));
    } else {
      NoBlockYet(Nothing, s.blocks, s.given, s.index, s.drain.read);
      WorkChanges(s, a.t, Nothing, s');
    }
  }

  /** The work of one consumer changes, in another part than giving back a block. */
  lemma {:induction false} WorkChanges(s: State, t: Tid, w: Work, s': State)
    requires BlocksOk(s) && ContentsOk(s) && WorkersOk(s) && t in s.work
    requires forall n: nat :: !Leaves(s.work[t], n) && !Leaves(w, n)
    requires WorkOk(w, s.blocks, s.given, s.index, s.drain.read)
    requires BlocksUnchanged(s, s') && s'.free == s.free && s'.work == s.work[t := w]
    ensures BlocksOk(s') && ContentsOk(s') && WorkersOk(s')
  {
    hide WorkOk, BlocksOk, ContentsOk;
    forall n: nat | IsLeaving(s.work, n) ensures IsLeaving(s'.work, n) {
      var u :| u in s.work && Leaves(s.work[u], n);
      assert Leaves(s'.work[u], n);
    }
    SameBlocks(s, s');
    forall u <- s'.work ensures WorkOk(s'.work[u], s'.blocks, s'.given, s'.index, s'.drain.read) {
      assert u != t ==> s'.work[u] == s.work[u];
    }
  }

  lemma {:induction false} NoBlockYet(w: Work, blocks: seq<Block>, given: set<nat>, index: map<nat, Block>, read: set<nat>)
    requires w == Nothing || (w.AtBlock? && w.from < w.end)
    ensures WorkOk(w, blocks, given, index, read)
  {
  }

  lemma {:induction false} TakeKeepsDeliveries(s: State, t: Tid, w: Work, c: Tickets.Claim)
    requires DeliveriesOk(s.delivered, s.elements, s.tickets.claims, s.drain.read, s.work)
    requires t in s.work && s.work[t] == Nothing && w.AtBlock?
    ensures DeliveriesOk(s.delivered, s.elements, s.tickets.claims + [c], s.drain.read, s.work[t := w])
  {
    hide WasDelivered, TakenBy, Once;
    forall k | 0 <= k < |s.delivered| ensures Rightly(s.delivered[k], s.elements, s.tickets.claims + [c]) {
      MoreClaims(s.tickets.claims, c, s.delivered[k].taker, s.delivered[k].at);
    }
    SeenKept(s.drain.read, s.work, t, w);
  }

  /** The same indices have been read as before if the consumer's part in them is the same. */
  lemma {:induction false} SeenKept(read: set<nat>, work: map<Tid, Work>, t: Tid, w: Work)
    requires t in work && forall i: nat :: HasRead(work[t], i) <==> HasRead(w, i)
    ensures forall i: nat :: IsSeen(read, work, i) <==> IsSeen(read, work[t := w], i)
  {
    forall i: nat ensures IsSeen(read, work, i) <==> IsSeen(read, work[t := w], i) {
      if u :| u in work && HasRead(work[u], i) {
        assert HasRead(work[t := w][u], i);
      }
      if u :| u in work && HasRead(work[t := w][u], i) {
        assert HasRead(work[u], i);
      }
    }
  }

  // ----- The consumers -----------------------------------------------------------

  /** A consumer goes on with the same indices pending. */
  lemma {:induction false} ClaimsKept(read: set<nat>, head: nat, claims: seq<Tickets.Claim>, work: map<Tid, Work>, t: Tid, w: Work)
    requires ClaimsOk(read, head, claims, work) && t in work
    requires forall i: nat :: Pending(work[t], i) <==> Pending(w, i)
    ensures ClaimsOk(read, head, claims, work[t := w])
  {
    hide TakenBy;
    var work' := work[t := w];
    forall i: nat, u | u in work' ensures Pending(work'[u], i) <==> Pending(work[u], i) {
    }
    forall i: nat ensures IsPending(work', i) <==> IsPending(work, i) {
      if u :| u in work && Pending(work[u], i) {
        assert Pending(work'[u], i);
      }
      if u :| u in work' && Pending(work'[u], i) {
        assert Pending(work[u], i);
      }
    }
  }

  lemma {:induction false} StopInBlock(from: nat, end: nat)
    requires from < end
    ensures from < StopOf(from, end) <= end && Drain.InOneBlock(Drain.Stretch(from, StopOf(from, end)))
  {
    assert from == BLOCK_SIZE * Drain.BlockOf(from) + from % BLOCK_SIZE;
  }

  lemma {:induction false} LookupKeepsInv(s: State, t: Tid, from: nat, end: nat, s': State)
    requires Inv(s) && t in s.work && s.work[t] == AtBlock(from, end) && LookupStep(s, t, from, end, s')
    ensures Inv(s')
  {
    hide Free.Inv, Tickets.Inv, Drain.Inv, ClaimsOk, BlocksOk, ContentsOk, DeliveriesOk, InUse, Drained, StopOf;
    var w := s'.work[t];
    StopInBlock(from, end);
    PendingBelow(s, t, from);
    UnreadBlock(s, from);
    WorkChanges(s, t, w, s');
    ClaimsKept(s.drain.read, s.tickets.head, s.tickets.claims, s.work, t, w);
    DeliveriesKept(s, t, w);
  }

  lemma {:induction false} DeliveriesKept(s: State, t: Tid, w: Work)
    requires DeliveriesOk(s.delivered, s.elements, s.tickets.claims, s.drain.read, s.work)
    requires t in s.work && forall i: nat :: HasRead(s.work[t], i) <==> HasRead(w, i)
    ensures DeliveriesOk(s.delivered, s.elements, s.tickets.claims, s.drain.read, s.work[t := w])
  {
    hide WasDelivered, Rightly, Once;
    SeenKept(s.drain.read, s.work, t, w);
  }

  /** The next index of a consumer has not been read by anyone, and its element is in the slot. */
  lemma {:induction false} NextIsUnseen(s: State, t: Tid, block: Block, from: nat, next: nat, stop: nat, end: nat)
    requires Inv(s) && t in s.work && s.work[t] == Reading(block, from, next, stop, end) && next < stop
    ensures !IsSeen(s.drain.read, s.work, next) && next < s.tickets.head && TakenBy(s.tickets.claims, t, next)
    ensures Stored(s, next) && s.blocks[Drain.BlockOf(next)] == block
  {
    hide Free.Inv, Tickets.Inv, Drain.Inv, BlocksOk, Apart, DeliveriesOk, TakenBy;
    assert Pending(s.work[t], next);
    PendingBelow(s, t, next);
    forall u <- s.work ensures HasRead(s.work[u], next) ==> Pending(s.work[u], next) {
      assert WorkOk(s.work[u], s.blocks, s.given, s.index, s.drain.read);
    }
    assert Drain.BlockOf(next) == Drain.BlockOf(from);
  }

  /** One more index has been read. */
  lemma {:induction false} OneMoreSeen(read: set<nat>, work: map<Tid, Work>, t: Tid, w: Work, next: nat)
    requires t in work && forall i: nat :: HasRead(w, i) <==> HasRead(work[t], i) || i == next
    ensures forall i: nat :: IsSeen(read, work[t := w], i) <==> IsSeen(read, work, i) || i == next
  {
    forall i: nat ensures IsSeen(read, work[t := w], i) <==> IsSeen(read, work, i) || i == next {
      if u :| u in work && HasRead(work[u], i) {
        assert HasRead(work[t := w][u], i);
      }
      if i == next {
        assert HasRead(work[t := w][t], i);
      }
      if u :| u in work && HasRead(work[t := w][u], i) {
        assert u != t ==> HasRead(work[u], i);
      }
    }
  }

  lemma {:induction false} OneMoreDelivered(delivered: seq<Delivery>, d: Delivery)
    ensures forall i: nat :: WasDelivered(delivered + [d], i) <==> WasDelivered(delivered, i) || i == d.at
    ensures Once(delivered) && !WasDelivered(delivered, d.at) ==> Once(delivered + [d])
  {
    forall i: nat ensures WasDelivered(delivered + [d], i) <==> WasDelivered(delivered, i) || i == d.at {
      if k :| 0 <= k < |delivered| && delivered[k].at == i {
        assert (delivered + [d])[k].at == i;
      }
      assert (delivered + [d])[|delivered|] == d;
      if k :| 0 <= k < |delivered + [d]| && (delivered + [d])[k].at == i {
        assert k < |delivered| ==> delivered[k].at == i;
      }
    }
  }

  lemma {:induction false} ReadKeepsDeliveries(s: State, t: Tid, d: Delivery, w: Work)
    requires DeliveriesOk(s.delivered, s.elements, s.tickets.claims, s.drain.read, s.work)
    requires t in s.work && forall i: nat :: HasRead(w, i) <==> HasRead(s.work[t], i) || i == d.at
    requires !IsSeen(s.drain.read, s.work, d.at) && Rightly(d, s.elements, s.tickets.claims)
    ensures DeliveriesOk(s.delivered + [d], s.elements, s.tickets.claims, s.drain.read, s.work[t := w])
  {
    hide WasDelivered, IsSeen, Rightly, Once, HasRead;
    OneMoreSeen(s.drain.read, s.work, t, w, d.at);
    OneMoreDelivered(s.delivered, d);
  }

  lemma {:induction false} ReadKeepsInv(s: State, t: Tid, block: Block, from: nat, next: nat, stop: nat, end: nat, s': State)
    requires Inv(s) && t in s.work && s.work[t] == Reading(block, from, next, stop, end) && next < stop
    requires ReadStep(s, t, block, from, next, stop, end, s')
    ensures Inv(s')
  {
    hide Free.Inv, Tickets.Inv, Drain.Inv, ClaimsOk, BlocksOk, ContentsOk, DeliveriesOk, IsSeen, TakenBy, Drain.InOneBlock;
    var w := Reading(block, from, next + 1, stop, end);
    NextIsUnseen(s, t, block, from, next, stop, end);
    assert WorkOk(s.work[t], s.blocks, s.given, s.index, s.drain.read);
    WorkChanges(s, t, w, s');
    ClaimsKept(s.drain.read, s.tickets.head, s.tickets.claims, s.work, t, w);
    ReadKeepsDeliveries(s, t, s'.delivered[|s.delivered|], w);
  }

  /** The stretch that a consumer reports: nobody else has reported any of it, and its block
      has the counter the history says. */
  lemma {:induction false} StretchIsFree(s: State, t: Tid)
    requires Inv(s) && t in s.work && s.work[t].Reading? && s.work[t].next == s.work[t].stop
    ensures var w := s.work[t];
            var c, n := Drain.Stretch(w.from, w.stop), Drain.BlockOf(w.from);
            && Drain.InOneBlock(c) && Drain.Report(s.drain, c, Drain.Counted(s.drain, c))
            && n < |s.blocks| && s.blocks[n] == w.block && n !in s.given && InUse(s, n)
            && n in s.index && s.index[n] == w.block && !Drained(s.drain.read, n)
  {
    hide Free.Inv, Tickets.Inv, Drain.Inv, BlocksOk, DeliveriesOk, ContentsOk, ClaimsOk, Drained, InUse;
    var w := s.work[t];
    assert WorkOk(w, s.blocks, s.given, s.index, s.drain.read);
    forall i: nat | w.from <= i < w.stop ensures i !in s.drain.read {
      PendingBelow(s, t, i);
    }
    UnreadBlock(s, w.from);
  }

  /** A report drains the block of the stretch if its counter becomes full, and no other. */
  lemma {:induction false} ReportDrains(d: Drain.State, c: Drain.Stretch, d': Drain.State, n: nat)
    requires Drain.Inv(d) && Drain.Report(d, c, d')
    ensures Drain.Inv(d')
    ensures n != Drain.BlockOf(c.from) ==>
              (Drained(d'.read, n) <==> Drained(d.read, n)) && Drain.Counter(d', n) == Drain.Counter(d, n)
    ensures n == Drain.BlockOf(c.from) ==>
              && Drain.Counter(d', n) == Drain.Counter(d, n) + (c.to - c.from)
              && (Drained(d'.read, n) <==> Drain.Counter(d', n) == BLOCK_SIZE)
  {
    Drain.ReportKeepsInv(d, c, d');
    Drain.InItsBlock(c, n);
    assert Drain.CounterOk(d', n);
    Drain.SubsetSize(d'.read * Drain.BlockIndices(n), Drain.BlockIndices(n));
    if Drained(d'.read, n) {
      assert d'.read * Drain.BlockIndices(n) == Drain.BlockIndices(n);
    }
  }

  /** Reporting moves indices from those pending to those read. */
  lemma {:induction false} ReportKeepsClaims(read: set<nat>, head: nat, claims: seq<Tickets.Claim>, work: map<Tid, Work>, t: Tid,
                                             more: set<nat>, w: Work)
    requires ClaimsOk(read, head, claims, work) && t in work
    requires forall i: nat :: i in more <==> Pending(work[t], i) && !Pending(w, i)
    requires forall i: nat :: Pending(w, i) ==> Pending(work[t], i)
    ensures ClaimsOk(read + more, head, claims, work[t := w])
  {
    hide TakenBy;
    var work' := work[t := w];
    forall i: nat, u | u in work' ensures Pending(work'[u], i) <==> Pending(work[u], i) && (u == t ==> i !in more) {
    }
    forall i: nat ensures IsPending(work', i) <==> IsPending(work, i) && i !in more {
      if u :| u in work && Pending(work[u], i) {
        assert i !in more ==> Pending(work'[u], i);
      }
      if u :| u in work' && Pending(work'[u], i) {
        assert Pending(work[u], i);
      }
    }
  }

  /** Reporting moves indices from those read and not reported to those reported. */
  lemma {:induction false} ReportKeepsSeen(read: set<nat>, work: map<Tid, Work>, t: Tid, more: set<nat>, w: Work)
    requires t in work && forall i: nat :: (i in more <==> HasRead(work[t], i)) && !HasRead(w, i)
    ensures forall i: nat :: IsSeen(read + more, work[t := w], i) <==> IsSeen(read, work, i)
  {
    forall i: nat ensures IsSeen(read + more, work[t := w], i) <==> IsSeen(read, work, i) {
      if u :| u in work && HasRead(work[u], i) {
        assert u != t ==> HasRead(work[t := w][u], i);
      }
      if u :| u in work && HasRead(work[t := w][u], i) {
        assert HasRead(work[u], i);
      }
      if i in more {
        assert HasRead(work[t], i);
      }
    }
  }

  lemma {:induction false} ReportKeepsDeliveries(s: State, t: Tid, more: set<nat>, w: Work)
    requires DeliveriesOk(s.delivered, s.elements, s.tickets.claims, s.drain.read, s.work)
    requires t in s.work && forall i: nat :: (i in more <==> HasRead(s.work[t], i)) && !HasRead(w, i)
    ensures DeliveriesOk(s.delivered, s.elements, s.tickets.claims, s.drain.read + more, s.work[t := w])
  {
    hide WasDelivered, IsSeen, Rightly, Once;
    ReportKeepsSeen(s.drain.read, s.work, t, more, w);
  }

  /** Blocks and workers after a report. */
  lemma {:induction false} ReportKeepsBlock(s: State, t: Tid, s': State, m: nat)
    requires Inv(s) && t in s.work && s.work[t].Reading? && s.work[t].next == s.work[t].stop && m < |s.blocks|
    requires var w := s.work[t]; ReportStep(s, t, w.block, w.from, w.stop, w.end, s')
    ensures BlockOk(s', m)
  {
    hide Free.Inv, Tickets.Inv, Drain.Inv, DeliveriesOk, ContentsOk, ClaimsOk, Drained, Drain.Counter, Drain.BlockOf, Free.IsOut;
    var w := s.work[t];
    var c := Drain.Stretch(w.from, w.stop);
    StretchIsFree(s, t);
    ReportDrains(s.drain, c, s'.drain, m);
    assert BlockOk(s, m);
    if m == Drain.BlockOf(w.from) {
      assert Drained(s'.drain.read, m) ==> Leaves(s'.work[t], m);
    } else if m in s.given {
    } else {
      assert s.blocks[m] != w.block;
      if IsLeaving(s.work, m) {
        var u :| u in s.work && Leaves(s.work[u], m);
        assert Leaves(s'.work[u], m);
      }
    }
  }

  lemma {:induction false} ReportKeepsWork(s: State, t: Tid, s': State)
    requires Inv(s) && t in s.work && s.work[t].Reading? && s.work[t].next == s.work[t].stop
    requires var w := s.work[t]; ReportStep(s, t, w.block, w.from, w.stop, w.end, s')
    ensures WorkersOk(s')
  {
    hide Free.Inv, Tickets.Inv, Drain.Inv, DeliveriesOk, ContentsOk, ClaimsOk, BlocksOk, Drain.Counter, Drain.BlockOf, Drain.InOneBlock;
    var w := s.work[t];
    StretchIsFree(s, t);
    ReportDrains(s.drain, Drain.Stretch(w.from, w.stop), s'.drain, Drain.BlockOf(w.from));
    assert WorkOk(w, s.blocks, s.given, s.index, s.drain.read);
    forall u <- s'.work ensures WorkOk(s'.work[u], s'.blocks, s'.given, s'.index, s'.drain.read) {
      if u != t {
        assert WorkOk(s.work[u], s.blocks, s.given, s.index, s.drain.read);
        MoreRead(s.work[u], s.blocks, s.given, s.index, s.drain.read, s'.drain.read);
      }
    }
  }

  lemma {:induction false} MoreRead(w: Work, blocks: seq<Block>, given: set<nat>, index: map<nat, Block>, read: set<nat>, read': set<nat>)
    requires WorkOk(w, blocks, given, index, read) && read <= read'
    ensures WorkOk(w, blocks, given, index, read')
  {
  }

  /** The indices of the stretch are no longer pending, nor read and not reported. */
  lemma {:induction false} AfterReport(w: Work, w': Work, more: set<nat>)
    requires w.Reading? && w.next == w.stop && w.from < w.stop <= w.end
    requires more == Drain.Indices(Drain.Stretch(w.from, w.stop))
    requires w' == Onward(w.stop, w.end) || (w'.Clearing? && w'.from == w.stop && w'.end == w.end)
    ensures forall i: nat :: i in more <==> Pending(w, i) && !Pending(w', i)
    ensures forall i: nat :: Pending(w', i) ==> Pending(w, i)
    ensures forall i: nat :: (i in more <==> HasRead(w, i)) && !HasRead(w', i)
  {
  }

  lemma {:induction false} ReportKeepsBooks(s: State, t: Tid, s': State)
    requires Inv(s) && t in s.work && s.work[t].Reading? && s.work[t].next == s.work[t].stop
    requires var w := s.work[t]; ReportStep(s, t, w.block, w.from, w.stop, w.end, s')
    ensures ClaimsOk(s'.drain.read, s.tickets.head, s.tickets.claims, s'.work)
    ensures DeliveriesOk(s.delivered, s.elements, s.tickets.claims, s'.drain.read, s'.work)
  {
    hide PartsOk, BlocksOk, ContentsOk, DeliveriesOk, ClaimsOk, Pending, HasRead, Onward, Drain.Indices, Drain.BlockOf;
    var w, w' := s.work[t], s'.work[t];
    var more := Drain.Indices(Drain.Stretch(w.from, w.stop));
    assert WorkOk(w, s.blocks, s.given, s.index, s.drain.read);
    AfterReport(w, w', more);
    ReportKeepsClaims(s.drain.read, s.tickets.head, s.tickets.claims, s.work, t, more, w');
    ReportKeepsDeliveries(s, t, more, w');
  }

  lemma {:induction false} ReportKeepsStored(s: State, t: Tid, s': State)
    requires Inv(s) && t in s.work
    requires s.work[t].Reading? && s.work[t].next == s.work[t].stop
    requires var w := s.work[t]; ReportStep(s, t, w.block, w.from, w.stop, w.end, s')
    ensures ContentsOk(s')
  {
    hide PartsOk, BlocksOk, WorkersOk, DeliveriesOk, ClaimsOk, Drain.BlockOf, Drain.Indices;
    forall i: nat | i < |s'.elements| && i !in s'.drain.read ensures Stored(s', i) {
      assert Stored(s, i);
    }
  }

  lemma {:induction false} ReportKeepsInv(s: State, t: Tid, s': State)
    requires Inv(s) && t in s.work && s.work[t].Reading? && s.work[t].next == s.work[t].stop
    requires var w := s.work[t]; ReportStep(s, t, w.block, w.from, w.stop, w.end, s')
    ensures Inv(s')
  {
    hide PartsOk, DeliveriesOk, ClaimsOk, BlockOk, WorkersOk, ContentsOk, ReportStep;
    ReportFrame(s, t, s');
    ReportKeepsBooks(s, t, s');
    ReportKeepsWork(s, t, s');
    ReportKeepsStored(s, t, s');
    forall m: nat | m < |s.blocks| ensures BlockOk(s', m) {
      ReportKeepsBlock(s, t, s', m);
    }
  }

  lemma {:induction false} ReportFrame(s: State, t: Tid, s': State)
    requires Inv(s) && t in s.work && s.work[t].Reading? && s.work[t].next == s.work[t].stop
    requires var w := s.work[t]; ReportStep(s, t, w.block, w.from, w.stop, w.end, s')
    ensures PartsOk(s') && s'.tickets == s.tickets && s'.elements == s.elements && s'.delivered == s.delivered
    ensures s'.blocks == s.blocks && s'.index == s.index && s'.given == s.given
  {
    hide Free.Inv, Tickets.Inv, Drain.Inv, DeliveriesOk, ClaimsOk, BlocksOk, WorkersOk, ContentsOk, InUse, Drained;
    hide Drain.Report, Drain.Counted, Drain.BlockOf, Drain.InOneBlock, Onward;
    var w := s.work[t];
    StretchIsFree(s, t);
    ReportDrains(s.drain, Drain.Stretch(w.from, w.stop), s'.drain, 0);
  }

  lemma {:induction false} ClearKeepsInv(s: State, t: Tid, block: Block, number: nat, from: nat, end: nat, s': State)
    requires Inv(s) && t in s.work && s.work[t] == Clearing(block, number, from, end)
    requires s' == WithWork(s, t, Freeing(block, number, from, end)).(index := s.index - {number})
    ensures Inv(s')
  {
    hide Free.Inv, Tickets.Inv, Drain.Inv, DeliveriesOk, ClaimsOk, Drained, InUse;
    var w := s'.work[t];
    assert WorkOk(s.work[t], s.blocks, s.given, s.index, s.drain.read);
    ClaimsKept(s.drain.read, s.tickets.head, s.tickets.claims, s.work, t, w);
    DeliveriesKept(s, t, w);
    forall m: nat | m < |s.blocks| ensures BlockOk(s', m) {
      assert BlockOk(s, m);
      if IsLeaving(s.work, m) {
        SameLeavers(s.work, t, w, m);
      }
      SameUse(s, s', m);
    }
    forall u <- s'.work ensures WorkOk(s'.work[u], s'.blocks, s'.given, s'.index, s'.drain.read) {
      assert WorkOk(s.work[u], s.blocks, s.given, s.index, s.drain.read);
      assert u != t ==> !Leaves(s.work[u], number);
    }
    forall i: nat | i < |s'.elements| && i !in s'.drain.read ensures Stored(s', i) {
      assert Stored(s, i);
    }
  }

  lemma {:induction false} SameUse(s: State, s': State, m: nat)
    requires m < |s.blocks| && s'.blocks == s.blocks && s'.slots == s.slots && s'.counters == s.counters
    requires s'.drain == s.drain && s'.free == s.free
    ensures InUse(s, m) == InUse(s', m)
  {
  }

  lemma {:induction false} SameLeavers(work: map<Tid, Work>, t: Tid, w: Work, m: nat)
    requires t in work && (Leaves(work[t], m) ==> Leaves(w, m)) && IsLeaving(work, m)
    ensures IsLeaving(work[t := w], m)
  {
    var u :| u in work && Leaves(work[u], m);
    assert Leaves(work[t := w][u], m);
  }

  /** The block given back is nobody else's, and no unread element lies in it. */
  lemma {:induction false} GiveKeepsBlock(s: State, t: Tid, block: Block, number: nat, from: nat, end: nat, s': State, m: nat)
    requires Inv(s) && t in s.work && s.work[t] == Freeing(block, number, from, end) && m < |s.blocks|
    requires GiveStep(s, t, block, number, from, end, s')
    ensures BlockOk(s', m)
  {
    hide Free.Inv, Free.Next, Tickets.Inv, Drain.Inv, DeliveriesOk, ClaimsOk, ContentsOk, Drained, Free.IsOut, Drain.Counter;
    assert WorkOk(s.work[t], s.blocks, s.given, s.index, s.drain.read);
    assert BlockOk(s, m);
    if m !in s'.given {
      assert s.blocks[m] != block;
      StaysOut(s.free, Free.Return(t, block), s'.free, s.blocks[m]);
      if IsLeaving(s.work, m) {
        SameLeavers(s.work, t, s'.work[t], m);
      }
    }
  }

  lemma {:induction false} GiveKeepsWork(s: State, t: Tid, block: Block, number: nat, from: nat, end: nat, s': State)
    requires Inv(s) && t in s.work && s.work[t] == Freeing(block, number, from, end)
    requires GiveStep(s, t, block, number, from, end, s')
    ensures WorkersOk(s')
  {
    hide PartsOk, BlocksOk, DeliveriesOk, ClaimsOk, ContentsOk, Drained, Free.Next, Drain.BlockOf, Drain.InOneBlock;
    forall u <- s'.work ensures WorkOk(s'.work[u], s'.blocks, s'.given, s'.index, s'.drain.read) {
      assert WorkOk(s.work[u], s.blocks, s.given, s.index, s.drain.read);
      assert Leaves(s.work[t], number);
      assert u != t ==> !Leaves(s.work[u], number);
    }
  }

  lemma {:induction false} GiveKeepsStored(s: State, t: Tid, block: Block, number: nat, from: nat, end: nat, s': State, i: nat)
    requires Inv(s) && t in s.work && s.work[t] == Freeing(block, number, from, end)
    requires GiveStep(s, t, block, number, from, end, s') && i < |s.elements| && i !in s.drain.read
    ensures Stored(s', i)
  {
    hide PartsOk, BlocksOk, DeliveriesOk, ClaimsOk, Free.Next, Drained, InUse;
    assert WorkOk(s.work[t], s.blocks, s.given, s.index, s.drain.read);
    assert Stored(s, i);
    UnreadBlock(s, i);
  }

  lemma {:induction false} GiveKeepsInv(s: State, t: Tid, block: Block, number: nat, from: nat, end: nat, s': State)
    requires Inv(s) && t in s.work && s.work[t] == Freeing(block, number, from, end)
    requires GiveStep(s, t, block, number, from, end, s')
    ensures Inv(s')
  {
    hide Free.Inv, Free.Next, Tickets.Inv, Drain.Inv, DeliveriesOk, ClaimsOk, BlockOk, WorkersOk, ContentsOk;
    var w := s'.work[t];
    FreeStep(s.free, Free.Return(t, block), s'.free);
    ClaimsKept(s.drain.read, s.tickets.head, s.tickets.claims, s.work, t, w);
    DeliveriesKept(s, t, w);
    GiveKeepsWork(s, t, block, number, from, end, s');
    forall m: nat | m < |s.blocks| ensures BlockOk(s', m) {
      GiveKeepsBlock(s, t, block, number, from, end, s', m);
    }
    GiveKeepsContents(s, t, block, number, from, end, s');
    LeaverIsBlock(s, t);
  }

  lemma {:induction false} GiveKeepsContents(s: State, t: Tid, block: Block, number: nat, from: nat, end: nat, s': State)
    requires Inv(s) && t in s.work && s.work[t] == Freeing(block, number, from, end)
    requires GiveStep(s, t, block, number, from, end, s')
    ensures ContentsOk(s')
  {
    hide Inv, Free.Next;
    forall i: nat | i < |s'.elements| && i !in s'.drain.read ensures Stored(s', i) {
      GiveKeepsStored(s, t, block, number, from, end, s', i);
    }
  }

  lemma {:induction false} LeaverIsBlock(s: State, t: Tid)
    requires WorkersOk(s) && t in s.work && (s.work[t].Clearing? || s.work[t].Freeing?)
    ensures LeaverOk(s.work[t].block, s.work[t].number, s.blocks, s.given, s.drain.read)
    ensures s.work[t].number in s.index <==> s.work[t].Clearing?
  {
    assert WorkOk(s.work[t], s.blocks, s.given, s.index, s.drain.read);
  }

  lemma {:induction false} ElsewhereKeepsInv(s: State, a: Free.Action, s': State)
    requires Inv(s) && ElsewhereStep(s, a, s')
    ensures Inv(s')
  {
    hide Free.Inv, Free.Next, Tickets.Inv, Drain.Inv, DeliveriesOk, ClaimsOk, Drained, IsLeaving, WorkOk, Free.IsOut;
    FreeStep(s.free, a, s'.free);
    forall m: nat | m < |s.blocks| ensures BlockOk(s', m) {
      assert BlockOk(s, m);
      if m !in s.given {
        StaysOut(s.free, a, s'.free, s.blocks[m]);
      }
    }
    forall i: nat | i < |s'.elements| && i !in s'.drain.read ensures Stored(s', i) {
      assert Stored(s, i);
    }
  }

  lemma {:induction false} ConsumeKeepsInv(s: State, t: Tid, s': State)
    requires Inv(s) && t in s.work && ConsumeStep(s, t, s')
    ensures Inv(s')
  {
    hide Inv, LookupStep, ReadStep, ReportStep, GiveStep;
    match s.work[t]
    case AtBlock(from, end) => LookupKeepsInv(s, t, from, end, s');
    case Reading(block, from, next, stop, end) =>
      if next < stop {
        ReadKeepsInv(s, t, block, from, next, stop, end, s');
      } else {
        NextAtMostStop(s, t);
        ReportKeepsInv(s, t, s');
      }
    case Clearing(block, number, from, end) => ClearKeepsInv(s, t, block, number, from, end, s');
    case Freeing(block, number, from, end) => GiveKeepsInv(s, t, block, number, from, end, s');
  }

  lemma {:induction false} NextAtMostStop(s: State, t: Tid)
    requires Inv(s) && t in s.work && s.work[t].Reading?
    ensures s.work[t].next <= s.work[t].stop
  {
    assert WorkOk(s.work[t], s.blocks, s.given, s.index, s.drain.read);
  }

  lemma {:induction false} StepKeepsInv(s: State, a: Action, s': State)
    requires Inv(s) && Next(s, a, s')
    ensures Inv(s')
  {
    hide Inv, StartStep, CancelStep, WriteStep, PublishStep, TicketStep, ConsumeStep, ElsewhereStep;
    match a
    case Start(fa, block, junk) => StartKeepsInv(s, fa, block, junk, s');
    case Cancel(f) => CancelKeepsInv(s, f, s');
    case Write(v) => WriteKeepsInv(s, v, s');
    case Publish => PublishKeepsInv(s, s');
    case Ticket(q) => TicketKeepsInv(s, q, s');
    case Consume(t) => ConsumeKeepsInv(s, t, s');
    case Elsewhere(fa) => ElsewhereKeepsInv(s, fa, s');
  }

  // ----- What the invariant means ------------------------------------------------

  lemma {:induction false} FindsWhatItNeeds(s: State, t: Tid)
    requires Inv(s) && t in s.work
    ensures match s.work[t]
            case Nothing => true
            case AtBlock(from, _) => Drain.BlockOf(from) in s.index
            case Reading(block, from, next, stop, _) =>
              && block in s.slots && |s.slots[block]| == BLOCK_SIZE && block in s.counters
              && (next == stop ==> ReportFits(s, block, from, stop))
            case Clearing(block, number, _, _) => number in s.index && s.index[number] == block && Free.IsOut(s.free.log, block)
            case Freeing(block, number, _, _) => number !in s.index && Free.IsOut(s.free.log, block)
  {
    hide Free.Inv, Tickets.Inv, Drain.Inv, ClaimsOk, ContentsOk, DeliveriesOk, Drained, Drain.Report, Drain.Counted;
    assert WorkOk(s.work[t], s.blocks, s.given, s.index, s.drain.read);
    match s.work[t]
    case Nothing =>
    case AtBlock(from, end) =>
      PendingBelow(s, t, from);
      UnreadBlock(s, from);
    case Reading(block, from, next, stop, end) =>
      PendingBelow(s, t, from);
      UnreadBlock(s, from);
      if next == stop {
        ReportFills(s, t);
      }
    case Clearing(block, number, _, _) => assert BlockOk(s, number);
    case Freeing(block, number, _, _) => assert BlockOk(s, number);
  }

  /** The stretch is nobody else's, and fills the counter of the block exactly if it drains it. */
  predicate ReportFits(s: State, block: Block, from: nat, stop: nat) {
    var c := Drain.Stretch(from, stop);
    && from <= stop && Drain.Report(s.drain, c, Drain.Counted(s.drain, c)) && block in s.counters
    && (s.counters[block] + (stop - from) == BLOCK_SIZE <==> Drained(s.drain.read + Drain.Indices(c), Drain.BlockOf(from)))
  }

  lemma {:induction false} ReportFills(s: State, t: Tid)
    requires Inv(s) && t in s.work && s.work[t].Reading? && s.work[t].next == s.work[t].stop
    ensures ReportFits(s, s.work[t].block, s.work[t].from, s.work[t].stop)
  {
    hide PartsOk, ClaimsOk, ContentsOk, DeliveriesOk, BlocksOk, WorkersOk, Drained, Drain.Report, Free.IsOut;
    var w := s.work[t];
    var c := Drain.Stretch(w.from, w.stop);
    StretchIsFree(s, t);
    DrainInv(s);
    ReportDrains(s.drain, c, Drain.Counted(s.drain, c), Drain.BlockOf(w.from));
  }

  lemma {:induction false} DrainInv(s: State)
    requires Inv(s)
    ensures Drain.Inv(s.drain)
  {
  }
}
