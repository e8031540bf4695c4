/** Whole runs of one producer's part of the multi-consumer queue: every element is delivered
    once, to the consumer that claimed it, and no block is reused while it holds an unread one. */
module MultiRuns {
  import Drain = BlockDrain
  import Free = FreeList
  import Tickets = TicketDequeue
  import opened MultiQueue

  ghost predicate Run(run: seq<State>, actions: seq<Action>) {
    && |run| == |actions| + 1 && Init(run[0])
    && forall k :: 0 <= k < |actions| ==> Next(run[k], actions[k], run[k + 1])
  }

  lemma {:induction false} RunKeepsInv(run: seq<State>, actions: seq<Action>, n: nat)
    requires Run(run, actions) && n < |run|
    ensures Inv(run[n])
  {
    hide Next, Inv;
    if n == 0 {
      InitInv(run[0]);
    } else {
      RunKeepsInv(run, actions, n - 1);
      StepKeepsInv(run[n - 1], actions[n - 1], run[n]);
    }
  }

  /** No consumer has a claim left to work through. */
  predicate AllThrough(s: State) {
    forall t <- s.work :: s.work[t] == Nothing
  }

  /** In every run each delivery is of the element that was put in at its index, to the
      consumer whose dequeue claimed the index, and no index is delivered twice. When no
      consumer has a claim left to work through, exactly the indices below the head have
      been delivered. */
  lemma {:induction false} DeliveredOnce(run: seq<State>, actions: seq<Action>, n: nat)
    requires Run(run, actions) && n < |run|
    ensures var s := run[n];
            && (forall k :: 0 <= k < |s.delivered| ==> Rightly(s.delivered[k], s.elements, s.tickets.claims))
            && Once(s.delivered)
            && (AllThrough(s) ==> forall i: nat :: WasDelivered(s.delivered, i) <==> i < s.tickets.head)
  {
    hide Next, BlocksOk, ContentsOk, WorkersOk, WasDelivered, TakenBy;
    RunKeepsInv(run, actions, n);
    var s := run[n];
    if AllThrough(s) {
      forall i: nat ensures IsSeen(s.drain.read, s.work, i) <==> i < s.tickets.head {
        assert !IsPending(s.work, i);
      }
    }
  }

  /** In every run a block is not reused while an element in it is unread: the element lies in
      its slot of a block that is out of the free list and in the index under its number,
      and no other unread element is looked for in the same block under another number. */
  lemma {:induction false} NotReusedUnread(run: seq<State>, actions: seq<Action>, n: nat, i: nat)
    requires Run(run, actions) && n < |run| && i < |run[n].elements| && i !in run[n].drain.read
    ensures var s, b := run[n], Drain.BlockOf(i);
            && Stored(s, i) && Free.IsOut(s.free.log, s.blocks[b])
            && b in s.index && s.index[b] == s.blocks[b]
            && (forall j: nat :: j < |s.elements| && j !in s.drain.read && Drain.BlockOf(j) != b ==>
                  Drain.BlockOf(j) in s.index && s.index[Drain.BlockOf(j)] != s.index[b])
  {
    hide Next, Drained, PartsOk, ClaimsOk, WorkersOk, DeliveriesOk, Drain.BlockOf, Free.IsOut;
    RunKeepsInv(run, actions, n);
    var s := run[n];
    assert Stored(s, i);
    UnreadBlock(s, i);
    forall j: nat | j < |s.elements| && j !in s.drain.read && Drain.BlockOf(j) != Drain.BlockOf(i)
      ensures Drain.BlockOf(j) in s.index && s.index[Drain.BlockOf(j)] != s.index[Drain.BlockOf(i)]
    {
      assert Stored(s, j);
      UnreadBlock(s, j);
    }
  }

  /** In every run a consumer finds what it needs: the index has the block it looks up, the
      stretch it reports is nobody else's and fills the counter of the block exactly if every
      other index of the block has been reported, and a block it gives back is out. */
  lemma {:induction false} ConsumersFind(run: seq<State>, actions: seq<Action>, n: nat, t: Tid)
    requires Run(run, actions) && n < |run| && t in run[n].work
    ensures var s := run[n];
            match s.work[t]
            case Nothing => true
            case AtBlock(from, _) => Drain.BlockOf(from) in s.index
            case Reading(block, from, next, stop, _) =>
              && block in s.slots && |s.slots[block]| == BLOCK_SIZE && block in s.counters
              && (next == stop ==> ReportFits(s, block, from, stop))
            case Clearing(block, number, _, _) => number in s.index && s.index[number] == block && Free.IsOut(s.free.log, block)
            case Freeing(block, number, _, _) => number !in s.index && Free.IsOut(s.free.log, block)
  {
    hide Next;
    RunKeepsInv(run, actions, n);
    FindsWhatItNeeds(run[n], t);
  }

  /** In every run the producer's block for the next element, once started, is still its own. */
  lemma {:induction false} ProducerFinds(run: seq<State>, actions: seq<Action>, n: nat)
    requires Run(run, actions) && n < |run| && |run[n].elements| < BLOCK_SIZE * |run[n].blocks|
    ensures var s, b := run[n], Drain.BlockOf(|run[n].elements|);
            b < |s.blocks| && s.blocks[b] in s.slots && |s.slots[s.blocks[b]]| == BLOCK_SIZE && Free.IsOut(s.free.log, s.blocks[b])
  {
    hide Next, ContentsOk, WorkersOk, DeliveriesOk, Drained, Free.IsOut;
    RunKeepsInv(run, actions, n);
    UnclaimedIsUnread(run[n], |run[n].elements|);
    UnreadBlock(run[n], |run[n].elements|);
  }

  /** In every run a drained block has been given back or a consumer is about to, and nothing
      else has been: when no consumer has a claim left to work through, exactly the drained
      blocks have been given back, and exactly the others are in the index. */
  lemma {:induction false} DrainedIsGiven(run: seq<State>, actions: seq<Action>, n: nat, b: nat)
    requires Run(run, actions) && n < |run| && b < |run[n].blocks|
    ensures var s := run[n];
            && (b in s.given ==> Drained(s.drain.read, b))
            && (Drained(s.drain.read, b) ==> b in s.given || IsLeaving(s.work, b))
            && (AllThrough(s) ==> (b in s.given <==> Drained(s.drain.read, b)) && (b in s.index <==> b !in s.given))
  {
    hide Next, Drained, PartsOk, ClaimsOk, DeliveriesOk, InUse;
    RunKeepsInv(run, actions, n);
    assert BlockOk(run[n], b);
  }

  // ----- Every claim is worked off -----------------------------------------------

  /** How many steps of its loop a consumer may still take for its claim: one for each
      element, and four for each block. */
  function StepsLeft(w: Work): int {
    match w
    case Nothing => 0
    case AtBlock(from, end) => 5 * (end - from)
    case Reading(_, _, next, stop, end) => stop - next + 3 + 5 * (end - stop)
    case Clearing(_, _, from, end) => 2 + 5 * (end - from)
    case Freeing(_, _, from, end) => 1 + 5 * (end - from)
  }

  /** The consumer is not still inside an `add` of the free list when it has to begin another. */
  predicate MayAdd(s: State, t: Tid) {
    t in s.work && (s.work[t].Freeing? ==> t in s.free.pcs && s.free.pcs[t] == Free.Idle)
  }

  ghost predicate CanConsume(s: State, t: Tid) {
    exists s' :: Next(s, Consume(t), s')
  }

  lemma {:induction false} ReturnIsPossible(f: Free.State, t: Tid, b: Block) returns (f': Free.State)
    requires t in f.pcs && f.pcs[t] == Free.Idle && b in f.refs && b in f.status && f.status[b] == Free.Owned
    ensures Free.Next(f, Free.Return(t, b), f')
  {
    f' := Free.Goto(f, t, if f.refs[b] == 0 then Free.KnowZero(b, Free.Done) else Free.Idle)
          .(refs := f.refs[b := f.refs[b] + Free.SHOULD_BE_ON_FREELIST],
            status := f.status[b := if f.refs[b] == 0 then Free.Zero(t) else Free.Flagged],
            log := f.log + [Free.Returned(b)]);
  }

  lemma {:induction false} GiveCanGoOn(s: State, t: Tid)
    requires Free.Inv(s.free) && MayAdd(s, t) && s.work[t].Freeing? && Free.IsOut(s.free.log, s.work[t].block)
    ensures CanConsume(s, t)
  {
    hide Free.Inv, Free.IsOut, Free.Next;
    var w := s.work[t];
    OutIsOwned(s.free, w.block);
    var f' := ReturnIsPossible(s.free, t, w.block);
    var s' := WithWork(s, t, Onward(w.from, w.end))
              .(free := f', slots := s.slots - {w.block}, counters := s.counters - {w.block}, given := s.given + {w.number});
    hide CanConsume;
    ConsumeIs(s, t, s');
  }

  lemma {:induction false} OutIsOwned(f: Free.State, b: Block)
    requires Free.Inv(f) && Free.IsOut(f.log, b)
    ensures b in f.refs && b in f.status && f.status[b] == Free.Owned
  {
  }

  lemma {:induction false} FreeIsOk(s: State)
    requires Inv(s)
    ensures Free.Inv(s.free)
  {
  }

  lemma {:induction false} ReadCanGoOn(s: State, t: Tid)
    requires t in s.work && s.work[t].Reading? && s.work[t].from <= s.work[t].stop
    requires s.work[t].block in s.slots && |s.slots[s.work[t].block]| == BLOCK_SIZE && s.work[t].block in s.counters
    ensures CanConsume(s, t)
  {
    hide CanConsume, Drain.Counted, Drain.BlockOf;
    var w := s.work[t];
    if w.next < w.stop {
      var s' := WithWork(s, t, Reading(w.block, w.from, w.next + 1, w.stop, w.end))
                .(delivered := s.delivered + [Delivery(t, w.next, s.slots[w.block][w.next % BLOCK_SIZE])]);
      ConsumeIs(s, t, s');
    } else {
      var count := s.counters[w.block] + (w.stop - w.from);
      var s' := WithWork(s, t, if count == BLOCK_SIZE then Clearing(w.block, Drain.BlockOf(w.from), w.stop, w.end) else Onward(w.stop, w.end))
                .(counters := s.counters[w.block := count], drain := Drain.Counted(s.drain, Drain.Stretch(w.from, w.stop)));
      ConsumeIs(s, t, s');
    }
  }

  lemma {:induction false} ConsumerCanGoOn(s: State, t: Tid)
    requires Inv(s) && MayAdd(s, t) && s.work[t] != Nothing
    ensures CanConsume(s, t)
  {
    hide Inv, CanConsume, Drain.BlockOf, StopOf, ReportFits, Free.IsOut;
    FindsWhatItNeeds(s, t);
    match s.work[t]
    case AtBlock(from, end) =>
      var s' := WithWork(s, t, Reading(s.index[Drain.BlockOf(from)], from, from, StopOf(from, end), end));
      ConsumeIs(s, t, s');
    case Reading(_, _, _, _, _) =>
      WorkIsOk(s, t);
      ReadCanGoOn(s, t);
    case Clearing(block, number, from, end) =>
      var s' := WithWork(s, t, Freeing(block, number, from, end)).(index := s.index - {number});
      ConsumeIs(s, t, s');
    case Freeing(_, _, _, _) =>
      FreeIsOk(s);
      GiveCanGoOn(s, t);
  }

  lemma {:induction false} ConsumeIs(s: State, t: Tid, s': State)
    requires t in s.work && ConsumeStep(s, t, s')
    ensures CanConsume(s, t)
  {
    assert Next(s, Consume(t), s');
  }

  lemma {:induction false} WorkIsOk(s: State, t: Tid)
    requires Inv(s) && t in s.work
    ensures WorkOk(s.work[t], s.blocks, s.given, s.index, s.drain.read)
  {
  }

  lemma {:induction false} WorkGoesOn(s: State, t: Tid, s': State)
    requires t in s.work && WorkOk(s.work[t], s.blocks, s.given, s.index, s.drain.read) && ConsumeStep(s, t, s')
    ensures s'.work == s.work[t := s'.work[t]] && StepsLeft(s'.work[t]) < StepsLeft(s.work[t])
  {
    hide LeaverOk, Drain.Counted, Drain.InOneBlock, Free.Next, StopOf;
    if s.work[t].AtBlock? {
      StopIsAhead(s.work[t].from, s.work[t].end);
    }
  }

  lemma {:induction false} StopIsAhead(from: nat, end: nat)
    requires from < end
    ensures from < StopOf(from, end) <= end
  {
  }

  lemma {:induction false} OthersWork(s: State, a: Action, t: Tid, s': State)
    requires Next(s, a, s') && t in s.work && s.work[t] != Nothing && a != Consume(t)
    requires a.Consume? ==> a.t in s.work && WorkOk(s.work[a.t], s.blocks, s.given, s.index, s.drain.read)
    ensures t in s'.work && s'.work[t] == s.work[t]
  {
    hide Free.Next, Tickets.Next, ConsumeStep, Drain.Counted, WorkOk;
    if a.Consume? {
      WorkGoesOn(s, a.t, s');
    }
  }

  /** How many of the actions from `m` to `n` are steps of that consumer's loop. */
  function LoopSteps(actions: seq<Action>, t: Tid, m: nat, n: nat): nat
    requires m <= n <= |actions|
    decreases n
  {
    if m == n then 0 else LoopSteps(actions, t, m, n - 1) + if actions[n - 1] == Consume(t) then 1 else 0
  }

  /** In every run a consumer works off what it has claimed within five steps of its loop for
      each index, whatever the others do, and can always take the next one; only before it
      gives a block back it may have to finish the `add` of an earlier one. */
  lemma {:induction false} ClaimIsWorkedOff(run: seq<State>, actions: seq<Action>, m: nat, n: nat, t: Tid, from: nat, end: nat)
    requires Run(run, actions) && m <= n < |run| && t in run[m].work && run[m].work[t] == AtBlock(from, end)
    requires forall k :: m <= k < n ==> t in run[k].work && run[k].work[t] != Nothing
    ensures t in run[n].work && StepsLeft(run[n].work[t]) >= 0
    ensures LoopSteps(actions, t, m, n) + StepsLeft(run[n].work[t]) <= 5 * (end - from)
    ensures run[n].work[t] != Nothing && MayAdd(run[n], t) ==> CanConsume(run[n], t)
    decreases n
  {
    hide Next, Inv, CanConsume, MayAdd, WorkOk, ConsumeStep;
    if n > m {
      ClaimIsWorkedOff(run, actions, m, n - 1, t, from, end);
      RunKeepsInv(run, actions, n - 1);
      WorkIsOk(run[n - 1], t);
      assert Next(run[n - 1], actions[n - 1], run[n]);
      if actions[n - 1] == Consume(t) {
        StepIsConsume(run[n - 1], t, run[n]);
        WorkGoesOn(run[n - 1], t, run[n]);
      } else {
        if actions[n - 1].Consume? {
          StepIsConsume(run[n - 1], actions[n - 1].t, run[n]);
          WorkIsOk(run[n - 1], actions[n - 1].t);
        }
        OthersWork(run[n - 1], actions[n - 1], t, run[n]);
      }
    }
    RunKeepsInv(run, actions, n);
    WorkIsOk(run[n], t);
    LeftIsNat(run[n], t);
    if run[n].work[t] != Nothing && MayAdd(run[n], t) {
      ConsumerCanGoOn(run[n], t);
    }
  }

  lemma {:induction false} StepIsConsume(s: State, t: Tid, s': State)
    requires Next(s, Consume(t), s')
    ensures t in s.work && ConsumeStep(s, t, s')
  {
  }

  lemma {:induction false} LeftIsNat(s: State, t: Tid)
    requires t in s.work && WorkOk(s.work[t], s.blocks, s.given, s.index, s.drain.read)
    ensures StepsLeft(s.work[t]) >= 0
  {
  }

  // ----- What the producer can do ------------------------------------------------

  ghost predicate Can(s: State, a: Action) {
    exists s' :: Next(s, a, s')
  }

  /** In every run the producer can put any element into a block it has started and not filled,
      can publish what it has put in, and can give the newest block back as long as it has put
      nothing into it. */
  lemma {:induction false} ProducerCanGoOn(run: seq<State>, actions: seq<Action>, n: nat, v: Element, f: Tid)
    requires Run(run, actions) && n < |run| && Tickets.Fits(run[n].tickets)
    ensures var s := run[n];
            && (|s.elements| < BLOCK_SIZE * |s.blocks| ==> Can(s, Write(v)))
            && (s.tickets.tail < |s.elements| ==> Can(s, Publish))
            && (s.blocks != [] && |s.elements| <= BLOCK_SIZE * (|s.blocks| - 1) && f in s.free.pcs && s.free.pcs[f] == Free.Idle ==>
                  Can(s, Cancel(f)))
  {
    hide Next, Inv, Can;
    var s := run[n];
    RunKeepsInv(run, actions, n);
    if |s.elements| < BLOCK_SIZE * |s.blocks| {
      ProducerFinds(run, actions, n);
      WriteIsPossible(s, v);
    }
    if s.tickets.tail < |s.elements| {
      PublishIsPossible(s);
    }
    if s.blocks != [] && |s.elements| <= BLOCK_SIZE * (|s.blocks| - 1) && f in s.free.pcs && s.free.pcs[f] == Free.Idle {
      NewestIsOut(s);
      CancelIsPossible(s, f);
    }
  }

  lemma {:induction false} WriteIsPossible(s: State, v: Element)
    requires var b := Drain.BlockOf(|s.elements|);
             b < |s.blocks| && s.blocks[b] in s.slots && |s.slots[s.blocks[b]]| == BLOCK_SIZE
    ensures Can(s, Write(v))
  {
    var i := |s.elements|;
    var block := s.blocks[Drain.BlockOf(i)];
    assert Next(s, Write(v), s.(slots := s.slots[block := s.slots[block][i % BLOCK_SIZE := v]], elements := s.elements + [v]));
  }

  lemma {:induction false} PublishIsPossible(s: State)
    requires Tickets.Fits(s.tickets) && s.tickets.tail < |s.elements|
    ensures Can(s, Publish)
  {
    assert Next(s, Publish, s.(tickets := s.tickets.(tail := s.tickets.tail + (|s.elements| - s.tickets.tail))));
  }

  lemma {:induction false} CancelIsPossible(s: State, f: Tid)
    requires s.blocks != [] && |s.elements| <= BLOCK_SIZE * (|s.blocks| - 1) && f in s.free.pcs && s.free.pcs[f] == Free.Idle
    requires Free.Inv(s.free) && Free.IsOut(s.free.log, s.blocks[|s.blocks| - 1])
    ensures Can(s, Cancel(f))
  {
    hide Free.Inv, Free.IsOut, Free.Next;
    var n := |s.blocks| - 1;
    OutIsOwned(s.free, s.blocks[n]);
    var f' := ReturnIsPossible(s.free, f, s.blocks[n]);
    assert Next(s, Cancel(f), s.(free := f', slots := s.slots - {s.blocks[n]}, counters := s.counters - {s.blocks[n]},
                                 index := s.index - {n}, blocks := s.blocks[..n]));
  }

  /** A block into which nothing was put has not been given back. */
  lemma {:induction false} NewestIsOut(s: State)
    requires Inv(s) && s.blocks != [] && |s.elements| <= BLOCK_SIZE * (|s.blocks| - 1)
    ensures Free.Inv(s.free) && Free.IsOut(s.free.log, s.blocks[|s.blocks| - 1])
  {
    hide ContentsOk, DeliveriesOk, WorkersOk, Free.IsOut;
    var n := |s.blocks| - 1;
    assert BlockOk(s, n);
    assert n * BLOCK_SIZE in Drain.BlockIndices(n);
    assert n * BLOCK_SIZE !in s.drain.read;
  }
}
