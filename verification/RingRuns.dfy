/** Whole runs of the queue with its lookups taken access by access: whatever the producer does
    to the rings in between, a lookup ends at the block of the claimed element, so that the
    runs are runs of `MultiQueue`. */
module RingRuns {
  import B = BlockIndex
  import Drain = BlockDrain
  import M = MultiQueue
  import R = MultiRuns
  import opened Bits
  import opened Options
  import opened RingQueue
  import opened Words

  ghost predicate Run(run: seq<State>, actions: seq<Action>) {
    && |run| == |actions| + 1 && Init(run[0])
    && forall k :: 0 <= k < |actions| ==> Next(run[k], actions[k], run[k + 1])
  }

  lemma {:induction false} RunKeepsInv(run: seq<State>, actions: seq<Action>, n: nat)
    requires Run(run, actions) && n < |run|
    ensures Inv(run[n])
  {
    hide Init, Next, Inv;
    if n == 0 {
      InitInv(run[0]);
    } else {
      RunKeepsInv(run, actions, n - 1);
      StepKeepsInv(run[n - 1], actions[n - 1], run[n]);
    }
  }

  /** In every run: the key that a consumer finds at the tail it has loaded is a valid one; the
      slot it computes holds the block of its next element, under that block's number; and the
      cell out of which it takes a drained block is the one of that block. */
  lemma {:induction false} LookupFinds(run: seq<State>, actions: seq<Action>, n: nat, t: Tid)
    requires Run(run, actions) && n < |run| && t in run[n].look
    ensures var s := run[n];
            && Shaped(s) && t in s.queue.work
            && (s.look[t].SawTail? && AtBlock(s, t) ==>
                  && s.look[t].ring < |s.rings| && s.look[t].tail < |s.rings[s.look[t].ring].cells|
                  && s.cells[s.rings[s.look[t].ring].cells[s.look[t].tail]].key.Some?)
            && (s.look[t].AtSlot? && AtBlock(s, t) ==>
                  var b := Drain.BlockOf(s.queue.work[t].from);
                  HasCell(s, t) && b in s.queue.index && s.cells[CellOf(s, t)] == Cell(Some(b), Some(s.queue.index[b])))
            && (s.queue.work[t].Clearing? ==>
                  var b := s.queue.work[t].number;
                  HasCell(s, t) && b in s.queue.index && s.cells[CellOf(s, t)] == Cell(Some(b), Some(s.queue.index[b])))
  {
    RunKeepsInv(run, actions, n);
    var s := run[n];
    InvShaped(s);
    LooksHaveWork(s, t);
    hide Inv, Run;
    if AtBlock(s, t) && s.look[t].SawTail? {
      KeyAtTail(s, t);
    } else if AtBlock(s, t) && s.look[t].AtSlot? {
      FindsBlock(s, t);
    } else if s.queue.work[t].Clearing? {
      NumberIsThere(s, t);
      CellIsRight(s, t);
    }
  }

  /** The accesses of a lookup. */
  predicate IsLookup(a: Action, t: Tid) {
    a == LoadRing(t) || a == LoadTail(t) || a == LoadKey(t) || a == LoadBlock(t)
  }

  ghost predicate CanLookUp(s: State, t: Tid) {
    exists a, s' :: IsLookup(a, t) && Next(s, a, s')
  }

  /** In every run a consumer that is looking up a block can always make its next access. */
  lemma {:induction false} LookupCanGoOn(run: seq<State>, actions: seq<Action>, n: nat, t: Tid)
    requires Run(run, actions) && n < |run| && t in run[n].look && AtBlock(run[n], t)
    ensures CanLookUp(run[n], t)
  {
    var s := run[n];
    RunKeepsInv(run, actions, n);
    InvShaped(s);
    LookupFinds(run, actions, n, t);
    LooksAtRing(s, t);
    hide Inv, Run, Next, Shaped, AtBlock, HasCell, CellOf, CanLookUp;
    match s.look[t]
    case Unlooked => RingCanLoad(s, t);
    case SawRing(_) => TailCanLoad(s, t);
    case SawTail(_, _, _) => KeyCanLoad(s, t);
    case AtSlot(_, _) => BlockCanLoad(s, t);
  }

  lemma {:induction false} LooksAtRing(s: State, t: Tid)
    requires Inv(s) && t in s.look
    ensures s.look[t].SawRing? ==> s.look[t].ring < |s.rings|
  {
    hide M.Inv, CellsOk, RingOk, Reach;
    assert s.rings != [] && ConsumerOk(s, t);
  }

  lemma {:induction false} RingCanLoad(s: State, t: Tid)
    requires Shaped(s) && t in s.look && AtBlock(s, t) && s.look[t].Unlooked?
    ensures CanLookUp(s, t)
  {
    assert Next(s, LoadRing(t), WithLook(s, t, SawRing(|s.rings| - 1)));
  }

  lemma {:induction false} TailCanLoad(s: State, t: Tid)
    requires Shaped(s) && t in s.look && AtBlock(s, t) && s.look[t].SawRing? && s.look[t].ring < |s.rings|
    ensures CanLookUp(s, t)
  {
    var h := s.look[t].ring;
    assert Next(s, LoadTail(t), WithLook(s, t, SawTail(h, s.rings[h].tail, s.rings[h].top)));
  }

  lemma {:induction false} KeyCanLoad(s: State, t: Tid)
    requires Shaped(s) && t in s.look && AtBlock(s, t) && s.look[t].SawTail? && s.look[t].ring < |s.rings|
    requires s.look[t].tail < |s.rings[s.look[t].ring].cells|
    requires s.cells[s.rings[s.look[t].ring].cells[s.look[t].tail]].key.Some?
    ensures CanLookUp(s, t)
  {
    hide B.LookupSlot;
    var h, tail := s.look[t].ring, s.look[t].tail;
    var r := s.rings[h];
    var slot := B.LookupSlot(tail, |r.cells|, Wrap(BLOCK_SIZE * s.cells[r.cells[tail]].key.value), Wrap(s.queue.work[t].from));
    assert Next(s, LoadKey(t), WithLook(s, t, AtSlot(h, slot)));
  }

  lemma {:induction false} BlockCanLoad(s: State, t: Tid)
    requires Shaped(s) && t in s.look && AtBlock(s, t) && HasCell(s, t) && s.cells[CellOf(s, t)].value.Some?
    ensures CanLookUp(s, t)
  {
    hide M.StopOf;
    var w, block := s.queue.work[t], s.cells[CellOf(s, t)].value.value;
    assert Next(s, LoadBlock(t), s.(queue := M.WithWork(s.queue, t, M.Reading(block, w.from, w.from, M.StopOf(w.from, w.end), w.end))));
  }

  lemma {:induction false} LooksHaveWork(s: State, t: Tid)
    requires Inv(s) && t in s.look
    ensures t in s.queue.work
  {
    hide M.Inv, RingsOk;
  }

  lemma {:induction false} FindsBlock(s: State, t: Tid)
    requires Inv(s) && Shaped(s) && t in s.look && AtBlock(s, t) && s.look[t].AtSlot?
    ensures var b := Drain.BlockOf(s.queue.work[t].from);
            HasCell(s, t) && b in s.queue.index && s.cells[CellOf(s, t)] == Cell(Some(b), Some(s.queue.index[b]))
  {
    hide M.Inv, RingsOk, LooksOk;
    var w := s.queue.work[t];
    ClaimIsNotEmpty(s.queue, t);
    assert Drain.BlockOf(w.from) * BLOCK_SIZE <= w.from < w.end;
    ClaimedInIndex(s.queue, t, Drain.BlockOf(w.from));
    CellIsRight(s, t);
  }

  lemma {:induction false} InvShaped(s: State)
    requires Inv(s)
    ensures Shaped(s)
  {
    hide M.Inv, LooksOk;
    forall h | 0 <= h < |s.rings| ensures RingShaped(s.rings[h], |s.cells|) {
      assert RingOk(s.rings[h], |s.cells|);
    }
  }

  /** The queue of a run with lookups access by access is the queue of a run in which each
      lookup is one step: what `MultiRuns` says of every run holds here too. */
  lemma {:induction false} RefinesMultiQueue(run: seq<State>, actions: seq<Action>, n: nat)
      returns (steps: seq<M.State>, taken: seq<M.Action>)
    requires Run(run, actions) && n < |run|
    ensures R.Run(steps, taken) && steps[|steps| - 1] == run[n].queue
  {
    hide Next, Inv, M.Next;
    if n == 0 {
      steps, taken := [run[0].queue], [];
    } else {
      steps, taken := RefinesMultiQueue(run, actions, n - 1);
      RunKeepsInv(run, actions, n - 1);
      StepRefines(run[n - 1], actions[n - 1], run[n]);
      if run[n].queue != run[n - 1].queue {
        var q :| M.Next(run[n - 1].queue, q, run[n].queue);
        steps, taken := steps + [run[n].queue], taken + [q];
      }
    }
  }

  /** After the ring was widened there is room for the next key. */
  lemma {:induction false} WiderHasRoom(run: seq<State>, actions: seq<Action>, n: nat, garbage: seq<Option<M.Block>>)
    requires Run(run, actions) && n < |actions| && actions[n] == Widen(garbage)
    ensures var s := run[n + 1];
            && Shaped(s) && TailAfter(Current(s)) < |Current(s).cells|
            && s.cells[Current(s).cells[TailAfter(Current(s))]].key == None
  {
    RunKeepsInv(run, actions, n + 1);
    RunKeepsInv(run, actions, n);
    InvShaped(run[n + 1]);
    assert Next(run[n], actions[n], run[n + 1]);
    RoomInWider(run[n], garbage, run[n + 1]);
  }

  lemma {:induction false} RoomInWider(s: State, garbage: seq<Option<M.Block>>, s': State)
    requires Inv(s) && Shaped(s) && Shaped(s') && WidenStep(s, garbage, s')
    ensures TailAfter(Current(s')) == |Current(s).cells| && s'.cells[Current(s').cells[TailAfter(Current(s'))]].key == None
  {
    assert RingOk(Current(s), |s.cells|);
    hide Inv, RingOk, Shaped, Wider, Spare;
    WiderTail(Current(s), |s.cells|);
  }

  lemma {:induction false} WiderTail(r: Ring, n: nat)
    requires RingOk(r, n)
    ensures Wider(r, n).cells != [] && TailAfter(Wider(r, n)) == |r.cells| < |Wider(r, n).cells|
    ensures Wider(r, n).cells[|r.cells|] == n
  {
    B.TailOfOldHalf(|r.cells|);
    MaskedSuccessor(|r.cells| - 1, 2 * |r.cells|);
  }

  // ----- The producer ------------------------------------------------------------

  predicate IsInsertion(a: Action) {
    a.StoreKey? || a.Widen? || a.StoreTail? || a.Rewind? || a.StoreNull? || a.Unwind?
  }

  ghost predicate CanInsert(s: State) {
    exists a, s' :: IsInsertion(a) && Next(s, a, s')
  }

  /** The cell for the next block is that of a block in use, and the ring is as wide as it can be. */
  predicate NoRoom(s: State)
    requires Shaped(s) && TailAfter(Current(s)) < |Current(s).cells|
  {
    !Spare(s.cells[Current(s).cells[TailAfter(Current(s))]]) && 2 * |Current(s).cells| > B.MAX_CAPACITY
  }

  lemma {:induction false} TailAfterInRing(r: Ring, n: nat)
    requires RingOk(r, n)
    ensures r.cells != [] && TailAfter(r) < |r.cells|
  {
    MaskedSuccessor(r.tail, |r.cells|);
  }

  /** In every run the producer can go on with the index: it begins an insertion or widens the
      ring unless there is no room, and what it has begun it can finish or take back. */
  lemma {:induction false} ProducerCanGoOn(run: seq<State>, actions: seq<Action>, n: nat)
    requires Run(run, actions) && n < |run|
    ensures var s := run[n];
            && Shaped(s) && TailAfter(Current(s)) < |Current(s).cells|
            && (CanInsert(s) <==> !(s.producer == Resting && NoRoom(s)))
  {
    var s := run[n];
    RunKeepsInv(run, actions, n);
    InvShaped(s);
    CurrentIsOk(s);
    TailAfterInRing(Current(s), |s.cells|);
    hide Inv, Run, RingOk;
    if s.producer == Resting {
      RestingCanInsert(s);
    } else {
      BusyCanInsert(s);
    }
  }

  lemma {:induction false} CurrentIsOk(s: State)
    requires Inv(s)
    ensures s.rings != [] && RingOk(Current(s), |s.cells|)
  {
    hide M.Inv, LooksOk;
  }

  lemma {:induction false} BusyCanInsert(s: State)
    requires Shaped(s) && s.producer != Resting && TailAfter(Current(s)) < |Current(s).cells|
    ensures CanInsert(s)
  {
    var slot := TailAfter(Current(s));
    match s.producer
    case Keyed => assert Next(s, StoreTail, WithTail(s, slot, 1, Inserted));
    case Inserted => assert Next(s, Rewind, WithTail(s, TailBefore(Current(s)), -1, Rewound));
    case Rewound => assert Next(s, StoreNull, WithValue(s, Current(s).cells[slot], None).(producer := Resting));
    case Unwinding => assert Next(s, Unwind, WithTail(s, TailBefore(Current(s)), -1, Resting));
  }

  lemma {:induction false} RestingCanInsert(s: State)
    requires Shaped(s) && s.producer == Resting && TailAfter(Current(s)) < |Current(s).cells|
    ensures CanInsert(s) <==> !NoRoom(s)
  {
    var r := Current(s);
    var id := r.cells[TailAfter(r)];
    if Spare(s.cells[id]) {
      var n := |s.queue.blocks|;
      assert Next(s, StoreKey, s.(cells := s.cells[id := s.cells[id].(key := Some(n))], producer := Keyed,
                                  high := if n > s.high then n else s.high));
    } else if 2 * |r.cells| <= B.MAX_CAPACITY {
      CanWiden(s);
    }
  }

  lemma {:induction false} CanWiden(s: State)
    requires Shaped(s) && s.producer == Resting && TailAfter(Current(s)) < |Current(s).cells|
    requires !Spare(s.cells[Current(s).cells[TailAfter(Current(s))]]) && 2 * |Current(s).cells| <= B.MAX_CAPACITY
    ensures CanInsert(s)
  {
    hide Wider;
    var r := Current(s);
    var garbage: seq<Option<M.Block>> := seq(|r.cells|, _ => None);
    assert Next(s, Widen(garbage), s.(cells := s.cells + seq(|garbage|, i requires 0 <= i < |garbage| => Cell(None, garbage[i])),
                                      rings := s.rings + [Wider(r, |s.cells|)]));
  }
}
