/** The calls on the single-producer queue, one by one: each ends within a fixed number of its
    own steps whatever the other thread does, and with an answer about its own argument. */
module SpscCalls {
  import opened Bits
  import opened SpscQueue
  import opened SpscRuns

  // ----- The producer ------------------------------------------------------------

  predicate IsProducing(a: Action) {
    a.Produce? || a.Allocate?
  }

  /** How many of its own steps an enqueue may still take. */
  function StepsLeft(p: Producer): nat {
    match p
    case PIdle => 0
    case PCheck(_, _) => 6
    case PFull(_, _, _) => 5
    case PNextFront(_) => 4
    case PNextWrite(_) => 3
    case PNextTail(_) => 2
    case PSplice(_, _) => 2
    case PAdvance(_) => 1
    case PWrite(_) => 2
    case PPublish(_) => 1
  }

  /** The enqueue may not allocate, and may yet have to. */
  predicate MayReject(p: Producer) {
    (p.PCheck? || p.PFull?) && !p.canAlloc
  }

  /** What a step of the producer does to an enqueue that is under way. */
  predicate EnqueueGoesOn(s: State, s': State)
    requires s.producer != PIdle
  {
    && StepsLeft(s'.producer) < StepsLeft(s.producer)
    && if s'.producer != PIdle then
         s'.producer.e == s.producer.e && s'.produced == s.produced && (MayReject(s'.producer) ==> MayReject(s.producer))
       else
         |s'.produced| == |s.produced| + 1 && s'.produced[..|s.produced|] == s.produced
         && EnqueueAnswer(s'.produced[|s.produced|], s.producer.e, MayReject(s.producer))
  }

  predicate EnqueueAnswer(o: Outcome, e: Element, mayReject: bool) {
    o == Enqueued(e) || (mayReject && o.Rejected?)
  }

  lemma {:induction false} FirstStepsGoOn(s: State, a: Action, s': State)
    requires Next(s, a, s') && IsProducing(a) && (s.producer.PCheck? || s.producer.PFull?)
    ensures EnqueueGoesOn(s, s')
  {
    hide Contents, After, Items, Fill;
  }

  lemma {:induction false} LastStepsGoOn(s: State, a: Action, s': State)
    requires Next(s, a, s') && IsProducing(a) && !(s.producer.PIdle? || s.producer.PCheck? || s.producer.PFull?)
    ensures EnqueueGoesOn(s, s')
  {
    hide Contents, After, Items, Fill;
  }

  lemma {:induction false} ConsumerLeavesProducer(s: State, a: Action, s': State)
    requires Next(s, a, s') && (a.StartDequeue? || a.Consume?)
    ensures s'.producer == s.producer && s'.produced == s.produced
  {
    hide Contents, After, Items, Fill;
  }

  /** Some block does not exist yet. */
  lemma {:induction false} NewBlock(ids: set<BlockId>) returns (nb: BlockId)
    ensures nb !in ids && forall id <- ids :: id < nb
  {
    if ids == {} {
      nb := 0;
    } else {
      var id :| id in ids;
      var n := NewBlock(ids - {id});
      assert ids == ids - {id} + {id};
      nb := if id < n then n else id + 1;
    }
  }

  ghost predicate ProducerCanStep(s: State) {
    exists a, s' :: IsProducing(a) && Next(s, a, s')
  }

  lemma {:induction false} CheckCanStep(s: State)
    requires Sound(s) && s.producer.PCheck?
    ensures ProducerCanStep(s)
  {
    var b := TailB(s);
    var p := if After(b, b.tail) != b.front then PWrite(s.producer.e) else PFull(s.producer.e, s.producer.canAlloc, |Contents(s)|);
    assert Next(s, Produce, Put(s, s.tailBlock, b.(localFront := b.front)).(producer := p));
  }

  lemma {:induction false} FullCanStep(s: State)
    requires Sound(s) && s.producer.PFull?
    ensures ProducerCanStep(s)
  {
    var e, peak := s.producer.e, s.producer.peak;
    if TailB(s).next != s.frontBlock {
      assert Next(s, Produce, s.(producer := PNextFront(e)));
    } else if s.producer.canAlloc {
      var nb := NewBlock(s.blocks.Keys);
      var size := if s.largestBlockSize >= s.maxBlockSize then s.largestBlockSize else 2 * s.largestBlockSize;
      assert Next(s, Allocate(nb), Put(s, nb, Block(size, 0, 1, 0, 1, TailB(s).next, seq(size, _ => e)))
                                   .(largestBlockSize := size, producer := PSplice(e, nb)));
    } else {
      var seen := if peak < |Contents(s)| then |Contents(s)| else peak;
      assert Next(s, Produce, s.(producer := PIdle, produced := s.produced + [Rejected(seen)]));
    }
  }

  lemma {:induction false} TailCanStep(s: State)
    requires Sound(s) && (s.producer.PWrite? || s.producer.PPublish? || s.producer.PSplice? || s.producer.PAdvance?)
    ensures ProducerCanStep(s)
  {
    var b := TailB(s);
    match s.producer
    case PWrite(e) =>
      assert Next(s, Produce, Put(s, s.tailBlock, b.(data := b.data[b.tail := e])).(producer := PPublish(e)));
    case PPublish(e) =>
      assert Next(s, Produce, Put(s, s.tailBlock, b.(tail := After(b, b.tail))).(producer := PIdle, produced := s.produced + [Enqueued(e)]));
    case PSplice(e, nb) =>
      assert Next(s, Produce, Put(s, s.tailBlock, TailB(s).(next := nb))
                              .(ring := s.ring[..s.tailPos + 1] + [nb] + s.ring[s.tailPos + 1..], producer := PAdvance(e)));
    case PAdvance(e) =>
      assert Next(s, Produce, s.(tailBlock := TailB(s).next, tailPos := s.tailPos + 1, producer := PIdle,
                                 produced := s.produced + [Enqueued(e)]));
  }

  lemma {:induction false} NextCanStep(s: State)
    requires Sound(s) && (s.producer.PNextFront? || s.producer.PNextWrite? || s.producer.PNextTail?) && TailB(s).next in s.blocks
    ensures ProducerCanStep(s)
  {
    var nb := TailB(s).next;
    var b := s.blocks[nb];
    match s.producer
    case PNextFront(e) => assert Next(s, Produce, Put(s, nb, b.(localFront := b.front)).(producer := PNextWrite(e)));
    case PNextWrite(e) => assert Next(s, Produce, Put(s, nb, b.(data := b.data[b.tail := e])).(producer := PNextTail(e)));
    case PNextTail(e) => assert Next(s, Produce, Put(s, nb, b.(tail := After(b, b.tail))).(producer := PAdvance(e)));
  }

  lemma {:induction false} EnqueueCanGoOn(s: State)
    requires Inv(s) && s.producer != PIdle
    ensures ProducerCanStep(s)
  {
    hide Next, Contents, After, Items, Fill, ProducerCanStep;
    if s.producer.PCheck? {
      CheckCanStep(s);
    } else if s.producer.PFull? {
      FullCanStep(s);
    } else if s.producer.PNextFront? || s.producer.PNextWrite? || s.producer.PNextTail? {
      TailNext(s);
      NextCanStep(s);
    } else {
      TailCanStep(s);
    }
  }

  /** How many of the actions from `m` to `n` are steps of the producer. */
  function ProducerSteps(actions: seq<Action>, m: nat, n: nat): nat
    requires m <= n <= |actions|
    decreases n
  {
    if m == n then 0 else ProducerSteps(actions, m, n - 1) + if IsProducing(actions[n - 1]) then 1 else 0
  }

  /** The enqueue begun with `actions[m]` is under way until just before `n`. */
  predicate Enqueues(run: seq<State>, actions: seq<Action>, m: nat, n: nat)
    requires |run| == |actions| + 1
  {
    m < n < |run| && actions[m].StartEnqueue? && forall k :: m < k < n ==> run[k].producer != PIdle
  }

  lemma {:induction false} EnqueueBegins(s: State, a: Action, s': State)
    requires Next(s, a, s') && a.StartEnqueue?
    ensures s'.producer != PIdle && s'.producer.e == a.e && (MayReject(s'.producer) ==> !a.canAlloc)
    ensures StepsLeft(s'.producer) <= 6 && s'.produced == s.produced
  {
  }

  lemma {:induction false} EnqueueStep(s: State, a: Action, s': State)
    requires Next(s, a, s') && s.producer != PIdle
    ensures if IsProducing(a) then EnqueueGoesOn(s, s') else s'.producer == s.producer && s'.produced == s.produced
  {
    hide ProducerStep, AllocStep, ConsumerStep, EnqueueGoesOn;
    if a.StartDequeue? || a.Consume? {
      ConsumerLeavesProducer(s, a, s');
    } else if IsProducing(a) {
      if s.producer.PCheck? || s.producer.PFull? {
        FirstStepsGoOn(s, a, s');
      } else {
        LastStepsGoOn(s, a, s');
      }
    }
  }

  /** In every interleaving an enqueue takes at most six steps of its own, can always take the
      next, and ends with its own element accepted; only one that may not allocate can be
      rejected instead. */
  lemma {:induction false} EnqueueIsWaitFree(run: seq<State>, actions: seq<Action>, m: nat, n: nat)
    requires Run(run, actions) && Enqueues(run, actions, m, n)
    ensures ProducerSteps(actions, m + 1, n) + StepsLeft(run[n].producer) <= 6
    ensures run[n].producer != PIdle ==>
              ProducerCanStep(run[n]) && run[n].producer.e == actions[m].e && run[n].produced == run[m].produced
              && (MayReject(run[n].producer) ==> !actions[m].canAlloc)
    ensures run[n].producer == PIdle ==>
              && |run[n].produced| == |run[m].produced| + 1 && run[n].produced[..|run[m].produced|] == run[m].produced
              && EnqueueAnswer(run[n].produced[|run[m].produced|], actions[m].e, !actions[m].canAlloc)
    decreases n
  {
    hide Next, Inv, ProducerCanStep;
    if n == m + 1 {
      EnqueueBegins(run[m], actions[m], run[n]);
    } else {
      EnqueueIsWaitFree(run, actions, m, n - 1);
      EnqueueStep(run[n - 1], actions[n - 1], run[n]);
    }
    RunKeepsInv(run, actions, n);
    if run[n].producer != PIdle {
      EnqueueCanGoOn(run[n]);
    }
  }

  // ----- The consumer ------------------------------------------------------------

  function ReadsLeft(c: Consumer): nat {
    match c
    case CIdle => 0
    case CConsume(_) => 1
    case CRead(_) => 2
    case CPeekNext(_) => 2
    case CAdvance(_) => 3
    case CNextTail(_) => 4
    case CNext(_) => 5
    case CReload(_) => 6
    case CLoadTailBlock(_, _) => 7
    case CLoadTail(_) => 8
  }

  /** The call in progress is a peek. */
  predicate IsPeek(c: Consumer) {
    match c
    case CLoadTail(peek) => peek
    case CLoadTailBlock(peek, _) => peek
    case CReload(peek) => peek
    case CNext(peek) => peek
    case CRead(peek) => peek
    case CPeekNext(_) => true
    case _ => false
  }

  predicate DequeueAnswer(o: Outcome, peek: bool) {
    o.FoundEmpty? || (if peek then o.Peeked? else o.Dequeued?)
  }

  predicate DequeueGoesOn(s: State, s': State)
    requires s.consumer != CIdle
  {
    && ReadsLeft(s'.consumer) < ReadsLeft(s.consumer)
    && if s'.consumer != CIdle then
         s'.consumed == s.consumed && IsPeek(s'.consumer) == IsPeek(s.consumer)
       else
         |s'.consumed| == |s.consumed| + 1 && s'.consumed[..|s.consumed|] == s.consumed
         && DequeueAnswer(s'.consumed[|s.consumed|], IsPeek(s.consumer))
  }

  lemma {:induction false} ConsumerGoesOn(s: State, s': State)
    requires Next(s, Consume, s')
    ensures s.consumer != CIdle && DequeueGoesOn(s, s')
  {
    hide Contents, After, Items, Fill;
  }

  lemma {:induction false} ProducerLeavesConsumer(s: State, a: Action, s': State)
    requires Next(s, a, s') && (a.StartEnqueue? || IsProducing(a))
    ensures s'.consumer == s.consumer && s'.consumed == s.consumed
  {
    hide Contents, After, Items, Fill;
  }

  ghost predicate ConsumerCanStep(s: State) {
    exists s' :: Next(s, Consume, s')
  }

  lemma {:induction false} LoadCanStep(s: State)
    requires Sound(s) && (s.consumer.CLoadTail? || s.consumer.CReload? || s.consumer.CRead? || s.consumer.CConsume?)
    ensures ConsumerCanStep(s)
  {
    hide Items;
    var b := FrontB(s);
    match s.consumer
    case CLoadTail(peek) =>
      assert Next(s, Consume, Put(s, s.frontBlock, b.(localTail := b.tail))
                              .(consumer := if b.front != b.tail then CRead(peek) else CLoadTailBlock(peek, Contents(s) == [])));
    case CReload(peek) =>
      assert Next(s, Consume, Put(s, s.frontBlock, b.(localTail := b.tail))
                              .(consumer := if b.front != b.tail then CRead(peek) else CNext(peek)));
    case CRead(peek) =>
      var r := b.data[b.front];
      assert Next(s, Consume, if peek then s.(consumer := CIdle, consumed := s.consumed + [Peeked(r)]) else s.(consumer := CConsume(r)));
    case CConsume(r) =>
      assert Next(s, Consume, Put(s, s.frontBlock, b.(front := After(b, b.front))).(consumer := CIdle, consumed := s.consumed + [Dequeued(r)]));
  }

  lemma {:induction false} MoveCanStep(s: State)
    requires Sound(s)
    requires s.consumer.CLoadTailBlock? || s.consumer.CNext? || s.consumer.CNextTail? || s.consumer.CAdvance? || s.consumer.CPeekNext?
    requires s.consumer.CNextTail? || s.consumer.CPeekNext? ==> s.consumer.nb in s.blocks
    requires s.consumer.CAdvance? ==> s.tailPos > 0
    ensures ConsumerCanStep(s)
  {
    hide Contents, Items;
    match s.consumer
    case CLoadTailBlock(peek, wasEmpty) =>
      assert Next(s, Consume, if s.frontBlock != s.tailBlock then s.(consumer := CReload(peek))
                              else s.(consumer := CIdle, consumed := s.consumed + [FoundEmpty(wasEmpty)]));
    case CNext(peek) =>
      assert Next(s, Consume, s.(consumer := if peek then CPeekNext(FrontB(s).next) else CNextTail(FrontB(s).next)));
    case CNextTail(nb) =>
      var b := s.blocks[nb];
      assert Next(s, Consume, Put(s, nb, b.(localTail := b.tail)).(consumer := CAdvance(nb)));
    case CAdvance(nb) =>
      assert Next(s, Consume, s.(frontBlock := nb, ring := s.ring[1..] + [s.ring[0]], tailPos := s.tailPos - 1, consumer := CRead(false)));
    case CPeekNext(nb) =>
      assert Next(s, Consume, s.(consumer := CIdle, consumed := s.consumed + [Peeked(s.blocks[nb].data[s.blocks[nb].front])]));
  }

  lemma {:induction false} DequeueCanGoOn(s: State)
    requires Inv(s) && s.consumer != CIdle
    ensures ConsumerCanStep(s)
  {
    hide Next, Contents, After, Items, Fill, ConsumerCanStep;
    if s.consumer.CLoadTail? || s.consumer.CReload? || s.consumer.CRead? || s.consumer.CConsume? {
      LoadCanStep(s);
    } else {
      MoveCanStep(s);
    }
  }

  /** How many of the actions from `m` to `n` are steps of the consumer. */
  function ConsumerSteps(actions: seq<Action>, m: nat, n: nat): nat
    requires m <= n <= |actions|
    decreases n
  {
    if m == n then 0 else ConsumerSteps(actions, m, n - 1) + if actions[n - 1].Consume? then 1 else 0
  }

  /** The dequeue or peek begun with `actions[m]` is under way until just before `n`. */
  predicate Dequeues(run: seq<State>, actions: seq<Action>, m: nat, n: nat)
    requires |run| == |actions| + 1
  {
    m < n < |run| && actions[m].StartDequeue? && forall k :: m < k < n ==> run[k].consumer != CIdle
  }

  lemma {:induction false} DequeueBegins(s: State, a: Action, s': State)
    requires Next(s, a, s') && a.StartDequeue?
    ensures s'.consumer != CIdle && IsPeek(s'.consumer) == a.peek && ReadsLeft(s'.consumer) <= 8 && s'.consumed == s.consumed
  {
  }

  lemma {:induction false} DequeueStep(s: State, a: Action, s': State)
    requires Next(s, a, s') && s.consumer != CIdle
    ensures if a.Consume? then DequeueGoesOn(s, s') else s'.consumer == s.consumer && s'.consumed == s.consumed
  {
    hide ProducerStep, AllocStep, ConsumerStep, DequeueGoesOn;
    if a.Consume? {
      ConsumerGoesOn(s, s');
    } else if a.StartEnqueue? || IsProducing(a) {
      ProducerLeavesConsumer(s, a, s');
    }
  }

  /** In every interleaving a dequeue or a peek takes at most eight steps of its own, can
      always take the next, and ends with an element, taken or only looked at as was asked,
      or with the answer that there is none. */
  lemma {:induction false} DequeueIsWaitFree(run: seq<State>, actions: seq<Action>, m: nat, n: nat)
    requires Run(run, actions) && Dequeues(run, actions, m, n)
    ensures ConsumerSteps(actions, m + 1, n) + ReadsLeft(run[n].consumer) <= 8
    ensures run[n].consumer != CIdle ==>
              ConsumerCanStep(run[n]) && run[n].consumed == run[m].consumed && IsPeek(run[n].consumer) == actions[m].peek
    ensures run[n].consumer == CIdle ==>
              && |run[n].consumed| == |run[m].consumed| + 1 && run[n].consumed[..|run[m].consumed|] == run[m].consumed
              && DequeueAnswer(run[n].consumed[|run[m].consumed|], actions[m].peek)
    decreases n
  {
    hide Next, Inv, ConsumerCanStep;
    if n == m + 1 {
      DequeueBegins(run[m], actions[m], run[n]);
    } else {
      DequeueIsWaitFree(run, actions, m, n - 1);
      DequeueStep(run[n - 1], actions[n - 1], run[n]);
    }
    RunKeepsInv(run, actions, n);
    if run[n].consumer != CIdle {
      DequeueCanGoOn(run[n]);
    }
  }

  // ----- What an answer without an element means ---------------------------------

  predicate IsEmpty(s: State) {
    Sound(s) && Contents(s) == []
  }

  predicate HoldsAtLeast(s: State, n: nat) {
    Sound(s) && |Contents(s)| >= n
  }

  /** The consumer's note that the queue was empty is made when it is. */
  lemma {:induction false} NotesEmpty(s: State, a: Action, s': State)
    requires Next(s, a, s') && s'.consumer.CLoadTailBlock? && s'.consumer.wasEmpty && s.consumer != s'.consumer
    ensures s.consumer.CLoadTail? && IsEmpty(s)
  {
    hide Contents, After, Items, Fill;
  }

  lemma {:induction false} EmptyWasNoted(run: seq<State>, actions: seq<Action>, m: nat, n: nat) returns (k: nat)
    requires Run(run, actions) && Dequeues(run, actions, m, n)
    requires run[n].consumer.CLoadTailBlock? && run[n].consumer.wasEmpty
    ensures m < k < n && IsEmpty(run[k])
    decreases n
  {
    hide Next, IsEmpty;
    if n == m + 1 {
      NotLoadedYet(run[m], actions[m], run[n]);
    } else if run[n - 1].consumer == run[n].consumer {
      k := EmptyWasNoted(run, actions, m, n - 1);
    } else {
      NotesEmpty(run[n - 1], actions[n - 1], run[n]);
      k := n - 1;
    }
  }

  lemma {:induction false} NotLoadedYet(s: State, a: Action, s': State)
    requires Next(s, a, s') && a.StartDequeue?
    ensures !s'.consumer.CLoadTailBlock?
  {
  }

  /** The answer that there is nothing comes from such a note. */
  lemma {:induction false} AnswersEmpty(s: State, a: Action, s': State)
    requires Next(s, a, s') && s.consumer != CIdle && s'.consumer == CIdle
    requires s'.consumed != [] && s'.consumed[|s'.consumed| - 1].FoundEmpty?
    ensures s.consumer == CLoadTailBlock(IsPeek(s.consumer), s'.consumed[|s'.consumed| - 1].wasEmpty)
  {
    hide Contents, After, Items, Fill;
  }

  lemma {:induction false} LastFifoAnswer(consumed: seq<Outcome>, sent: seq<Element>)
    requires FifoAnswers(consumed, sent) && consumed != [] && consumed[|consumed| - 1].FoundEmpty?
    ensures consumed[|consumed| - 1].wasEmpty
  {
  }

  /** In every interleaving a dequeue or peek that answers "empty" did so because the queue
      was empty at an instant of that very call. */
  lemma {:induction false} EmptyMeansEmpty(run: seq<State>, actions: seq<Action>, m: nat, n: nat)
    requires Run(run, actions) && Dequeues(run, actions, m, n) && run[n].consumer == CIdle
    ensures run[n].consumed != []
    ensures run[n].consumed[|run[n].consumed| - 1].FoundEmpty? ==> exists k :: m < k < n && IsEmpty(run[k])
  {
    hide Next, Inv, Contents;
    DequeueIsWaitFree(run, actions, m, n);
    if run[n].consumed[|run[n].consumed| - 1].FoundEmpty? {
      if n == m + 1 {
        DequeueBegins(run[m], actions[m], run[n]);
      } else {
        AnswersEmpty(run[n - 1], actions[n - 1], run[n]);
        EveryRunIsFifo(run, actions, n);
        LastFifoAnswer(run[n].consumed, Sent(run[n].produced));
        var k := EmptyWasNoted(run, actions, m, n - 1);
      }
    }
  }

  /** The producer's note of the most elements it saw is made when there are as many. */
  lemma {:induction false} NotesPeak(s: State, a: Action, s': State)
    requires Next(s, a, s') && s'.producer.PFull? && s.producer != s'.producer
    ensures s.producer.PCheck? && HoldsAtLeast(s, s'.producer.peak)
  {
    hide Contents, After, Items, Fill;
  }

  lemma {:induction false} PeakWasNoted(run: seq<State>, actions: seq<Action>, m: nat, n: nat) returns (k: nat)
    requires Run(run, actions) && Enqueues(run, actions, m, n) && run[n].producer.PFull?
    ensures m < k < n && HoldsAtLeast(run[k], run[n].producer.peak)
    decreases n
  {
    hide Next, HoldsAtLeast;
    if n == m + 1 {
      NotCheckedYet(run[m], actions[m], run[n]);
    } else if run[n - 1].producer == run[n].producer {
      k := PeakWasNoted(run, actions, m, n - 1);
    } else {
      NotesPeak(run[n - 1], actions[n - 1], run[n]);
      k := n - 1;
    }
  }

  lemma {:induction false} NotCheckedYet(s: State, a: Action, s': State)
    requires Next(s, a, s') && a.StartEnqueue?
    ensures !s'.producer.PFull?
  {
  }

  lemma {:induction false} RejectsAtPeak(s: State, a: Action, s': State)
    requires Next(s, a, s') && s.producer != PIdle && s'.producer == PIdle
    requires s'.produced != [] && s'.produced[|s'.produced| - 1].Rejected?
    ensures s.producer.PFull?
    ensures var peak := s'.produced[|s'.produced| - 1].peak; peak == s.producer.peak || HoldsAtLeast(s, peak)
  {
    hide Contents, After, Items, Fill;
  }

  /** In every interleaving an enqueue is rejected only if at an instant of that very call the
      queue held as many elements as it was built for. */
  lemma {:induction false} RejectedMeansFull(run: seq<State>, actions: seq<Action>, m: nat, n: nat)
    requires Run(run, actions) && Enqueues(run, actions, m, n) && run[n].producer == PIdle
    ensures run[n].produced != []
    ensures run[n].produced[|run[n].produced| - 1].Rejected? ==> exists k :: m < k < n && HoldsAtLeast(run[k], run[n].maxSize)
  {
    hide Next, Inv, Contents;
    EnqueueIsWaitFree(run, actions, m, n);
    var last := |run[n].produced| - 1;
    if run[n].produced[last].Rejected? {
      if n == m + 1 {
        EnqueueBegins(run[m], actions[m], run[n]);
      } else {
        RejectsAtPeak(run[n - 1], actions[n - 1], run[n]);
        RejectedOnlyWhenFull(run, actions, n);
        if run[n].produced[last].peak == run[n - 1].producer.peak {
          var k := PeakWasNoted(run, actions, m, n - 1);
        }
      }
    }
  }

  // ----- How the blocks grow -----------------------------------------------------

  function Allocations(actions: seq<Action>, n: nat): nat
    requires n <= |actions|
  {
    if n == 0 then 0 else Allocations(actions, n - 1) + if actions[n - 1].Allocate? then 1 else 0
  }

  lemma {:induction false} NextPower(p: nat, q: nat)
    requires IsPow2(p) && IsPow2(q) && p < q
    ensures 2 * p <= q
  {
    var a: nat :| p == Pow2(a);
    var b: nat :| q == Pow2(b);
    PowersInOrder(a, b);
  }

  lemma {:induction false} PowersInOrder(a: nat, b: nat)
    requires Pow2(a) < Pow2(b)
    ensures 2 * Pow2(a) <= Pow2(b)
  {
    if a > 0 && b > 0 {
      PowersInOrder(a - 1, b - 1);
    }
  }

  lemma {:induction false} SizesStep(s: State, a: Action, s': State)
    requires Next(s, a, s')
    ensures s'.maxBlockSize == s.maxBlockSize
    ensures s'.largestBlockSize == if a.Allocate? && s.largestBlockSize < s.maxBlockSize then 2 * s.largestBlockSize else s.largestBlockSize
    ensures a.Allocate? ==> a.nb in s'.blocks && s'.blocks[a.nb].size == s'.largestBlockSize
  {
    hide Contents, After, Items, Fill;
  }

  lemma {:induction false} SizesArePowers(s: State)
    requires Inv(s)
    ensures IsPow2(s.largestBlockSize) && IsPow2(s.maxBlockSize)
  {
  }

  /** A size that is doubled until it is `most`, where it stays: `doubled` is the first size
      doubled so often. */
  function Grown(first: nat, most: nat, doubled: nat): nat {
    if first >= most then first else if doubled <= most then doubled else most
  }

  lemma {:induction false} GrowsOnce(first: nat, most: nat, doubled: nat, size: nat)
    requires size == Grown(first, most, doubled) && doubled >= first && (size < most ==> 2 * size <= most)
    ensures Grown(first, most, 2 * doubled) == if size < most then 2 * size else size
  {
  }

  lemma {:induction false} OneMoreDoubling(first: nat, k: nat)
    ensures first * Pow2(k + 1) == 2 * (first * Pow2(k)) && first * Pow2(k) >= first
  {
    var p := Pow2(k);
    assert Pow2(k + 1) == 2 * p;
    assert first * (2 * p) == 2 * (first * p);
    MulAtLeast(first, p);
  }

  /** In every run each allocation gives a block of twice the size of the largest before it,
      as long as that is no larger than the largest allowed, and of that size from then on. */
  lemma {:induction false} BlocksDouble(run: seq<State>, actions: seq<Action>, n: nat)
    requires Run(run, actions) && n < |run|
    ensures run[n].maxBlockSize == run[0].maxBlockSize
    ensures run[n].largestBlockSize
         == Grown(run[0].largestBlockSize, run[0].maxBlockSize, run[0].largestBlockSize * Pow2(Allocations(actions, n)))
    ensures n > 0 && actions[n - 1].Allocate? ==>
              var nb := actions[n - 1].nb;
              nb in run[n].blocks && run[n].blocks[nb].size == run[n].largestBlockSize
  {
    hide Next, Inv, IsPow2, Grown, Pow2, Fresh;
    var first, most := run[0].largestBlockSize, run[0].maxBlockSize;
    if n == 0 {
      NotGrown(first, most);
    } else {
      BlocksDouble(run, actions, n - 1);
      SizesStep(run[n - 1], actions[n - 1], run[n]);
      RunKeepsInv(run, actions, n - 1);
      SizesArePowers(run[n - 1]);
      var k, size := Allocations(actions, n - 1), run[n - 1].largestBlockSize;
      if size < most {
        NextPower(size, most);
      }
      OneMoreDoubling(first, k);
      GrowsOnce(first, most, first * Pow2(k), size);
    }
  }

  lemma {:induction false} NotGrown(first: nat, most: nat)
    ensures first == Grown(first, most, first * Pow2(0))
  {
  }
}
