/** The control channel of an event loop: any number of senders enqueue under a spin lock
    and then write to an eventfd; the loop sleeps until the eventfd is readable and then
    drains the queue. The queue is the single-producer, single-consumer one: an enqueue or
    dequeue is as many steps as it takes there, and nothing but the lock keeps two senders
    from being its producer at once. */
module ControlChannel {
  import opened Options
  import Q = SpscQueue
  import SpscCalls
  import SpscRuns

  type Tid = nat
  type Message = Q.Element

  /** The largest value an eventfd counter can take; a write beyond it fails. */
  const EVENTFD_MAX: nat := 0xffff_ffff_ffff_fffe

  datatype Sender =
    | Outside
    | Locked(msg: Message)     // holds the lock, about to call try_enqueue
    | Calling(msg: Message)    // inside try_enqueue
    | Sent(msg: Message)       // enqueued, about to write to the eventfd
    | Leaving                  // about to release the lock

  datatype Receiver =
    | Waiting                  // in the event loop
    | Reading                  // about to read the eventfd
    | Dequeuing                // about to call try_dequeue
    | InCall                   // inside try_dequeue
    | Running(msg: Message)    // executing the work of a message

  /** A thread that got the lock, and what it came to send. */
  datatype Holder = Holder(t: Tid, msg: Message)

  /** The queue, the eventfd counter, the lock and the threads, and three histories: who
      got the lock, which of them were told that their message was accepted, and the
      messages whose work was started. */
  datatype State = State(queue: Q.State, counter: nat, lock: Option<Tid>,
                         senders: map<Tid, Sender>, receiver: Receiver,
                         locked: seq<Holder>, accepted: seq<bool>, ran: seq<Message>)

  ghost predicate Init(s: State) {
    && SpscRuns.Fresh(s.queue) && s.counter == 0 && s.lock == None
    && (forall t <- s.senders :: s.senders[t] == Outside)
    && s.receiver == Reading  // binding the channel drains it once
    && s.locked == [] && s.accepted == [] && s.ran == []
  }

  // ----- Steps -------------------------------------------------------------------

  datatype Action = Lock(t: Tid, msg: Message) | Call(t: Tid) | Produce(t: Tid) | Write(t: Tid) | Unlock(t: Tid)
                  | Wake | Read | StartDequeue | Consume | Finish

  function Goto(s: State, t: Tid, pc: Sender): State {
    s.(senders := s.senders[t := pc])
  }

  predicate Next(s: State, a: Action, s': State) {
    match a
    case Lock(t, msg) =>
      t in s.senders && s.senders[t] == Outside && s.lock == None &&
      s' == Goto(s, t, Locked(msg)).(lock := Some(t), locked := s.locked + [Holder(t, msg)])
    case Call(t) => t in s.senders && s.senders[t].Locked? && CallStep(s, t, s.senders[t].msg, s')
    case Produce(t) => t in s.senders && s.senders[t].Calling? && ProduceStep(s, t, s.senders[t].msg, s')
    case Write(t) =>
      t in s.senders && s.senders[t].Sent? &&
      s' == Goto(s, t, Leaving).(counter := if s.counter < EVENTFD_MAX then s.counter + 1 else s.counter)
    case Unlock(t) =>
      t in s.senders && s.senders[t] == Leaving && s' == Goto(s, t, Outside).(lock := None)
    case _ => ReceiverStep(s, a, s')
  }

  /** The call of `try_enqueue`. It does not look whether another call is in progress. */
  predicate CallStep(s: State, t: Tid, msg: Message, s': State) {
    Q.Sound(s.queue) &&
    var b := Q.TailB(s.queue);
    s' == Goto(s, t, Calling(msg))
          .(queue := s.queue.(producer := if Q.After(b, b.tail) != b.localFront then Q.PWrite(msg) else Q.PCheck(msg, false)))
  }

  /** A step of `try_enqueue`; with the last one the sender is told the outcome. */
  predicate ProduceStep(s: State, t: Tid, msg: Message, s': State) {
    && Q.Sound(s.queue) && Q.ProducerStep(s.queue, s'.queue)
    && var q := s'.queue;
       if q.producer != Q.PIdle then s' == s.(queue := q)
       else
         q.produced != [] &&
         var ok := q.produced[|q.produced| - 1].Enqueued?;
         s' == Goto(s, t, if ok then Sent(msg) else Leaving).(queue := q, accepted := s.accepted + [ok])
  }

  predicate ReceiverStep(s: State, a: Action, s': State) {
    match a
    case Wake => s.receiver == Waiting && s.counter > 0 && s' == s.(receiver := Reading)
    case Read => s.receiver == Reading && s' == s.(receiver := Dequeuing, counter := 0)
    case StartDequeue =>
      s.receiver == Dequeuing && Q.Next(s.queue, Q.StartDequeue(false), s'.queue) &&
      s' == s.(receiver := InCall, queue := s'.queue)
    case Consume => s.receiver == InCall && ConsumeStep(s, s')
    case Finish => s.receiver.Running? && s' == s.(receiver := Reading)
    case _ => false
  }

  /** A step of `try_dequeue`; with the last one its outcome is known: a message, whose work
      is then run, or none, and then the loop goes back to sleep. */
  predicate ConsumeStep(s: State, s': State) {
    && Q.Sound(s.queue) && Q.ConsumerStep(s.queue, s'.queue)
    && var q := s'.queue;
       if q.consumer != Q.CIdle then s' == s.(queue := q)
       else
         q.consumed != [] &&
         match q.consumed[|q.consumed| - 1]
         case Dequeued(e) => s' == s.(queue := q, receiver := Running(e), ran := s.ran + [e])
         case _ => s' == s.(queue := q, receiver := Waiting)
  }

  // ----- What the channel keeps --------------------------------------------------

  /** The messages in the queue. */
  function Queued(q: Q.State): seq<Message> {
    var sent, taken := Q.Sent(q.produced), Q.Taken(q.consumed);
    if taken <= |sent| then sent[taken..] else []
  }

  /** The messages of those holders of the lock that were not rejected, in lock order. */
  function NotRejected(locked: seq<Holder>, accepted: seq<bool>): seq<Message>
    requires |accepted| <= |locked|
  {
    if accepted == [] then []
    else
      var n := |accepted| - 1;
      NotRejected(locked, accepted[..n]) + (if accepted[n] then [locked[n].msg] else [])
  }

  /** A sender holds the lock exactly while it is between locking and unlocking. */
  predicate LockOk(s: State) {
    && (forall t <- s.senders :: s.senders[t] != Outside <==> s.lock == Some(t))
    && (s.lock.Some? ==> s.lock.value in s.senders)
  }

  /** The holder of the lock has yet to learn what becomes of its message. */
  predicate Undecided(s: State) {
    && s.lock.Some? && s.lock.value in s.senders
    && (s.senders[s.lock.value].Locked? || s.senders[s.lock.value].Calling?)
  }

  predicate Signalling(s: State) {
    s.lock.Some? && s.lock.value in s.senders && s.senders[s.lock.value].Sent?
  }

  function MessageOf(p: Q.Producer): Option<Message> {
    match p
    case PIdle => None
    case _ => Some(p.e)
  }

  /** The producer of the queue is idle, except in a call of the holder of the lock. */
  predicate ProducerOk(s: State) {
    MessageOf(s.queue.producer)
      == if s.lock.Some? && s.lock.value in s.senders && s.senders[s.lock.value].Calling?
         then Some(s.senders[s.lock.value].msg) else None
  }

  /** Every holder but an undecided one has been told what the queue answered to it. */
  predicate TurnsOk(s: State) {
    && |s.accepted| == |s.queue.produced|
    && |s.locked| == |s.accepted| + (if Undecided(s) then 1 else 0)
    && (Undecided(s) ==> s.locked[|s.locked| - 1] == Holder(s.lock.value, s.senders[s.lock.value].msg))
    && forall i :: 0 <= i < |s.accepted| ==>
         && (s.accepted[i] <==> s.queue.produced[i].Enqueued?)
         && (s.accepted[i] ==> s.queue.produced[i].e == s.locked[i].msg)
  }

  /** The loop dequeues and does not peek. */
  predicate Dequeues(c: Q.Consumer) {
    !SpscCalls.IsPeek(c)
  }

  /** The loop sleeps, or is about to since it has seen the queue empty. */
  predicate Drowsy(s: State) {
    s.receiver == Waiting || (s.receiver == InCall && s.queue.consumer.CLoadTailBlock? && s.queue.consumer.wasEmpty)
  }

  predicate ReceiverOk(s: State) {
    && (s.receiver == InCall <==> s.queue.consumer != Q.CIdle) && Dequeues(s.queue.consumer)
    && Q.Taken(s.queue.consumed) <= |Q.Sent(s.queue.produced)|
    && s.ran == Q.Sent(s.queue.produced)[..Q.Taken(s.queue.consumed)]
    && (Drowsy(s) ==> Queued(s.queue) == [] || s.counter > 0 || Signalling(s))
  }

  ghost predicate Inv(s: State) {
    Q.Inv(s.queue) && LockOk(s) && ProducerOk(s) && TurnsOk(s) && ReceiverOk(s)
  }

  lemma {:induction false} InitInv(s: State)
    requires Init(s)
    ensures Inv(s)
  {
  }

  // ----- What the steps of the queue do to its histories ---------------------------

  lemma {:induction false} QueuedIsContents(q: Q.State)
    requires Q.Inv(q)
    ensures Q.Taken(q.consumed) <= |Q.Sent(q.produced)| && Queued(q) == Q.Contents(q)
  {
  }

  lemma {:induction false} SentAppend(produced: seq<Q.Outcome>, o: Q.Outcome)
    ensures Q.Sent(produced + [o]) == Q.Sent(produced) + if o.Enqueued? then [o.e] else []
  {
    assert (produced + [o])[..|produced|] == produced;
  }

  lemma {:induction false} TakenAppend(consumed: seq<Q.Outcome>, o: Q.Outcome)
    ensures Q.Taken(consumed + [o]) == Q.Taken(consumed) + if o.Dequeued? then 1 else 0
  {
    assert (consumed + [o])[..|consumed|] == consumed;
  }

  /** What `try_enqueue` can answer from here. */
  predicate EnqueueAnswer(q: Q.State, o: Q.Outcome) {
    o.Rejected? || (o.Enqueued? && Some(o.e) == MessageOf(q.producer))
  }

  /** What `try_dequeue` can answer from here. */
  predicate DequeueAnswer(q: Q.State, o: Q.Outcome) {
    o.Dequeued? || (o.FoundEmpty? && q.consumer == Q.CLoadTailBlock(false, o.wasEmpty))
  }

  /** A producer goes on with its message until it is told one outcome about it. */
  lemma {:induction false} ProducerEffect(q: Q.State, q': Q.State)
    requires Q.Sound(q) && Q.ProducerStep(q, q')
    ensures q'.consumer == q.consumer && q'.consumed == q.consumed
    ensures if q'.producer != Q.PIdle then q'.produced == q.produced && MessageOf(q'.producer) == MessageOf(q.producer)
            else exists o :: EnqueueAnswer(q, o) && q'.produced == q.produced + [o]
  {
    hide Q.Contents, Q.After, Q.Items;
    match q.producer
    case PFull(e, _, peak) =>
      if q'.producer == Q.PIdle {
        var o := q'.produced[|q.produced|];
        assert EnqueueAnswer(q, o) && q'.produced == q.produced + [o];
      }
    case PPublish(e) => assert EnqueueAnswer(q, Q.Enqueued(e)) && q'.produced == q.produced + [Q.Enqueued(e)];
    case PAdvance(e) => assert EnqueueAnswer(q, Q.Enqueued(e)) && q'.produced == q.produced + [Q.Enqueued(e)];
    case _ =>
  }

  /** A dequeue goes on until it has an element, or has found the queue empty. */
  lemma {:induction false} ConsumerEffect(q: Q.State, q': Q.State)
    requires Q.Sound(q) && Q.ConsumerStep(q, q') && Dequeues(q.consumer)
    ensures q'.producer == q.producer && q'.produced == q.produced
    ensures q'.consumer != Q.CIdle ==>
              && q'.consumed == q.consumed && Dequeues(q'.consumer)
              && (q'.consumer.CLoadTailBlock? ==> q'.consumer.wasEmpty == (Q.Contents(q) == []))
    ensures q'.consumer == Q.CIdle ==> exists o :: DequeueAnswer(q, o) && q'.consumed == q.consumed + [o]
  {
    hide Q.Contents, Q.After, Q.Items;
    match q.consumer
    case CLoadTailBlock(_, wasEmpty) =>
      if q'.consumer == Q.CIdle {
        assert DequeueAnswer(q, Q.FoundEmpty(wasEmpty)) && q'.consumed == q.consumed + [Q.FoundEmpty(wasEmpty)];
      }
    case CConsume(r) => assert DequeueAnswer(q, Q.Dequeued(r)) && q'.consumed == q.consumed + [Q.Dequeued(r)];
    case _ =>
  }

  // ----- Every step keeps the invariant ------------------------------------------

  /** The lock, the producer and the turns: what a change of the lock holder must do. */
  lemma {:induction false} CallKeepsInv(s: State, t: Tid, s': State)
    requires Inv(s) && t in s.senders && s.senders[t].Locked? && CallStep(s, t, s.senders[t].msg, s')
    ensures Inv(s')
  {
    hide Q.Inv, Q.Sent, Q.Taken, Q.After;
    assert s.lock == Some(t);
    IdleProducer(s);
    Q.StepKeepsInv(s.queue, Q.StartEnqueue(s.senders[t].msg, false), s'.queue);
  }

  /** The lock is what makes the producer idle whenever a call of `try_enqueue` starts. */
  lemma {:induction false} IdleProducer(s: State)
    requires LockOk(s) && ProducerOk(s) && (s.lock.None? || !s.senders[s.lock.value].Calling?)
    ensures s.queue.producer == Q.PIdle
  {
  }

  lemma {:induction false} ProduceKeepsInv(s: State, t: Tid, s': State)
    requires Inv(s) && t in s.senders && s.senders[t].Calling? && ProduceStep(s, t, s.senders[t].msg, s')
    ensures Inv(s')
  {
    hide Q.Inv, Q.Sent, Q.Taken, Q.ProducerStep;
    var q, q' := s.queue, s'.queue;
    assert s.lock == Some(t);
    ProducerEffect(q, q');
    Q.StepKeepsInv(q, Q.Produce, q');
    if q'.producer == Q.PIdle {
      var o :| EnqueueAnswer(q, o) && q'.produced == q.produced + [o];
      SentAppend(q.produced, o);
      if o.Rejected? {
        assert Q.Sent(q'.produced) == Q.Sent(q.produced);
      }
    }
  }

  lemma {:induction false} ConsumeKeepsInv(s: State, s': State)
    requires Inv(s) && s.receiver == InCall && ConsumeStep(s, s')
    ensures Inv(s')
  {
    hide Q.Inv, Q.Sent, Q.Taken, Q.ConsumerStep, Q.Contents, Q.FifoAnswers, Q.BlockOk, SpscRuns.Fresh;
    var q, q' := s.queue, s'.queue;
    ConsumerEffect(q, q');
    Q.StepKeepsInv(q, Q.Consume, q');
    QueuedIsContents(q);
    QueuedIsContents(q');
    if q'.consumer == Q.CIdle {
      var o :| DequeueAnswer(q, o) && q'.consumed == q.consumed + [o];
      TakenAppend(q.consumed, o);
      LastAnswer(q', q.consumed, o);
    }
  }

  /** The answer to a dequeue: the oldest message, or an empty queue truly seen. */
  lemma {:induction false} LastAnswer(q: Q.State, before: seq<Q.Outcome>, o: Q.Outcome)
    requires Q.Inv(q) && q.consumed == before + [o]
    ensures o.Dequeued? ==> Q.Taken(before) < |Q.Sent(q.produced)| && Q.Sent(q.produced)[Q.Taken(before)] == o.e
    ensures o.FoundEmpty? ==> o.wasEmpty
  {
    assert q.consumed[..|before|] == before;
  }

  lemma {:induction false} StartKeepsInv(s: State, s': State)
    requires Inv(s) && ReceiverStep(s, StartDequeue, s')
    ensures Inv(s')
  {
    hide Q.Inv, Q.Sent, Q.Taken;
    Q.StepKeepsInv(s.queue, Q.StartDequeue(false), s'.queue);
  }

  lemma {:induction false} StepKeepsInv(s: State, a: Action, s': State)
    requires Inv(s) && Next(s, a, s')
    ensures Inv(s')
  {
    hide Q.Inv, Q.Sent, Q.Taken, CallStep, ProduceStep, ConsumeStep;
    match a
    case Call(t) => CallKeepsInv(s, t, s');
    case Produce(t) => ProduceKeepsInv(s, t, s');
    case StartDequeue => StartKeepsInv(s, s');
    case Consume => ConsumeKeepsInv(s, s');
    case _ =>
  }

  // ----- What holds in every run -------------------------------------------------

  ghost predicate Run(run: seq<State>, actions: seq<Action>) {
    && |run| == |actions| + 1
    && Init(run[0])
    && forall i :: 0 <= i < |actions| ==> Next(run[i], actions[i], run[i + 1])
  }

  lemma {:induction false} RunKeepsInv(run: seq<State>, actions: seq<Action>, n: nat)
    requires Run(run, actions) && n < |run|
    ensures Inv(run[n])
  {
    hide Init, Inv, Next;
    if n == 0 {
      InitInv(run[0]);
    } else {
      RunKeepsInv(run, actions, n - 1);
      StepKeepsInv(run[n - 1], actions[n - 1], run[n]);
    }
  }

  /** Whenever the loop is asleep and a message is queued, the eventfd is readable or the
      sender that holds the lock is about to write to it. */
  lemma {:induction false} NoLostWakeup(run: seq<State>, actions: seq<Action>, n: nat)
    requires Run(run, actions) && n < |run|
    ensures run[n].receiver == Waiting && Queued(run[n].queue) != [] ==> run[n].counter > 0 || Signalling(run[n])
  {
    RunKeepsInv(run, actions, n);
  }

  lemma {:induction false} AcceptedIsSent(locked: seq<Holder>, accepted: seq<bool>, produced: seq<Q.Outcome>)
    requires |accepted| == |produced| && |accepted| <= |locked|
    requires forall i :: 0 <= i < |accepted| ==>
               && (accepted[i] <==> produced[i].Enqueued?)
               && (accepted[i] ==> produced[i].e == locked[i].msg)
    ensures NotRejected(locked, accepted) == Q.Sent(produced)
  {
    if accepted != [] {
      var n := |accepted| - 1;
      AcceptedIsSent(locked, accepted[..n], produced[..n]);
    }
  }

  lemma {:induction false} InvMeansOrder(s: State)
    requires Inv(s)
    ensures |s.accepted| <= |s.locked| && s.ran + Queued(s.queue) == NotRejected(s.locked, s.accepted)
    ensures s.lock.None? ==> |s.accepted| == |s.locked|
  {
    hide Q.Inv, Q.Sent, Q.Taken;
    AcceptedIsSent(s.locked, s.accepted, s.queue.produced);
  }

  /** In every run the work that was started, followed by the messages in the queue, is
      exactly the messages of the senders that were not rejected, in the order in which
      they held the lock. So no message is run twice, out of order, or lost. */
  lemma {:induction false} RunsOnceInLockOrder(run: seq<State>, actions: seq<Action>, n: nat)
    requires Run(run, actions) && n < |run|
    ensures var s := run[n];
            && |s.accepted| <= |s.locked| <= |s.accepted| + 1
            && s.ran + Queued(s.queue) == NotRejected(s.locked, s.accepted)
  {
    RunKeepsInv(run, actions, n);
    InvMeansOrder(run[n]);
  }

  /** When the loop is asleep, the eventfd not readable and nobody holds the lock, every
      message that was not rejected has been run. */
  lemma {:induction false} AsleepMeansAllRan(run: seq<State>, actions: seq<Action>, n: nat)
    requires Run(run, actions) && n < |run|
    requires run[n].receiver == Waiting && run[n].counter == 0 && run[n].lock == None
    ensures var s := run[n];
            |s.accepted| == |s.locked| && s.ran == NotRejected(s.locked, s.accepted)
  {
    RunKeepsInv(run, actions, n);
    InvMeansOrder(run[n]);
  }

  // ----- The loop gets to every message ------------------------------------------

  /** A step of the event loop. */
  predicate LoopStep(s: State, s': State) {
    ReceiverStep(s, Wake, s') || ReceiverStep(s, Read, s') || ReceiverStep(s, StartDequeue, s')
    || ReceiverStep(s, Consume, s') || ReceiverStep(s, Finish, s')
  }

  /** How far the loop is from sleeping over an empty queue. A dequeue that has seen the
      queue empty when it no longer is, is one round that brings nothing. */
  function Remaining(s: State): nat {
    var queued := Queued(s.queue);
    20 * |queued| +
    match s.receiver
    case Waiting => if queued == [] then 0 else 14
    case Reading => 12
    case Dequeuing => 11
    case InCall => SpscCalls.ReadsLeft(s.queue.consumer) + if Drowsy(s) && queued != [] then 15 else 0
    case Running(_) => 13
  }

  predicate AtRest(s: State) {
    s.receiver == Waiting && Queued(s.queue) == []
  }

  /** A dequeue can always take its next step. */
  lemma {:induction false} ConsumerCanStep(q: Q.State) returns (q': Q.State)
    requires Q.Inv(q) && q.consumer != Q.CIdle
    ensures Q.Sound(q) && Q.ConsumerStep(q, q') && SpscCalls.ReadsLeft(q'.consumer) < SpscCalls.ReadsLeft(q.consumer)
  {
    hide Q.ConsumerStep;
    SpscCalls.DequeueCanGoOn(q);
    q' :| Q.Next(q, Q.Consume, q');
    SpscCalls.ConsumerGoesOn(q, q');
  }

  lemma {:induction false} CallProgresses(s: State) returns (s': State)
    requires Inv(s) && s.receiver == InCall
    ensures ReceiverStep(s, Consume, s') && Remaining(s') < Remaining(s)
    ensures s'.lock == s.lock && s'.senders == s.senders && s'.locked == s.locked && s'.accepted == s.accepted
  {
    hide Q.Inv, Q.Sent, Q.Taken, Q.ConsumerStep;
    var q := s.queue;
    var q' := ConsumerCanStep(q);
    ConsumerEffect(q, q');
    Q.StepKeepsInv(q, Q.Consume, q');
    QueuedIsContents(q);
    QueuedIsContents(q');
    if q'.consumer != Q.CIdle {
      s' := s.(queue := q');
    } else {
      var o :| DequeueAnswer(q, o) && q'.consumed == q.consumed + [o];
      TakenAppend(q.consumed, o);
      LastAnswer(q', q.consumed, o);
      s' := if o.Dequeued? then s.(queue := q', receiver := Running(o.e), ran := s.ran + [o.e])
            else s.(queue := q', receiver := Waiting);
    }
  }

  /** As long as it is not at rest, the loop can take a step by itself, and each brings it nearer. */
  lemma {:induction false} LoopProgresses(s: State) returns (s': State)
    requires Inv(s) && s.lock == None && !AtRest(s)
    ensures LoopStep(s, s') && Inv(s') && Remaining(s') < Remaining(s)
    ensures s'.lock == None && s'.locked == s.locked && s'.accepted == s.accepted
  {
    hide Q.Inv, Q.Sent, Q.Taken, ConsumeStep;
    match s.receiver
    case Waiting =>
      s' := s.(receiver := Reading);
      StepKeepsInv(s, Wake, s');
    case Reading =>
      s' := s.(receiver := Dequeuing, counter := 0);
      StepKeepsInv(s, Read, s');
    case Dequeuing =>
      s' := Entered(s);
      StepKeepsInv(s, StartDequeue, s');
    case InCall =>
      s' := CallProgresses(s);
      StepKeepsInv(s, Consume, s');
    case Running(_) =>
      s' := s.(receiver := Reading);
      StepKeepsInv(s, Finish, s');
  }

  lemma {:induction false} Entered(s: State) returns (s': State)
    requires Inv(s) && s.receiver == Dequeuing
    ensures ReceiverStep(s, StartDequeue, s') && Remaining(s') < Remaining(s)
    ensures s'.lock == s.lock && s'.locked == s.locked && s'.accepted == s.accepted
  {
    var f := Q.FrontB(s.queue);
    s' := s.(receiver := InCall,
             queue := s.queue.(consumer := if f.front != f.localTail then Q.CRead(false) else Q.CLoadTail(false)));
  }

  predicate LoopAlone(run: seq<State>) {
    forall i :: 0 <= i < |run| - 1 ==> LoopStep(run[i], run[i + 1])
  }

  lemma {:induction false} LoopDrains(s: State) returns (run: seq<State>)
    requires Inv(s) && s.lock == None
    ensures run != [] && run[0] == s && LoopAlone(run) && |run| - 1 <= Remaining(s)
    ensures var e := run[|run| - 1]; Inv(e) && AtRest(e) && e.lock == None && e.locked == s.locked && e.accepted == s.accepted
    decreases Remaining(s)
  {
    hide Inv, LoopStep, Remaining;
    if AtRest(s) {
      run := [s];
    } else {
      var s' := LoopProgresses(s);
      var rest := LoopDrains(s');
      run := [s] + rest;
      assert forall i :: 0 < i < |run| ==> run[i] == rest[i - 1];
    }
  }

  /** Progress: from any state of any run in which no sender is inside, the steps of the
      loop alone, at most twenty for each queued message and twenty-four, bring it to sleep
      with every message that was not rejected run. */
  lemma {:induction false} EveryMessageRuns(run: seq<State>, actions: seq<Action>, n: nat) returns (more: seq<State>)
    requires Run(run, actions) && n < |run| && run[n].lock == None
    ensures more != [] && more[0] == run[n] && LoopAlone(more)
    ensures |more| - 1 <= 20 * |Queued(run[n].queue)| + 24
    ensures var s, e := run[n], more[|more| - 1];
            && |s.accepted| == |s.locked| && e.locked == s.locked && e.accepted == s.accepted
            && e.receiver == Waiting && e.ran == NotRejected(s.locked, s.accepted)
  {
    RunKeepsInv(run, actions, n);
    RemainingBound(run[n]);
    more := LoopDrains(run[n]);
    InvMeansOrder(run[n]);
    InvMeansOrder(more[|more| - 1]);
  }

  lemma {:induction false} RemainingBound(s: State)
    ensures Remaining(s) <= 20 * |Queued(s.queue)| + 24
  {
  }

  // ----- Every sender gets through -----------------------------------------------

  /** How many of its own steps the holder of the lock may still take. */
  function SendLeft(s: State, t: Tid): nat
    requires t in s.senders
  {
    match s.senders[t]
    case Outside => 0
    case Locked(_) => 9
    case Calling(_) => 2 + SpscCalls.StepsLeft(s.queue.producer)
    case Sent(_) => 2
    case Leaving => 1
  }

  predicate IsSending(a: Action, t: Tid) {
    a == Call(t) || a == Produce(t) || a == Write(t) || a == Unlock(t)
  }

  ghost predicate CanSend(s: State, t: Tid) {
    exists a, s' :: IsSending(a, t) && Next(s, a, s')
  }

  /** The enqueue in progress would have to allocate, which `try_enqueue` never does. */
  predicate MayAllocate(p: Q.Producer) {
    (p.PCheck? || p.PFull?) && p.canAlloc
  }

  lemma {:induction false} ProducerNeverAllocates(q: Q.State, q': Q.State)
    requires Q.Sound(q) && Q.ProducerStep(q, q') && !MayAllocate(q.producer)
    ensures !MayAllocate(q'.producer)
  {
    hide Q.Contents, Q.After, Q.Items, Q.Fill;
  }

  lemma {:induction false} StepNeverAllocates(s: State, a: Action, s': State)
    requires Next(s, a, s') && !MayAllocate(s.queue.producer)
    ensures !MayAllocate(s'.queue.producer)
  {
    hide Q.ProducerStep, Q.ConsumerStep, Q.Contents, Q.After, Q.Items, Q.Fill;
    if a.Produce? {
      ProducerNeverAllocates(s.queue, s'.queue);
    } else if a.Consume? {
      SpscCalls.ConsumerLeavesProducer(s.queue, Q.Consume, s'.queue);
    }
  }

  lemma {:induction false} NeverAllocates(run: seq<State>, actions: seq<Action>, n: nat)
    requires Run(run, actions) && n < |run|
    ensures !MayAllocate(run[n].queue.producer)
  {
    hide Next;
    if n > 0 {
      NeverAllocates(run, actions, n - 1);
      StepNeverAllocates(run[n - 1], actions[n - 1], run[n]);
    }
  }

  lemma {:induction false} ProduceIsNext(q: Q.State) returns (q': Q.State)
    requires Q.Inv(q) && q.producer != Q.PIdle && !MayAllocate(q.producer)
    ensures Q.Sound(q) && Q.ProducerStep(q, q')
  {
    hide Q.Contents, Q.After, Q.Items, Q.Fill;
    SpscCalls.EnqueueCanGoOn(q);
    var a, r :| SpscCalls.IsProducing(a) && Q.Next(q, a, r);
    q' := r;
  }

  lemma {:induction false} HolderCanSend(s: State, t: Tid)
    requires Q.Inv(s.queue) && ProducerOk(s) && !MayAllocate(s.queue.producer)
    requires s.lock == Some(t) && t in s.senders && s.senders[t] != Outside
    ensures CanSend(s, t)
  {
    hide Q.Inv, Q.ProducerStep, Q.ConsumerStep, Q.After;
    match s.senders[t]
    case Locked(msg) => CanCall(s, t);
    case Calling(msg) =>
      var q := ProduceIsNext(s.queue);
      CanProduce(s, t, q);
    case Sent(_) => assert Next(s, Write(t), Goto(s, t, Leaving).(counter := if s.counter < EVENTFD_MAX then s.counter + 1 else s.counter));
    case Leaving => assert Next(s, Unlock(t), Goto(s, t, Outside).(lock := None));
  }

  lemma {:induction false} CanCall(s: State, t: Tid)
    requires Q.Inv(s.queue) && t in s.senders && s.senders[t].Locked?
    ensures CanSend(s, t)
  {
    var b, msg := Q.TailB(s.queue), s.senders[t].msg;
    assert Next(s, Call(t), Goto(s, t, Calling(msg))
        .(queue := s.queue.(producer := if Q.After(b, b.tail) != b.localFront then Q.PWrite(msg) else Q.PCheck(msg, false))));
  }

  lemma {:induction false} CanProduce(s: State, t: Tid, q: Q.State)
    requires t in s.senders && s.senders[t].Calling? && s.queue.producer != Q.PIdle
    requires Q.Sound(s.queue) && Q.ProducerStep(s.queue, q)
    ensures CanSend(s, t)
  {
    hide Q.ProducerStep;
    if q.producer != Q.PIdle {
      assert Next(s, Produce(t), s.(queue := q));
    } else {
      AnswersAtEnd(s.queue, q);
      var ok := q.produced[|q.produced| - 1].Enqueued?;
      assert Next(s, Produce(t), Goto(s, t, if ok then Sent(s.senders[t].msg) else Leaving).(queue := q, accepted := s.accepted + [ok]));
    }
  }

  lemma {:induction false} AnswersAtEnd(q: Q.State, q': Q.State)
    requires Q.Sound(q) && Q.ProducerStep(q, q') && q.producer != Q.PIdle
    ensures SpscCalls.StepsLeft(q'.producer) < SpscCalls.StepsLeft(q.producer)
    ensures q'.producer == Q.PIdle ==> q'.produced != []
  {
    hide Q.ProducerStep, SpscCalls.EnqueueGoesOn;
    assert Q.Next(q, Q.Produce, q');
    SpscCalls.EnqueueStep(q, Q.Produce, q');
    GoesOnMeans(q, q');
  }

  lemma {:induction false} GoesOnMeans(q: Q.State, q': Q.State)
    requires q.producer != Q.PIdle && SpscCalls.EnqueueGoesOn(q, q')
    ensures SpscCalls.StepsLeft(q'.producer) < SpscCalls.StepsLeft(q.producer)
    ensures q'.producer == Q.PIdle ==> q'.produced != []
  {
  }

  lemma {:induction false} SendingStep(s: State, a: Action, s': State, t: Tid)
    requires Next(s, a, s') && ProducerOk(s) && LockOk(s) && s.lock == Some(t)
    ensures t in s.senders && t in s'.senders
    ensures if IsSending(a, t) then SendLeft(s', t) < SendLeft(s, t) else SendLeft(s', t) == SendLeft(s, t)
  {
    hide Q.ProducerStep, Q.ConsumerStep, Q.Contents, Q.After, Q.Items, Q.Fill;
    if a.Produce? {
      AnswersAtEnd(s.queue, s'.queue);
    } else if a.Consume? {
      SpscCalls.ConsumerLeavesProducer(s.queue, Q.Consume, s'.queue);
    }
  }

  /** How many of the actions from `m` to `n` are steps of sender `t`. */
  function SendSteps(actions: seq<Action>, t: Tid, m: nat, n: nat): nat
    requires m <= n <= |actions|
    decreases n
  {
    if m == n then 0 else SendSteps(actions, t, m, n - 1) + if IsSending(actions[n - 1], t) then 1 else 0
  }

  /** Once a sender has the lock, nobody can keep it from leaving: it can always take its next
      step, and after at most nine of them it has given the lock back. */
  lemma {:induction false} HolderLeaves(run: seq<State>, actions: seq<Action>, m: nat, n: nat, t: Tid)
    requires Run(run, actions) && m <= n < |run|
    requires forall k :: m <= k <= n ==> run[k].lock == Some(t)
    ensures SendSteps(actions, t, m, n) < 9 && CanSend(run[n], t)
  {
    hide Next, Inv, CanSend;
    SendsWithin(run, actions, m, n, t);
    RunKeepsInv(run, actions, n);
    NeverAllocates(run, actions, n);
    InvParts(run[n]);
    HolderCanSend(run[n], t);
  }

  lemma {:induction false} InvParts(s: State)
    requires Inv(s)
    ensures Q.Inv(s.queue) && ProducerOk(s) && LockOk(s)
  {
  }

  lemma {:induction false} SendsWithin(run: seq<State>, actions: seq<Action>, m: nat, n: nat, t: Tid)
    requires Run(run, actions) && m <= n < |run|
    requires forall k :: m <= k <= n ==> run[k].lock == Some(t)
    ensures t in run[n].senders && 0 < SendLeft(run[n], t) && SendSteps(actions, t, m, n) + SendLeft(run[n], t) <= 9
    decreases n
  {
    hide Next, Inv;
    RunKeepsInv(run, actions, n);
    InvParts(run[n]);
    AtMostNine(run[n], t);
    if n > m {
      SendsWithin(run, actions, m, n - 1, t);
      RunKeepsInv(run, actions, n - 1);
      InvParts(run[n - 1]);
      SendingStep(run[n - 1], actions[n - 1], run[n], t);
    }
  }

  lemma {:induction false} AtMostNine(s: State, t: Tid)
    requires LockOk(s) && s.lock == Some(t)
    ensures t in s.senders && 0 < SendLeft(s, t) <= 9
  {
  }
}
