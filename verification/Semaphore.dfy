/** `LightweightSemaphore` and the blocking queue built on it. An atomic count stands for
    a kernel semaphore as long as it is not negative; a negative count is the number of
    threads that have to sleep on the kernel semaphore. Each load, compare-and-swap,
    fetch_add, kernel wait and kernel post is one step; any number of threads interleave.
    Spinning is modelled as any number of attempts; a weak compare-and-swap may fail
    although the count is the one seen. */
module Semaphore {

  datatype Mode = TryOnly | Timed | Forever

  datatype Pc =
    | Idle
    | Trying(max: nat, mode: Mode, got: nat)
    | SawCount(max: nat, mode: Mode, got: nat, seen: int)
    | Blocked(max: nat, mode: Mode)
    | TimedOut(max: nat)
    | SawAfterTimeout(max: nat, seen: int)
    | Redeeming(n: nat)
    | ToSignal(n: nat)
    | Releasing(k: nat)

  /** The semaphore (`m_count` and the kernel semaphore), the inner queue as the number of
      elements put in and taken out, the threads, and what has happened so far. */
  datatype State = State(count: int, permits: nat, enqueued: nat, dequeued: nat, pcs: seq<Pc>,
                         initial: nat, signalled: nat, granted: nat)

  predicate Init(s: State) {
    && s.count == s.initial && s.permits == 0 && s.enqueued == s.dequeued == 0
    && s.signalled == s.granted == 0
    && forall t :: 0 <= t < |s.pcs| ==> s.pcs[t] == Idle
  }

  function Goto(s: State, t: nat, pc: Pc): State
    requires t < |s.pcs|
  {
    s.(pcs := s.pcs[t := pc])
  }

  // ----- Steps -------------------------------------------------------------------

  datatype Action =
    | Wait(t: nat, max: nat, mode: Mode)  // tryWait, wait, tryWaitMany, waitMany are called
    | Enqueue(t: nat, n: nat)             // n elements are put into the inner queue
    | Advance(t: nat)                     // the next access of a call
    | FailSpuriously(t: nat)              // a weak compare-and-swap fails for no reason
    | GiveUpSpinning(t: nat)              // fetch_sub(1) after the spin loop
    | Expire(t: nat)                      // the timed kernel wait times out
    | Dequeue(t: nat)                     // the inner dequeue succeeds

  predicate Next(s: State, a: Action, s': State) {
    match a
    case Wait(t, max, mode) => t < |s.pcs| && s.pcs[t] == Idle && (max > 0 || mode == TryOnly) && s' == Goto(s, t, Trying(max, mode, 0))
    case Enqueue(t, n) => t < |s.pcs| && s.pcs[t] == Idle && s' == Goto(s, t, ToSignal(n)).(enqueued := s.enqueued + n)
    case Advance(t) => t < |s.pcs| && Advances(s, t, s')
    case FailSpuriously(t) => t < |s.pcs| && s.pcs[t].SawCount? && s.pcs[t].seen > 0
                              && s' == Goto(s, t, Trying(s.pcs[t].max, s.pcs[t].mode, s.pcs[t].got))
    case GiveUpSpinning(t) => t < |s.pcs| && s.pcs[t].Trying? && s.pcs[t].mode != TryOnly && SubtractStep(s, t, s')
    case Expire(t) => t < |s.pcs| && s.pcs[t].Blocked? && s.pcs[t].mode == Timed && s' == Goto(s, t, TimedOut(s.pcs[t].max))
    case Dequeue(t) => t < |s.pcs| && s.pcs[t].Redeeming? && RedeemStep(s, t, s')
  }

  predicate Advances(s: State, t: nat, s': State)
    requires t < |s.pcs|
  {
    match s.pcs[t]
    case Idle => false
    case Trying(max, mode, got) => s' == Goto(s, t, SawCount(max, mode, got, s.count))
    case SawCount(max, mode, got, seen) => TryStep(s, t, max, mode, got, seen, s')
    case Blocked(max, _) => KernelWaitStep(s, t, max, s')
    case TimedOut(max) => s' == Goto(s, t, SawAfterTimeout(max, s.count))
    case SawAfterTimeout(max, seen) => AfterTimeoutStep(s, t, max, seen, s')
    case Redeeming(n) => n == 0 && s' == Goto(s, t, Idle)
    case ToSignal(n) => SignalStep(s, t, n, s')
    case Releasing(k) => if k == 0 then s' == Goto(s, t, Idle)
                         else s' == Goto(s, t, Releasing(k - 1)).(permits := s.permits + 1)
  }

  /** Take up to `max` if the count seen is positive and still the same. A plain try ends
      when the count seen is not positive; a waiter spins on. */
  predicate TryStep(s: State, t: nat, max: nat, mode: Mode, got: nat, seen: int, s': State)
    requires t < |s.pcs|
  {
    if seen <= 0 then
      s' == Goto(s, t, if mode == TryOnly then Redeeming(got) else Trying(max, mode, got))
    else if s.count == seen then
      var newCount := if seen > max then seen - max else 0;
      s' == Goto(s, t, Redeeming(got + (seen - newCount))).(count := newCount, granted := s.granted + (seen - newCount))
    else
      s' == Goto(s, t, Trying(max, mode, got))
  }

  /** Once a waiter has one permit, it tries for the rest of its maximum. */
  function Greedy(max: nat): Pc {
    if max > 1 then Trying(max - 1, TryOnly, 1) else Redeeming(1)
  }

  predicate SubtractStep(s: State, t: nat, s': State)
    requires t < |s.pcs| && s.pcs[t].Trying?
  {
    var max, mode := s.pcs[t].max, s.pcs[t].mode;
    s.pcs[t].got == 0 &&
    s' == if s.count > 0 then Goto(s, t, Greedy(max)).(count := s.count - 1, granted := s.granted + 1)
          else Goto(s, t, Blocked(max, mode)).(count := s.count - 1)
  }

  predicate KernelWaitStep(s: State, t: nat, max: nat, s': State)
    requires t < |s.pcs|
  {
    s.permits > 0 && s' == Goto(s, t, Greedy(max)).(permits := s.permits - 1, granted := s.granted + 1)
  }

  /** After a timeout: a permit may have been released for this thread in the meantime, and
      then it has to take it; otherwise it takes back its decrement. */
  predicate AfterTimeoutStep(s: State, t: nat, max: nat, seen: int, s': State)
    requires t < |s.pcs|
  {
    if seen >= 0 && s.permits > 0 then
      s' == Goto(s, t, Greedy(max)).(permits := s.permits - 1, granted := s.granted + 1)
    else if seen < 0 && s.count == seen then
      s' == Goto(s, t, Redeeming(0)).(count := seen + 1)
    else
      s' == Goto(s, t, TimedOut(max))
  }

  predicate SignalStep(s: State, t: nat, n: nat, s': State)
    requires t < |s.pcs|
  {
    var toRelease := if -s.count < n then -s.count else n;
    s' == Goto(s, t, Releasing(if toRelease > 0 then toRelease else 0))
          .(count := s.count + n, signalled := s.signalled + n)
  }

  predicate RedeemStep(s: State, t: nat, s': State)
    requires t < |s.pcs| && s.pcs[t].Redeeming?
  {
    s.pcs[t].n > 0 && s.dequeued < s.enqueued &&
    s' == Goto(s, t, Redeeming(s.pcs[t].n - 1)).(dequeued := s.dequeued + 1)
  }

  // ----- Sums over the threads ---------------------------------------------------

  datatype Measure = Sleeping | Unposted | Unredeemed | Unsignalled

  function Weight(pc: Pc, m: Measure): nat {
    match m
    case Sleeping => if pc.Blocked? || pc.TimedOut? || pc.SawAfterTimeout? then 1 else 0
    case Unposted => if pc.Releasing? then pc.k else 0
    case Unredeemed => if pc.Redeeming? then pc.n else if pc.Trying? || pc.SawCount? then pc.got else 0
    case Unsignalled => if pc.ToSignal? then pc.n else 0
  }

  function Total(pcs: seq<Pc>, m: Measure): nat {
    if pcs == [] then 0 else Total(pcs[..|pcs| - 1], m) + Weight(pcs[|pcs| - 1], m)
  }

  lemma {:induction false} TotalUpdate(pcs: seq<Pc>, t: nat, pc: Pc, m: Measure)
    requires t < |pcs|
    ensures Total(pcs[t := pc], m) == Total(pcs, m) - Weight(pcs[t], m) + Weight(pc, m)
  {
    var n := |pcs| - 1;
    if t < n {
      TotalUpdate(pcs[..n], t, pc, m);
      assert pcs[t := pc][..n] == pcs[..n][t := pc];
    } else {
      assert pcs[t := pc][..n] == pcs[..n];
    }
  }

  lemma {:induction false} TotalZero(pcs: seq<Pc>, m: Measure)
    requires forall t :: 0 <= t < |pcs| ==> pcs[t] == Idle
    ensures Total(pcs, m) == 0
  {
    if pcs != [] {
      TotalZero(pcs[..|pcs| - 1], m);
    }
  }

  // ----- The invariant -----------------------------------------------------------

  function Positive(x: int): nat {
    if x > 0 then x else 0
  }

  /** Permits a wait could still be granted: in the count, in the kernel semaphore, or
      computed by a signal but not yet posted. */
  function Available(s: State): nat {
    Positive(s.count) + s.permits + Total(s.pcs, Unposted)
  }

  predicate Inv(s: State) {
    && Total(s.pcs, Sleeping) == Positive(-s.count) + s.permits + Total(s.pcs, Unposted)
    && s.granted + Available(s) == s.initial + s.signalled
    && s.granted == s.dequeued + Total(s.pcs, Unredeemed)
    && s.enqueued == s.signalled + Total(s.pcs, Unsignalled)
  }

  lemma {:induction false} InitInv(s: State)
    requires Init(s)
    ensures Inv(s)
  {
    forall m ensures Total(s.pcs, m) == 0 {
      TotalZero(s.pcs, m);
    }
  }

  /** A step moves one thread; it keeps the invariant if the shared counters make up for
      the change of that thread's weights. */
  lemma {:induction false} MoveKeepsInv(s: State, t: nat, s': State)
    requires Inv(s) && t < |s.pcs| == |s'.pcs| && s'.pcs == s.pcs[t := s'.pcs[t]] && s'.initial == s.initial
    requires var pc, pc' := s.pcs[t], s'.pcs[t];
             && Weight(pc', Sleeping) - Weight(pc, Sleeping)
                == Positive(-s'.count) - Positive(-s.count) + s'.permits - s.permits + Weight(pc', Unposted) - Weight(pc, Unposted)
             && s'.granted - s.granted + Positive(s'.count) - Positive(s.count) + s'.permits - s.permits
                + Weight(pc', Unposted) - Weight(pc, Unposted) == s'.signalled - s.signalled
             && s'.granted - s.granted == s'.dequeued - s.dequeued + Weight(pc', Unredeemed) - Weight(pc, Unredeemed)
             && s'.enqueued - s.enqueued == s'.signalled - s.signalled + Weight(pc', Unsignalled) - Weight(pc, Unsignalled)
    ensures Inv(s')
  {
    TotalUpdate(s.pcs, t, s'.pcs[t], Sleeping);
    TotalUpdate(s.pcs, t, s'.pcs[t], Unposted);
    TotalUpdate(s.pcs, t, s'.pcs[t], Unredeemed);
    TotalUpdate(s.pcs, t, s'.pcs[t], Unsignalled);
  }

  lemma {:induction false} TryKeepsInv(s: State, t: nat, max: nat, mode: Mode, got: nat, seen: int, s': State)
    requires Inv(s) && t < |s.pcs| && s.pcs[t] == SawCount(max, mode, got, seen) && TryStep(s, t, max, mode, got, seen, s')
    ensures Inv(s')
  {
    MoveKeepsInv(s, t, s');
  }

  lemma {:induction false} SleeperKeepsInv(s: State, t: nat, s': State)
    requires Inv(s) && t < |s.pcs| && Advances(s, t, s')
    requires s.pcs[t].Blocked? || s.pcs[t].TimedOut? || s.pcs[t].SawAfterTimeout?
    ensures Inv(s')
  {
    MoveKeepsInv(s, t, s');
  }

  lemma {:induction false} SignalKeepsInv(s: State, t: nat, n: nat, s': State)
    requires Inv(s) && t < |s.pcs| && s.pcs[t] == ToSignal(n) && SignalStep(s, t, n, s')
    ensures Inv(s')
  {
    MoveKeepsInv(s, t, s');
  }

  lemma {:induction false} AdvanceKeepsInv(s: State, t: nat, s': State)
    requires Inv(s) && t < |s.pcs| && Advances(s, t, s')
    ensures Inv(s')
  {
    match s.pcs[t]
    case SawCount(max, mode, got, seen) => TryKeepsInv(s, t, max, mode, got, seen, s');
    case ToSignal(n) => SignalKeepsInv(s, t, n, s');
    case Trying(_, _, _) => MoveKeepsInv(s, t, s');
    case Redeeming(_) => MoveKeepsInv(s, t, s');
    case Releasing(_) => MoveKeepsInv(s, t, s');
    case _ => SleeperKeepsInv(s, t, s');
  }

  lemma {:induction false} StepKeepsInv(s: State, a: Action, s': State)
    requires Inv(s) && Next(s, a, s')
    ensures Inv(s') && s'.initial == s.initial
  {
    match a
    case Advance(t) =>
      AdvanceKeepsInv(s, t, s');
      InitialStays(s, t, s');
    case Wait(t, _, _) => MoveKeepsInv(s, t, s');
    case Enqueue(t, _) => MoveKeepsInv(s, t, s');
    case FailSpuriously(t) => MoveKeepsInv(s, t, s');
    case GiveUpSpinning(t) => MoveKeepsInv(s, t, s');
    case Expire(t) => MoveKeepsInv(s, t, s');
    case Dequeue(t) => MoveKeepsInv(s, t, s');
  }

  lemma {:induction false} InitialStays(s: State, t: nat, s': State)
    requires t < |s.pcs| && Advances(s, t, s')
    ensures s'.initial == s.initial
  {
  }

  // ----- What holds in every run -------------------------------------------------

  predicate Run(run: seq<State>, actions: seq<Action>) {
    && |run| == |actions| + 1
    && Init(run[0])
    && forall i :: 0 <= i < |actions| ==> Next(run[i], actions[i], run[i + 1])
  }

  lemma {:induction false} RunKeepsInv(run: seq<State>, actions: seq<Action>, n: nat)
    requires Run(run, actions) && n < |run|
    ensures Inv(run[n]) && run[n].initial == run[0].initial
  {
    if n == 0 {
      InitInv(run[0]);
    } else {
      RunKeepsInv(run, actions, n - 1);
      StepKeepsInv(run[n - 1], actions[n - 1], run[n]);
    }
  }

  /** In every interleaving, timeouts included: the permits granted and those still to be
      had are exactly the initial ones and those signalled. When the count is not
      negative, every thread that has to sleep has a permit posted or about to be posted
      for it; when it is negative, exactly `-count` of them have none. */
  lemma {:induction false} PermitsAreConserved(run: seq<State>, actions: seq<Action>, n: nat)
    requires Run(run, actions) && n < |run|
    ensures var s := run[n];
            && s.granted + Available(s) == run[0].initial + s.signalled
            && s.granted <= run[0].initial + s.signalled
            && Total(s.pcs, Sleeping) - (s.permits + Total(s.pcs, Unposted)) == Positive(-s.count)
  {
    RunKeepsInv(run, actions, n);
  }

  /** In the blocking queue, which starts with no permits, the elements nobody has taken
      are exactly matched by the permits not yet redeemed and the elements not yet
      signalled. A thread that holds a permit therefore always finds an element. */
  lemma {:induction false} PermitsMatchElements(run: seq<State>, actions: seq<Action>, n: nat, t: nat)
    requires Run(run, actions) && n < |run| && run[0].initial == 0 && t < |run[n].pcs|
    ensures var s := run[n];
            && s.enqueued - s.dequeued == Available(s) + Total(s.pcs, Unredeemed) + Total(s.pcs, Unsignalled)
            && (s.pcs[t].Redeeming? && s.pcs[t].n > 0 ==> s.dequeued < s.enqueued)
  {
    RunKeepsInv(run, actions, n);
    WeightAtMostTotal(run[n].pcs, t, Unredeemed);
  }

  lemma {:induction false} WeightAtMostTotal(pcs: seq<Pc>, t: nat, m: Measure)
    requires t < |pcs|
    ensures Weight(pcs[t], m) <= Total(pcs, m)
  {
    if t < |pcs| - 1 {
      WeightAtMostTotal(pcs[..|pcs| - 1], t, m);
    }
  }
}
