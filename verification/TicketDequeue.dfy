/** The multi-consumer dequeue of `ImplicitProducer`: one producer that publishes
    elements by advancing `tailIndex`, and any number of consumers that take part in
    the optimistic-count / overcommit protocol. Every atomic load, store and
    fetch_add is one step; steps of different threads interleave freely. A single
    `dequeue` is the bulk protocol with a maximum of one. */
module TicketDequeue {
  import opened Words

  type Tid = nat

  /** One unit of `dequeueOptimisticCount`. A ticket is drawn, then granted or refused,
      and finally turned into a claimed index or given back as overcommit. */
  datatype Kind = Pending | Granted | Claimed | Refused | Refunded
  datatype Ticket = Ticket(kind: Kind, holder: Tid)

  datatype Pc =
    | Idle
    | SawTail(max: nat, tail: nat)
    | SawOvercommit(max: nat, tail: nat, overcommit: nat)
    | Deciding(desired: nat, overcommit: nat)
    | Ticketed(first: nat, desired: nat, overcommit: nat)
    | Refunding(first: nat, desired: nat, actual: nat)
    | Claiming(first: nat, actual: nat)

  /** The indices `from .. from + count` taken by one dequeue of `taker`. */
  datatype Claim = Claim(taker: Tid, from: nat, count: nat)

  /** The four shared counters, the program counters, and two histories: the fate of
      every ticket ever drawn and every range of indices ever claimed. */
  datatype State = State(tail: nat, optimistic: nat, overcommit: nat, head: nat,
                         pcs: map<Tid, Pc>, tickets: seq<Ticket>, claims: seq<Claim>)

  predicate Init(s: State) {
    && s.tail == s.optimistic == s.overcommit == s.head == 0
    && (forall t <- s.pcs :: s.pcs[t] == Idle)
    && s.tickets == [] && s.claims == []
  }

  /** The counters have not reached half the word range, as the algorithm assumes. */
  predicate Fits(s: State) {
    s.tail < TWO_63 && s.optimistic < TWO_63
  }

  function Goto(s: State, t: Tid, pc: Pc): State {
    s.(pcs := s.pcs[t := pc])
  }

  /** `ts` with the tickets `from .. from + n` set to `x`. */
  function Stamp(ts: seq<Ticket>, from: nat, n: nat, x: Ticket): (r: seq<Ticket>)
    requires from + n <= |ts|
    ensures |r| == |ts|
    ensures forall i :: 0 <= i < |ts| ==> r[i] == if from <= i < from + n then x else ts[i]
  {
    seq(|ts|, i requires 0 <= i < |ts| => if from <= i < from + n then x else ts[i])
  }

  // ----- Steps -------------------------------------------------------------------

  datatype Action =
    | Publish(count: nat)
    | Begin(t: Tid, max: nat)
    | Advance(t: Tid)

  /** One atomic step. `Publish` is the producer's store to `tailIndex`; `Begin` is a
      consumer's first load of `tailIndex`; `Advance` is the next access of a consumer. */
  predicate Next(s: State, a: Action, s': State) {
    match a
    case Publish(count) =>
      count > 0 && s' == s.(tail := s.tail + count)
    case Begin(t, max) =>
      t in s.pcs && s.pcs[t] == Idle && max > 0 && s' == Goto(s, t, SawTail(max, s.tail))
    case Advance(t) =>
      t in s.pcs && Advances(s, t, s')
  }

  predicate Advances(s: State, t: Tid, s': State)
    requires t in s.pcs
  {
    match s.pcs[t]
    case Idle => false
    case SawTail(max, tail) => LoadOvercommit(s, t, max, tail, s')
    case SawOvercommit(max, tail, oc) => LoadCount(s, t, max, tail, oc, s')
    case Deciding(desired, oc) => Draw(s, t, desired, oc, s')
    case Ticketed(first, desired, oc) => Decide(s, t, first, desired, oc, s')
    case Refunding(first, desired, actual) => Refund(s, t, first, desired, actual, s')
    case Claiming(first, actual) => Take(s, t, first, actual, s')
  }

  predicate LoadOvercommit(s: State, t: Tid, max: nat, tail: nat, s': State) {
    s' == Goto(s, t, SawOvercommit(max, tail, s.overcommit))
  }

  /** The load of `dequeueOptimisticCount` and the first test. */
  predicate LoadCount(s: State, t: Tid, max: nat, tail: nat, oc: nat, s': State) {
    var available := Wrap(tail - Wrap(s.optimistic - oc));
    s' == Goto(s, t,
               if CircularLess(0, available)
               then Deciding(if available < max then available else max, oc)
               else Idle)
  }

  /** The fetch_add on `dequeueOptimisticCount`, which draws the tickets. */
  predicate Draw(s: State, t: Tid, desired: nat, oc: nat, s': State) {
    s' == Goto(s, t, Ticketed(s.optimistic, desired, oc))
          .(optimistic := s.optimistic + desired,
            tickets := s.tickets + seq(desired, _ => Ticket(Pending, t)))
  }

  /** The second load of `tailIndex`, which says how many of the tickets are granted. */
  predicate Decide(s: State, t: Tid, first: nat, desired: nat, oc: nat, s': State) {
    var available := Wrap(s.tail - Wrap(first - oc));
    var actual := if !CircularLess(0, available) then 0
                  else if desired < available then desired else available;
    first + desired <= |s.tickets| && SplitTickets(s, t, first, desired, actual, s')
  }

  predicate SplitTickets(s: State, t: Tid, first: nat, desired: nat, actual: nat, s': State)
    requires first + desired <= |s.tickets|
  {
    s' == Goto(s, t, if actual < desired then Refunding(first, desired, actual) else Claiming(first, actual))
          .(tickets := seq(|s.tickets|, i requires 0 <= i < |s.tickets| =>
              if first <= i < first + actual then Ticket(Granted, t)
              else if first <= i < first + desired then Ticket(Refused, t)
              else s.tickets[i]))
  }

  /** The fetch_add on `dequeueOvercommit` for the tickets refused. */
  predicate Refund(s: State, t: Tid, first: nat, desired: nat, actual: nat, s': State) {
    && actual <= desired && first + desired <= |s.tickets|
    && s' == Goto(s, t, if actual > 0 then Claiming(first, actual) else Idle)
             .(overcommit := s.overcommit + (desired - actual),
               tickets := Stamp(s.tickets, first + actual, desired - actual, Ticket(Refunded, t)))
  }

  /** The fetch_add on `headIndex`, which claims the indices. */
  predicate Take(s: State, t: Tid, first: nat, actual: nat, s': State) {
    && first + actual <= |s.tickets|
    && s' == Goto(s, t, Idle)
             .(head := s.head + actual,
               tickets := Stamp(s.tickets, first, actual, Ticket(Claimed, t)),
               claims := s.claims + [Claim(t, s.head, actual)])
  }

  // ----- Counting tickets --------------------------------------------------------

  /** The kinds of ticket that are counted together. */
  datatype Class = IsClaimed | IsRefunded | IsLost | IsWon | IsOpen

  predicate In(x: Ticket, c: Class) {
    match c
    case IsClaimed => x.kind.Claimed?
    case IsRefunded => x.kind.Refunded?
    case IsLost => x.kind.Refused? || x.kind.Refunded?
    case IsWon => x.kind.Granted? || x.kind.Claimed?
    case IsOpen => x.kind.Pending? || x.kind.Granted? || x.kind.Refused?
  }

  /** How many of the first `n` tickets are of a class. */
  function Count(ts: seq<Ticket>, n: nat, c: Class): nat
    requires n <= |ts|
  {
    if n == 0 then 0 else Count(ts, n - 1, c) + (if In(ts[n - 1], c) then 1 else 0)
  }

  /** Pointwise implication orders the counts; pointwise agreement makes them equal. */
  lemma {:induction false} CountMonotone(ts: seq<Ticket>, ts': seq<Ticket>, n: nat, c: Class)
    requires n <= |ts| && n <= |ts'|
    requires forall i :: 0 <= i < n && In(ts[i], c) ==> In(ts'[i], c)
    ensures Count(ts, n, c) <= Count(ts', n, c)
  {
    if n > 0 {
      CountMonotone(ts, ts', n - 1, c);
    }
  }

  /** How much of `from .. from + m` lies below `n`. */
  function Covered(from: nat, m: nat, n: nat): nat {
    if n <= from then 0 else if n < from + m then n - from else m
  }

  /** Stamping a range whose tickets were all in, or all out of, a class changes the
      count by the length of the range or not at all. */
  lemma {:induction false} CountStamp(ts: seq<Ticket>, from: nat, m: nat, x: Ticket, n: nat, c: Class, was: bool)
    requires from + m <= |ts| && n <= |ts|
    requires forall i :: from <= i < from + m ==> (In(ts[i], c) <==> was)
    ensures Count(Stamp(ts, from, m, x), n, c)
         == Count(ts, n, c) + ((if In(x, c) then 1 else 0) - (if was then 1 else 0)) * Covered(from, m, n)
  {
    if n > 0 {
      CountStamp(ts, from, m, x, n - 1, c, was);
    }
  }

  /** A longer prefix counts at least as much. */
  lemma {:induction false} CountPrefix(ts: seq<Ticket>, m: nat, n: nat, c: Class)
    requires m <= n <= |ts|
    ensures Count(ts, m, c) <= Count(ts, n, c)
    ensures (forall i :: m <= i < n ==> !In(ts[i], c)) ==> Count(ts, m, c) == Count(ts, n, c)
    decreases n
  {
    if m < n {
      CountPrefix(ts, m, n - 1, c);
    }
  }

  lemma {:induction false} WonOrLostIsDrawn(ts: seq<Ticket>, n: nat)
    requires n <= |ts|
    ensures Count(ts, n, IsWon) + Count(ts, n, IsLost) <= n
    ensures Count(ts, n, IsClaimed) <= Count(ts, n, IsWon) && Count(ts, n, IsRefunded) <= Count(ts, n, IsLost)
    ensures (forall i :: 0 <= i < n ==> !In(ts[i], IsOpen)) ==>
              Count(ts, n, IsClaimed) + Count(ts, n, IsRefunded) == n
  {
    if n > 0 {
      WonOrLostIsDrawn(ts, n - 1);
    }
  }

  // ----- The invariant -----------------------------------------------------------

  /** The tickets `from .. from + n` are exactly of this kind and held by `t`. */
  predicate Holds(ts: seq<Ticket>, from: nat, n: nat, x: Ticket) {
    from + n <= |ts| && forall i :: from <= i < from + n ==> ts[i] == x
  }

  /** What a consumer between two steps knows. The overcommit value it loaded never
      exceeds the number of lost tickets among those drawn before its own. */
  predicate PcOk(s: State, t: Tid)
    requires t in s.pcs
  {
    match s.pcs[t]
    case Idle => true
    case SawTail(max, tail) => max > 0 && tail <= s.tail
    case SawOvercommit(max, tail, oc) => max > 0 && tail <= s.tail && oc <= Count(s.tickets, |s.tickets|, IsLost)
    case Deciding(desired, oc) => desired > 0 && oc <= Count(s.tickets, |s.tickets|, IsLost)
    case Ticketed(first, desired, oc) =>
      && desired > 0 && first <= |s.tickets| && Holds(s.tickets, first, desired, Ticket(Pending, t))
      && oc <= Count(s.tickets, first, IsLost)
    case Refunding(first, desired, actual) =>
      && actual <= desired
      && Holds(s.tickets, first, actual, Ticket(Granted, t))
      && Holds(s.tickets, first + actual, desired - actual, Ticket(Refused, t))
    case Claiming(first, actual) =>
      actual > 0 && Holds(s.tickets, first, actual, Ticket(Granted, t))
  }

  /** Ticket `i` is one of those consumer `t` is working on. */
  predicate InHand(s: State, t: Tid, i: nat) {
    t in s.pcs &&
    match s.pcs[t]
    case Ticketed(first, desired, _) => first <= i < first + desired
    case Refunding(first, desired, _) => first <= i < first + desired
    case Claiming(first, actual) => first <= i < first + actual
    case _ => false
  }

  /** A granted or claimed ticket, counted among the tickets not lost before it, still
      has an element below the tail. */
  predicate Backed(s: State, i: nat)
    requires i < |s.tickets|
  {
    In(s.tickets[i], IsWon) ==> i + 1 - Count(s.tickets, i + 1, IsLost) <= s.tail
  }

  /** The claims tile `0 .. head`: each starts where the one before it ended. */
  predicate Tiled(claims: seq<Claim>, head: nat) {
    if claims == [] then head == 0
    else
      var last := claims[|claims| - 1];
      last.from + last.count == head && Tiled(claims[..|claims| - 1], last.from)
  }

  ghost predicate Inv(s: State) {
    && |s.tickets| == s.optimistic
    && s.head == Count(s.tickets, |s.tickets|, IsClaimed)
    && s.overcommit == Count(s.tickets, |s.tickets|, IsRefunded)
    && (forall t <- s.pcs :: PcOk(s, t))
    && (forall i: nat :: i < |s.tickets| && In(s.tickets[i], IsOpen) ==>
          InHand(s, s.tickets[i].holder, i))
    && (forall i: nat :: i < |s.tickets| ==> Backed(s, i))
    && Tiled(s.claims, s.head)
  }

  lemma {:induction false} InitInv(s: State)
    requires Init(s)
    ensures Inv(s)
  {
  }

  // ----- Every step keeps the invariant ------------------------------------------

  lemma {:induction false} PublishKeepsInv(s: State, count: nat, s': State)
    requires Inv(s) && Next(s, Publish(count), s')
    ensures Inv(s')
  {
    forall i: nat | i < |s.tickets| ensures Backed(s', i) {
      assert Backed(s, i);
    }
    forall t <- s.pcs ensures PcOk(s', t) {
      assert PcOk(s, t);
    }
    forall i: nat | i < |s'.tickets| && In(s'.tickets[i], IsOpen) ensures InHand(s', s'.tickets[i].holder, i) {
      assert InHand(s, s.tickets[i].holder, i);
    }
  }

  /** Steps that only load shared variables. */
  lemma {:induction false} LoadKeepsInv(s: State, t: Tid, pc: Pc, s': State)
    requires Inv(s) && t in s.pcs && s' == Goto(s, t, pc)
    requires s.pcs[t].Idle? || s.pcs[t].SawTail? || s.pcs[t].SawOvercommit?
    requires pc.Idle? || pc.SawTail? || pc.SawOvercommit? || pc.Deciding?
    requires PcOk(s', t)
    ensures Inv(s')
  {
    forall u <- s'.pcs ensures PcOk(s', u) {
      assert u != t ==> PcOk(s, u);
    }
    forall i: nat | i < |s.tickets| ensures Backed(s', i) {
      assert Backed(s, i);
    }
    forall i: nat | i < |s.tickets| && In(s.tickets[i], IsOpen) ensures InHand(s', s.tickets[i].holder, i) {
      assert InHand(s, s.tickets[i].holder, i);
    }
  }

  /** The wrapped `tail - (count - overcommit)` compares and subtracts as the true values do. */
  lemma {:induction false} AvailableIsDifference(tail: nat, count: nat, oc: nat)
    requires tail < TWO_63 && count < TWO_63 && oc <= count
    ensures var available := Wrap(tail - Wrap(count - oc));
            && (CircularLess(0, available) <==> count - oc < tail)
            && (count - oc < tail ==> available == tail - (count - oc))
  {
    assert Wrap(count - oc) == count - oc;
    assert Wrap(0) == 0;
    CircularLessIsLess(0, tail - (count - oc));
  }

  lemma {:induction false} LoadCountKeepsInv(s: State, t: Tid, max: nat, tail: nat, oc: nat, s': State)
    requires Inv(s) && Fits(s) && t in s.pcs && s.pcs[t] == SawOvercommit(max, tail, oc)
    requires LoadCount(s, t, max, tail, oc, s')
    ensures Inv(s')
  {
    assert PcOk(s, t);
    WonOrLostIsDrawn(s.tickets, |s.tickets|);
    AvailableIsDifference(tail, s.optimistic, oc);
    LoadKeepsInv(s, t, s'.pcs[t], s');
  }

  /** New tickets are of no class that is counted. */
  lemma {:induction false} DrawCounts(s: State, t: Tid, desired: nat, oc: nat, s': State)
    requires Draw(s, t, desired, oc, s')
    ensures forall c: Class, n: nat :: n <= |s.tickets| ==> Count(s'.tickets, n, c) == Count(s.tickets, n, c)
    ensures forall c: Class :: c != IsOpen && c != IsWon ==> Count(s.tickets, |s.tickets|, c) == Count(s'.tickets, |s'.tickets|, c)
  {
    hide Count;
    forall c: Class, n: nat | n <= |s.tickets| ensures Count(s'.tickets, n, c) == Count(s.tickets, n, c) {
      CountMonotone(s.tickets, s'.tickets, n, c);
      CountMonotone(s'.tickets, s.tickets, n, c);
    }
    forall c: Class | c != IsOpen && c != IsWon ensures Count(s.tickets, |s.tickets|, c) == Count(s'.tickets, |s'.tickets|, c) {
      CountPrefix(s'.tickets, |s.tickets|, |s'.tickets|, c);
    }
  }

  lemma {:induction false} DrawKeepsInv(s: State, t: Tid, desired: nat, oc: nat, s': State)
    requires Inv(s) && t in s.pcs && s.pcs[t] == Deciding(desired, oc)
    requires Draw(s, t, desired, oc, s')
    ensures Inv(s')
  {
    hide Count;
    assert PcOk(s, t);
    DrawCounts(s, t, desired, oc, s');
    forall u <- s'.pcs ensures PcOk(s', u) {
      assert u != t ==> PcOk(s, u);
    }
    forall i: nat | i < |s'.tickets| ensures Backed(s', i) {
      assert i < |s.tickets| ==> Backed(s, i);
    }
    forall i: nat | i < |s'.tickets| && In(s'.tickets[i], IsOpen) ensures InHand(s', s'.tickets[i].holder, i) {
      assert i < |s.tickets| ==> InHand(s, s.tickets[i].holder, i);
    }
  }

  /** Only open tickets of `t` changed, they are still its own, and lost ones stay lost. */
  predicate Restamped(s: State, t: Tid, s': State) {
    && s'.pcs.Keys == s.pcs.Keys && t in s.pcs
    && (forall u <- s.pcs :: u != t ==> s'.pcs[u] == s.pcs[u])
    && s'.tail == s.tail && s'.optimistic == s.optimistic
    && |s'.tickets| == |s.tickets|
    && (forall i :: 0 <= i < |s.tickets| && s.tickets[i].holder != t ==> s'.tickets[i] == s.tickets[i])
    && (forall i :: 0 <= i < |s.tickets| ==> s'.tickets[i].holder == s.tickets[i].holder)
    && (forall i :: 0 <= i < |s.tickets| && In(s.tickets[i], IsLost) ==> In(s'.tickets[i], IsLost))
  }

  lemma {:induction false} OthersKept(s: State, t: Tid, s': State, u: Tid)
    requires Restamped(s, t, s') && u in s.pcs && u != t && PcOk(s, u)
    ensures PcOk(s', u)
  {
    CountMonotone(s.tickets, s'.tickets, |s.tickets|, IsLost);
    if s.pcs[u].Ticketed? {
      CountMonotone(s.tickets, s'.tickets, s.pcs[u].first, IsLost);
    }
  }

  /** Tickets stay backed unless they are newly won. */
  lemma {:induction false} BackedKept(s: State, t: Tid, s': State, i: nat)
    requires Restamped(s, t, s') && i < |s.tickets| && Backed(s, i)
    requires In(s'.tickets[i], IsWon) ==> In(s.tickets[i], IsWon)
    ensures Backed(s', i)
  {
    CountMonotone(s.tickets, s'.tickets, i + 1, IsLost);
  }

  lemma {:induction false} RestampKeepsInv(s: State, t: Tid, s': State)
    requires Inv(s) && Restamped(s, t, s')
    requires s'.head == Count(s'.tickets, |s'.tickets|, IsClaimed) && s'.overcommit == Count(s'.tickets, |s'.tickets|, IsRefunded)
    requires PcOk(s', t)
    requires forall i: nat :: i < |s.tickets| && s.tickets[i].holder == t && In(s'.tickets[i], IsOpen) ==> InHand(s', t, i)
    requires forall i: nat :: i < |s.tickets| && In(s'.tickets[i], IsWon) && !In(s.tickets[i], IsWon) ==> Backed(s', i)
    requires Tiled(s'.claims, s'.head)
    ensures Inv(s')
  {
    forall u <- s'.pcs ensures PcOk(s', u) {
      if u != t {
        OthersKept(s, t, s', u);
      }
    }
    forall i: nat | i < |s'.tickets| ensures Backed(s', i) {
      if In(s'.tickets[i], IsWon) ==> In(s.tickets[i], IsWon) {
        BackedKept(s, t, s', i);
      }
    }
    forall i: nat | i < |s'.tickets| && In(s'.tickets[i], IsOpen) ensures InHand(s', s'.tickets[i].holder, i) {
      if s.tickets[i].holder != t {
        assert InHand(s, s.tickets[i].holder, i);
      }
    }
  }

  /** Restamping a range of `t`'s open tickets, none of them lost or newly won. */
  lemma {:induction false} StampRestamps(s: State, t: Tid, from: nat, n: nat, x: Ticket, was: Ticket, s': State)
    requires Holds(s.tickets, from, n, was) && was.holder == x.holder == t
    requires In(was, IsLost) ==> In(x, IsLost)
    requires t in s.pcs && t in s'.pcs && s'.pcs == s.pcs[t := s'.pcs[t]]
    requires s'.tail == s.tail && s'.optimistic == s.optimistic && s'.tickets == Stamp(s.tickets, from, n, x)
    ensures Restamped(s, t, s')
  {
  }

  /** Where the open tickets of `t` are: the range it is working on. */
  lemma {:induction false} OpenInHand(s: State, t: Tid, from: nat, n: nat)
    requires Inv(s) && t in s.pcs
    requires forall i: nat :: InHand(s, t, i) ==> from <= i < from + n
    ensures forall i: nat :: i < |s.tickets| && s.tickets[i].holder == t && In(s.tickets[i], IsOpen) ==> from <= i < from + n
  {
    forall i: nat | i < |s.tickets| && s.tickets[i].holder == t && In(s.tickets[i], IsOpen) ensures from <= i < from + n {
      assert InHand(s, t, i);
    }
  }

  lemma {:induction false} SplitEffect(s: State, t: Tid, first: nat, desired: nat, actual: nat, oc: nat, s': State)
    requires t in s.pcs && s.pcs[t] == Ticketed(first, desired, oc) && PcOk(s, t)
    requires actual <= desired && (actual > 0 ==> first - oc + actual <= s.tail)
    requires SplitTickets(s, t, first, desired, actual, s')
    ensures Restamped(s, t, s') && PcOk(s', t)
    ensures Count(s'.tickets, |s.tickets|, IsClaimed) == Count(s.tickets, |s.tickets|, IsClaimed)
    ensures Count(s'.tickets, |s.tickets|, IsRefunded) == Count(s.tickets, |s.tickets|, IsRefunded)
    ensures forall i :: InHand(s', t, i) <== first <= i < first + desired && In(s'.tickets[i], IsOpen)
    ensures forall i: nat :: i < |s.tickets| && In(s'.tickets[i], IsWon) && !In(s.tickets[i], IsWon) ==> Backed(s', i)
  {
    hide Count;
    forall c | c == IsClaimed || c == IsRefunded
      ensures Count(s'.tickets, |s.tickets|, c) == Count(s.tickets, |s.tickets|, c)
    {
      CountMonotone(s.tickets, s'.tickets, |s.tickets|, c);
      CountMonotone(s'.tickets, s.tickets, |s.tickets|, c);
    }
    forall i: nat | i < |s.tickets| && In(s'.tickets[i], IsWon) && !In(s.tickets[i], IsWon) ensures Backed(s', i) {
      CountMonotone(s.tickets, s'.tickets, first, IsLost);
      CountPrefix(s'.tickets, first, i + 1, IsLost);
    }
  }

  /** How many of the tickets drawn from `first` on the second load of the tail grants. */
  function GrantCount(s: State, first: nat, desired: nat, oc: nat): nat {
    if first - oc >= s.tail then 0
    else if desired < s.tail - (first - oc) then desired else s.tail - (first - oc)
  }

  lemma {:induction false} DecideSplits(s: State, t: Tid, first: nat, desired: nat, oc: nat, s': State)
    requires Fits(s) && first <= |s.tickets| == s.optimistic && oc <= Count(s.tickets, first, IsLost)
    requires Decide(s, t, first, desired, oc, s')
    ensures first + desired <= |s.tickets|
    ensures SplitTickets(s, t, first, desired, GrantCount(s, first, desired, oc), s')
  {
    WonOrLostIsDrawn(s.tickets, first);
    AvailableIsDifference(s.tail, first, oc);
  }

  lemma {:induction false} DecideKeepsInv(s: State, t: Tid, first: nat, desired: nat, oc: nat, s': State)
    requires Inv(s) && Fits(s) && t in s.pcs && s.pcs[t] == Ticketed(first, desired, oc)
    requires Decide(s, t, first, desired, oc, s')
    ensures Inv(s')
  {
    assert PcOk(s, t);
    DecideSplits(s, t, first, desired, oc, s');
    SplitEffect(s, t, first, desired, GrantCount(s, first, desired, oc), oc, s');
    OpenInHand(s, t, first, desired);
    RestampKeepsInv(s, t, s');
  }

  lemma {:induction false} RefundEffect(s: State, t: Tid, first: nat, desired: nat, actual: nat, s': State)
    requires t in s.pcs && s.pcs[t] == Refunding(first, desired, actual) && PcOk(s, t)
    requires Refund(s, t, first, desired, actual, s')
    ensures Restamped(s, t, s') && PcOk(s', t)
    ensures Count(s'.tickets, |s.tickets|, IsClaimed) == Count(s.tickets, |s.tickets|, IsClaimed)
    ensures Count(s'.tickets, |s.tickets|, IsRefunded) == Count(s.tickets, |s.tickets|, IsRefunded) + (desired - actual)
    ensures forall i :: InHand(s', t, i) <== first <= i < first + desired && In(s'.tickets[i], IsOpen)
    ensures forall i: nat :: i < |s.tickets| && In(s'.tickets[i], IsWon) ==> In(s.tickets[i], IsWon)
  {
    hide Count, Stamp, Restamped;
    CountStamp(s.tickets, first + actual, desired - actual, Ticket(Refunded, t), |s.tickets|, IsClaimed, false);
    CountStamp(s.tickets, first + actual, desired - actual, Ticket(Refunded, t), |s.tickets|, IsRefunded, false);
    StampRestamps(s, t, first + actual, desired - actual, Ticket(Refunded, t), Ticket(Refused, t), s');
  }

  lemma {:induction false} RefundKeepsInv(s: State, t: Tid, first: nat, desired: nat, actual: nat, s': State)
    requires Inv(s) && t in s.pcs && s.pcs[t] == Refunding(first, desired, actual)
    requires Refund(s, t, first, desired, actual, s')
    ensures Inv(s')
  {
    assert PcOk(s, t);
    RefundEffect(s, t, first, desired, actual, s');
    OpenInHand(s, t, first, desired);
    RestampKeepsInv(s, t, s');
  }

  lemma {:induction false} TakeKeepsInv(s: State, t: Tid, first: nat, actual: nat, s': State)
    requires Inv(s) && t in s.pcs && s.pcs[t] == Claiming(first, actual)
    requires Take(s, t, first, actual, s')
    ensures Inv(s')
  {
    assert PcOk(s, t);
    CountStamp(s.tickets, first, actual, Ticket(Claimed, t), |s.tickets|, IsClaimed, false);
    CountStamp(s.tickets, first, actual, Ticket(Claimed, t), |s.tickets|, IsRefunded, false);
    StampRestamps(s, t, first, actual, Ticket(Claimed, t), Ticket(Granted, t), s');
    OpenInHand(s, t, first, actual);
    assert s'.claims[..|s.claims|] == s.claims;
    RestampKeepsInv(s, t, s');
  }

  lemma {:induction false} StepKeepsInv(s: State, a: Action, s': State)
    requires Inv(s) && Fits(s) && Next(s, a, s')
    ensures Inv(s')
  {
    match a
    case Publish(count) => PublishKeepsInv(s, count, s');
    case Begin(t, max) => LoadKeepsInv(s, t, SawTail(max, s.tail), s');
    case Advance(t) =>
      assert PcOk(s, t);
      match s.pcs[t] {
        case SawTail(max, tail) =>
          WonOrLostIsDrawn(s.tickets, |s.tickets|);
          LoadKeepsInv(s, t, s'.pcs[t], s');
        case SawOvercommit(max, tail, oc) => LoadCountKeepsInv(s, t, max, tail, oc, s');
        case Deciding(desired, oc) => DrawKeepsInv(s, t, desired, oc, s');
        case Ticketed(first, desired, oc) => DecideKeepsInv(s, t, first, desired, oc, s');
        case Refunding(first, desired, actual) => RefundKeepsInv(s, t, first, desired, actual, s');
        case Claiming(first, actual) => TakeKeepsInv(s, t, first, actual, s');
      }
  }

  // ----- What the invariant means ------------------------------------------------

  /** As long as every won ticket is backed, no prefix holds more of them than the tail. */
  lemma {:induction false} WonAtMostTail(s: State, n: nat)
    requires n <= |s.tickets|
    requires forall i: nat :: i < |s.tickets| ==> Backed(s, i)
    ensures Count(s.tickets, n, IsWon) <= s.tail
  {
    if n > 0 {
      WonAtMostTail(s, n - 1);
      assert Backed(s, n - 1);
      WonOrLostIsDrawn(s.tickets, n);
    }
  }

  /** Index `i` lies in the range of claim `c`. */
  predicate Covers(c: Claim, i: int) {
    c.from <= i < c.from + c.count
  }

  /** Some dequeue claimed index `i`. */
  ghost predicate IsTaken(claims: seq<Claim>, i: int) {
    exists k :: 0 <= k < |claims| && Covers(claims[k], i)
  }

  /** Each index below `head` is in the range of exactly one claim; no other index is in any. */
  ghost predicate ClaimedOnce(claims: seq<Claim>, head: nat) {
    && (forall i: nat :: i < head <==> IsTaken(claims, i))
    && (forall i: nat, k, l :: 0 <= k < |claims| && 0 <= l < |claims| && Covers(claims[k], i) && Covers(claims[l], i) ==> k == l)
  }

  lemma {:induction false} TiledClaimsOnce(claims: seq<Claim>, head: nat)
    requires Tiled(claims, head)
    ensures ClaimedOnce(claims, head)
  {
    if claims != [] {
      var init, last := claims[..|claims| - 1], claims[|claims| - 1];
      TiledClaimsOnce(init, last.from);
      forall i: nat ensures i < head <==> IsTaken(claims, i) {
        assert i < last.from <==> IsTaken(init, i);
        assert IsTaken(init, i) ==> IsTaken(claims, i) by {
          if k :| 0 <= k < |init| && Covers(init[k], i) { assert Covers(claims[k], i); }
        }
        if last.from <= i < head { assert Covers(claims[|claims| - 1], i); }
        if k :| 0 <= k < |init| && Covers(claims[k], i) { assert Covers(init[k], i); }
      }
      forall i: nat, k, l | 0 <= k < |claims| && 0 <= l < |claims| && Covers(claims[k], i) && Covers(claims[l], i)
        ensures k == l
      {
        assert k < |init| ==> Covers(init[k], i) && IsTaken(init, i);
        assert l < |init| ==> Covers(init[l], i) && IsTaken(init, i);
      }
    }
  }

  /** No consumer is between the draw of its tickets and its last counter update. */
  predicate Quiescent(s: State) {
    forall t <- s.pcs :: !(s.pcs[t].Ticketed? || s.pcs[t].Refunding? || s.pcs[t].Claiming?)
  }

  lemma {:induction false} InvMeans(s: State)
    requires Inv(s)
    ensures s.head <= s.tail
    ensures ClaimedOnce(s.claims, s.head)
    ensures s.overcommit <= s.optimistic
    ensures Quiescent(s) ==> s.optimistic - s.overcommit == s.head
  {
    WonAtMostTail(s, |s.tickets|);
    WonOrLostIsDrawn(s.tickets, |s.tickets|);
    TiledClaimsOnce(s.claims, s.head);
    if Quiescent(s) {
      forall i: nat | i < |s.tickets| ensures !In(s.tickets[i], IsOpen) {
        assert In(s.tickets[i], IsOpen) ==> InHand(s, s.tickets[i].holder, i);
      }
    }
  }

  /** A run: an initial state, then one step of some thread after another. */
  predicate Run(run: seq<State>, actions: seq<Action>) {
    && |run| == |actions| + 1
    && Init(run[0])
    && forall i :: 0 <= i < |actions| ==> Fits(run[i]) && Next(run[i], actions[i], run[i + 1])
  }

  lemma {:induction false} RunKeepsInv(run: seq<State>, actions: seq<Action>, n: nat)
    requires Run(run, actions) && n < |run|
    ensures Inv(run[n])
  {
    if n == 0 {
      InitInv(run[0]);
    } else {
      RunKeepsInv(run, actions, n - 1);
      StepKeepsInv(run[n - 1], actions[n - 1], run[n]);
    }
  }

  /** In every interleaving the head never passes the tail, every index below the head
      was claimed by exactly one dequeue and no other index was claimed at all, and
      whenever no consumer is in flight the two counts differ by exactly the head. */
  lemma {:induction false} EveryRunIsSafe(run: seq<State>, actions: seq<Action>, n: nat)
    requires Run(run, actions) && n < |run|
    ensures run[n].head <= run[n].tail
    ensures ClaimedOnce(run[n].claims, run[n].head)
    ensures Quiescent(run[n]) ==> run[n].optimistic - run[n].overcommit == run[n].head
  {
    RunKeepsInv(run, actions, n);
    InvMeans(run[n]);
  }

  // ----- The protocol does not give up elements that are there --------------------

  /** Consumer `t` runs a whole dequeue with no other step in between. */
  ghost predicate RunsAlone(run: seq<State>, t: Tid, max: nat) {
    && |run| > 2 && max > 0 && t in run[0].pcs
    && Next(run[0], Begin(t, max), run[1])
    && (forall i :: 1 <= i < |run| - 1 ==> t in run[i].pcs && run[i].pcs[t] != Idle && Next(run[i], Advance(t), run[i + 1]))
    && t in run[|run| - 1].pcs && run[|run| - 1].pcs[t] == Idle
  }

  /** Alone on a quiescent queue, a dequeue claims the next `max` elements, or all there are. */
  lemma {:induction false} LoneDequeue(run: seq<State>, t: Tid, max: nat)
    requires RunsAlone(run, t, max)
    requires Inv(run[0]) && Fits(run[0]) && Quiescent(run[0])
    ensures var s, s' := run[0], run[|run| - 1];
            var available := s.tail - s.head;
            s.head <= s.tail && s'.claims == if available == 0 then s.claims
                         else s.claims + [Claim(t, s.head, if max < available then max else available)]
  {
    var s := run[0];
    InvMeans(s);
    hide Inv;
    LoneLoads(run, t, max);
    if s.head < s.tail {
      LoneClaims(run, t, if max < s.tail - s.head then max else s.tail - s.head);
    }
  }

  /** The loads before the first test. */
  lemma {:induction false} LoneLoads(run: seq<State>, t: Tid, max: nat)
    requires RunsAlone(run, t, max) && Fits(run[0])
    requires var s := run[0]; s.head <= s.tail && s.overcommit <= s.optimistic && s.optimistic - s.overcommit == s.head
    ensures var s := run[0];
            var desired := if max < s.tail - s.head then max else s.tail - s.head;
            && |run| > 3
            && run[3] == Goto(s, t, if s.head < s.tail then Deciding(desired, s.overcommit) else Idle)
            && (s.head == s.tail ==> run[|run| - 1] == run[3])
  {
    var s := run[0];
    assert run[1].pcs[t] == SawTail(max, s.tail);
    assert run[2].pcs[t] == SawOvercommit(max, s.tail, s.overcommit);
    AvailableIsDifference(s.tail, s.optimistic, s.overcommit);
    assert run[3] == Goto(s, t, run[3].pcs[t]);
  }

  /** The draw, the second test, in which all tickets are granted, and the claim. */
  lemma {:induction false} LoneClaims(run: seq<State>, t: Tid, desired: nat)
    requires |run| > 3 && t in run[0].pcs && Fits(run[0]) && |run[0].tickets| == run[0].optimistic
    requires var s := run[0];
             && s.head <= s.tail && s.overcommit <= s.optimistic && s.optimistic - s.overcommit == s.head
             && 0 < desired <= s.tail - s.head && run[3] == Goto(s, t, Deciding(desired, s.overcommit))
    requires forall i :: 1 <= i < |run| - 1 ==> t in run[i].pcs && run[i].pcs[t] != Idle && Next(run[i], Advance(t), run[i + 1])
    requires t in run[|run| - 1].pcs && run[|run| - 1].pcs[t] == Idle
    ensures run[|run| - 1].claims == run[0].claims + [Claim(t, run[0].head, desired)]
  {
    var s := run[0];
    assert |run| > 4 && Next(run[3], Advance(t), run[4]);
    LoneDraw(run[3], t, desired, s.overcommit, run[4]);
    assert |run| > 5 && Next(run[4], Advance(t), run[5]);
    LoneGrant(run[4], t, s.optimistic, desired, s.overcommit, run[5]);
    assert |run| > 6 && Next(run[5], Advance(t), run[6]);
    LoneTake(run[5], t, s.optimistic, desired, run[6]);
    assert |run| == 7;
  }

  lemma {:induction false} LoneDraw(s: State, t: Tid, desired: nat, oc: nat, s': State)
    requires t in s.pcs && s.pcs[t] == Deciding(desired, oc) && Next(s, Advance(t), s')
    ensures t in s'.pcs && s'.pcs[t] == Ticketed(s.optimistic, desired, oc)
    ensures s'.claims == s.claims && s'.head == s.head && s'.tail == s.tail
  {
  }

  lemma {:induction false} LoneGrant(s: State, t: Tid, first: nat, desired: nat, oc: nat, s': State)
    requires t in s.pcs && s.pcs[t] == Ticketed(first, desired, oc) && Next(s, Advance(t), s')
    requires s.tail < TWO_63 && first < TWO_63 && oc <= first && 0 < desired <= s.tail - (first - oc)
    ensures t in s'.pcs && s'.pcs[t] == Claiming(first, desired) && s'.claims == s.claims && s'.head == s.head
  {
    AvailableIsDifference(s.tail, first, oc);
  }

  lemma {:induction false} LoneTake(s: State, t: Tid, first: nat, actual: nat, s': State)
    requires t in s.pcs && s.pcs[t] == Claiming(first, actual) && Next(s, Advance(t), s')
    ensures t in s'.pcs && s'.pcs[t] == Idle && s'.claims == s.claims + [Claim(t, s.head, actual)]
  {
  }

  // ----- Every dequeue comes to an end -------------------------------------------

  /** How many of its own steps a dequeue may still take. */
  function StepsLeft(pc: Pc): nat {
    match pc
    case Idle => 0
    case SawTail(_, _) => 6
    case SawOvercommit(_, _, _) => 5
    case Deciding(_, _) => 4
    case Ticketed(_, _, _) => 3
    case Refunding(_, _, _) => 2
    case Claiming(_, _) => 1
  }

  /** It is after at least one element and at most `max`. */
  predicate Wants(pc: Pc, max: nat) {
    match pc
    case Idle => true
    case SawTail(most, _) => most == max > 0
    case SawOvercommit(most, _, _) => most == max > 0
    case Deciding(desired, _) => 0 < desired <= max
    case Ticketed(_, desired, _) => 0 < desired <= max
    case Refunding(_, desired, actual) => actual < desired <= max
    case Claiming(_, actual) => 0 < actual <= max
  }

  /** The claims a step added: only the last step of a dequeue makes one. */
  predicate ClaimsOf(s: State, t: Tid, max: nat, s': State) {
    s'.claims == s.claims
    || (t in s'.pcs && s'.pcs[t] == Idle
        && exists count :: 0 < count <= max && s'.claims == s.claims + [Claim(t, s.head, count)])
  }

  lemma {:induction false} DequeueStep(s: State, t: Tid, max: nat, s': State)
    requires t in s.pcs && Advances(s, t, s') && Wants(s.pcs[t], max)
    ensures t in s'.pcs && StepsLeft(s'.pcs[t]) < StepsLeft(s.pcs[t]) && Wants(s'.pcs[t], max) && ClaimsOf(s, t, max, s')
  {
    hide Stamp;
    match s.pcs[t]
    case Claiming(first, actual) => assert s'.claims == s.claims + [Claim(t, s.head, actual)];
    case _ =>
  }

  lemma {:induction false} OthersStay(s: State, a: Action, t: Tid, s': State)
    requires Next(s, a, s') && t in s.pcs && (a.Publish? || a.t != t)
    ensures t in s'.pcs && s'.pcs[t] == s.pcs[t]
  {
    hide Stamp;
  }

  ghost predicate CanGoOn(s: State, t: Tid) {
    exists s' :: Next(s, Advance(t), s')
  }

  lemma {:induction false} DequeueCanGoOn(s: State, t: Tid)
    requires t in s.pcs && s.pcs[t] != Idle && PcOk(s, t)
    ensures CanGoOn(s, t)
  {
    match s.pcs[t]
    case SawTail(max, tail) => assert Next(s, Advance(t), Goto(s, t, SawOvercommit(max, tail, s.overcommit)));
    case SawOvercommit(max, tail, oc) =>
      var available := Wrap(tail - Wrap(s.optimistic - oc));
      assert Next(s, Advance(t), Goto(s, t, if CircularLess(0, available)
                                            then Deciding(if available < max then available else max, oc) else Idle));
    case Deciding(desired, oc) =>
      assert Next(s, Advance(t), Goto(s, t, Ticketed(s.optimistic, desired, oc))
                                 .(optimistic := s.optimistic + desired,
                                   tickets := s.tickets + seq(desired, _ => Ticket(Pending, t))));
    case Ticketed(first, desired, oc) => TicketedCanGoOn(s, t, first, desired, oc);
    case Refunding(first, desired, actual) =>
      assert Next(s, Advance(t), Goto(s, t, if actual > 0 then Claiming(first, actual) else Idle)
                                 .(overcommit := s.overcommit + (desired - actual),
                                   tickets := Stamp(s.tickets, first + actual, desired - actual, Ticket(Refunded, t))));
    case Claiming(first, actual) =>
      assert Next(s, Advance(t), Goto(s, t, Idle)
                                 .(head := s.head + actual, tickets := Stamp(s.tickets, first, actual, Ticket(Claimed, t)),
                                   claims := s.claims + [Claim(t, s.head, actual)]));
  }

  lemma {:induction false} TicketedCanGoOn(s: State, t: Tid, first: nat, desired: nat, oc: nat)
    requires t in s.pcs && s.pcs[t] == Ticketed(first, desired, oc) && first + desired <= |s.tickets|
    ensures CanGoOn(s, t)
  {
    var available := Wrap(s.tail - Wrap(first - oc));
    var actual := if !CircularLess(0, available) then 0 else if desired < available then desired else available;
    var s' := Goto(s, t, if actual < desired then Refunding(first, desired, actual) else Claiming(first, actual))
              .(tickets := seq(|s.tickets|, i requires 0 <= i < |s.tickets| =>
                  if first <= i < first + actual then Ticket(Granted, t)
                  else if first <= i < first + desired then Ticket(Refused, t)
                  else s.tickets[i]));
    assert SplitTickets(s, t, first, desired, actual, s');
    assert Next(s, Advance(t), s');
  }

  /** How many of the actions from `m` to `n` are steps of consumer `t`. */
  function OwnSteps(actions: seq<Action>, t: Tid, m: nat, n: nat): nat
    requires m <= n <= |actions|
    decreases n
  {
    if m == n then 0 else OwnSteps(actions, t, m, n - 1) + if actions[n - 1] == Advance(t) then 1 else 0
  }

  /** The dequeue begun with `actions[m]` is under way until just before `n`. */
  predicate Dequeues(run: seq<State>, actions: seq<Action>, m: nat, n: nat)
    requires |run| == |actions| + 1
  {
    && m < n < |run| && actions[m].Begin?
    && forall k :: m < k < n ==> actions[m].t in run[k].pcs && run[k].pcs[actions[m].t] != Idle
  }

  /** In every interleaving a dequeue takes at most six more steps of its own after its first
      load, can always take the next, and claims nothing before its last step, and then at
      most what it asked for. */
  lemma {:induction false} DequeueIsWaitFree(run: seq<State>, actions: seq<Action>, m: nat, n: nat)
    requires Run(run, actions) && Dequeues(run, actions, m, n)
    ensures var t, max := actions[m].t, actions[m].max;
            && t in run[n].pcs && Wants(run[n].pcs[t], max)
            && OwnSteps(actions, t, m + 1, n) + StepsLeft(run[n].pcs[t]) <= 6
            && (run[n].pcs[t] != Idle ==> CanGoOn(run[n], t))
            && (actions[n - 1] == Advance(t) ==> ClaimsOf(run[n - 1], t, max, run[n]))
    decreases n
  {
    hide Next, Inv, CanGoOn, ClaimsOf;
    var t, max := actions[m].t, actions[m].max;
    assert Next(run[n - 1], actions[n - 1], run[n]);
    if n == m + 1 {
      DequeueBegins(run[m], t, max, run[n]);
    } else {
      DequeueIsWaitFree(run, actions, m, n - 1);
      if actions[n - 1] == Advance(t) {
        StepIsAdvance(run[n - 1], t, run[n]);
        DequeueStep(run[n - 1], t, max, run[n]);
      } else {
        NotBegun(run[n - 1], actions[n - 1], t, run[n]);
        OthersStay(run[n - 1], actions[n - 1], t, run[n]);
      }
    }
    RunKeepsInv(run, actions, n);
    InvGivesPcOk(run[n], t);
    if run[n].pcs[t] != Idle {
      DequeueCanGoOn(run[n], t);
    }
  }

  lemma {:induction false} DequeueBegins(s: State, t: Tid, max: nat, s': State)
    requires Next(s, Begin(t, max), s')
    ensures t in s'.pcs && Wants(s'.pcs[t], max) && StepsLeft(s'.pcs[t]) <= 6
  {
  }

  lemma {:induction false} StepIsAdvance(s: State, t: Tid, s': State)
    requires Next(s, Advance(t), s')
    ensures t in s.pcs && Advances(s, t, s')
  {
  }

  lemma {:induction false} NotBegun(s: State, a: Action, t: Tid, s': State)
    requires Next(s, a, s') && t in s.pcs && s.pcs[t] != Idle && a != Advance(t)
    ensures a.Publish? || a.t != t
  {
  }

  lemma {:induction false} InvGivesPcOk(s: State, t: Tid)
    requires Inv(s) && t in s.pcs
    ensures PcOk(s, t)
  {
  }
}
