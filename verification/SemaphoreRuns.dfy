/** What the calls on the semaphore come to: how many permits a try or a wait returns with,
    in every interleaving, and what a call does that no other thread disturbs. */
module SemaphoreRuns {
  import opened Semaphore

  // ----- How a call ends ---------------------------------------------------------

  predicate Waits(pc: Pc) {
    pc.Trying? || pc.SawCount? || pc.Blocked? || pc.TimedOut? || pc.SawAfterTimeout?
  }

  /** The call that thread `t` makes with `actions[m]` is still in progress just before `n`. */
  predicate Call(run: seq<State>, actions: seq<Action>, t: nat, m: nat, n: nat)
    requires |run| == |actions| + 1
  {
    && m < n < |run| && actions[m].Wait? && actions[m].t == t
    && forall k :: m < k < n ==> t < |run[k].pcs| && Waits(run[k].pcs[t])
  }

  /** The call that thread `t` makes with `actions[m]` ends at `n` with `got` permits. */
  predicate Ends(run: seq<State>, actions: seq<Action>, t: nat, m: nat, n: nat, got: nat)
    requires |run| == |actions| + 1
  {
    Call(run, actions, t, m, n) && t < |run[n].pcs| && run[n].pcs[t] == Redeeming(got)
  }

  /** The kernel wait of the thread timed out between `m` and `n`. */
  predicate Expired(actions: seq<Action>, t: nat, m: nat, n: nat)
    requires n <= |actions|
  {
    exists k :: m < k < n && actions[k] == Expire(t)
  }

  /** At an instant after `m` and not after `n` there was no permit in the count. */
  predicate Dry(run: seq<State>, m: nat, n: nat)
    requires n < |run|
  {
    exists k :: m < k <= n && run[k].count <= 0
  }

  /** What a call for up to `max` permits has come to, if its kernel wait has timed out or
      not, and if the count was seen without a permit or not. */
  predicate CallOk(pc: Pc, max: nat, mode: Mode, expired: bool, dry: bool) {
    match pc
    case Trying(rest, now, got) => Attempt(rest, now, got, max, mode)
    case SawCount(rest, now, got, seen) => Attempt(rest, now, got, max, mode) && (seen <= 0 ==> dry)
    case Blocked(rest, now) => rest == max > 0 && now == mode != TryOnly
    case TimedOut(rest) => rest == max > 0 && mode == Timed && expired
    case SawAfterTimeout(rest, _) => rest == max > 0 && mode == Timed && expired
    case Redeeming(got) =>
      && got <= max && (got < max ==> dry)
      && (mode == Forever ==> got > 0) && (mode == Timed && got == 0 ==> expired)
    case _ => false
  }

  /** The first attempts are for all of the maximum, those of a waiter that has one permit
      are for the rest. */
  predicate Attempt(rest: nat, now: Mode, got: nat, max: nat, mode: Mode) {
    if got == 0 then rest == max && now == mode && (max > 0 || mode == TryOnly)
    else got == 1 && rest + 1 == max > 1 && now == TryOnly && mode != TryOnly
  }

  lemma {:induction false} OthersStay(s: State, a: Action, s': State, t: nat)
    requires Next(s, a, s') && a.t != t && t < |s.pcs|
    ensures |s'.pcs| == |s.pcs| && s'.pcs[t] == s.pcs[t]
  {
  }

  lemma {:induction false} AttemptGoesOn(s: State, t: nat, s': State, max: nat, mode: Mode, expired: bool, dry: bool)
    requires t < |s.pcs| && Advances(s, t, s') && CallOk(s.pcs[t], max, mode, expired, dry)
    requires s.pcs[t].Trying? || s.pcs[t].SawCount?
    ensures |s'.pcs| == |s.pcs| && CallOk(s'.pcs[t], max, mode, expired, dry || s.count <= 0 || s'.count <= 0)
  {
  }

  lemma {:induction false} SleepGoesOn(s: State, t: nat, s': State, max: nat, mode: Mode, expired: bool, dry: bool)
    requires t < |s.pcs| && Advances(s, t, s') && CallOk(s.pcs[t], max, mode, expired, dry)
    requires s.pcs[t].Blocked? || s.pcs[t].TimedOut? || s.pcs[t].SawAfterTimeout?
    ensures |s'.pcs| == |s.pcs| && CallOk(s'.pcs[t], max, mode, expired, dry || s.count <= 0 || s'.count <= 0)
  {
  }

  lemma {:induction false} CallGoesOn(s: State, a: Action, s': State, t: nat, max: nat, mode: Mode, expired: bool, dry: bool)
    requires Next(s, a, s') && t < |s.pcs| && Waits(s.pcs[t]) && CallOk(s.pcs[t], max, mode, expired, dry)
    ensures |s'.pcs| == |s.pcs|
    ensures CallOk(s'.pcs[t], max, mode, expired || a == Expire(t), dry || s.count <= 0 || s'.count <= 0)
  {
    hide Advances;
    if a.t != t {
      OthersStay(s, a, s', t);
    } else if a.Advance? {
      if s.pcs[t].Trying? || s.pcs[t].SawCount? {
        AttemptGoesOn(s, t, s', max, mode, expired, dry);
      } else {
        SleepGoesOn(s, t, s', max, mode, expired, dry);
      }
    }
  }

  lemma {:induction false} CallIsOk(run: seq<State>, actions: seq<Action>, t: nat, m: nat, n: nat)
    requires Run(run, actions) && Call(run, actions, t, m, n)
    ensures t < |run[n].pcs| && CallOk(run[n].pcs[t], actions[m].max, actions[m].mode, Expired(actions, t, m, n), Dry(run, m, n))
    decreases n
  {
    hide CallOk;
    assert Next(run[m], actions[m], run[m + 1]);
    if n == m + 1 {
      Begins(run[m], actions[m], run[n], Expired(actions, t, m, n), Dry(run, m, n));
    } else {
      hide Next;
      CallIsOk(run, actions, t, m, n - 1);
      var expired, dry := Expired(actions, t, m, n - 1), Dry(run, m, n - 1);
      assert Next(run[n - 1], actions[n - 1], run[n]);
      CallGoesOn(run[n - 1], actions[n - 1], run[n], t, actions[m].max, actions[m].mode, expired, dry);
      assert expired || actions[n - 1] == Expire(t) ==> Expired(actions, t, m, n);
      assert dry || run[n - 1].count <= 0 || run[n].count <= 0 ==> Dry(run, m, n);
      MoreIsOk(run[n].pcs[t], actions[m].max, actions[m].mode, expired || actions[n - 1] == Expire(t),
               dry || run[n - 1].count <= 0 || run[n].count <= 0, Expired(actions, t, m, n), Dry(run, m, n));
    }
  }

  lemma {:induction false} Begins(s: State, a: Action, s': State, expired: bool, dry: bool)
    requires Next(s, a, s') && a.Wait?
    ensures a.t < |s'.pcs| && CallOk(s'.pcs[a.t], a.max, a.mode, expired, dry)
  {
  }

  lemma {:induction false} MoreIsOk(pc: Pc, max: nat, mode: Mode, expired: bool, dry: bool, expired': bool, dry': bool)
    requires CallOk(pc, max, mode, expired, dry) && (expired ==> expired') && (dry ==> dry')
    ensures CallOk(pc, max, mode, expired', dry')
  {
  }

  /** In every interleaving: a wait without a time limit returns with at least one permit; one
      with a limit returns with none only after it timed out; and whatever kind of call,
      it never returns with more than it asked for, and with less only if at an instant of
      the call no permit was left in the count. */
  lemma {:induction false} CallsEnd(run: seq<State>, actions: seq<Action>, t: nat, m: nat, n: nat, got: nat)
    requires Run(run, actions) && Ends(run, actions, t, m, n, got)
    ensures actions[m].mode == Forever ==> got > 0
    ensures actions[m].mode == Timed && got == 0 ==> Expired(actions, t, m, n)
    ensures got <= actions[m].max
    ensures got < actions[m].max ==> Dry(run, m, n)
  {
    CallIsOk(run, actions, t, m, n);
  }

  /** A plain try that returns with permits takes them in one step, at its end: all it asked
      for or all that are there. */
  lemma {:induction false} TryTakes(run: seq<State>, actions: seq<Action>, t: nat, m: nat, n: nat, got: nat)
    requires Run(run, actions) && Ends(run, actions, t, m, n, got) && actions[m].mode == TryOnly && got > 0
    ensures run[n - 1].count > 0 && run[n].count == run[n - 1].count - got
    ensures got == if run[n - 1].count < actions[m].max then run[n - 1].count else actions[m].max
  {
    hide Next;
    assert n > m + 1 by {
      assert Next(run[m], actions[m], run[m + 1]);
      if n == m + 1 {
        Begins(run[m], actions[m], run[n], false, false);
        BeginsTrying(run[m], actions[m], run[n]);
      }
    }
    CallIsOk(run, actions, t, m, n - 1);
    assert Next(run[n - 1], actions[n - 1], run[n]);
    TryTakesIn(run[n - 1], actions[n - 1], run[n], t, actions[m].max, got);
  }

  lemma {:induction false} BeginsTrying(s: State, a: Action, s': State)
    requires Next(s, a, s') && a.Wait?
    ensures a.t < |s'.pcs| && s'.pcs[a.t].Trying?
  {
  }

  lemma {:induction false} TryTakesIn(s: State, a: Action, s': State, t: nat, max: nat, got: nat)
    requires Next(s, a, s') && t < |s.pcs| && t < |s'.pcs| && Waits(s.pcs[t])
    requires exists expired, dry :: CallOk(s.pcs[t], max, TryOnly, expired, dry)
    requires s'.pcs[t] == Redeeming(got) && got > 0
    ensures s.count > 0 && s'.count == s.count - got && got == if s.count < max then s.count else max
  {
    if a.t != t {
      OthersStay(s, a, s', t);
    }
  }

  // ----- Calls that nobody disturbs ----------------------------------------------

  /** From state `s` on, thread `t` begins a call and goes on with it, and no other thread
      makes a step. */
  predicate Alone(states: seq<State>, s: State, begin: Action, t: nat) {
    && |states| >= 2 && states[0] == s && Next(s, begin, states[1])
    && forall i :: 1 <= i < |states| - 1 ==> Next(states[i], Advance(t), states[i + 1])
  }

  function Least(a: nat, b: nat): nat {
    if a < b then a else b
  }

  /** What an attempt for `max` permits gets if no other thread makes a step. */
  function Obtained(s: State, max: nat): nat {
    Least(max, Positive(s.count))
  }

  /** An attempt that gets permits, or is a plain try, is over in two accesses. */
  lemma {:induction false} LoneAttempt(s: State, t: nat, max: nat, mode: Mode, got: nat, s1: State, s2: State)
    requires t < |s.pcs| && s.pcs[t] == Trying(max, mode, got) && (mode == TryOnly || s.count > 0)
    requires Next(s, Advance(t), s1) && Next(s1, Advance(t), s2)
    ensures s2.pcs == s.pcs[t := Redeeming(got + Obtained(s, max))] && s2.count == s.count - Obtained(s, max)
  {
    assert s1.pcs[t] == SawCount(max, mode, got, s.count);
    assert s.pcs[t := s1.pcs[t]][t := s2.pcs[t]] == s.pcs[t := s2.pcs[t]];
  }

  ghost predicate CanGoOn(s: State, t: nat) {
    exists s' :: Next(s, Advance(t), s')
  }

  lemma {:induction false} AttemptCanGoOn(s: State, t: nat)
    requires t < |s.pcs| && (s.pcs[t].Trying? || s.pcs[t].SawCount?)
    ensures CanGoOn(s, t)
  {
    match s.pcs[t]
    case Trying(max, mode, got) => assert Next(s, Advance(t), Goto(s, t, SawCount(max, mode, got, s.count)));
    case SawCount(max, mode, got, seen) =>
      if seen <= 0 {
        assert Next(s, Advance(t), Goto(s, t, if mode == TryOnly then Redeeming(got) else Trying(max, mode, got)));
      } else if s.count == seen {
        var rest := if seen > max then seen - max else 0;
        assert Next(s, Advance(t), Goto(s, t, Redeeming(got + (seen - rest))).(count := rest, granted := s.granted + (seen - rest)));
      } else {
        assert Next(s, Advance(t), Goto(s, t, Trying(max, mode, got)));
      }
  }

  /** At any instant of any run, a plain try that nobody disturbs, and a wait if there are
      permits, is over after three steps and returns with all it asked for or all there are. */
  lemma {:induction false} TryAlone(run: seq<State>, actions: seq<Action>, i: nat, t: nat, max: nat, mode: Mode, states: seq<State>)
    requires Run(run, actions) && i < |run| && Alone(states, run[i], Wait(t, max, mode), t)
    requires mode == TryOnly || run[i].count > 0
    ensures |states| < 4 ==> CanGoOn(states[|states| - 1], t)
    ensures |states| >= 4 ==>
              var s, s' := run[i], states[3]; var got := Obtained(s, max);
              s'.pcs == s.pcs[t := Redeeming(got)] && s'.count == s.count - got
  {
    hide CanGoOn;
    var s := run[i];
    assert states[1] == Goto(s, t, Trying(max, mode, 0));
    if |states| == 2 {
      AttemptCanGoOn(states[1], t);
    } else {
      assert Next(states[1], Advance(t), states[2]);
      if |states| == 3 {
        AttemptCanGoOn(states[2], t);
      } else {
        assert Next(states[2], Advance(t), states[3]);
        hide Next;
        LoneAttempt(states[1], t, max, mode, 0, states[2], states[3]);
        assert s.pcs[t := Trying(max, mode, 0)][t := states[3].pcs[t]] == s.pcs[t := states[3].pcs[t]];
      }
    }
  }

  /** A sleeping thread for which a permit is posted gets it when it next runs, and then what
      is left in the count up to its maximum. */
  lemma {:induction false} SleeperWakes(s: State, t: nat, max: nat, mode: Mode, states: seq<State>)
    requires t < |s.pcs| && s.pcs[t] == Blocked(max, mode) && max > 0 && s.permits > 0
    requires Alone(states, s, Advance(t), t) && |states| == if max > 1 then 4 else 2
    ensures var s', more := states[|states| - 1], Obtained(s, max - 1);
            && s'.pcs == s.pcs[t := Redeeming(1 + more)]
            && s'.permits == s.permits - 1 && s'.count == s.count - more
  {
    var s1 := states[1];
    assert s1 == Goto(s, t, Greedy(max)).(permits := s.permits - 1, granted := s.granted + 1);
    if max > 1 {
      assert Next(s1, Advance(t), states[2]) && Next(states[2], Advance(t), states[3]);
      hide Next;
      LoneAttempt(s1, t, max - 1, TryOnly, 1, states[2], states[3]);
      assert s.pcs[t := s1.pcs[t]][t := states[3].pcs[t]] == s.pcs[t := states[3].pcs[t]];
    }
  }

  /** A thread whose kernel wait timed out takes the permit that was posted for it after all,
      or takes its decrement back and returns with nothing. */
  lemma {:induction false} TimedOutEnds(s: State, t: nat, max: nat, states: seq<State>)
    requires t < |s.pcs| && s.pcs[t] == TimedOut(max) && (s.count < 0 || s.permits > 0)
    requires Alone(states, s, Advance(t), t) && |states| == 3
    ensures if s.count < 0
            then states[2] == s.(pcs := s.pcs[t := Redeeming(0)], count := s.count + 1)
            else states[2] == s.(pcs := s.pcs[t := Greedy(max)], permits := s.permits - 1, granted := s.granted + 1)
  {
    assert Next(states[1], Advance(t), states[2]);
    assert states[1].pcs == s.pcs[t := SawAfterTimeout(max, s.count)];
    assert states[1].pcs[t := states[2].pcs[t]] == s.pcs[t := states[2].pcs[t]];
  }

  /** A signal that nobody disturbs adds its permits to the count and posts one to the kernel
      semaphore for each sleeper it can wake, and for no others. */
  lemma {:induction false} SignalAlone(s: State, t: nat, n: nat, states: seq<State>)
    requires t < |s.pcs| && s.pcs[t] == ToSignal(n)
    requires Alone(states, s, Advance(t), t) && |states| == 3 + Least(n, Positive(-s.count))
    ensures var s' := states[|states| - 1];
            && s'.pcs == s.pcs[t := Idle] && s'.count == s.count + n
            && s'.permits == s.permits + Least(n, Positive(-s.count)) && s'.signalled == s.signalled + n
  {
    hide Advances;
    var k := Least(n, Positive(-s.count));
    SignalPosts(s, t, n, states[1]);
    PostsAll(states[1..], t, k);
    assert s.pcs[t := Releasing(k)][t := Idle] == s.pcs[t := Idle];
  }

  lemma {:induction false} SignalPosts(s: State, t: nat, n: nat, s': State)
    requires t < |s.pcs| && s.pcs[t] == ToSignal(n) && Next(s, Advance(t), s')
    ensures s' == Goto(s, t, Releasing(Least(n, Positive(-s.count)))).(count := s.count + n, signalled := s.signalled + n)
  {
  }

  lemma {:induction false} PostsAll(states: seq<State>, t: nat, k: nat)
    requires |states| == k + 2 && t < |states[0].pcs| && states[0].pcs[t] == Releasing(k)
    requires forall i :: 0 <= i < |states| - 1 ==> Next(states[i], Advance(t), states[i + 1])
    ensures states[k + 1] == Goto(states[0], t, Idle).(permits := states[0].permits + k)
  {
    assert Next(states[0], Advance(t), states[1]);
    if k > 0 {
      var s, s1 := states[0], states[1];
      assert s1 == Goto(s, t, Releasing(k - 1)).(permits := s.permits + 1);
      PostsAll(states[1..], t, k - 1);
      assert s.pcs[t := Releasing(k - 1)][t := Idle] == s.pcs[t := Idle];
    }
  }

  /** In every run a thread inside the semaphore can take its next step, except when it sleeps
      and no permit is posted. */
  lemma {:induction false} OnlySleepersWait(run: seq<State>, actions: seq<Action>, i: nat, t: nat)
    requires Run(run, actions) && i < |run| && t < |run[i].pcs|
    requires !run[i].pcs[t].Idle? && !run[i].pcs[t].Redeeming?
    ensures CanGoOn(run[i], t) <==> !(run[i].pcs[t].Blocked? && run[i].permits == 0)
  {
    hide CanGoOn;
    var s := run[i];
    match s.pcs[t]
    case Trying(_, _, _) => AttemptCanGoOn(s, t);
    case SawCount(_, _, _, _) => AttemptCanGoOn(s, t);
    case Blocked(_, _) => SleeperCanGoOn(s, t);
    case TimedOut(_) => TimedOutCanGoOn(s, t);
    case SawAfterTimeout(_, _) => TimedOutCanGoOn(s, t);
    case ToSignal(_) => SignallerCanGoOn(s, t);
    case Releasing(_) => SignallerCanGoOn(s, t);
  }

  lemma {:induction false} SleeperCanGoOn(s: State, t: nat)
    requires t < |s.pcs| && s.pcs[t].Blocked?
    ensures CanGoOn(s, t) <==> s.permits > 0
  {
    if s.permits > 0 {
      assert Next(s, Advance(t), Goto(s, t, Greedy(s.pcs[t].max)).(permits := s.permits - 1, granted := s.granted + 1));
    }
  }

  lemma {:induction false} TimedOutCanGoOn(s: State, t: nat)
    requires t < |s.pcs| && (s.pcs[t].TimedOut? || s.pcs[t].SawAfterTimeout?)
    ensures CanGoOn(s, t)
  {
    match s.pcs[t]
    case TimedOut(max) => assert Next(s, Advance(t), Goto(s, t, SawAfterTimeout(max, s.count)));
    case SawAfterTimeout(max, seen) =>
      var s' := if seen >= 0 && s.permits > 0 then Goto(s, t, Greedy(max)).(permits := s.permits - 1, granted := s.granted + 1)
                else if seen < 0 && s.count == seen then Goto(s, t, Redeeming(0)).(count := seen + 1)
                else Goto(s, t, TimedOut(max));
      assert Next(s, Advance(t), s');
  }

  lemma {:induction false} SignallerCanGoOn(s: State, t: nat)
    requires t < |s.pcs| && (s.pcs[t].ToSignal? || s.pcs[t].Releasing?)
    ensures CanGoOn(s, t)
  {
    match s.pcs[t]
    case ToSignal(n) =>
      var toRelease := if -s.count < n then -s.count else n;
      assert Next(s, Advance(t), Goto(s, t, Releasing(if toRelease > 0 then toRelease else 0))
                                 .(count := s.count + n, signalled := s.signalled + n));
    case Releasing(k) =>
      assert Next(s, Advance(t), if k == 0 then Goto(s, t, Idle) else Goto(s, t, Releasing(k - 1)).(permits := s.permits + 1));
  }

  /** In every run of the blocking queue, which starts without permits, a thread that got
      permits can take an element for each of them. */
  lemma {:induction false} PermitsCanBeRedeemed(run: seq<State>, actions: seq<Action>, i: nat, t: nat)
    requires Run(run, actions) && i < |run| && run[0].initial == 0
    requires t < |run[i].pcs| && run[i].pcs[t].Redeeming? && run[i].pcs[t].n > 0
    ensures exists s' :: Next(run[i], Dequeue(t), s')
  {
    PermitsMatchElements(run, actions, i, t);
    assert Next(run[i], Dequeue(t), Goto(run[i], t, Redeeming(run[i].pcs[t].n - 1)).(dequeued := run[i].dequeued + 1));
  }
}
