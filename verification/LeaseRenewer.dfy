/** `LeaseRenewer`: the copies of leases a worker holds, and how renewals keep them up. */
module LeaseRenewer {
  import opened Leases
  import opened LeaseTable
  import opened Options
  import opened Words

  type Held = map<string, LeaseState>

  /** `addLeasesToRenew`: leases without a recorded time are passed over, and a lease that is
      held already is not replaced. */
  function Added(owned: Held, leases: seq<LeaseState>): Held {
    if leases == [] then owned
    else
      var before, l := Added(owned, leases[..|leases| - 1]), leases[|leases| - 1];
      if l.lastIncrement.None? || l.key in before then before else before[l.key := l]
  }

  /** Every lease is held under its own key. */
  predicate KeysOk(owned: Held) {
    forall k <- owned :: owned[k].key == k
  }

  class LeaseRenewer {
    const leaseDuration: nat
    var ownedLeases: Held

    constructor (leaseDuration: nat)
      ensures ownedLeases == map[] && this.leaseDuration == leaseDuration
    {
      this.leaseDuration := leaseDuration;
      ownedLeases := map[];
    }

    method AddLeasesToRenew(leases: seq<LeaseState>)
      modifies this
      ensures ownedLeases == Added(old(ownedLeases), leases)
    {
      var i := 0;
      while i < |leases|
        invariant 0 <= i <= |leases| && ownedLeases == Added(old(ownedLeases), leases[..i])
      {
        var l := leases[i];
        assert leases[..i + 1][..i] == leases[..i];
        i := i + 1;
        if l.lastIncrement.None? {
          continue;
        }
        if l.key !in ownedLeases {
          ownedLeases := ownedLeases[l.key := l];
        }
      }
      assert leases[..i] == leases;
    }

    method ClearHeldLeases()
      modifies this
      ensures ownedLeases == map[]
    {
      ownedLeases := map[];
    }

    method DropLease(l: LeaseState)
      modifies this
      ensures ownedLeases == old(ownedLeases) - {l.key}
    {
      if l.key in ownedLeases {
        ownedLeases := ownedLeases - {l.key};
      }
    }

    method ReplaceRenewedLease(l: LeaseState)
      modifies this
      ensures ownedLeases == old(ownedLeases)[l.key := l]
    {
      ownedLeases := ownedLeases[l.key := l];
    }

    /** `renewLease`, with the answer arriving before anything else happens: the held copy is
        replaced by one that matches the table again, or dropped. */
    method RenewLease(manager: LeaseManager, l: LeaseState, renewEvenIfExpired: bool, now: nat) returns (renewed: bool)
      requires manager.Valid()
      modifies this, manager
      ensures manager.Valid()
      ensures renewed == ((renewEvenIfExpired || !IsExpired(l, leaseDuration, now)) && old(manager.Passes(l)))
      ensures ownedLeases == if renewed then old(ownedLeases)[l.key := WithIncrementedCounter(l)] else old(ownedLeases) - {l.key}
      ensures manager.rows == if renewed then old(manager.rows)[l.key := Counted(old(manager.RowOf(l.key)))] else old(manager.rows)
      ensures renewed ==> Matches(manager.rows[l.key], WithIncrementedCounter(l))
    {
      hide IsExpired, Matches;
      if renewEvenIfExpired || !IsExpired(l, leaseDuration, now) {
        var outcome := manager.RenewLease(l);
        if outcome.Some? {
          ReplaceRenewedLease(outcome.value);
        } else {
          DropLease(l);
        }
        return outcome.Some?;
      } else {
        DropLease(l);
        return false;
      }
    }

    /** `renewLeases`, with nobody else writing: exactly the leases that had not expired and
        whose condition the table meets are still held, each with a counter that matches the
        row again, and nothing but the counters of their rows has changed. */
    method RenewLeases(manager: LeaseManager, now: nat)
      requires manager.Valid() && KeysOk(ownedLeases)
      modifies this, manager
      ensures manager.Valid()
      ensures Round(old(Picture(ownedLeases, manager.rows)), Picture(ownedLeases, manager.rows), leaseDuration, now)
    {
      hide IsExpired, Matches, WithIncrementedCounter, Renewed, Waiting;
      ghost var before := Picture(ownedLeases, manager.rows);
      var toRenew := ownedLeases;
      var keys := toRenew.Keys;
      StartsWaiting(before, leaseDuration, now);
      while keys != {}
        invariant manager.Valid() && keys <= before.owned.Keys && toRenew == before.owned
        invariant forall k: string :: k in keys ==> Waiting(before, Picture(ownedLeases, manager.rows), k)
        invariant forall k: string :: k !in keys ==> Renewed(before, Picture(ownedLeases, manager.rows), leaseDuration, now, k)
        decreases |keys|
      {
        var key :| key in keys;
        var l := toRenew[key];
        ghost var p := Picture(ownedLeases, manager.rows);
        var renewed := RenewLease(manager, l, false, now);
        ghost var p' := Picture(ownedLeases, manager.rows);
        OneRenewed(before, p, p', leaseDuration, now, key, renewed);
        forall k: string | k != key ensures k in keys ==> Waiting(before, p', k) {
          OthersAsBefore(before, p, p', leaseDuration, now, k);
        }
        forall k: string | k !in keys ensures Renewed(before, p', leaseDuration, now, k) {
          OthersAsBefore(before, p, p', leaseDuration, now, k);
        }
        keys := keys - {key};
      }
    }
  }

  /** The held leases and the rows of the table. */
  datatype Picture = Picture(owned: Held, rows: map<string, Row>)

  /** A row with a counter one higher. */
  function Counted(row: Row): Row {
    row.(counter := row.counter + 1)
  }

  /** Under key `k` the round of renewals has done its work: the lease is still held exactly
      if it had not expired and passed, its row is then counted up and matches it again, and
      otherwise the row is as it was. */
  predicate Renewed(before: Picture, after: Picture, duration: nat, now: nat, k: string) {
    && (k in after.owned <==> k in before.owned && !IsExpired(before.owned[k], duration, now)
                              && PassesIn(before.rows, before.owned[k]))
    && (k in after.owned ==> k in after.rows && after.owned[k] == WithIncrementedCounter(before.owned[k])
                             && after.rows[k] == Counted(RowIn(before.rows, k)) && Matches(after.rows[k], after.owned[k]))
    && (k !in after.owned ==> (k in after.rows <==> k in before.rows) && (k in before.rows ==> after.rows[k] == before.rows[k]))
  }

  /** Under key `k` nothing has been done yet. */
  predicate Waiting(before: Picture, now: Picture, k: string) {
    && k in before.owned && k in now.owned && now.owned[k] == before.owned[k]
    && (k in now.rows <==> k in before.rows) && (k in before.rows ==> now.rows[k] == before.rows[k])
    && before.owned[k].key == k
  }

  lemma {:induction false} StartsWaiting(before: Picture, duration: nat, now: nat)
    requires KeysOk(before.owned)
    ensures forall k: string :: k in before.owned ==> Waiting(before, before, k)
    ensures forall k: string :: k !in before.owned ==> Renewed(before, before, duration, now, k)
  {
    hide IsExpired, Matches, WithIncrementedCounter;
  }

  lemma {:induction false} OneRenewed(before: Picture, p: Picture, p': Picture, duration: nat, now: nat, key: string, renewed: bool)
    requires Waiting(before, p, key)
    requires var l := before.owned[key];
             && renewed == (!IsExpired(l, duration, now) && PassesIn(p.rows, l))
             && p'.owned == (if renewed then p.owned[key := WithIncrementedCounter(l)] else p.owned - {key})
             && p'.rows == (if renewed then p.rows[key := Counted(RowIn(p.rows, key))] else p.rows)
             && (renewed ==> Matches(p'.rows[key], WithIncrementedCounter(l)))
    ensures Renewed(before, p', duration, now, key)
  {
    hide IsExpired, Matches, WithIncrementedCounter;
  }

  /** Where nothing has changed, what was done or left to do stays so. */
  lemma {:induction false} OthersAsBefore(before: Picture, p: Picture, p': Picture, duration: nat, now: nat, k: string)
    requires (k in p.owned <==> k in p'.owned) && (k in p.owned ==> p.owned[k] == p'.owned[k])
    requires (k in p.rows <==> k in p'.rows) && (k in p.rows ==> p.rows[k] == p'.rows[k])
    ensures Waiting(before, p, k) ==> Waiting(before, p', k)
    ensures Renewed(before, p, duration, now, k) ==> Renewed(before, p', duration, now, k)
  {
    hide IsExpired, Matches, WithIncrementedCounter;
  }

  // ----- Rounds ------------------------------------------------------------------

  /** A round of renewals with nobody else writing has turned one picture into the next. */
  ghost predicate Round(before: Picture, after: Picture, duration: nat, now: nat) {
    forall k: string :: Renewed(before, after, duration, now, k)
  }

  /** Rounds at the given times, one after another. */
  ghost predicate Rounds(run: seq<Picture>, times: seq<nat>, duration: nat) {
    && |run| == |times| + 1 && KeysOk(run[0].owned)
    && forall i :: 0 <= i < |times| ==> Round(run[i], run[i + 1], duration, times[i])
  }

  /** A copy renewed `n` times: only its counter has changed, and not the time from which its
      age is measured. */
  function RenewedTimes(l: LeaseState, n: nat): LeaseState {
    if n == 0 then l else WithIncrementedCounter(RenewedTimes(l, n - 1))
  }

  lemma {:induction false} OnlyCounted(l: LeaseState, n: nat)
    ensures RenewedTimes(l, n) == l.(counter := if n == 0 then l.counter else RenewedTimes(l, n).counter)
    ensures n > 0 ==> RenewedTimes(l, n).counter == Some(n + match l.counter case None => 0 case Some(c) => c)
    ensures RenewedTimes(l, n).key == l.key && RenewedTimes(l, n).lastIncrement == l.lastIncrement
  {
    if n > 0 {
      OnlyCounted(l, n - 1);
    }
  }

  lemma {:induction false} SameAge(l: LeaseState, n: nat, duration: nat, asOf: nat)
    ensures IsExpired(RenewedTimes(l, n), duration, asOf) == IsExpired(l, duration, asOf)
  {
    OnlyCounted(l, n);
  }

  /** The lease had not expired at any of the times. */
  predicate NeverExpired(l: LeaseState, times: seq<nat>, duration: nat) {
    forall i :: 0 <= i < |times| ==> !IsExpired(l, duration, times[i])
  }

  /** Whatever the times: after the rounds a lease is held exactly if it passed at the start
      and had not expired at any of them by the time recorded at the start; it has then been
      counted up once a round, and matches its row. */
  lemma {:induction false} HeldAfterRounds(run: seq<Picture>, times: seq<nat>, duration: nat, k: string)
    requires Rounds(run, times, duration) && times != []
    ensures var first, last := run[0], run[|times|];
            && (k in last.owned <==> k in first.owned && PassesIn(first.rows, first.owned[k])
                                     && NeverExpired(first.owned[k], times, duration))
            && (k in last.owned ==> last.owned[k] == RenewedTimes(first.owned[k], |times|)
                                    && k in last.rows && Matches(last.rows[k], last.owned[k]))
  {
    hide IsExpired, Matches, WithIncrementedCounter, PassesIn;
    var n := |times| - 1;
    var first, before, last := run[0], run[n], run[n + 1];
    assert Renewed(before, last, duration, times[n], k);
    if n > 0 {
      HeldAfterRounds(run[..n + 1], times[..n], duration, k);
      if k in before.owned {
        OnlyCounted(first.owned[k], n);
        SameAge(first.owned[k], n, duration, times[n]);
        MatchPasses(before.rows, before.owned[k]);
      }
    }
    if k in first.owned {
      OneTimeMore(first.owned[k], times, duration);
    }
  }

  lemma {:induction false} MatchPasses(rows: map<string, Row>, l: LeaseState)
    requires l.key in rows && Matches(rows[l.key], l)
    ensures PassesIn(rows, l)
  {
  }

  lemma {:induction false} OneTimeMore(l: LeaseState, times: seq<nat>, duration: nat)
    requires times != []
    ensures var n := |times| - 1;
            NeverExpired(l, times, duration) <==> NeverExpired(l, times[..n], duration) && !IsExpired(l, duration, times[n])
  {
    hide IsExpired;
    var n := |times| - 1;
    forall i | 0 <= i < n ensures times[..n][i] == times[i] {
    }
    if NeverExpired(l, times[..n], duration) && !IsExpired(l, duration, times[n]) {
      forall i | 0 <= i < |times| ensures !IsExpired(l, duration, times[i]) {
        assert i < n ==> !IsExpired(l, duration, times[..n][i]);
      }
    }
  }

  /** The times are words that do not go back, and the lease was seen to change before. */
  predicate Orderly(l: LeaseState, times: seq<nat>) {
    && (forall i, j :: 0 <= i <= j < |times| ==> times[i] <= times[j] < TWO_64)
    && (l.lastIncrement.Some? && times != [] ==> l.lastIncrement.value <= times[0])
  }

  /** With orderly times, what has not expired at the last had not expired before. */
  lemma {:induction false} LastDecides(l: LeaseState, times: seq<nat>, duration: nat)
    requires Orderly(l, times) && times != []
    ensures NeverExpired(l, times, duration) <==> !IsExpired(l, duration, times[|times| - 1])
  {
    forall i | 0 <= i < |times| && !IsExpired(l, duration, times[|times| - 1]) ensures !IsExpired(l, duration, times[i]) {
      AgesGrow(l, times[i], times[|times| - 1]);
    }
  }

  lemma {:induction false} AgesGrow(l: LeaseState, early: nat, late: nat)
    requires l.lastIncrement.Some? ==> l.lastIncrement.value <= early
    requires early <= late < TWO_64
    ensures forall duration: nat :: !IsExpired(l, duration, late) ==> !IsExpired(l, duration, early)
  {
    if l.lastIncrement.Some? {
      var at := l.lastIncrement.value;
      assert Wrap(early - at) == early - at && Wrap(late - at) == late - at;
    }
  }

  /** Renewing does not keep a lease: the copy is counted up and its recorded time stays. A
      lease is still held after the rounds exactly if it passed at the start and, by the time
      recorded then, had not expired at the last round, however often it was renewed. */
  lemma {:induction false} RenewalKeepsNoLease(run: seq<Picture>, times: seq<nat>, duration: nat, k: string)
    requires Rounds(run, times, duration) && times != []
    requires k in run[0].owned ==> Orderly(run[0].owned[k], times)
    ensures k in run[|times|].owned
       <==> && k in run[0].owned && PassesIn(run[0].rows, run[0].owned[k])
            && !IsExpired(run[0].owned[k], duration, times[|times| - 1])
  {
    hide IsExpired, PassesIn, Matches;
    HeldAfterRounds(run, times, duration, k);
    if k in run[0].owned {
      LastDecides(run[0].owned[k], times, duration);
    }
  }
}
