/** What the decisions of `LeaseTaker` do to the balance of the leases: while every lease
    has an owner and none is expired, so that workers can only steal, and at the end of
    the module where there are expired leases to take. */
module Rebalancing {
  import opened Balance
  import opened Decimals
  import opened LeaseTaker
  import opened Leases
  import opened LeaseScans
  import opened Options

  /** Every lease is owned by one of the workers. */
  predicate OwnedAmong(all: LeaseMap, workers: seq<string>) {
    forall k <- all :: all[k].owner.Some? && all[k].owner.value in workers
  }

  /** No lease is expired at that time. */
  predicate NoneExpired(all: LeaseMap, duration: nat, asOf: nat) {
    forall k <- all :: !IsExpired(all[k], duration, asOf)
  }

  /** Where none is expired, the list of expired leases is empty. */
  lemma {:induction false} NothingToTakeOver(all: LeaseMap, expired: seq<LeaseState>, duration: nat, asOf: nat)
    requires ExpiredLeases(all, expired, duration, asOf) && NoneExpired(all, duration, asOf)
    ensures expired == []
  {
    hide IsExpired;
    SomeElement(expired);
  }

  lemma {:induction false} SomeElement<T>(s: seq<T>)
    ensures s == [] || exists x :: x in s
  {
    if s != [] {
      assert s[0] in s;
    }
  }

  lemma {:induction false} EmptyListIs(all: LeaseMap, duration: nat, asOf: nat)
    requires NoneExpired(all, duration, asOf)
    ensures ExpiredLeases(all, [], duration, asOf)
  {
    hide IsExpired;
  }

  predicate Distinct(workers: seq<string>) {
    forall i, j :: 0 <= i < j < |workers| ==> workers[i] != workers[j]
  }

  /** How many leases each of the workers holds. */
  function Loads(all: LeaseMap, workers: seq<string>): (loads: seq<nat>)
    ensures |loads| == |workers|
  {
    seq(|workers|, i requires 0 <= i < |workers| => |HeldBy(all, workers[i], {})|)
  }

  function HeldByAny(all: LeaseMap, workers: seq<string>): set<string> {
    set k | k in all && all[k].owner.Some? && all[k].owner.value in workers
  }

  function OwnersAmong(all: LeaseMap, workers: seq<string>): set<string> {
    set o | o in Owners(all, {}) && o in workers
  }

  /** The loads add up to the number of leases, and those that hold any are the owners. */
  lemma {:induction false} LoadsAddUp(all: LeaseMap, workers: seq<string>)
    requires Distinct(workers)
    ensures Sum(Loads(all, workers)) == |HeldByAny(all, workers)|
    ensures Holders(Loads(all, workers)) == |OwnersAmong(all, workers)|
  {
    hide HeldByAny, OwnersAmong, HeldBy;
    if workers == [] {
      NoWorkers(all);
    } else {
      var n := |workers| - 1;
      LoadsAddUp(all, workers[..n]);
      assert Loads(all, workers)[..n] == Loads(all, workers[..n]);
      OneMoreWorker(all, workers, n);
    }
  }

  lemma {:induction false} NoWorkers(all: LeaseMap)
    ensures HeldByAny(all, []) == {} && OwnersAmong(all, []) == {}
  {
  }

  lemma {:induction false} OneMoreWorker(all: LeaseMap, workers: seq<string>, n: nat)
    requires Distinct(workers) && |workers| == n + 1
    ensures |HeldByAny(all, workers)| == |HeldByAny(all, workers[..n])| + |HeldBy(all, workers[n], {})|
    ensures |OwnersAmong(all, workers)| == |OwnersAmong(all, workers[..n])| + if |HeldBy(all, workers[n], {})| > 0 then 1 else 0
  {
    hide HeldByAny, OwnersAmong, Owners, HeldBy, Distinct;
    var init, last := workers[..n], workers[n];
    OneMoreHolds(all, workers, n);
    HoldsMeansOwner(all, last);
    OneMoreOwns(all, workers, n);
  }

  lemma {:induction false} OneMoreHolds(all: LeaseMap, workers: seq<string>, n: nat)
    requires Distinct(workers) && |workers| == n + 1
    ensures HeldByAny(all, workers) == HeldByAny(all, workers[..n]) + HeldBy(all, workers[n], {})
    ensures HeldByAny(all, workers[..n]) !! HeldBy(all, workers[n], {})
  {
    assert workers == workers[..n] + [workers[n]];
    assert workers[n] !in workers[..n];
  }

  lemma {:induction false} OneMoreOwns(all: LeaseMap, workers: seq<string>, n: nat)
    requires Distinct(workers) && |workers| == n + 1
    ensures workers[n] !in OwnersAmong(all, workers[..n])
    ensures OwnersAmong(all, workers)
         == OwnersAmong(all, workers[..n]) + (if workers[n] in Owners(all, {}) then {workers[n]} else {})
  {
    hide Owners;
    assert workers == workers[..n] + [workers[n]];
    assert workers[n] !in workers[..n];
  }

  lemma {:induction false} HoldsMeansOwner(all: LeaseMap, o: string)
    ensures o in Owners(all, {}) <==> |HeldBy(all, o, {})| > 0
  {
    if o in Owners(all, {}) {
      var k :| k in all && k !in {} && all[k].owner == Some(o);
      assert k in HeldBy(all, o, {});
    } else {
      NoneHeld(all, o, {});
    }
  }

  lemma {:induction false} LoadsAddUpToAll(all: LeaseMap, workers: seq<string>)
    requires Distinct(workers) && OwnedAmong(all, workers)
    ensures Sum(Loads(all, workers)) == |all|
    ensures Holders(Loads(all, workers)) == |Owners(all, {})|
  {
    LoadsAddUp(all, workers);
    assert HeldByAny(all, workers) == all.Keys;
    forall o <- Owners(all, {}) ensures o in workers {
      var k :| k in all && k !in {} && all[k].owner == Some(o);
    }
    assert OwnersAmong(all, workers) == Owners(all, {});
  }

  /** A worker sees the owners, and itself. */
  lemma {:induction false} SeesWorkers(all: LeaseMap, workers: seq<string>, i: nat)
    requires Distinct(workers) && OwnedAmong(all, workers) && i < |workers|
    ensures CountsSize(all, workers[i], {}) == Seen(Loads(all, workers), i)
  {
    hide OwnedAmong;
    var self := workers[i];
    var counts := Counts(all, self, {});
    LoadsAddUpToAll(all, workers);
    HoldsMeansOwner(all, self);
    assert counts.Keys == Owners(all, {}) + {self};
    assert |counts| == |counts.Keys|;
    if self in Owners(all, {}) {
      assert counts.Keys == Owners(all, {});
    }
  }

  /** The most loaded worker that is seen is the most loaded of all. */
  lemma {:induction false} SeesMost(all: LeaseMap, workers: seq<string>, i: nat, victim: string) returns (v: nat)
    requires Distinct(workers) && OwnedAmong(all, workers) && i < |workers|
    requires IsMostLoaded(Counts(all, workers[i], {}), victim)
    ensures v < |workers| && workers[v] == victim
    ensures Loads(all, workers)[v] == Most(Loads(all, workers)) == Counts(all, workers[i], {})[victim]
  {
    var counts := Counts(all, workers[i], {});
    var loads := Loads(all, workers);
    if victim in Owners(all, {}) {
      var k :| k in all && k !in {} && all[k].owner == Some(victim);
    }
    v :| 0 <= v < |workers| && workers[v] == victim;
    MostIsMost(loads);
    forall j | 0 <= j < |loads| ensures loads[j] <= loads[v] {
      HoldsMeansOwner(all, workers[j]);
      if workers[j] in Owners(all, {}) {
        assert counts[workers[j]] <= counts[victim];
      }
    }
  }

  // ----- One decision ------------------------------------------------------------

  /** The leases, after `self` has taken some. */
  function After(all: LeaseMap, take: seq<LeaseState>, self: string): LeaseMap {
    map k | k in all :: if k in KeysOf(take) then all[k].(owner := Some(self)) else all[k]
  }

  /** Worker `self` wants nothing of a worker with `most` leases, or `take` is what it wants of `victim`. */
  ghost predicate Picks(all: LeaseMap, self: string, victim: string, maxSteal: nat, take: seq<LeaseState>) {
    var counts := Counts(all, self, {});
    && IsMostLoaded(counts, victim) && self in counts
    && StolenFrom(all, victim, Wanted(counts[self], counts[victim], |all|, CountsSize(all, self, {}), maxSteal), take)
  }

  lemma {:induction false} DecisionPicks(all: LeaseMap, self: string, maxSteal: nat, take: seq<LeaseState>)
    requires Decision(all, self, maxSteal, [], take)
    ensures self in Counts(all, self, {})
    ensures (take == [] && forall most: nat :: Wanted(Counts(all, self, {})[self], most, |all|, CountsSize(all, self, {}), maxSteal) == 0)
         || exists victim: string :: Picks(all, self, victim, maxSteal, take)
  {
    hide Target, StealCount, StolenFrom, Owners, HeldBy, Chosen, Picks;
    assert KeysOf([]) == {};
    hide KeysOf;
    var counts := Counts(all, self, {});
    var target := Target(|all|, CountsSize(all, self, {}), maxSteal);
    if all != map[] && counts[self] < target {
      assert |all| > 0;
      ChosenPicks(all, self, target, maxSteal, take);
    }
  }

  lemma {:induction false} ChosenPicks(all: LeaseMap, self: string, target: nat, maxSteal: nat, take: seq<LeaseState>)
    requires self in Counts(all, self, {}) && |all| > 0
    requires target == Target(|all|, CountsSize(all, self, {}), maxSteal) && Counts(all, self, {})[self] < target
    requires Chosen(all, Counts(all, self, {}), target, target - Counts(all, self, {})[self], maxSteal, take)
    ensures exists victim: string :: Picks(all, self, victim, maxSteal, take)
  {
    hide Target, StealCount, StolenFrom, Counts;
    var counts := Counts(all, self, {});
    var victim: string :| IsMostLoaded(counts, victim) &&
      StolenFrom(all, victim, StealCount(counts[victim], target, target - counts[self], maxSteal), take);
    assert Picks(all, self, victim, maxSteal, take);
  }

  /** With no lease expired, a decision takes as many leases as the load vector says. */
  lemma {:induction false} DecisionTakes(all: LeaseMap, workers: seq<string>, i: nat, maxSteal: nat, take: seq<LeaseState>)
    requires Distinct(workers) && OwnedAmong(all, workers) && i < |workers|
    requires Decision(all, workers[i], maxSteal, [], take)
    ensures |take| == Steals(Loads(all, workers), i, maxSteal)
    ensures take != [] ==> exists v: nat :: VictimIs(all, workers, i, v, maxSteal, take)
  {
    hide Decision, Wanted, StolenFrom, IsMostLoaded, Sum, Most, Seen, Distinct, OwnedAmong, Owners, Picks;
    var loads := Loads(all, workers);
    DecisionPicks(all, workers[i], maxSteal, take);
    LoadsAddUpToAll(all, workers);
    SeesWorkers(all, workers, i);
    if victim: string :| Picks(all, workers[i], victim, maxSteal, take) {
      var v := PickIsVictim(all, workers, i, victim, maxSteal, take);
    }
  }

  /** With no lease expired, a decision takes as many leases as the rules allow: within the
      even share of the leases among the workers the decider sees, and its limit on steals. */
  lemma {:induction false} DecisionIsFull(all: LeaseMap, workers: seq<string>, i: nat, v: nat, maxSteal: nat, even: nat, take: seq<LeaseState>)
    requires Distinct(workers) && OwnedAmong(all, workers) && i < |workers| && v < |workers| && all != map[]
    requires Decision(all, workers[i], maxSteal, [], take)
    requires forall j :: 0 <= j < |workers| ==> |HeldBy(all, workers[j], {})| <= |HeldBy(all, workers[v], {})|
    requires IsEvenShare(even, |all|, |Owners(all, {}) + {workers[i]}|)
    ensures StealsAllItMay(|HeldBy(all, workers[i], {})|, |HeldBy(all, workers[v], {})|,
                           Aim(even, |all|, |Owners(all, {}) + {workers[i]}|, maxSteal), maxSteal, |take|)
  {
    hide Decision, Wanted, Sum, Most, Seen, Distinct, OwnedAmong, Owners, StealsAllItMay, IsEvenShare;
    var loads := Loads(all, workers);
    DecisionTakes(all, workers, i, maxSteal, take);
    LoadsAddUpToAll(all, workers);
    SeesWorkers(all, workers, i);
    MostIsMost(loads);
    assert Counts(all, workers[i], {}).Keys == Owners(all, {}) + {workers[i]};
    assert |all| > 0;
    StealIsFull(loads[i], loads[v], |all|, CountsSize(all, workers[i], {}), maxSteal, even);
  }

  lemma {:induction false} PickIsVictim(all: LeaseMap, workers: seq<string>, i: nat, victim: string, maxSteal: nat, take: seq<LeaseState>)
    returns (v: nat)
    requires Distinct(workers) && OwnedAmong(all, workers) && i < |workers| && Picks(all, workers[i], victim, maxSteal, take)
    ensures |take| == Steals(Loads(all, workers), i, maxSteal)
    ensures take != [] ==> VictimIs(all, workers, i, v, maxSteal, take)
  {
    hide Wanted, StolenFrom, IsMostLoaded, Sum, Most, Seen, Distinct, OwnedAmong, Owners;
    var loads := Loads(all, workers);
    LoadsAddUpToAll(all, workers);
    SeesWorkers(all, workers, i);
    v := SeesMost(all, workers, i, victim);
    var n := Steals(loads, i, maxSteal);
    StolenIs(all, victim, n, take);
    if n > 0 {
      NeverFromItself(loads, i, v, maxSteal);
    }
  }

  lemma {:induction false} StolenIs(all: LeaseMap, victim: string, n: nat, take: seq<LeaseState>)
    requires StolenFrom(all, victim, n, take)
    ensures |take| == if |HeldBy(all, victim, {})| < n then |HeldBy(all, victim, {})| else n
    ensures AllHeld(all, victim, take) && OncePerKey(take)
  {
  }

  /** Worker `i` takes that many leases of the most loaded worker `v`. */
  predicate VictimIs(all: LeaseMap, workers: seq<string>, i: nat, v: nat, maxSteal: nat, take: seq<LeaseState>)
    requires i < |workers|
  {
    var loads := Loads(all, workers);
    && v < |workers| && v != i && loads[v] == Most(loads)
    && |take| == Steals(loads, i, maxSteal) <= loads[v]
    && AllHeld(all, workers[v], take) && OncePerKey(take)
  }

  lemma {:induction false} KeysCount(take: seq<LeaseState>)
    requires OncePerKey(take)
    ensures |KeysOf(take)| == |take|
  {
    if take == [] {
      assert KeysOf(take) == {};
    } else {
      var n := |take| - 1;
      KeysCount(take[..n]);
      assert take == take[..n] + [take[n]];
      assert KeysOf(take) == KeysOf(take[..n]) + {take[n].key};
      assert take[n].key !in KeysOf(take[..n]);
    }
  }

  lemma {:induction false} TakenHeld(all: LeaseMap, take: seq<LeaseState>, self: string, victim: string, o: string)
    requires AllHeld(all, victim, take) && victim != self
    ensures HeldBy(After(all, take, self), o, {})
         == if o == self then HeldBy(all, self, {}) + KeysOf(take)
            else if o == victim then HeldBy(all, victim, {}) - KeysOf(take)
            else HeldBy(all, o, {})
  {
    forall k | k in KeysOf(take) ensures k in all && all[k].owner == Some(victim) {
      var l :| l in take && l.key == k;
      assert l.key in HeldBy(all, victim, {});
    }
  }

  /** What a worker takes moves from its victim to itself, and nothing else moves. */
  lemma {:induction false} TakingIsStealing(all: LeaseMap, workers: seq<string>, i: nat, v: nat, maxSteal: nat, take: seq<LeaseState>)
    requires Distinct(workers) && OwnedAmong(all, workers) && i < |workers| && take != []
    requires VictimIs(all, workers, i, v, maxSteal, take)
    ensures var after := After(all, take, workers[i]);
            && OwnedAmong(after, workers)
            && Steal(Loads(all, workers), i, v, maxSteal, Loads(after, workers))
  {
    hide AllHeld, HeldBy, KeysOf, Steals, Most, After;
    var after := After(all, take, workers[i]);
    var loads, k := Loads(all, workers), |take|;
    forall j | 0 <= j < |workers|
      ensures Loads(after, workers)[j] == if j == i then loads[i] + k else if j == v then loads[v] - k else loads[j]
    {
      LoadAfter(all, take, workers[i], workers[v], workers[j]);
    }
    assert Loads(after, workers) == loads[i := loads[i] + k][v := loads[v] - k];
    StillOwned(all, workers, take, workers[i]);
  }

  lemma {:induction false} StillOwned(all: LeaseMap, workers: seq<string>, take: seq<LeaseState>, self: string)
    requires OwnedAmong(all, workers) && self in workers
    ensures OwnedAmong(After(all, take, self), workers)
  {
  }

  lemma {:induction false} LoadAfter(all: LeaseMap, take: seq<LeaseState>, self: string, victim: string, o: string)
    requires AllHeld(all, victim, take) && OncePerKey(take) && victim != self
    ensures |HeldBy(After(all, take, self), o, {})|
         == |HeldBy(all, o, {})| + if o == self then |take| else if o == victim then -|take| else 0
  {
    hide After, OncePerKey;
    KeysCount(take);
    TakenHeld(all, take, self, victim, o);
    assert forall key :: key in KeysOf(take) ==> key in HeldBy(all, victim, {});
    assert KeysOf(take) <= HeldBy(all, victim, {});
    assert HeldBy(all, self, {}) !! KeysOf(take);
  }

  // ----- Runs --------------------------------------------------------------------

  /** The same leases with the same owners. Counters and times may have changed: the owners
      go on renewing between two decisions. */
  predicate SameOwners(all: LeaseMap, other: LeaseMap) {
    all.Keys == other.Keys && forall k <- all :: all[k].owner == other[k].owner
  }

  lemma {:induction false} SameOwnersSameLoads(all: LeaseMap, other: LeaseMap, workers: seq<string>)
    requires SameOwners(all, other)
    ensures Loads(all, workers) == Loads(other, workers) && (OwnedAmong(all, workers) <==> OwnedAmong(other, workers))
  {
    forall w ensures HeldBy(all, w, {}) == HeldBy(other, w, {}) {
    }
  }

  /** Some worker decides on the current leases and the expired ones among them, and takes
      at least one. */
  ghost predicate Step(all: LeaseMap, workers: seq<string>, maxSteal: nat, duration: nat, asOf: nat, after: LeaseMap) {
    exists i: nat, expired: seq<LeaseState>, take: seq<LeaseState> :: i < |workers| && take != []
      && ExpiredLeases(all, expired, duration, asOf) && Decision(all, workers[i], maxSteal, expired, take)
      && SameOwners(After(all, take, workers[i]), after)
  }

  /** A run of decisions at the given times, with no lease expired at any of them. */
  ghost predicate Run(run: seq<LeaseMap>, times: seq<nat>, workers: seq<string>, maxSteal: nat, duration: nat) {
    && run != [] && |times| == |run| - 1 && OwnedAmong(run[0], workers)
    && forall t :: 0 <= t < |run| - 1 ==>
         NoneExpired(run[t], duration, times[t]) && Step(run[t], workers, maxSteal, duration, times[t], run[t + 1])
  }

  lemma {:induction false} StepSteals(all: LeaseMap, workers: seq<string>, maxSteal: nat, duration: nat, asOf: nat, after: LeaseMap)
    requires Distinct(workers) && OwnedAmong(all, workers)
    requires NoneExpired(all, duration, asOf) && Step(all, workers, maxSteal, duration, asOf, after)
    ensures OwnedAmong(after, workers) && after.Keys == all.Keys
    ensures SomeSteal(Loads(all, workers), maxSteal, Loads(after, workers))
  {
    hide Decision, VictimIs, OwnedAmong, Loads, Steal, Distinct, NoneExpired, ExpiredLeases;
    var i: nat, expired: seq<LeaseState>, take: seq<LeaseState> :| i < |workers| && take != []
      && ExpiredLeases(all, expired, duration, asOf) && Decision(all, workers[i], maxSteal, expired, take)
      && SameOwners(After(all, take, workers[i]), after);
    NothingToTakeOver(all, expired, duration, asOf);
    DecisionTakes(all, workers, i, maxSteal, take);
    var v: nat :| VictimIs(all, workers, i, v, maxSteal, take);
    TakingIsStealing(all, workers, i, v, maxSteal, take);
    SameOwnersSameLoads(After(all, take, workers[i]), after, workers);
  }

  /** Rebalancing ends: a run in which every step takes something is no longer than the sum
      of the squared loads it began with. */
  lemma {:induction false} RunsEnd(run: seq<LeaseMap>, times: seq<nat>, workers: seq<string>, maxSteal: nat, duration: nat)
    requires Distinct(workers) && Run(run, times, workers, maxSteal, duration)
    ensures OwnedAmong(run[|run| - 1], workers) && run[|run| - 1].Keys == run[0].Keys
    ensures |run| - 1 + Squares(Loads(run[|run| - 1], workers)) <= Squares(Loads(run[0], workers))
    decreases |run|
  {
    hide Step, NoneExpired, OwnedAmong, Distinct, Loads, Squares, SomeSteal;
    if |run| > 1 {
      var t := |run| - 2;
      RunsEnd(run[..t + 1], times[..t], workers, maxSteal, duration);
      assert Step(run[t], workers, maxSteal, duration, times[t], run[t + 1]);
      StepSteals(run[t], workers, maxSteal, duration, times[t], run[t + 1]);
      StealShrinks(Loads(run[t], workers), maxSteal, Loads(run[t + 1], workers));
    }
  }

  /** Each worker may decide to take nothing, on the leases and the expired ones among them. */
  ghost predicate AtRest(all: LeaseMap, workers: seq<string>, maxSteal: nat, duration: nat, asOf: nat) {
    forall i, expired {:trigger Decision(all, workers[i], maxSteal, expired, [])} ::
      0 <= i < |workers| && ExpiredLeases(all, expired, duration, asOf) ==> Decision(all, workers[i], maxSteal, expired, [])
  }

  /** Where each worker may take nothing, none can take anything. */
  lemma {:induction false} RestIsForced(all: LeaseMap, workers: seq<string>, maxSteal: nat, duration: nat, asOf: nat,
                                        i: nat, expired: seq<LeaseState>, take: seq<LeaseState>)
    requires Distinct(workers) && OwnedAmong(all, workers) && i < |workers|
    requires NoneExpired(all, duration, asOf) && AtRest(all, workers, maxSteal, duration, asOf)
    requires ExpiredLeases(all, expired, duration, asOf) && Decision(all, workers[i], maxSteal, expired, take)
    ensures take == []
  {
    hide Decision, ExpiredLeases, NoneExpired, VictimIs, OwnedAmong, Distinct, Loads, Steals;
    NothingToTakeOver(all, expired, duration, asOf);
    assert Decision(all, workers[i], maxSteal, [], []);
    DecisionTakes(all, workers, i, maxSteal, []);
    DecisionTakes(all, workers, i, maxSteal, take);
  }

  /** Rebalancing ends balanced: when no lease is expired and no worker's decision takes
      anything, all loads differ by at most one, if the limit on steals times the workers
      reaches the leases but one. */
  lemma {:induction false} RestIsBalanced(all: LeaseMap, workers: seq<string>, maxSteal: nat, duration: nat, asOf: nat)
    requires Distinct(workers) && OwnedAmong(all, workers)
    requires NoneExpired(all, duration, asOf) && AtRest(all, workers, maxSteal, duration, asOf)
    requires |workers| == 1 || |all| <= |workers| * maxSteal + 1
    ensures Balanced(Loads(all, workers))
  {
    hide Decision, NoneExpired, Balanced, Steals;
    EmptyListIs(all, duration, asOf);
    var loads := Loads(all, workers);
    forall i: nat | i < |loads| ensures Steals(loads, i, maxSteal) == 0 {
      assert Decision(all, workers[i], maxSteal, [], []);
      DecisionTakes(all, workers, i, maxSteal, []);
    }
    LoadsAddUpToAll(all, workers);
    QuietIsBalanced(loads, maxSteal);
  }

  // ----- Exactly when it ends balanced -------------------------------------------

  /** The key is the decimal text of a number in the range. */
  ghost predicate IsNumbered(key: string, from: nat, to: nat) {
    exists i: nat :: from <= i < to && Decimal(i) == key
  }

  /** The decimal texts of the numbers in a range. */
  ghost function KeysFrom(from: nat, to: nat): (keys: set<string>)
    requires from <= to
    ensures |keys| == to - from
    ensures forall k :: k in keys <==> IsNumbered(k, from, to)
  {
    if from == to then {}
    else
      NextKey(from, to);
      KeysFrom(from, to - 1) + {Decimal(to - 1)}
  }

  lemma {:induction false} NextKey(from: nat, to: nat)
    requires from < to
    ensures !IsNumbered(Decimal(to - 1), from, to - 1)
    ensures forall k :: IsNumbered(k, from, to) <==> IsNumbered(k, from, to - 1) || k == Decimal(to - 1)
  {
    if i: nat :| from <= i < to - 1 && Decimal(i) == Decimal(to - 1) {
      DecimalInjective(i, to - 1);
    }
    forall k ensures IsNumbered(k, from, to) <==> IsNumbered(k, from, to - 1) || k == Decimal(to - 1) {
      if i: nat :| from <= i < to && Decimal(i) == k {
        assert i < to - 1 ==> IsNumbered(k, from, to - 1);
      }
      if i: nat :| from <= i < to - 1 && Decimal(i) == k {
        assert from <= i < to;
      }
      if k == Decimal(to - 1) {
        assert from <= to - 1 < to;
      }
    }
  }

  lemma {:induction false} RangesApart(a: nat, b: nat, c: nat)
    requires a <= b <= c
    ensures KeysFrom(a, b) !! KeysFrom(b, c)
  {
    forall k | k in KeysFrom(a, b) && k in KeysFrom(b, c) ensures false {
      var i: nat :| a <= i < b && Decimal(i) == k;
      var j: nat :| b <= j < c && Decimal(j) == k;
      DecimalInjective(i, j);
    }
  }

  lemma {:induction false} RangesJoin(a: nat, b: nat, c: nat)
    requires a <= b <= c
    ensures KeysFrom(a, b) + KeysFrom(b, c) == KeysFrom(a, c)
  {
    hide KeysFrom, Decimal;
    forall k ensures IsNumbered(k, a, c) <==> IsNumbered(k, a, b) || IsNumbered(k, b, c) {
      if i: nat :| a <= i < c && Decimal(i) == k {
        assert if i < b then IsNumbered(k, a, b) else IsNumbered(k, b, c);
      }
      if i: nat :| a <= i < b && Decimal(i) == k {
        assert a <= i < c;
      }
      if i: nat :| b <= i < c && Decimal(i) == k {
        assert a <= i < c;
      }
    }
    hide IsNumbered;
  }

  /** A lease whose counter was seen to change at that time. */
  function OwnedLease(key: string, owner: string, at: nat): LeaseState {
    LeaseState(key, Some(owner), None, Some(at), Some(0), None, None, Some(0), {})
  }

  lemma {:induction false} JustRenewed(key: string, owner: string, duration: nat, at: nat)
    ensures !IsExpired(OwnedLease(key, owner, at), duration, at)
  {
  }

  /** A table with leases of these keys for one more worker. */
  function WithMore(before: LeaseMap, keys: set<string>, owner: string, at: nat): (all: LeaseMap)
    ensures all.Keys == before.Keys + keys
  {
    before + (map k | k in keys :: OwnedLease(k, owner, at))
  }

  /** The leases added are well formed and not expired. */
  lemma {:induction false} MoreAreLive(before: LeaseMap, keys: set<string>, owner: string, duration: nat, at: nat)
    requires KeysOk(before) && NoneExpired(before, duration, at)
    ensures KeysOk(WithMore(before, keys, owner, at)) && NoneExpired(WithMore(before, keys, owner, at), duration, at)
  {
    hide IsExpired;
    var all := WithMore(before, keys, owner, at);
    forall k <- all ensures !IsExpired(all[k], duration, at) {
      JustRenewed(k, owner, duration, at);
    }
  }

  /** There is a table in which the workers hold the given numbers of leases, none expired. */
  lemma {:induction false} TableFor(workers: seq<string>, loads: seq<nat>, duration: nat, at: nat) returns (all: LeaseMap)
    requires |loads| == |workers| && Distinct(workers)
    ensures KeysOk(all) && NoneExpired(all, duration, at)
    ensures all.Keys == KeysFrom(0, Sum(loads)) && OwnedAmong(all, workers) && Loads(all, workers) == loads
  {
    if workers == [] {
      all := map[];
      assert all.Keys == KeysFrom(0, Sum(loads));
    } else {
      var n := |workers| - 1;
      var before := TableFor(workers[..n], loads[..n], duration, at);
      all := TableForOneMore(before, workers, loads, duration, at);
    }
  }

  lemma {:induction false} TableForOneMore(before: LeaseMap, workers: seq<string>, loads: seq<nat>, duration: nat, at: nat) returns (all: LeaseMap)
    requires |loads| == |workers| > 0 && Distinct(workers) && KeysOk(before) && NoneExpired(before, duration, at)
    requires var n := |workers| - 1;
             && before.Keys == KeysFrom(0, Sum(loads[..n]))
             && OwnedAmong(before, workers[..n]) && Loads(before, workers[..n]) == loads[..n]
    ensures KeysOk(all) && NoneExpired(all, duration, at)
    ensures all.Keys == KeysFrom(0, Sum(loads)) && OwnedAmong(all, workers) && Loads(all, workers) == loads
  {
    hide WithMore, HeldBy, KeysFrom, IsNumbered, Decimal, OwnedAmong, KeysOk, NoneExpired;
    var n := |workers| - 1;
    var from := Sum(loads[..n]);
    var keys := KeysFrom(from, from + loads[n]);
    NextRange(from, loads[n]);
    all := WithMore(before, keys, workers[n], at);
    MoreAreLive(before, keys, workers[n], duration, at);
    OneMoreAmong(before, workers, keys, at);
    forall j | 0 <= j <= n ensures |HeldBy(all, workers[j], {})| == loads[j] {
      OneMoreOwner(before, workers, n, keys, at, j);
      assert j < n ==> |HeldBy(before, workers[j], {})| == Loads(before, workers[..n])[j] == loads[j];
    }
  }

  /** The keys of one more worker come after those of the workers before it. */
  lemma {:induction false} NextRange(from: nat, more: nat)
    ensures KeysFrom(0, from) !! KeysFrom(from, from + more)
    ensures KeysFrom(0, from) + KeysFrom(from, from + more) == KeysFrom(0, from + more)
  {
    RangesApart(0, from, from + more);
    RangesJoin(0, from, from + more);
  }

  lemma {:induction false} OneMoreAmong(before: LeaseMap, workers: seq<string>, keys: set<string>, at: nat)
    requires |workers| > 0 && OwnedAmong(before, workers[..|workers| - 1])
    ensures OwnedAmong(WithMore(before, keys, workers[|workers| - 1], at), workers)
  {
    var n := |workers| - 1;
    assert workers == workers[..n] + [workers[n]];
  }

  /** The leases added for one more worker are all it has, and nobody else gets any. */
  lemma {:induction false} OneMoreOwner(before: LeaseMap, workers: seq<string>, n: nat, keys: set<string>, at: nat, j: nat)
    requires Distinct(workers) && |workers| == n + 1 && j <= n && OwnedAmong(before, workers[..n]) && before.Keys !! keys
    ensures HeldBy(WithMore(before, keys, workers[n], at), workers[j], {}) == if j == n then keys else HeldBy(before, workers[j], {})
  {
    forall k | k in before && j == n ensures before[k].owner != Some(workers[n]) {
      var o := before[k].owner.value;
      var i :| 0 <= i < n && workers[..n][i] == o;
      assert workers[i] == o;
    }
  }

  /** A worker of which the load vector says that it steals nothing may decide to take nothing. */
  lemma {:induction false} QuietDecides(all: LeaseMap, workers: seq<string>, i: nat, maxSteal: nat)
    requires Distinct(workers) && OwnedAmong(all, workers) && i < |workers|
    requires Steals(Loads(all, workers), i, maxSteal) == 0
    ensures Decision(all, workers[i], maxSteal, [], [])
  {
    hide Target, StealCount, Sum, Most, Seen, Owners, Chosen, IsMostLoaded, HeldBy, Distinct, OwnedAmong, Holders;
    var self := workers[i];
    var counts := Counts(all, self, {});
    assert KeysOf([]) == {} && self in counts;
    hide KeysOf;
    LoadsAddUpToAll(all, workers);
    SeesWorkers(all, workers, i);
    var target := Target(|all|, CountsSize(all, self, {}), maxSteal);
    if all != map[] && counts[self] < target {
      assert |all| > 0;
      var victim := SomeMostLoaded(all, workers, i);
      var v := SeesMost(all, workers, i, victim);
      ChosenNothing(all, counts, target, target - counts[self], maxSteal, victim);
    }
  }

  lemma {:induction false} ChosenNothing(all: LeaseMap, counts: map<string, nat>, target: nat, needed: nat, maxSteal: nat, victim: string)
    requires IsMostLoaded(counts, victim) && StealCount(counts[victim], target, needed, maxSteal) == 0
    ensures victim in counts && Chosen(all, counts, target, needed, maxSteal, [])
  {
    hide StealCount;
    assert StolenFrom(all, victim, 0, []);
  }

  lemma {:induction false} SomeMostLoaded(all: LeaseMap, workers: seq<string>, i: nat) returns (victim: string)
    requires Distinct(workers) && OwnedAmong(all, workers) && i < |workers| && |all| > 0
    ensures IsMostLoaded(Counts(all, workers[i], {}), victim)
  {
    var loads := Loads(all, workers);
    LoadsAddUpToAll(all, workers);
    SumAtMost(loads);
    MostIsMost(loads);
    var v :| 0 <= v < |loads| && loads[v] == Most(loads);
    assert Most(loads) == 0 ==> Holders(loads) * Most(loads) == 0;
    victim := workers[v];
    HoldsMeansOwner(all, victim);
    forall o <- Counts(all, workers[i], {}) ensures |HeldBy(all, o, {})| <= loads[v] {
      if o in Owners(all, {}) {
        var k :| k in all && k !in {} && all[k].owner == Some(o);
      }
      var j :| 0 <= j < |workers| && workers[j] == o;
      assert loads[j] <= loads[v];
    }
  }

  /** A table of that many leases, each known under its key and owned by a worker, none
      expired, on which no worker's decision takes anything. */
  ghost predicate Resting(all: LeaseMap, workers: seq<string>, leases: nat, maxSteal: nat, duration: nat, asOf: nat) {
    && KeysOk(all) && OwnedAmong(all, workers) && |all| == leases && NoneExpired(all, duration, asOf)
    && AtRest(all, workers, maxSteal, duration, asOf)
  }

  /** Rebalancing ends balanced, for every table of that many leases, exactly if there is one
      worker or the limit on steals times the workers reaches the leases but one. Otherwise
      there is a table on which no worker's decision takes anything and which is not balanced,
      whatever the lease duration and the time. */
  lemma {:induction false} RestIsBalancedExactlyIf(workers: seq<string>, leases: nat, maxSteal: nat, duration: nat, asOf: nat)
    requires Distinct(workers) && workers != []
    ensures (forall all: LeaseMap :: Resting(all, workers, leases, maxSteal, duration, asOf) ==> Balanced(Loads(all, workers)))
       <==> |workers| == 1 || leases <= |workers| * maxSteal + 1
  {
    hide AtRest, Balanced, NoneExpired, Distinct, OwnedAmong, Loads;
    if |workers| == 1 || leases <= |workers| * maxSteal + 1 {
      forall all: LeaseMap | Resting(all, workers, leases, maxSteal, duration, asOf) ensures Balanced(Loads(all, workers)) {
        RestIsBalanced(all, workers, maxSteal, duration, asOf);
      }
    } else {
      var all := StuckTable(workers, leases, maxSteal, duration, asOf);
    }
  }

  /** The table on which rebalancing is stuck. */
  lemma {:induction false} StuckTable(workers: seq<string>, leases: nat, maxSteal: nat, duration: nat, asOf: nat) returns (all: LeaseMap)
    requires Distinct(workers) && |workers| >= 2 && leases > |workers| * maxSteal + 1
    ensures Resting(all, workers, leases, maxSteal, duration, asOf) && !Balanced(Loads(all, workers))
  {
    hide Decision, Balanced, Steals, Stuck, NoneExpired, ExpiredLeases, Distinct, OwnedAmong, KeysOk, KeysFrom;
    var n := |workers|;
    assert n * maxSteal == maxSteal * n == maxSteal * (n - 1) + maxSteal;
    StuckIsQuiet(n, leases, maxSteal);
    var loads := Stuck(n, leases, maxSteal);
    all := TableFor(workers, loads, duration, asOf);
    assert |all| == |all.Keys|;
    forall i, expired | 0 <= i < n && ExpiredLeases(all, expired, duration, asOf)
      ensures Decision(all, workers[i], maxSteal, expired, [])
    {
      NothingToTakeOver(all, expired, duration, asOf);
      assert Steals(Loads(all, workers), i, maxSteal) == 0;
      QuietDecides(all, workers, i, maxSteal);
    }
  }

  // ----- Expired leases ----------------------------------------------------------

  lemma {:induction false} SomeOfOnce(s: seq<LeaseState>, r: seq<LeaseState>)
    requires OncePerKey(s) && multiset(r) <= multiset(s)
    ensures OncePerKey(r) && KeysOf(r) <= KeysOf(s)
  {
    forall i | 0 <= i < |r| ensures r[i] in s {
      assert r[i] in multiset(r);
    }
    forall i, j | 0 <= i < j < |r| ensures r[i].key != r[j].key {
      OnceIsOnce(s, r[i]);
      if r[i].key == r[j].key {
        Twice(r, i, j);
      }
    }
  }

  /** What it takes comes on top of what it holds. */
  lemma {:induction false} TakenOnTop(all: LeaseMap, self: string, keys: set<string>, take: seq<LeaseState>)
    requires OncePerKey(take) && KeysOf(take) <= keys <= all.Keys
    ensures |HeldBy(After(all, take, self), self, keys - KeysOf(take))| == |HeldBy(all, self, keys)| + |take|
  {
    KeysCount(take);
    var before, after := HeldBy(all, self, keys), HeldBy(After(all, take, self), self, keys - KeysOf(take));
    hide KeysOf;
    assert after == before + KeysOf(take);
    assert before !! KeysOf(take);
  }

  /** Where leases are expired, a worker below what it aims for takes of them and of no
      others, in whatever order they are shuffled: it reaches its aim, or takes them all. */
  lemma {:induction false} ExpiredAreTaken(all: LeaseMap, self: string, maxSteal: nat, duration: nat, asOf: nat,
                                           expired: seq<LeaseState>, take: seq<LeaseState>, even: nat)
    requires ExpiredLeases(all, expired, duration, asOf) && expired != [] && Decision(all, self, maxSteal, expired, take)
    requires IsEvenShare(even, |all|, |Owners(all, KeysOf(expired)) + {self}|)
    ensures var keys := KeysOf(expired);
            var aim := Aim(even, |all|, |Owners(all, keys) + {self}|, maxSteal);
            var held, held' := |HeldBy(all, self, keys)|, |HeldBy(After(all, take, self), self, keys - KeysOf(take))|;
            && OncePerKey(take) && KeysOf(take) <= keys && held' == held + |take|
            && (if held >= aim then take == [] else held' <= aim && (held' == aim || KeysOf(take) == keys))
  {
    hide IsExpired, Target, Aim, IsEvenShare, Owners, HeldBy;
    var keys := KeysOf(expired);
    assert expired[0] in expired && expired[0].key in all;
    assert Counts(all, self, keys).Keys == Owners(all, keys) + {self};
    TargetIsAim(even, |all|, CountsSize(all, self, keys), maxSteal);
    if take == [] {
      assert multiset(take) <= multiset(expired);
    }
    SomeOfOnce(expired, take);
    assert keys <= all.Keys;
    TakenOnTop(all, self, keys, take);
    if |take| == |expired| {
      KeysCount(take);
      KeysCount(expired);
      SubsetAll(KeysOf(take), keys);
    }
  }

  lemma {:induction false} SubsetAll<T>(a: set<T>, b: set<T>)
    requires a <= b && |a| == |b|
    ensures a == b
  {
    assert b == a + (b - a);
    assert |b| == |a| + |b - a|;
  }
}
