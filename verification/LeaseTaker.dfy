/** `LeaseTaker`: which leases a worker takes, given what its scans of the table showed. */
module LeaseTaker {
  import opened Balance
  import opened Leases
  import opened LeaseScans
  import opened Options

  /** Every lease is known under its own key. */
  predicate KeysOk(all: LeaseMap) {
    forall k <- all :: all[k].key == k
  }

  /** The keys of the leases of a worker, apart from `expired` ones. */
  function HeldBy(all: LeaseMap, owner: string, expired: set<string>): set<string> {
    set k | k in all && k !in expired && all[k].owner == Some(owner)
  }

  /** The owners of leases that are not expired. */
  function Owners(all: LeaseMap, expired: set<string>): set<string> {
    set k | k in all && k !in expired && all[k].owner.Some? :: all[k].owner.value
  }

  /** How many leases each worker holds, as worker `self` sees it. */
  function Counts(all: LeaseMap, self: string, expired: set<string>): map<string, nat> {
    map o | o in Owners(all, expired) + {self} :: |HeldBy(all, o, expired)|
  }

  function KeysOf(leases: seq<LeaseState>): set<string> {
    set l | l in leases :: l.key
  }

  predicate IsMostLoaded(counts: map<string, nat>, w: string) {
    w in counts && forall o <- counts :: counts[o] <= counts[w]
  }

  /** `n` leases of `victim`, or all it has if they are fewer. */
  predicate StolenFrom(all: LeaseMap, victim: string, n: nat, steal: seq<LeaseState>) {
    && |steal| == (if |HeldBy(all, victim, {})| < n then |HeldBy(all, victim, {})| else n)
    && (forall i :: 0 <= i < |steal| ==> steal[i].key in HeldBy(all, victim, {}) && all[steal[i].key] == steal[i])
    && OncePerKey(steal)
  }

  /** The leases that may be stolen: from one of the most loaded workers. */
  ghost predicate Chosen(all: LeaseMap, counts: map<string, nat>, target: nat, needed: nat, maxSteal: nat, steal: seq<LeaseState>) {
    if counts == map[] then steal == []
    else exists victim: string :: IsMostLoaded(counts, victim)
           && StolenFrom(all, victim, StealCount(counts[victim], target, needed, maxSteal), steal)
  }

  /** The list has each expired lease once, in some order, and no other. */
  ghost predicate ExpiredLeases(all: LeaseMap, expired: seq<LeaseState>, duration: nat, asOf: nat) {
    && OncePerKey(expired)
    && forall l :: l in expired <==> l.key in all && all[l.key] == l && IsExpired(l, duration, asOf)
  }

  /** What `computeLeasesToTake` decides: nothing if the worker has its target; otherwise
      expired leases if there are any, and only else those of a most loaded worker. */
  ghost predicate Decision(all: LeaseMap, self: string, maxSteal: nat, expired: seq<LeaseState>, take: seq<LeaseState>) {
    var counts := Counts(all, self, KeysOf(expired));
    if all == map[] then take == []
    else
      var target, own := Target(|all|, CountsSize(all, self, KeysOf(expired)), maxSteal), counts[self];
      if own >= target then take == []
      else if expired != [] then
        |take| == (if |expired| < target - own then |expired| else target - own) && multiset(take) <= multiset(expired)
      else Chosen(all, counts, target, target - own, maxSteal, take)
  }

  function CountsSize(all: LeaseMap, self: string, expired: set<string>): (n: nat)
    ensures n > 0
  {
    assert self in Counts(all, self, expired);
    |Counts(all, self, expired)|
  }

  /** `insertOrIncrement`. */
  function InsertOrIncrement(m: map<string, nat>, key: string, amount: nat): map<string, nat> {
    m[key := (if key in m then m[key] else 0) + amount]
  }

  /** The same elements in another order. */
  method RandomShuffle(s: seq<LeaseState>) returns (r: seq<LeaseState>)
    ensures multiset(r) == multiset(s) && |r| == |s|
  {
    r := s;
  }

  class LeaseTaker {
    const workerID: string
    const leaseDuration: nat
    const maxLeasesToStealAtOnce: nat
    var lastScanTime: Option<nat>
    var allLeases: LeaseMap
    ghost var history: seq<Scan>

    /** What is known is what the scans so far showed. */
    ghost predicate Valid()
      reads this
    {
      && allLeases == AfterScans(history) && KeysOk(allLeases)
      && lastScanTime == Some(if history == [] then 0 else history[|history| - 1].at)
    }

    constructor (workerID: string, leaseDuration: nat, maxLeasesToStealAtOnce: nat)
      ensures Valid() && history == []
      ensures this.workerID == workerID && this.leaseDuration == leaseDuration
      ensures this.maxLeasesToStealAtOnce == maxLeasesToStealAtOnce
    {
      this.workerID, this.leaseDuration, this.maxLeasesToStealAtOnce := workerID, leaseDuration, maxLeasesToStealAtOnce;
      lastScanTime, allLeases, history := Some(0), map[], [];
    }

    /** The removal loop of `updateAllLeases`. */
    method RemoveAll(keys: set<string>)
      modifies this`allLeases
      ensures allLeases == old(allLeases) - keys
    {
      var gone := keys;
      while gone != {}
        invariant gone <= keys && allLeases == old(allLeases) - (keys - gone)
        decreases |gone|
      {
        var key :| key in gone;
        allLeases := allLeases - {key};
        gone := gone - {key};
      }
    }

    /** `updateAllLeases`, once the scan has returned. */
    method UpdateAllLeases(scan: seq<LeaseState>, now: nat)
      requires Valid()
      modifies this
      ensures Valid() && history == old(history) + [Scan(scan, now)]
      ensures allLeases == AfterScan(old(allLeases), scan, now)
    {
      hide MergeAll, InScan;
      lastScanTime := Some(now);
      MergeNone(allLeases, scan, now);
      var notUpdated := allLeases.Keys;
      var i := 0;
      while i < |scan|
        invariant 0 <= i <= |scan|
        invariant lastScanTime == Some(now) && history == old(history)
        invariant allLeases == MergeAll(old(allLeases), scan[..i], now) && KeysOk(allLeases)
        invariant forall k :: k in allLeases ==> (k in notUpdated <==> InScan(scan[..i], k).None?)
        invariant notUpdated <= allLeases.Keys
      {
        var newLease := scan[i];
        notUpdated := notUpdated - {newLease.key};
        var oldLease := FindOption(allLeases, newLease.key);
        var replaced := newLease;
        if oldLease.Some? {
          if oldLease.value.counter == newLease.counter {
            replaced := newLease.(lastIncrement := oldLease.value.lastIncrement);
          } else {
            replaced := newLease.(lastIncrement := lastScanTime);
          }
        } else {
          if newLease.owner.Some? {
            replaced := newLease.(lastIncrement := lastScanTime);
          } else {
            replaced := newLease.(lastIncrement := None);
          }
        }
        MergeNext(old(allLeases), scan, i, now);
        allLeases := allLeases[newLease.key := replaced];
        forall k <- allLeases ensures k in notUpdated <==> InScan(scan[..i + 1], k).None? {
          InScanNext(scan, i, k);
        }
        i := i + 1;
      }
      assert scan[..i] == scan;
      RemoveAll(notUpdated);
      history := history + [Scan(scan, now)];
      assert history[..|history| - 1] == old(history);
    }

    /** `getExpiredLeases`: each expired lease once, in some order. */
    method GetExpiredLeases() returns (result: seq<LeaseState>)
      requires Valid()
      ensures ExpiredLeases(allLeases, result, leaseDuration, AsOf())
    {
      hide IsExpired;
      result := [];
      var asOfTime := 0;
      if lastScanTime.Some? {
        asOfTime := lastScanTime.value;
      }
      var todo := allLeases.Keys;
      while todo != {}
        invariant todo <= allLeases.Keys && OncePerKey(result)
        invariant forall l :: l in result <==> l.key in allLeases && l.key !in todo && allLeases[l.key] == l && IsExpired(l, leaseDuration, asOfTime)
        decreases |todo|
      {
        var key :| key in todo;
        todo := todo - {key};
        var lease := allLeases[key];
        if IsExpired(lease, leaseDuration, asOfTime) {
          result := result + [lease];
        }
      }
    }

    /** The time of the last scan. */
    function AsOf(): nat
      reads this
    {
      match lastScanTime case Some(t) => t case None => 0
    }

    /** `computeLeaseCounts`. */
    method ComputeLeaseCounts(expired: set<string>) returns (counts: map<string, nat>)
      requires KeysOk(allLeases)
      ensures counts == Counts(allLeases, workerID, expired)
    {
      hide Tally, Counts, KeysOk, InsertOrIncrement;
      counts := map[];
      var todo := allLeases.Keys;
      NoneLeft(allLeases, expired + todo);
      while todo != {}
        invariant todo <= allLeases.Keys && counts == Tally(allLeases, expired + todo)
        decreases |todo|
      {
        var key :| key in todo;
        CountOne(allLeases, key, expired, expired + todo, expired + (todo - {key}));
        todo := todo - {key};
        if key !in expired {
          var owner := allLeases[key].owner;
          if owner.Some? {
            counts := InsertOrIncrement(counts, owner.value, 1);
          }
        }
      }
      assert expired + todo == expired;
      CountsAreTally(allLeases, workerID, expired);
      if FindOption(counts, workerID).None? {
        counts := counts[workerID := 0];
      }
    }

    /** The most loaded worker: the first with the highest count, in whichever order the
        counts are gone through. */
    method MostLoaded(counts: map<string, nat>) returns (most: Option<string>)
      ensures most == None <==> counts == map[]
      ensures most.Some? ==> IsMostLoaded(counts, most.value)
    {
      most := None;
      var todo := counts.Keys;
      while todo != {}
        invariant todo <= counts.Keys
        invariant most.None? ==> todo == counts.Keys
        invariant most.Some? ==> most.value in counts && forall o <- counts :: o !in todo ==> counts[o] <= counts[most.value]
        decreases |todo|
      {
        var o :| o in todo;
        todo := todo - {o};
        if most == None || counts[most.value] < counts[o] {
          most := Some(o);
        }
      }
      assert most.None? ==> counts.Keys == {};
    }

    /** The leases of a worker, in some order. */
    method Candidates(owner: string) returns (candidates: seq<LeaseState>)
      requires KeysOk(allLeases)
      ensures |candidates| == |HeldBy(allLeases, owner, {})| && OncePerKey(candidates)
      ensures AllHeld(allLeases, owner, candidates)
    {
      candidates := [];
      var todo := allLeases.Keys;
      NoneHeldOutside(allLeases, owner);
      while todo != {}
        invariant todo <= allLeases.Keys
        invariant |candidates| == |HeldBy(allLeases, owner, todo)| && OncePerKey(candidates)
        invariant AllHeld(allLeases, owner, candidates)
        invariant forall i :: 0 <= i < |candidates| ==> candidates[i].key !in todo
        decreases |todo|
      {
        var key :| key in todo;
        var lease := allLeases[key];
        HeldOne(allLeases, key, todo, todo - {key}, owner);
        todo := todo - {key};
        if lease.owner.Some? && owner == lease.owner.value {
          candidates := candidates + [lease];
        }
      }
    }

    /** `chooseLeasesToSteal`. */
    method ChooseLeasesToSteal(counts: map<string, nat>, target: nat, needed: nat) returns (steal: seq<LeaseState>)
      requires KeysOk(allLeases)
      ensures Chosen(allLeases, counts, target, needed, maxLeasesToStealAtOnce, steal)
    {
      steal := [];
      var mostLoaded := MostLoaded(counts);
      if mostLoaded == None {
        return;
      }
      var victim := mostLoaded.value;
      var numToSteal := 0;
      if counts[victim] >= target && needed > 0 {
        var leasesOverTarget := counts[victim] - target;
        numToSteal := if needed < leasesOverTarget then needed else leasesOverTarget;
        if needed > 1 && numToSteal == 0 {
          numToSteal := 1;
        }
        numToSteal := if maxLeasesToStealAtOnce < numToSteal then maxLeasesToStealAtOnce else numToSteal;
      }
      if numToSteal == 0 {
        assert StolenFrom(allLeases, victim, 0, []);
        return;
      }
      var candidates := Candidates(victim);
      var shuffled := RandomShuffle(candidates);
      ShuffledHeld(allLeases, victim, candidates, shuffled);
      var toIndex := if |shuffled| < numToSteal then |shuffled| else numToSteal;
      var idx := 0;
      while idx < toIndex
        invariant 0 <= idx <= toIndex && steal == shuffled[..idx]
      {
        steal := steal + [shuffled[idx]];
        idx := idx + 1;
      }
      FirstStolen(allLeases, victim, shuffled, numToSteal, toIndex);
    }

    /** The target of `computeLeasesToTake`. */
    method EvenShare(numLeases: nat, numWorkers: nat) returns (target: nat)
      requires numWorkers > 0
      ensures target == Target(numLeases, numWorkers, maxLeasesToStealAtOnce)
    {
      if numWorkers > numLeases {
        target := 1;
      } else {
        target := numLeases / numWorkers;
        if numLeases % numWorkers != 0 {
          target := target + 1;
        }
        target := if target < maxLeasesToStealAtOnce then target else maxLeasesToStealAtOnce;
      }
    }

    /** `computeLeasesToTake`. */
    method ComputeLeasesToTake(expired: seq<LeaseState>) returns (take: seq<LeaseState>)
      requires KeysOk(allLeases)
      ensures Decision(allLeases, workerID, maxLeasesToStealAtOnce, expired, take)
    {
      hide Target, Chosen, Owners, HeldBy, KeysOf, KeysOk;
      var expiredKeys := KeysOf(expired);
      var counts := ComputeLeaseCounts(expiredKeys);
      take := [];
      var numLeases, numWorkers := |allLeases|, |counts|;
      if numLeases == 0 {
        return;
      }
      assert numWorkers == CountsSize(allLeases, workerID, expiredKeys);
      var target := EvenShare(numLeases, numWorkers);
      var selfCount := counts[workerID];
      if selfCount >= target {
        return;
      }
      var numToTarget := target - selfCount;
      if |expired| > 0 {
        take := SomeExpired(expired, numToTarget);
      } else {
        take := ChooseLeasesToSteal(counts, target, numToTarget);
      }
    }

    /** Expired leases from the back of a shuffled copy. */
    method SomeExpired(expired: seq<LeaseState>, wanted: nat) returns (take: seq<LeaseState>)
      ensures |take| == if |expired| < wanted then |expired| else wanted
      ensures multiset(take) <= multiset(expired)
    {
      take := [];
      var expiredCopy := RandomShuffle(expired);
      var i := 0;
      while i < wanted && expiredCopy != []
        invariant 0 <= i <= wanted && |take| == i && |take| + |expiredCopy| == |expired|
        invariant multiset(take) + multiset(expiredCopy) == multiset(expired)
        decreases wanted - i
      {
        var last := expiredCopy[|expiredCopy| - 1];
        assert expiredCopy == expiredCopy[..|expiredCopy| - 1] + [last];
        take := take + [last];
        expiredCopy := expiredCopy[..|expiredCopy| - 1];
        i := i + 1;
      }
    }
  }

  /** Leases of one worker, as they are known. */
  predicate AllHeld(all: LeaseMap, owner: string, leases: seq<LeaseState>) {
    forall i :: 0 <= i < |leases| ==> leases[i].key in HeldBy(all, owner, {}) && all[leases[i].key] == leases[i]
  }

  lemma {:induction false} NoneHeldOutside(all: LeaseMap, owner: string)
    ensures HeldBy(all, owner, all.Keys) == {}
  {
  }

  lemma {:induction false} HeldOne(all: LeaseMap, key: string, before: set<string>, after: set<string>, o: string)
    requires key in all && key in before && after == before - {key}
    ensures |HeldBy(all, o, after)| == |HeldBy(all, o, before)| + if all[key].owner == Some(o) then 1 else 0
  {
    assert HeldBy(all, o, after) == HeldBy(all, o, before) + (if all[key].owner == Some(o) then {key} else {});
    assert key !in HeldBy(all, o, before);
  }

  /** A lease of a table occurs once among its leases. */
  lemma {:induction false} OnceIsOnce(s: seq<LeaseState>, l: LeaseState)
    requires OncePerKey(s)
    ensures multiset(s)[l] <= 1
    ensures l in s ==> forall m <- s :: m.key == l.key ==> m == l
  {
    if s != [] {
      var n := |s| - 1;
      OnceIsOnce(s[..n], l);
      assert s == s[..n] + [s[n]];
      if s[n] == l {
        assert l !in s[..n];
      }
    }
  }

  lemma {:induction false} Twice(s: seq<LeaseState>, i: nat, j: nat)
    requires i < j < |s| && s[i] == s[j]
    ensures multiset(s)[s[i]] >= 2
  {
    assert s == s[..j] + [s[j]] + s[j + 1..];
    assert s[i] in s[..j];
  }

  lemma {:induction false} ShuffledHeld(all: LeaseMap, owner: string, s: seq<LeaseState>, r: seq<LeaseState>)
    requires multiset(r) == multiset(s) && |r| == |s| && OncePerKey(s) && AllHeld(all, owner, s)
    ensures OncePerKey(r) && AllHeld(all, owner, r)
  {
    forall i | 0 <= i < |r| ensures r[i] in s {
      assert r[i] in multiset(r);
    }
    forall i, j | 0 <= i < j < |r| ensures r[i].key != r[j].key {
      OnceIsOnce(s, r[i]);
      if r[i].key == r[j].key {
        Twice(r, i, j);
      }
    }
  }

  lemma {:induction false} FirstStolen(all: LeaseMap, victim: string, leases: seq<LeaseState>, n: nat, toIndex: nat)
    requires |leases| == |HeldBy(all, victim, {})| && OncePerKey(leases) && AllHeld(all, victim, leases)
    requires toIndex == if |leases| < n then |leases| else n
    ensures StolenFrom(all, victim, n, leases[..toIndex])
  {
  }

  /** How many leases each worker holds that holds any. */
  function Tally(all: LeaseMap, expired: set<string>): map<string, nat> {
    map o | o in Owners(all, expired) :: |HeldBy(all, o, expired)|
  }

  lemma {:induction false} CountsAreTally(all: LeaseMap, self: string, expired: set<string>)
    ensures var tally := Tally(all, expired);
            Counts(all, self, expired) == if self in tally then tally else tally[self := 0]
  {
    if self !in Tally(all, expired) {
      NoneHeld(all, self, expired);
    }
  }

  /** One lease more is counted for its owner, and no other worker's count changes. */
  lemma {:induction false} CountOne(all: LeaseMap, key: string, expired: set<string>, before: set<string>, after: set<string>)
    requires key in all && key in before && expired <= before
    requires after == expired + (before - expired - {key})
    ensures key in expired || all[key].owner.None? ==> Tally(all, after) == Tally(all, before)
    ensures key !in expired && all[key].owner.Some? ==>
              Tally(all, after) == InsertOrIncrement(Tally(all, before), all[key].owner.value, 1)
  {
    if key in expired {
      assert after == before;
    } else if all[key].owner.None? {
      UnownedUncounted(all, key, before, after);
    } else {
      OwnerGainsOne(all, key, before, after);
    }
  }

  lemma {:induction false} UnownedUncounted(all: LeaseMap, key: string, before: set<string>, after: set<string>)
    requires key in all && key in before && after == before - {key} && all[key].owner.None?
    ensures Tally(all, after) == Tally(all, before)
  {
    assert Owners(all, after) == Owners(all, before);
    forall o ensures HeldBy(all, o, after) == HeldBy(all, o, before) {
    }
  }

  lemma {:induction false} OwnerGainsOne(all: LeaseMap, key: string, before: set<string>, after: set<string>)
    requires key in all && key in before && after == before - {key} && all[key].owner.Some?
    ensures Tally(all, after) == InsertOrIncrement(Tally(all, before), all[key].owner.value, 1)
  {
    hide Owners, HeldBy;
    var owner := all[key].owner.value;
    OwnersGain(all, key, before, after);
    forall o ensures |HeldBy(all, o, after)| == |HeldBy(all, o, before)| + if o == owner then 1 else 0 {
      HeldGains(all, key, before, after, o);
    }
    if owner !in Owners(all, before) {
      NoneHeld(all, owner, before);
    }
    assert Tally(all, after) == InsertOrIncrement(Tally(all, before), owner, 1);
  }

  lemma {:induction false} HeldGains(all: LeaseMap, key: string, before: set<string>, after: set<string>, o: string)
    requires key in all && key in before && after == before - {key} && all[key].owner.Some?
    ensures |HeldBy(all, o, after)| == |HeldBy(all, o, before)| + if o == all[key].owner.value then 1 else 0
  {
    assert HeldBy(all, o, after) == HeldBy(all, o, before) + (if o == all[key].owner.value then {key} else {});
    assert key !in HeldBy(all, o, before);
  }

  lemma {:induction false} OwnersGain(all: LeaseMap, key: string, before: set<string>, after: set<string>)
    requires key in all && key in before && after == before - {key} && all[key].owner.Some?
    ensures Owners(all, after) == Owners(all, before) + {all[key].owner.value}
  {
    var owner := all[key].owner.value;
    forall o | o in Owners(all, after) ensures o in Owners(all, before) + {owner} {
      var k :| k in all && k !in after && all[k].owner == Some(o);
    }
    forall o | o in Owners(all, before) ensures o in Owners(all, after) {
      var k :| k in all && k !in before && all[k].owner == Some(o);
    }
  }

  lemma {:induction false} NoneLeft(all: LeaseMap, expired: set<string>)
    requires all.Keys <= expired
    ensures Tally(all, expired) == map[]
  {
  }

  lemma {:induction false} NoneHeld(all: LeaseMap, owner: string, expired: set<string>)
    requires owner !in Owners(all, expired)
    ensures |HeldBy(all, owner, expired)| == 0
  {
    assert forall k :: k in HeldBy(all, owner, expired) ==> owner in Owners(all, expired);
    assert HeldBy(all, owner, expired) == {};
  }
}
