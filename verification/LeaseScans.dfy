/** What a worker remembers of the leases: each scan of the table is merged into what it
    knew, and that is enough to tell since when every counter has stood still. */
module LeaseScans {
  import opened Leases
  import opened Options
  import opened Words

  type LeaseMap = map<string, LeaseState>

  /** A scan of the table: what it returned, and the clock when it did. */
  datatype Scan = Scan(leases: seq<LeaseState>, at: nat)

  /** `findOption`. */
  function FindOption<V>(m: map<string, V>, key: string): (r: Option<V>)
    ensures r.Some? <==> key in m
  {
    if key in m then Some(m[key]) else None
  }

  /** What a scanned lease becomes, given what was known under its key. */
  function Merged(known: Option<LeaseState>, scanned: LeaseState, now: nat): LeaseState {
    match known
    case Some(k) => scanned.(lastIncrement := if k.counter == scanned.counter then k.lastIncrement else Some(now))
    case None => scanned.(lastIncrement := if scanned.owner.Some? then Some(now) else None)
  }

  /** The leases of a scan merged one after the other. */
  function MergeAll(all: LeaseMap, scan: seq<LeaseState>, now: nat): LeaseMap {
    if scan == [] then all
    else
      var m, l := MergeAll(all, scan[..|scan| - 1], now), scan[|scan| - 1];
      m[l.key := Merged(FindOption(m, l.key), l, now)]
  }

  /** The last lease in a scan with this key. */
  function InScan(scan: seq<LeaseState>, key: string): Option<LeaseState> {
    if scan == [] then None
    else if scan[|scan| - 1].key == key then Some(scan[|scan| - 1])
    else InScan(scan[..|scan| - 1], key)
  }

  lemma {:induction false} MergeNone(all: LeaseMap, scan: seq<LeaseState>, now: nat)
    ensures MergeAll(all, scan[..0], now) == all
    ensures forall k :: InScan(scan[..0], k) == None
  {
  }

  lemma {:induction false} MergeNext(all: LeaseMap, scan: seq<LeaseState>, i: nat, now: nat)
    requires i < |scan|
    ensures var m := MergeAll(all, scan[..i], now);
            MergeAll(all, scan[..i + 1], now) == m[scan[i].key := Merged(FindOption(m, scan[i].key), scan[i], now)]
  {
    assert scan[..i + 1][..i] == scan[..i];
  }

  lemma {:induction false} InScanNext(scan: seq<LeaseState>, i: nat, key: string)
    requires i < |scan|
    ensures InScan(scan[..i + 1], key) == if scan[i].key == key then Some(scan[i]) else InScan(scan[..i], key)
  {
    assert scan[..i + 1][..i] == scan[..i];
  }

  /** What a worker knows after a scan: the merged leases, without those that are gone. */
  function AfterScan(all: LeaseMap, scan: seq<LeaseState>, now: nat): LeaseMap {
    var m := MergeAll(all, scan, now);
    map k | k in m && InScan(scan, k).Some? :: m[k]
  }

  /** What a worker knows after a history of scans. */
  function AfterScans(history: seq<Scan>): LeaseMap {
    if history == [] then map[]
    else
      var last := history[|history| - 1];
      AfterScan(AfterScans(history[..|history| - 1]), last.leases, last.at)
  }

  /** A table holds each key once. */
  predicate OncePerKey(scan: seq<LeaseState>) {
    forall i, j :: 0 <= i < j < |scan| ==> scan[i].key != scan[j].key
  }

  lemma {:induction false} InScanIs(scan: seq<LeaseState>, key: string)
    ensures InScan(scan, key).Some? ==> InScan(scan, key).value in scan && InScan(scan, key).value.key == key
    ensures InScan(scan, key).None? <==> forall l <- scan :: l.key != key
  {
    if scan != [] && scan[|scan| - 1].key != key {
      InScanIs(scan[..|scan| - 1], key);
    }
  }

  lemma {:induction false} MergedOnce(all: LeaseMap, scan: seq<LeaseState>, now: nat, key: string)
    requires OncePerKey(scan)
    ensures var m := MergeAll(all, scan, now);
            match InScan(scan, key)
            case None => FindOption(m, key) == FindOption(all, key)
            case Some(l) => FindOption(m, key) == Some(Merged(FindOption(all, key), l, now))
  {
    if scan != [] {
      var init, l := scan[..|scan| - 1], scan[|scan| - 1];
      MergedOnce(all, init, now, key);
      if l.key == key {
        InScanIs(init, key);
      }
    }
  }

  /** After a scan of a table, a worker knows exactly the scanned keys, each merged with
      what it knew under that key. */
  lemma {:induction false} ScanMergesEach(all: LeaseMap, scan: seq<LeaseState>, now: nat, key: string)
    requires OncePerKey(scan)
    ensures FindOption(AfterScan(all, scan, now), key)
         == match InScan(scan, key)
            case None => None
            case Some(l) => Some(Merged(FindOption(all, key), l, now))
  {
    MergedOnce(all, scan, now, key);
  }

  // ----- The history behind it ---------------------------------------------------

  /** What the scan at position `i` of the history shows under a key. */
  function Shown(history: seq<Scan>, i: nat, key: string): Option<LeaseState>
    requires i < |history|
  {
    InScan(history[i].leases, key)
  }

  /** The scan at `i` shows the lease with the counter that the scan before it shows. */
  predicate StandsStill(history: seq<Scan>, i: nat, key: string)
    requires i < |history|
  {
    && i > 0 && Shown(history, i, key).Some? && Shown(history, i - 1, key).Some?
    && Shown(history, i, key).value.counter == Shown(history, i - 1, key).value.counter
  }

  /** The first scan of the unbroken run of scans up to `i` with the same counter. */
  function RunStart(history: seq<Scan>, i: nat, key: string): (j: nat)
    requires i < |history|
    ensures j <= i
  {
    if StandsStill(history, i, key) then RunStart(history, i - 1, key) else i
  }

  lemma {:induction false} RunStartIs(history: seq<Scan>, i: nat, key: string)
    requires i < |history|
    ensures var j := RunStart(history, i, key);
            && !StandsStill(history, j, key)
            && forall m :: j < m <= i ==> StandsStill(history, m, key)
  {
    if StandsStill(history, i, key) {
      RunStartIs(history, i - 1, key);
    }
  }

  /** When the counter was last seen to start standing still; never, if it was first seen
      without an owner. */
  function StillSince(history: seq<Scan>, i: nat, key: string): Option<nat>
    requires i < |history| && Shown(history, i, key).Some?
  {
    var j := RunStart(history, i, key);
    RunIsShown(history, i, key);
    if (j == 0 || Shown(history, j - 1, key).None?) && Shown(history, j, key).value.owner.None? then None
    else Some(history[j].at)
  }

  lemma {:induction false} RunIsShown(history: seq<Scan>, i: nat, key: string)
    requires i < |history| && Shown(history, i, key).Some?
    ensures Shown(history, RunStart(history, i, key), key).Some?
  {
    if StandsStill(history, i, key) {
      RunIsShown(history, i - 1, key);
    }
  }

  lemma {:induction false} RunStartPrefix(history: seq<Scan>, n: nat, i: nat, key: string)
    requires i < n <= |history|
    ensures RunStart(history[..n], i, key) == RunStart(history, i, key)
  {
    assert StandsStill(history[..n], i, key) == StandsStill(history, i, key);
    if StandsStill(history, i, key) {
      RunStartPrefix(history, n, i - 1, key);
    }
  }

  /** Scanning remembers enough: after any history of table scans a worker knows exactly
      the keys of the last scan, as that scan showed them, each with the time since when
      its counter has stood still. */
  lemma {:induction false} ScansRefineHistory(history: seq<Scan>, key: string)
    requires history != [] && forall i :: 0 <= i < |history| ==> OncePerKey(history[i].leases)
    ensures FindOption(AfterScans(history), key)
         == var n := |history| - 1;
            match Shown(history, n, key)
            case None => None
            case Some(l) => Some(l.(lastIncrement := StillSince(history, n, key)))
    decreases |history|
  {
    var n := |history| - 1;
    var init := history[..n];
    ScanMergesEach(AfterScans(init), history[n].leases, history[n].at, key);
    if n > 0 {
      ScansRefineHistory(init, key);
      assert Shown(init, n - 1, key) == Shown(history, n - 1, key);
      if StandsStill(history, n, key) {
        RunStartPrefix(history, n, n - 1, key);
        SamePast(history, n, key);
      }
    }
  }

  lemma {:induction false} SamePast(history: seq<Scan>, n: nat, key: string)
    requires 0 < n < |history| && StandsStill(history, n, key)
    ensures StillSince(history[..n], n - 1, key) == StillSince(history, n, key)
  {
    var init := history[..n];
    RunStartPrefix(history, n, n - 1, key);
    var j := RunStart(history, n, key);
    RunIsShown(init, n - 1, key);
    assert Shown(init, j, key) == Shown(history, j, key);
    assert j > 0 ==> Shown(init, j - 1, key) == Shown(history, j - 1, key);
  }

  /** The clock of the scans never goes back, and its values are words. */
  predicate ClockOk(history: seq<Scan>) {
    && (forall i, j :: 0 <= i <= j < |history| ==> history[i].at <= history[j].at)
    && (forall i :: 0 <= i < |history| ==> history[i].at < TWO_64)
  }

  /** As of the last scan, the expired leases are exactly those whose counter has stood still
      for more than the lease duration or 365 days, and those first seen without an owner
      and not written since. */
  lemma {:induction false} ExpiredExactly(history: seq<Scan>, key: string, duration: nat)
    requires history != [] && ClockOk(history) && forall i :: 0 <= i < |history| ==> OncePerKey(history[i].leases)
    requires key in AfterScans(history)
    ensures var n := |history| - 1;
            var longest := if duration < 31_536_000_000_000_000 then duration else 31_536_000_000_000_000;
            && Shown(history, n, key).Some?
            && (IsExpired(AfterScans(history)[key], duration, history[n].at)
                <==> (match StillSince(history, n, key)
                      case None => true
                      case Some(since) => history[n].at - since > longest))
  {
    ScansRefineHistory(history, key);
  }
}
