/** The hierarchical timer wheel under an ideal clock: the timer of a level fires at every
    multiple of its resolution, timers that fire at the same instant in any order, and
    callbacks do not add timers. */
module TimerWheel {
  import opened WheelBuffer
  import opened WheelTiming

  // ----- What the slots promise --------------------------------------------------

  type View = seq<seq<Entry>>

  /** An entry that the bottom level has room for runs at an instant that is known beforehand. */
  predicate Punctual(cfg: seq<Setting>, e: Entry, at: nat) {
    cfg != [] && LevelFor(cfg, e.interval) == 0 ==> at == ComesUpAt(e.added, e.interval, cfg[0].resolution)
  }

  /** Entry `e`, in a slot of level `i` that comes up at `due`: it is no higher than where
      it was first placed, and its slot comes up in time for its deadline. */
  predicate TimingOk(cfg: seq<Setting>, e: Entry, i: nat, due: nat, now: nat)
    requires i < |cfg|
  {
    && e.added <= now
    && i <= LevelFor(cfg, e.interval) < |cfg|
    && due < Deadline(e) + 2 * cfg[i].resolution
    && (i == 0 ==> Deadline(e) < due + cfg[0].resolution)
    && Punctual(cfg, e, due)
  }

  predicate SlotTiming(cfg: seq<Setting>, es: seq<Entry>, i: nat, due: nat, now: nat)
    requires i < |cfg|
  {
    forall k :: 0 <= k < |es| ==> TimingOk(cfg, es[k], i, due, now)
  }

  predicate LevelTiming(cfg: seq<Setting>, view: View, i: nat, turns: nat, now: nat)
    requires i < |cfg|
  {
    forall s :: 0 <= s < |view| ==> SlotTiming(cfg, view[s], i, Due(cfg[i].resolution, turns, s), now)
  }

  /** `turns` says how often the ring of each level has advanced. */
  predicate AllTiming(cfg: seq<Setting>, views: seq<View>, turns: seq<nat>, now: nat) {
    && |views| == |turns| == |cfg|
    && forall i :: 0 <= i < |cfg| ==> LevelTiming(cfg, views[i], i, turns[i], now)
  }

  lemma {:induction false} TimingLater(cfg: seq<Setting>, views: seq<View>, turns: seq<nat>, now: nat, later: nat)
    requires AllTiming(cfg, views, turns, now) && now <= later
    ensures AllTiming(cfg, views, turns, later)
  {
    forall i | 0 <= i < |cfg| ensures LevelTiming(cfg, views[i], i, turns[i], later) {
      assert LevelTiming(cfg, views[i], i, turns[i], now);
      forall s | 0 <= s < |views[i]|
        ensures SlotTiming(cfg, views[i][s], i, Due(cfg[i].resolution, turns[i], s), later)
      {
        assert SlotTiming(cfg, views[i][s], i, Due(cfg[i].resolution, turns[i], s), now);
      }
    }
  }

  /** `views` with `x` in slot `s` of level `i`. */
  function WithSlot(views: seq<View>, i: nat, s: nat, x: seq<Entry>): (r: seq<View>)
    requires i < |views| && s < |views[i]|
    ensures |r| == |views|
  {
    views[i := views[i][s := x]]
  }

  lemma {:induction false} TimingWithSlot(cfg: seq<Setting>, views: seq<View>, turns: seq<nat>, now: nat, i: nat, s: nat, x: seq<Entry>)
    requires AllTiming(cfg, views, turns, now) && i < |views| && s < |views[i]|
    requires SlotTiming(cfg, x, i, Due(cfg[i].resolution, turns[i], s), now)
    ensures AllTiming(cfg, WithSlot(views, i, s, x), turns, now)
  {
    hide Due;
    var views' := WithSlot(views, i, s, x);
    forall j | 0 <= j < |cfg| ensures LevelTiming(cfg, views'[j], j, turns[j], now) {
      assert LevelTiming(cfg, views[j], j, turns[j], now);
    }
  }

  /** Advancing a ring whose first slot is empty moves every slot one step nearer, so that
      each still comes up when it did. */
  lemma {:induction false} TimingAdvance(cfg: seq<Setting>, views: seq<View>, turns: seq<nat>, now: nat, i: nat)
    requires AllTiming(cfg, views, turns, now) && i < |views| && views[i] != [] && views[i][0] == []
    ensures AllTiming(cfg, views[i := Rotated(views[i])], turns[i := turns[i] + 1], now)
  {
    var view, next := views[i], Rotated(views[i]);
    assert LevelTiming(cfg, view, i, turns[i], now);
    forall s | 0 <= s < |next|
      ensures SlotTiming(cfg, next[s], i, Due(cfg[i].resolution, turns[i] + 1, s), now)
    {
      if s + 1 < |view| {
        assert SlotTiming(cfg, view[s + 1], i, Due(cfg[i].resolution, turns[i], s + 1), now);
        assert turns[i] + 1 + 1 + s == turns[i] + 1 + (s + 1);
      }
    }
    forall j | 0 <= j < |cfg| && j != i ensures LevelTiming(cfg, views[j], j, turns[j], now) {
    }
  }

  // ----- What is in the wheel ----------------------------------------------------

  /** Both sides of an exchange may carry the same extra entries. */
  lemma {:induction false} Exchange(after: multiset<Entry>, out: multiset<Entry>, before: multiset<Entry>,
                 into: multiset<Entry>, rest: multiset<Entry>)
    requires after + out == before + into
    ensures after + rest + out == before + rest + into
  {
    forall e: Entry ensures (after + rest + out)[e] == (before + rest + into)[e] {
      assert (after + out)[e] == (before + into)[e];
    }
  }

  function InLevel(view: View): multiset<Entry> {
    if view == [] then multiset{} else InLevel(view[..|view| - 1]) + multiset(view[|view| - 1])
  }

  /** All the entries in the slots. */
  function InWheel(views: seq<View>): multiset<Entry> {
    if views == [] then multiset{} else InWheel(views[..|views| - 1]) + InLevel(views[|views| - 1])
  }

  lemma {:induction false} InLevelUpdate(view: View, s: nat, x: seq<Entry>)
    requires s < |view|
    ensures InLevel(view[s := x]) + multiset(view[s]) == InLevel(view) + multiset(x)
  {
    var n := |view| - 1;
    var view' := view[s := x];
    if s == n {
      assert view'[..n] == view[..n];
    } else {
      assert view'[..n] == view[..n][s := x];
      InLevelUpdate(view[..n], s, x);
      Exchange(InLevel(view'[..n]), multiset(view[s]), InLevel(view[..n]), multiset(x), multiset(view[n]));
    }
  }

  lemma {:induction false} InWheelUpdate(views: seq<View>, i: nat, view: View)
    requires i < |views|
    ensures InWheel(views[i := view]) + InLevel(views[i]) == InWheel(views) + InLevel(view)
  {
    var n := |views| - 1;
    var views' := views[i := view];
    if i == n {
      assert views'[..n] == views[..n];
    } else {
      assert views'[..n] == views[..n][i := view];
      InWheelUpdate(views[..n], i, view);
      Exchange(InWheel(views'[..n]), InLevel(views[i]), InWheel(views[..n]), InLevel(view), InLevel(views[n]));
    }
  }

  lemma {:induction false} InWheelWithSlot(views: seq<View>, i: nat, s: nat, x: seq<Entry>)
    requires i < |views| && s < |views[i]|
    ensures InWheel(WithSlot(views, i, s, x)) + multiset(views[i][s]) == InWheel(views) + multiset(x)
  {
    var view, view' := views[i], views[i][s := x];
    InWheelUpdate(views, i, view');
    InLevelUpdate(view, s, x);
    Through(InWheel(WithSlot(views, i, s, x)), InLevel(view), InWheel(views), InLevel(view'),
            multiset(view[s]), multiset(x));
  }

  lemma {:induction false} Through(after: multiset<Entry>, l: multiset<Entry>, before: multiset<Entry>, l': multiset<Entry>,
                out: multiset<Entry>, into: multiset<Entry>)
    requires after + l == before + l' && l' + out == l + into
    ensures after + out == before + into
  {
    forall e: Entry ensures (after + out)[e] == (before + into)[e] {
      assert (after + l)[e] == (before + l')[e] && (l' + out)[e] == (l + into)[e];
    }
  }

  lemma {:induction false} InLevelSplit(view: View)
    requires view != []
    ensures InLevel(view) == multiset(view[0]) + InLevel(view[1..])
  {
    var n := |view| - 1;
    if n > 0 {
      InLevelSplit(view[..n]);
      assert view[..n][1..] == view[1..][..n - 1];
    }
  }

  lemma {:induction false} InWheelAdvance(views: seq<View>, i: nat)
    requires i < |views| && views[i] != []
    ensures InWheel(views[i := Rotated(views[i])]) == InWheel(views)
  {
    var view := views[i];
    InWheelUpdate(views, i, Rotated(view));
    InLevelSplit(view);
    assert Rotated(view)[..|view| - 1] == view[1..];
    assert InLevel(Rotated(view)) == InLevel(view);
    forall e: Entry ensures InWheel(views[i := Rotated(view)])[e] == InWheel(views)[e] {
      assert (InWheel(views[i := Rotated(view)]) + InLevel(view))[e] == (InWheel(views) + InLevel(view))[e];
    }
  }

  /** An entry in the wheel is in some slot. */
  lemma {:induction false} WhereInLevel(view: View, e: Entry) returns (s: nat)
    requires e in InLevel(view)
    ensures s < |view| && e in view[s]
  {
    var n := |view| - 1;
    if e in view[n] {
      s := n;
    } else {
      s := WhereInLevel(view[..n], e);
    }
  }

  lemma {:induction false} WhereInWheel(views: seq<View>, e: Entry) returns (i: nat, s: nat)
    requires e in InWheel(views)
    ensures i < |views| && s < |views[i]| && e in views[i][s]
  {
    var n := |views| - 1;
    if e in InLevel(views[n]) {
      s := WhereInLevel(views[n], e);
      i := n;
    } else {
      i, s := WhereInWheel(views[..n], e);
    }
  }

  // ----- The books ---------------------------------------------------------------

  /** The execution of a timer's callback. */
  datatype Run = Run(entry: Entry, at: nat)

  /** The entries that ran. */
  function Ran(log: seq<Run>): multiset<Entry> {
    if log == [] then multiset{} else Ran(log[..|log| - 1]) + multiset{log[|log| - 1].entry}
  }

  /** What is to be added again because of one run. */
  function Readded(r: Run): multiset<Entry> {
    if r.entry.repeating then multiset{r.entry.(added := r.at)} else multiset{}
  }

  /** What is to be added again because of the runs: each repeating entry, from the instant it ran. */
  function Readds(log: seq<Run>): multiset<Entry> {
    if log == [] then multiset{} else Readds(log[..|log| - 1]) + Readded(log[|log| - 1])
  }

  /** The repeating entries that have run and wait to be added again at `now`. */
  function Stamped(es: seq<Entry>, now: nat): seq<Entry> {
    seq(|es|, k requires 0 <= k < |es| => es[k].(added := now))
  }

  /** Conservation: every entry added by the user, or again after a run, has run or is held. */
  predicate Balanced(added: seq<Entry>, log: seq<Run>, held: multiset<Entry>) {
    multiset(added) + Readds(log) == Ran(log) + held
  }

  /** The run came less than a bottom resolution before the deadline, and less than two
      resolutions of the level it was first placed on after it; if that was the bottom
      level, it came at the instant known beforehand. */
  predicate InTime(cfg: seq<Setting>, e: Entry, at: nat) {
    && LevelFor(cfg, e.interval) < |cfg|
    && Deadline(e) < at + cfg[0].resolution
    && at < Deadline(e) + 2 * cfg[LevelFor(cfg, e.interval)].resolution
    && Punctual(cfg, e, at)
  }

  predicate LogOk(cfg: seq<Setting>, log: seq<Run>) {
    forall k :: 0 <= k < |log| ==> InTime(cfg, log[k].entry, log[k].at)
  }

  /** An entry taken from a higher level that is to be placed again. */
  predicate ToPlace(cfg: seq<Setting>, e: Entry, now: nat) {
    e.added <= now < Deadline(e) && 0 < LevelFor(cfg, e.interval) < |cfg|
  }

  predicate AllInTime(cfg: seq<Setting>, es: seq<Entry>, now: nat) {
    forall k :: 0 <= k < |es| ==> InTime(cfg, es[k], now)
  }

  predicate AllToPlace(cfg: seq<Setting>, es: seq<Entry>, now: nat) {
    forall k :: 0 <= k < |es| ==> ToPlace(cfg, es[k], now)
  }

  predicate AllRepeat(cfg: seq<Setting>, es: seq<Entry>) {
    forall k :: 0 <= k < |es| ==> es[k].repeating && LevelFor(cfg, es[k].interval) < |cfg|
  }

  /** Running an entry that was held keeps the books balanced; a repeating one is then held again. */
  lemma {:induction false} RunBalances(added: seq<Entry>, log: seq<Run>, held: multiset<Entry>, r: Run)
    requires Balanced(added, log, held + multiset{r.entry})
    ensures Balanced(added, log + [r], held + Readded(r))
  {
    assert (log + [r])[..|log|] == log;
    forall e: Entry ensures (multiset(added) + Readds(log + [r]))[e] == (Ran(log + [r]) + (held + Readded(r)))[e] {
      assert (multiset(added) + Readds(log))[e] == (Ran(log) + (held + multiset{r.entry}))[e];
    }
  }

  // ----- The odometer ------------------------------------------------------------

  /** The highest level whose timer fires at instant `t`, among levels `0 .. n`. */
  function MainLevel(cfg: seq<Setting>, t: nat, n: nat): (i: nat)
    requires SettingsOk(cfg) && 0 < n <= |cfg|
    ensures i < n
  {
    if n == 1 || Divides(cfg[n - 1].resolution, t) then n - 1 else MainLevel(cfg, t, n - 1)
  }

  lemma {:induction false} MainLevelIs(cfg: seq<Setting>, t: nat, n: nat)
    requires SettingsOk(cfg) && 0 < n <= |cfg| && Divides(cfg[0].resolution, t)
    ensures forall i :: 0 <= i < n ==> (Divides(cfg[i].resolution, t) <==> i <= MainLevel(cfg, t, n))
  {
    if n > 1 && !Divides(cfg[n - 1].resolution, t) {
      MainLevelIs(cfg, t, n - 1);
    } else {
      forall i | 0 <= i < n ensures Divides(cfg[i].resolution, t) {
        LowerDivides(cfg, i, n - 1);
        DividesTransitive(cfg[i].resolution, cfg[n - 1].resolution, t);
      }
    }
  }

  // ----- The wheel ---------------------------------------------------------------

  /** A `WheelLevel` with its `Bucket`. */
  datatype Level = Level(isBottom: bool, resolution: nat, nSlots: nat, buffer: DynamicWheelBuffer<seq<Entry>>,
                         tickCounter: nat, skipTick: nat)

  /** Level `i` is as configured and its slots are `view`. */
  ghost predicate LevelOk(cfg: seq<Setting>, l: Level, i: nat, view: View)
    requires i < |cfg|
    reads l.buffer, l.buffer.data
  {
    && l.isBottom && l.resolution == cfg[i].resolution && l.nSlots == cfg[i].slots
    && l.skipTick == SkipTick(cfg, i)
    && l.buffer.Valid() && l.buffer.Contents() == view && |view| == l.nSlots
  }

  /** A ring in which nothing is placed. */
  function EmptySlots(n: nat): View {
    seq(n, _ => [])
  }

  /** Level `i` as `initLevels` first makes it. */
  ghost predicate NewLevel(cfg: seq<Setting>, l: Level, i: nat)
    requires i < |cfg|
    reads l.buffer, l.buffer.data
  {
    && l.isBottom && l.resolution == cfg[i].resolution && l.nSlots == cfg[i].slots
    && l.tickCounter == l.skipTick == 0
    && l.buffer.Valid() && l.buffer.Contents() == EmptySlots(cfg[i].slots)
  }

  predicate Apart(levels: seq<Level>) {
    && (forall i, j :: 0 <= i < j < |levels| ==> levels[i].buffer != levels[j].buffer)
    && (forall i, j :: 0 <= i < j < |levels| ==> levels[i].buffer.data != levels[j].buffer.data)
  }

  /** The first loop of `initLevels`. Its `idx` is never incremented, so that every level is
      made a bottom level. */
  method MakeLevels(cfg: seq<Setting>) returns (levels: seq<Level>)
    requires SettingsOk(cfg)
    ensures |levels| == |cfg| && Apart(levels)
    ensures forall i :: 0 <= i < |cfg| ==> NewLevel(cfg, levels[i], i)
    ensures forall i :: 0 <= i < |cfg| ==> fresh(levels[i].buffer) && fresh(levels[i].buffer.data)
  {
    hide Divides, EmptySlots;
    levels := [];
    var idx := 0;
    var k := 0;
    while k < |cfg|
      invariant 0 <= k <= |cfg| && |levels| == k && idx == 0
      invariant Apart(levels)
      invariant forall i :: 0 <= i < k ==> NewLevel(cfg, levels[i], i)
      invariant forall i :: 0 <= i < k ==> fresh(levels[i].buffer) && fresh(levels[i].buffer.data)
    {
      var buffer := MakeBuffer(cfg[k].slots);
      levels := levels + [Level(idx == 0, cfg[k].resolution, cfg[k].slots, buffer, 0, 0)];
      k := k + 1;
    }
  }

  method MakeBuffer(slots: nat) returns (buffer: DynamicWheelBuffer<seq<Entry>>)
    requires slots > 0
    ensures fresh(buffer) && fresh(buffer.data) && buffer.Valid() && buffer.Contents() == EmptySlots(slots)
  {
    buffer := new DynamicWheelBuffer<seq<Entry>>(slots, []);
  }

  /** The skip count of level `i`: how many of its ticks make one of the next level. */
  function SkipTick(cfg: seq<Setting>, i: nat): nat
    requires i < |cfg|
  {
    if i + 1 < |cfg| && cfg[i].resolution > 0 then cfg[i + 1].resolution / cfg[i].resolution else 0
  }

  /** The second loop of `initLevels`. */
  method SetSkipTicks(cfg: seq<Setting>, made: seq<Level>) returns (levels: seq<Level>)
    requires SettingsOk(cfg) && |made| == |cfg| && forall i :: 0 <= i < |made| ==> made[i].skipTick == 0
    ensures |levels| == |cfg|
    ensures forall i :: 0 <= i < |cfg| ==> levels[i] == made[i].(skipTick := SkipTick(cfg, i))
  {
    hide Divides;
    levels := made;
    var k := 0;
    while k < |cfg| - 1
      invariant 0 <= k <= |cfg| - 1 && |levels| == |cfg|
      invariant forall i :: 0 <= i < |cfg| ==> levels[i] == if i < k then made[i].(skipTick := SkipTick(cfg, i)) else made[i]
    {
      levels := levels[k := levels[k].(skipTick := cfg[k + 1].resolution / cfg[k].resolution)];
      k := k + 1;
    }
  }

  /** The tick counters count up to the skip counts, over and over. */
  predicate CountersOk(levels: seq<Level>, fires: seq<nat>)
    requires |levels| == |fires|
  {
    forall i :: 0 <= i < |levels| - 1 ==>
      levels[i].skipTick > 0 && levels[i].tickCounter == Rest(fires[i], levels[i].skipTick)
  }

  class HTimerWheel {
    const settings: seq<Setting>
    var levels: seq<Level>
    var cachedNow: nat
    var repeatingEntriesToAdd: seq<Entry>
    var subEntriesToAdd: seq<Entry>
    var entriesToExecute: seq<Entry>

    /** The steady clock, and the levels whose timers are yet to fire at this instant. */
    var clock: nat
    var waiting: set<nat>

    /** The slots of each level in the order they come up, how often each ring has
        advanced and each timer has fired, what the user added and when, and what ran. */
    ghost var views: seq<View>
    ghost var turns: seq<nat>
    ghost var fires: seq<nat>
    ghost var added: seq<Entry>
    ghost var calledAt: seq<nat>
    ghost var log: seq<Run>

    ghost function Buffers(): set<object>
      reads this`levels
    {
      set i | 0 <= i < |levels| :: levels[i].buffer
    }

    ghost function Datas(): set<object>
      reads this`levels
    {
      set i | 0 <= i < |levels| :: levels[i].buffer.data
    }

    /** The levels are as configured and hold what `views` says. */
    ghost predicate Tied()
      reads this`levels, this`views, this`turns, Buffers(), Datas()
    {
      && SettingsOk(settings)
      && |levels| == |views| == |turns| == |settings|
      && (forall i :: 0 <= i < |levels| ==> LevelOk(settings, levels[i], i, views[i]))
      && Apart(levels)
    }

    constructor (cfg: seq<Setting>)
      requires SettingsOk(cfg)
      ensures Valid() && settings == cfg && fresh(Buffers()) && fresh(Datas())
      ensures Outside() == NOTHING_YET && log == [] && InWheel(views) == multiset{}
    {
      hide Divides, EmptySlots, Kept, Tied, Turned, OnTime, Counted, SkipTick, InWheel, Apart, NothingPending;
      var made := MakeLevels(cfg);
      assert forall i :: 0 <= i < |cfg| ==> NewLevel(cfg, made[i], i);
      var ls := SetSkipTicks(cfg, made);
      assert forall i :: 0 <= i < |cfg| ==> ls[i].buffer == made[i].buffer && ls[i].tickCounter == 0;
      settings, levels := cfg, ls;
      cachedNow, clock := 0, 0;
      repeatingEntriesToAdd, subEntriesToAdd, entriesToExecute := [], [], [];
      waiting, added, calledAt, log := {}, [], [], [];
      views := seq(|cfg|, i requires 0 <= i < |cfg| => EmptySlots(cfg[i].slots));
      turns, fires := seq(|cfg|, _ => 0), seq(|cfg|, _ => 0);
      new;
      StartsTied(made);
      StartsKept();
      StartsOnTime();
    }

    lemma {:induction false} StartsTied(made: seq<Level>)
      requires SettingsOk(settings) && |made| == |levels| == |settings| == |views| == |turns|
      requires Apart(made) && forall i :: 0 <= i < |made| ==> NewLevel(settings, made[i], i)
      requires forall i :: 0 <= i < |made| ==> levels[i] == made[i].(skipTick := SkipTick(settings, i))
      requires forall i :: 0 <= i < |views| ==> views[i] == EmptySlots(settings[i].slots)
      ensures Tied()
    {
      hide Divides, SkipTick;
      forall i | 0 <= i < |levels| ensures LevelOk(settings, levels[i], i, views[i]) {
        assert NewLevel(settings, made[i], i);
      }
    }

    lemma {:induction false} StartsKept()
      requires |settings| == |views| == |turns| && added == [] && log == [] && clock == 0
      requires entriesToExecute == [] && subEntriesToAdd == [] && repeatingEntriesToAdd == []
      requires forall i :: 0 <= i < |views| ==> views[i] == EmptySlots(settings[i].slots)
      ensures Kept() && NothingPending() && InWheel(views) == multiset{}
    {
      StartsEmpty(settings, views, turns);
    }

    lemma {:induction false} StartsOnTime()
      requires SettingsOk(settings) && |settings| == |levels| == |turns| == |fires|
      requires cachedNow == clock == 0 && waiting == {}
      requires forall i :: 0 <= i < |levels| ==> levels[i].tickCounter == 0 && levels[i].skipTick == SkipTick(settings, i)
      requires forall i :: 0 <= i < |turns| ==> turns[i] == fires[i] == 0
      ensures Turned() && OnTime() && Counted()
    {
      hide Divides, SkipTick, Quotient, Rest;
      StartsAtZero(settings);
    }

    method SetSlot(i: nat, s: nat, x: seq<Entry>)
      requires Tied() && i < |levels| && s < |views[i]|
      modifies this`views, Datas()
      ensures Tied() && views == WithSlot(old(views), i, s, x)
    {
      assert LevelOk(settings, levels[i], i, views[i]);
      levels[i].buffer.SetAt(s, x);
      views := WithSlot(views, i, s, x);
    }

    /** `Bucket::advance`. */
    method AdvanceLevel(i: nat)
      requires Tied() && i < |levels|
      modifies this`views, this`turns, Buffers()
      ensures Tied() && old(views[i]) != []
      ensures views == old(views)[i := Rotated(old(views)[i])] && turns == old(turns)[i := old(turns)[i] + 1]
    {
      assert LevelOk(settings, levels[i], i, views[i]);
      levels[i].buffer.Advance();
      views := views[i := Rotated(views[i])];
      turns := turns[i := turns[i] + 1];
    }

    /** All that is in the wheel and in its lists. */
    ghost function Held(): multiset<Entry>
      reads this`views, this`clock, this`entriesToExecute, this`subEntriesToAdd, this`repeatingEntriesToAdd
    {
      InWheel(views) + multiset(entriesToExecute) + multiset(subEntriesToAdd)
      + multiset(Stamped(repeatingEntriesToAdd, clock))
    }

    /** What holds at every point of a tick. */
    ghost predicate Kept()
      reads this`views, this`turns, this`clock, this`added, this`log
      reads this`entriesToExecute, this`subEntriesToAdd, this`repeatingEntriesToAdd
    {
      && AllTiming(settings, views, turns, clock)
      && LogOk(settings, log)
      && Balanced(added, log, Held())
      && AllToPlace(settings, subEntriesToAdd, clock) && AllRepeat(settings, repeatingEntriesToAdd)
    }

    // ----- Executing -------------------------------------------------------------

    method ExecutePendingEntries()
      requires Kept() && AllInTime(settings, entriesToExecute, clock)
      modifies this`log, this`repeatingEntriesToAdd, this`entriesToExecute
      ensures Kept() && entriesToExecute == []
      ensures old(log) <= log && forall k :: |old(log)| <= k < |log| ==> log[k].at == clock
      ensures old(entriesToExecute) == [] ==> log == old(log) && repeatingEntriesToAdd == old(repeatingEntriesToAdd)
    {
      hide Balanced, AllTiming, InTime, ToPlace, LevelFor, InWheel, Stamped;
      var k := 0;
      while k < |entriesToExecute|
        invariant 0 <= k <= |entriesToExecute| && entriesToExecute == old(entriesToExecute)
        invariant LogOk(settings, log) && AllRepeat(settings, repeatingEntriesToAdd)
        invariant Balanced(added, log, InWheel(views) + multiset(entriesToExecute[k..]) + multiset(subEntriesToAdd)
                                       + multiset(Stamped(repeatingEntriesToAdd, clock)))
        invariant k == 0 ==> log == old(log) && repeatingEntriesToAdd == old(repeatingEntriesToAdd)
        invariant old(log) <= log && forall k :: |old(log)| <= k < |log| ==> log[k].at == clock
      {
        var entry := entriesToExecute[k];
        ghost var repeats := repeatingEntriesToAdd;
        InTimeFits(settings, entry, clock);
        log := log + [Run(entry, clock)];
        if entry.repeating {
          repeatingEntriesToAdd := repeatingEntriesToAdd + [entry];
        }
        RunOne(old(added), log[..|log| - 1], Run(entry, clock), InWheel(views), entriesToExecute[k..], subEntriesToAdd,
               repeats, repeatingEntriesToAdd);
        k := k + 1;
      }
      assert entriesToExecute[k..] == [];
      entriesToExecute := [];
    }

    method ProcessUpperBucketSlots(idx: nat, entries: seq<Entry>)
      requires SettingsOk(settings) && 0 < idx < |settings| && cachedNow == clock
      requires SlotTiming(settings, entries, idx, clock, clock)
      requires entriesToExecute == [] && AllToPlace(settings, subEntriesToAdd, clock)
      modifies this`entriesToExecute, this`subEntriesToAdd
      ensures AllInTime(settings, entriesToExecute, clock) && AllToPlace(settings, subEntriesToAdd, clock)
      ensures multiset(entriesToExecute) + multiset(subEntriesToAdd) == multiset(old(subEntriesToAdd)) + multiset(entries)
      ensures AllClose(entriesToExecute, clock, settings[0].resolution)
      ensures exists far :: subEntriesToAdd == old(subEntriesToAdd) + far && NoneClose(far, clock, settings[0].resolution)
    {
      assert settings[0].resolution > 0;
      hide SettingsOk, InTime, ToPlace, TimingOk, Remaining, IsClose, AllClose, NoneClose;
      ghost var far: seq<Entry> := [];
      NothingClose(clock, settings[0].resolution);
      var k := 0;
      while k < |entries|
        invariant 0 <= k <= |entries|
        invariant AllInTime(settings, entriesToExecute, clock) && AllToPlace(settings, subEntriesToAdd, clock)
        invariant multiset(entriesToExecute) + multiset(subEntriesToAdd)
               == multiset(old(subEntriesToAdd)) + multiset(entries[..k])
        invariant AllClose(entriesToExecute, clock, settings[0].resolution)
        invariant subEntriesToAdd == old(subEntriesToAdd) + far && NoneClose(far, clock, settings[0].resolution)
      {
        var entry := entries[k];
        OneMoreSorted(entriesToExecute, far, entry, cachedNow, settings[0].resolution);
        var remaining := Remaining(entry, cachedNow);
        SortedOut(settings, entry, idx, clock);
        Appended(entriesToExecute, subEntriesToAdd, multiset(old(subEntriesToAdd)), entries[..k], entry);
        assert entries[..k + 1] == entries[..k] + [entry];
        if remaining < settings[0].resolution && remaining < settings[0].resolution - remaining {
          entriesToExecute := entriesToExecute + [entry];
        } else {
          subEntriesToAdd := subEntriesToAdd + [entry];
          far := far + [entry];
        }
        k := k + 1;
      }
      assert entries[..k] == entries;
    }

    /** The slot that comes up now. */
    method GetCurrent(idx: nat) returns (slot: nat)
      requires Tied() && idx < |levels|
      ensures slot == 0
    {
      assert LevelOk(settings, levels[idx], idx, views[idx]);
      var l := levels[idx];
      var r := GetSlotIdx(0, l.resolution, l.nSlots, l.isBottom);
      NoDelay(l.resolution);
      slot := r.idx;
    }

    /** Clears the slot whose entries went to the lists, where there were `before`. */
    method ClearCurrent(idx: nat, slot: nat, ghost before: multiset<Entry>)
      requires Tied() && AllTiming(settings, views, turns, clock) && idx < |levels| && slot == 0 && views[idx] != []
      requires Balanced(added, log, InWheel(views) + multiset{} + before + multiset(Stamped(repeatingEntriesToAdd, clock)))
      requires multiset(entriesToExecute) + multiset(subEntriesToAdd) == before + multiset(views[idx][0])
      modifies this`views, Datas()
      ensures Tied() && AllTiming(settings, views, turns, clock) && Balanced(added, log, Held())
      ensures |views[idx]| > 0 && views == old(views)[idx := views[idx]] && views[idx][0] == []
    {
      hide AllTiming, LevelTiming, SlotTiming, Balanced, InWheel, Stamped, SettingsOk, Due;
      EmptyTiming(settings, idx, Due(settings[idx].resolution, turns[idx], 0), clock);
      TimingWithSlot(settings, views, turns, clock, idx, 0, []);
      InWheelWithSlot(views, idx, 0, []);
      Moved(InWheel(views), InWheel(WithSlot(views, idx, 0, [])), multiset(views[idx][0]),
            multiset(entriesToExecute), multiset(subEntriesToAdd), before,
            multiset(Stamped(repeatingEntriesToAdd, clock)));
      SetSlot(idx, slot, []);
    }

    /** `processBucketN`. */
    method ProcessBucketN(idx: nat)
      requires Tied() && Kept() && 0 < idx < |levels| && cachedNow == clock && entriesToExecute == []
      requires Due(settings[idx].resolution, turns[idx], 0) == clock
      modifies this`views, this`entriesToExecute, this`subEntriesToAdd, Datas()
      ensures Tied() && Kept() && AllInTime(settings, entriesToExecute, clock)
      ensures |views[idx]| > 0 && views == old(views)[idx := views[idx]] && views[idx][0] == []
    {
      hide AllTiming, LevelTiming, SlotTiming, Balanced, InWheel, Stamped, LogOk, SettingsOk, Due, AllInTime, AllToPlace;
      var slot := GetCurrent(idx);
      assert LevelOk(settings, levels[idx], idx, views[idx]);
      ManySlots(settings, idx);
      var current := levels[idx].buffer.GetAt(slot);
      CurrentTiming(settings, views, turns, clock, idx);
      ProcessUpperBucketSlots(idx, current);
      ClearCurrent(idx, slot, multiset(old(subEntriesToAdd)));
    }

    /** `processBucket1`. */
    method ProcessBucket1()
      requires |levels| > 0 && Tied() && Kept() && cachedNow == clock && entriesToExecute == []
      requires Due(settings[0].resolution, turns[0], 0) == clock
      modifies this`views, this`entriesToExecute, Datas()
      ensures Tied() && Kept() && AllInTime(settings, entriesToExecute, clock)
      ensures |views[0]| > 0 && views == old(views)[0 := views[0]] && views[0][0] == []
    {
      hide AllTiming, LevelTiming, SlotTiming, Balanced, InWheel, Stamped, LogOk, SettingsOk, Due, InTime, AllToPlace;
      var slot := GetCurrent(0);
      assert LevelOk(settings, levels[0], 0, views[0]);
      ManySlots(settings, 0);
      var current := levels[0].buffer.GetAt(slot);
      CurrentTiming(settings, views, turns, clock, 0);
      var k := 0;
      while k < |current|
        modifies this`entriesToExecute
        invariant 0 <= k <= |current| && entriesToExecute == current[..k]
        invariant AllInTime(settings, entriesToExecute, clock)
      {
        CurrentInTime(settings, current, k, clock);
        entriesToExecute := entriesToExecute + [current[k]];
        k := k + 1;
      }
      assert entriesToExecute == current;
      ClearCurrent(0, slot, multiset(subEntriesToAdd));
    }

    /** The slots at the front of levels `0 .. idx` come up now. */
    ghost predicate FrontsDue(idx: int)
      requires |turns| == |settings| && idx < |settings|
      reads this`turns, this`clock
    {
      forall i :: 0 <= i <= idx ==> Due(settings[i].resolution, turns[i], 0) == clock
    }

    ghost predicate FrontsEmpty(idx: int)
      reads this`views
    {
      forall i :: 0 <= i <= idx < |views| ==> views[i] != [] && views[i][0] == []
    }

    /** What the log gained ran at the current instant. */
    ghost predicate RanNow(before: seq<Run>)
      reads this`log, this`clock
    {
      before <= log && forall k :: |before| <= k < |log| ==> log[k].at == clock
    }

    /** The part of `onLevelTickImpl` for level `idx` itself. */
    method ProcessLevel(idx: nat)
      requires idx < |levels| && Tied() && Kept() && entriesToExecute == []
      requires Due(settings[idx].resolution, turns[idx], 0) == clock
      modifies this`cachedNow, this`views, this`log
      modifies this`entriesToExecute, this`subEntriesToAdd, this`repeatingEntriesToAdd, Datas()
      ensures Tied() && Kept() && entriesToExecute == [] && cachedNow == clock
      ensures |views[idx]| > 0 && views == old(views)[idx := views[idx]] && views[idx][0] == []
      ensures RanNow(old(log))
    {
      hide Kept, LevelOk, SettingsOk, Due, AllInTime;
      cachedNow := clock;
      if idx == 0 {
        ProcessBucket1();
      } else {
        ProcessBucketN(idx);
      }
      ExecutePendingEntries();
    }

    /** `onLevelTickImpl`: works through the front slots from level `idx` down to the bottom. */
    method OnLevelTickImpl(idx: nat)
      requires idx < |levels| && Tied() && Kept() && entriesToExecute == [] && FrontsDue(idx)
      modifies this`cachedNow, this`views, this`log
      modifies this`entriesToExecute, this`subEntriesToAdd, this`repeatingEntriesToAdd, Datas()
      ensures Tied() && Kept() && entriesToExecute == [] && cachedNow == clock
      ensures FrontsEmpty(idx) && |views| == |old(views)|
      ensures forall i :: idx < i < |views| ==> views[i] == old(views)[i]
      ensures RanNow(old(log))
      decreases idx
    {
      hide Kept, LevelOk, SettingsOk, Due;
      ProcessLevel(idx);
      ghost var before := log;
      if idx > 0 {
        OnLevelTickImpl(idx - 1);
      }
      RanBoth(old(log), before);
    }

    lemma {:induction false} RanBoth(first: seq<Run>, second: seq<Run>)
      requires first <= second && RanNow(second)
      requires forall k :: |first| <= k < |second| ==> second[k].at == clock
      ensures RanNow(first)
    {
    }

    method AdvanceBuckets(levelIdx: nat)
      requires Tied() && Kept() && levelIdx < |levels| && FrontsEmpty(levelIdx)
      modifies this`views, this`turns, Buffers()
      ensures Tied() && Kept()
      ensures |turns| == |old(turns)|
      ensures forall i :: 0 <= i < |turns| ==> turns[i] == old(turns)[i] + if i <= levelIdx then 1 else 0
    {
      hide AllTiming, Balanced, InWheel, Stamped, LogOk, SettingsOk, Due, AllToPlace, AllRepeat;
      var i := 0;
      while i <= levelIdx
        modifies this`views, this`turns, Buffers()
        invariant 0 <= i <= levelIdx + 1
        invariant Tied() && Kept()
        invariant |turns| == |old(turns)| && |views| == |old(views)|
        invariant forall j :: i <= j < |views| ==> views[j] == old(views)[j]
        invariant forall j :: 0 <= j < |turns| ==> turns[j] == old(turns)[j] + if j < i then 1 else 0
      {
        assert views[i] != [] && views[i][0] == [];
        TimingAdvance(settings, views, turns, clock, i);
        InWheelAdvance(views, i);
        AdvanceLevel(i);
        i := i + 1;
      }
    }

    // ----- Placing ---------------------------------------------------------------

    /** The rings have turned as far as the cached time says. */
    ghost predicate Turned()
      reads this`turns, this`cachedNow, this`clock
    {
      && |turns| == |settings| && SettingsOk(settings)
      && Divides(settings[0].resolution, cachedNow) && cachedNow <= clock
      && forall i :: 0 <= i < |turns| ==> turns[i] == Quotient(cachedNow, settings[i].resolution)
    }

    /** `Bucket::addEntry`. */
    method AddToLevel(i: nat, entry: Entry)
      requires Tied() && Turned() && AllTiming(settings, views, turns, clock)
      requires entry.added <= cachedNow <= Deadline(entry) && LevelFor(settings, entry.interval) < |settings|
      requires entry.added == cachedNow || LevelFor(settings, entry.interval) > 0
      requires i == LevelFor(settings, Remaining(entry, cachedNow)) < |levels|
      modifies this`views, Datas()
      ensures Tied() && AllTiming(settings, views, turns, clock)
      ensures InWheel(views) == old(InWheel(views)) + multiset{entry}
    {
      hide AllTiming, LevelTiming, SlotTiming, InWheel, SettingsOk, Due, SlotIdx, TimingOk, LevelFor;
      assert LevelOk(settings, levels[i], i, views[i]);
      var l := levels[i];
      var remaining := Remaining(entry, cachedNow);
      ManySlots(settings, i);
      LevelForFits(settings, remaining, 0);
      var r := GetSlotIdx(remaining, l.resolution, l.nSlots, l.isBottom);
      OneSlotIdx(remaining, l.resolution, l.nSlots);
      var entries := l.buffer.GetAt(r.idx);
      PlacedInTime(settings, entry, i, cachedNow);
      SlotGains(settings, views, turns, cachedNow, clock, i, r.idx, entry);
      SetSlot(i, r.idx, entries + [entry]);
    }

    /** `addEntry`: the lowest level that has room for the remaining time takes the entry. */
    method AddEntry(entry: Entry) returns (ok: bool)
      requires Tied() && Turned() && AllTiming(settings, views, turns, clock)
      requires entry.added <= cachedNow <= Deadline(entry)
      requires entry.added == cachedNow || 0 < LevelFor(settings, entry.interval) < |settings|
      modifies this`views, Datas()
      ensures Tied() && AllTiming(settings, views, turns, clock)
      ensures ok <==> LevelFor(settings, Remaining(entry, cachedNow)) < |settings|
      ensures ok ==> InWheel(views) == old(InWheel(views)) + multiset{entry}
      ensures !ok ==> views == old(views)
    {
      hide AllTiming, LevelTiming, SlotTiming, InWheel, SettingsOk, Due, SlotIdx, TimingOk;
      var offset := Remaining(entry, cachedNow);
      var i := 0;
      while i < |levels|
        invariant 0 <= i <= |levels|
        invariant LevelFor(settings, offset) == LevelFor(settings, offset, i)
      {
        assert LevelOk(settings, levels[i], i, views[i]);
        if offset < levels[i].resolution * levels[i].nSlots {
          break;
        }
        i := i + 1;
      }
      if i == |levels| {
        return false;
      }
      AddToLevel(i, entry);
      return true;
    }

    /** `addSubEntries`. */
    method AddSubEntries()
      requires Tied() && Turned() && Kept() && cachedNow == clock && entriesToExecute == []
      modifies this`views, this`subEntriesToAdd, Datas()
      ensures Tied() && Kept() && subEntriesToAdd == []
    {
      hide AllTiming, Balanced, InWheel, Stamped, LogOk, SettingsOk, Divides, AllRepeat, LevelOk;
      var k := 0;
      ghost var subs := subEntriesToAdd;
      ghost var repeats := multiset(Stamped(repeatingEntriesToAdd, clock));
      while k < |subEntriesToAdd|
        modifies this`views, Datas()
        invariant 0 <= k <= |subEntriesToAdd| && subEntriesToAdd == subs
        invariant Tied() && AllTiming(settings, views, turns, clock)
        invariant Balanced(added, log, InWheel(views) + multiset{} + multiset(subs[k..]) + repeats)
      {
        var entry := subEntriesToAdd[k];
        LevelForMonotone(settings, Remaining(entry, cachedNow), entry.interval, 0);
        ghost var before := InWheel(views);
        var ok := AddEntry(entry);
        assert ok;
        Placed(before, subs[k..], repeats);
        k := k + 1;
      }
      assert subs[k..] == [];
      subEntriesToAdd := [];
    }

    /** `addNewEntry`. */
    method AddNewEntry(entry: Entry) returns (ok: bool)
      requires Tied() && Turned() && AllTiming(settings, views, turns, clock)
      modifies this`views, Datas()
      ensures Tied() && AllTiming(settings, views, turns, clock)
      ensures ok <==> LevelFor(settings, entry.interval) < |settings|
      ensures ok ==> InWheel(views) == old(InWheel(views)) + multiset{entry.(added := cachedNow)}
      ensures !ok ==> views == old(views)
    {
      hide AllTiming, InWheel, SettingsOk, Divides, LevelFor, LevelOk;
      var fresh' := entry.(added := cachedNow);
      assert Remaining(fresh', cachedNow) == entry.interval;
      ok := AddEntry(fresh');
    }

    /** `reAddRepeatingEntries`. */
    method ReAddRepeatingEntries()
      requires Tied() && Turned() && Kept() && cachedNow == clock && entriesToExecute == [] && subEntriesToAdd == []
      modifies this`views, this`repeatingEntriesToAdd, Datas()
      ensures Tied() && Kept() && repeatingEntriesToAdd == []
    {
      NoneStamped(clock, clock);
      hide AllTiming, Balanced, InWheel, LogOk, SettingsOk, Divides, LevelFor, LevelOk, AllToPlace, Stamped;
      var k := 0;
      ghost var repeats := repeatingEntriesToAdd;
      NothingElse(InWheel(views), Stamped(repeats, clock));
      assert repeats[0..] == repeats;
      while k < |repeatingEntriesToAdd|
        modifies this`views, Datas()
        invariant 0 <= k <= |repeatingEntriesToAdd| && repeatingEntriesToAdd == repeats
        invariant Tied() && AllTiming(settings, views, turns, clock)
        invariant Balanced(added, log, InWheel(views) + multiset{} + multiset(Stamped(repeats[k..], clock)) + multiset{})
      {
        ghost var before := InWheel(views);
        var ok := AddNewEntry(repeatingEntriesToAdd[k]);
        assert ok;
        FirstStamped(repeats, k, clock);
        Placed(before, Stamped(repeats[k..], clock), multiset{});
        k := k + 1;
      }
      assert repeats[k..] == [];
      NothingElse(InWheel(views), Stamped([], clock));
      repeatingEntriesToAdd := [];
    }

    /** `onAfterTick`. */
    method OnAfterTick()
      requires Tied() && Kept() && cachedNow == clock && Turned() && entriesToExecute == []
      modifies this`cachedNow, this`views, this`log
      modifies this`entriesToExecute, this`subEntriesToAdd, this`repeatingEntriesToAdd, Datas()
      ensures Tied() && Kept() && cachedNow == clock
      ensures entriesToExecute == [] && subEntriesToAdd == [] && repeatingEntriesToAdd == []
      ensures RanNow(old(log))
    {
      hide Kept, SettingsOk, Divides, LevelOk;
      ExecutePendingEntries();
      cachedNow := clock;
      ghost var before := log;
      AddSubEntries();
      ReAddRepeatingEntries();
      ExecutePendingEntries();
      RanBoth(old(log), before);
    }

    // ----- Ticking ---------------------------------------------------------------

    ghost predicate NothingPending()
      reads this`entriesToExecute, this`subEntriesToAdd, this`repeatingEntriesToAdd
    {
      entriesToExecute == [] && subEntriesToAdd == [] && repeatingEntriesToAdd == []
    }

    /** The one level that does not skip its tick at this instant has yet to tick. */
    ghost predicate MainWaits()
      requires SettingsOk(settings)
      reads this`clock, this`waiting
    {
      MainLevel(settings, clock, |settings|) in waiting
    }

    /** The timers have fired as often as the clock says. */
    ghost predicate FiresOk()
      reads this`clock, this`waiting, this`fires
    {
      && SettingsOk(settings) && |fires| == |settings|
      && Divides(settings[0].resolution, clock)
      && (forall i <- waiting :: i < |settings| && Divides(settings[i].resolution, clock) && clock > 0)
      && (forall i :: 0 <= i < |fires| ==> Quotient(clock, settings[i].resolution) == fires[i] + if i in waiting then 1 else 0)
    }

    /** So has the cached time: it lags until the main level has ticked. */
    ghost predicate OnTime()
      reads this`clock, this`waiting, this`fires, this`cachedNow
    {
      FiresOk() && cachedNow == if MainWaits() then clock - settings[0].resolution else clock
    }

    ghost predicate Counted()
      reads this`levels, this`fires
    {
      |levels| == |fires| == |settings| && CountersOk(levels, fires)
    }

    /** What holds between any two ticks or calls. */
    ghost predicate Valid()
      reads this, Buffers(), Datas()
    {
      Tied() && Kept() && Turned() && OnTime() && Counted() && NothingPending() && CallsOk(settings, added, calledAt)
    }

    /** What the world outside sees of the wheel. */
    ghost function Outside(): Situation
      reads this
    {
      Situation(clock, waiting, cachedNow, added, calledAt)
    }

    /** A tick that is not skipped. */
    method Process(idx: nat)
      requires Tied() && Kept() && Turned() && NothingPending() && idx < |levels|
      requires idx == MainLevel(settings, clock, |settings|)
      requires Divides(settings[0].resolution, clock) && clock == cachedNow + settings[0].resolution
      modifies this`cachedNow, this`views, this`turns, this`log
      modifies this`entriesToExecute, this`subEntriesToAdd, this`repeatingEntriesToAdd, Datas(), Buffers()
      ensures Tied() && Kept() && Turned() && NothingPending()
      ensures cachedNow == clock && RanNow(old(log))
    {
      hide Kept, LevelOk, SettingsOk, Divides, Quotient, Due;
      ghost var prev := cachedNow;
      FrontsAreDue(settings, turns, prev, clock, idx);
      OnLevelTickImpl(idx);
      AdvanceBuckets(idx);
      TurnedOn(settings, old(turns), turns, prev, clock, idx);
      ghost var before := log;
      OnAfterTick();
      RanBoth(old(log), before);
    }

    method SetCounter(idx: nat, counter: nat)
      requires Tied() && idx < |levels|
      modifies this`levels
      ensures Tied() && Buffers() == old(Buffers()) && Datas() == old(Datas())
      ensures levels == old(levels)[idx := old(levels)[idx].(tickCounter := counter)]
    {
      assert LevelOk(settings, levels[idx], idx, views[idx]);
      levels := levels[idx := levels[idx].(tickCounter := counter)];
      assert forall i :: 0 <= i < |levels| ==> levels[i].buffer == old(levels)[i].buffer;
    }

    /** Bookkeeping: the timer of level `idx` has fired at this instant. */
    method FireTimer(idx: nat)
      requires Tied() && FiresOk() && idx in waiting
      modifies this`waiting, this`fires
      ensures waiting == old(waiting) - {idx} && fires == old(fires)[idx := old(fires)[idx] + 1]
      ensures Tied() && FiresOk()
    {
      hide Divides, Quotient;
      waiting := waiting - {idx};
      fires := fires[idx := fires[idx] + 1];
    }

    /** The counting part of `onLevelTick` for a level below the top: the tick is skipped
        exactly when the level above ticks at the same instant. */
    method CountTick(idx: nat) returns (skipped: bool)
      requires Tied() && Counted() && FiresOk() && idx in waiting && idx < |levels| - 1
      modifies this`levels, this`fires, this`waiting
      ensures Tied() && Counted() && FiresOk() && waiting == old(waiting) - {idx}
      ensures Buffers() == old(Buffers()) && Datas() == old(Datas()) && |levels| == |old(levels)|
      ensures skipped <==> MainLevel(settings, clock, |settings|) != idx
    {
      hide Tied, SettingsOk, Divides, Quotient, Rest;
      TickMeans(settings, idx, clock, fires[idx]);
      SkipCount(idx);
      var counter := levels[idx].tickCounter + 1;
      var nSkip := levels[idx].skipTick;
      skipped := counter == nSkip;
      SetCounter(idx, if skipped then 0 else counter);
      FireTimer(idx);
    }

    lemma {:induction false} SkipCount(idx: nat)
      requires Tied() && idx < |levels| - 1
      ensures settings[idx].resolution > 0
      ensures levels[idx].skipTick == SkipTick(settings, idx)
    {
      assert LevelOk(settings, levels[idx], idx, views[idx]);
    }

    /** `onLevelTick`: the timer of level `idx` fires. */
    method OnLevelTick(idx: nat)
      requires Valid() && idx in waiting
      modifies this`levels, this`cachedNow, this`views, this`turns, this`fires, this`waiting, this`log
      modifies this`entriesToExecute, this`subEntriesToAdd, this`repeatingEntriesToAdd, Datas(), Buffers()
      ensures Valid() && waiting == old(waiting) - {idx}
      ensures RanNow(old(log)) && Buffers() == old(Buffers()) && Datas() == old(Datas())
      ensures cachedNow == if idx == MainLevel(settings, clock, |settings|) then clock else old(cachedNow)
    {
      hide Kept, Tied, LevelOk, SettingsOk, Divides, Quotient, Rest, CountersOk;
      if idx == |levels| - 1 {
        TickMeans(settings, idx, clock, fires[idx]);
        TopUncounted(levels, fires, fires[idx] + 1);
        FireTimer(idx);
        Process(idx);
      } else {
        var skipped := CountTick(idx);
        if !skipped {
          Process(idx);
        }
      }
    }

    method MoveClock(next: nat)
      requires Tied()
      modifies this`clock, this`waiting
      ensures Tied() && clock == next
      ensures waiting == set i | 0 <= i < |settings| && Divides(settings[i].resolution, clock)
    {
      hide Divides;
      clock := next;
      waiting := set i | 0 <= i < |settings| && Divides(settings[i].resolution, clock);
    }

    /** Time passes to the next instant, once all timers of this one have fired. */
    method PassTime()
      requires Valid() && waiting == {}
      modifies this`clock, this`waiting
      ensures Valid() && clock == old(clock) + settings[0].resolution
      ensures waiting == set i | 0 <= i < |settings| && Divides(settings[i].resolution, clock)
    {
      hide Tied, SettingsOk, Divides, Quotient, Balanced, InWheel, CountersOk, LogOk, AllTiming, MainLevel, Stamped;
      TimingLater(settings, views, turns, clock, clock + settings[0].resolution);
      NextInstant(settings, clock, clock + settings[0].resolution);
      MoveClock(clock + settings[0].resolution);
      NoneStamped(old(clock), clock);
    }

    /** `add`, `addOneShot` and `addRepeating`, called when `later` has passed since the timers
        last fired: fails exactly when no level has room for the interval. */
    method Add(callback: nat, interval: nat, repeating: bool, ghost later: nat) returns (ok: bool)
      requires Valid() && CanCall(settings, waiting, later)
      modifies this`views, this`added, this`calledAt, Datas()
      ensures Valid()
      ensures ok <==> LevelFor(settings, interval) < |settings|
      ensures added == old(added) + if ok then [Entry(callback, interval, repeating, cachedNow)] else []
      ensures calledAt == old(calledAt) + if ok then [clock + later] else []
    {
      hide Balanced, InWheel, LogOk, AllTiming, Stamped, FiresOk, CountersOk, LevelOk, SettingsOk, LevelFor, AllRepeat, CallsOk, MainLevel;
      var entry := Entry(callback, interval, repeating, cachedNow);
      CachedLags(later);
      hide OnTime, Counted;
      ok := AddNewEntry(entry);
      if ok {
        NoteAdded(entry, later, old(InWheel(views)));
      }
    }

    /** Bookkeeping: the entry that was put into the wheel counts as added. */
    ghost method NoteAdded(entry: Entry, later: nat, before: multiset<Entry>)
      requires AllTiming(settings, views, turns, clock) && LogOk(settings, log) && NothingPending()
      requires CallsOk(settings, added, calledAt) && cachedNow == entry.added
      requires entry.added <= clock + later <= entry.added + settings[0].resolution
      requires Balanced(added, log, before + multiset([]) + multiset([]) + multiset(Stamped(repeatingEntriesToAdd, clock)))
      requires InWheel(views) == before + multiset{entry}
      modifies this`added, this`calledAt
      ensures added == old(added) + [entry] && calledAt == old(calledAt) + [clock + later]
      ensures Kept() && CallsOk(settings, added, calledAt)
    {
      hide AllTiming, LogOk, Balanced, InWheel, Stamped, CallsOk;
      AddBalances(added, log, before, multiset(Stamped(repeatingEntriesToAdd, clock)), entry);
      OneMoreCall(settings, added, calledAt, entry, clock + later);
      added, calledAt := added + [entry], calledAt + [clock + later];
    }

    lemma {:induction false} CachedLags(later: nat)
      requires OnTime() && CanCall(settings, waiting, later)
      ensures SettingsOk(settings) && cachedNow <= clock + later <= cachedNow + settings[0].resolution
    {
    }

    // ----- What the wheel promises -----------------------------------------------

    /** Every run so far was in time: less than one bottom resolution before the deadline,
        and less than two resolutions of the level first used after it. What has not run is
        not that late yet either. */
    lemma {:induction false} Accurate()
      requires Valid()
      ensures forall k :: 0 <= k < |log| ==> InTime(settings, log[k].entry, log[k].at)
      ensures forall e <- InWheel(views) :: NotLate(settings, e, cachedNow)
    {
      forall e <- InWheel(views) ensures NotLate(settings, e, cachedNow) {
        var i, s := WhereInWheel(views, e);
        var k :| 0 <= k < |views[i][s]| && views[i][s][k] == e;
        assert LevelTiming(settings, views[i], i, turns[i], clock);
        assert SlotTiming(settings, views[i][s], i, Due(settings[i].resolution, turns[i], s), clock);
        StillTime(settings, e, i, turns[i], s, cachedNow, clock);
      }
    }

    /** What the caller sees: the first run of an entry comes less than two bottom resolutions
        before the interval has passed since the call, and less than two resolutions of the
        level first used after that. */
    lemma {:induction false} AccurateForCaller(k: nat, r: Run)
      requires Valid() && k < |added| && r in log && r.entry == added[k]
      ensures LevelFor(settings, r.entry.interval) < |settings| && |calledAt| == |added|
      ensures var deadline := calledAt[k] + r.entry.interval;
              && deadline < r.at + 2 * settings[0].resolution
              && r.at < deadline + 2 * settings[LevelFor(settings, r.entry.interval)].resolution
    {
      hide Balanced, AllTiming, LevelFor;
      var j :| 0 <= j < |log| && log[j] == r;
      assert InTime(settings, log[j].entry, log[j].at);
    }

    /** Whatever the user added, or a run of a repeating entry at the instant of that run,
        has either run or is in the wheel: as often as it was added, and nothing else. */
    lemma {:induction false} Conserved()
      requires Valid()
      ensures multiset(added) + Readds(log) == Ran(log) + InWheel(views)
    {
      assert Stamped([], clock) == [];
    }

    /** A one-shot entry runs exactly as often as it was added, once it is two resolutions late;
        before that, at most so often. */
    lemma {:induction false} OneShotRunsOnce(e: Entry)
      requires Valid() && !e.repeating
      ensures Ran(log)[e] <= multiset(added)[e]
      ensures !NotLate(settings, e, cachedNow) ==> Ran(log)[e] == multiset(added)[e]
    {
      Conserved();
      Accurate();
      OnlyRepeatingReadded(log, e);
      assert (multiset(added) + Readds(log))[e] == (Ran(log) + InWheel(views))[e];
    }

    /** A run of a repeating entry has put it back from that instant on: it is in the wheel
        or has run again. */
    lemma {:induction false} RepeatingRunsOn(r: Run)
      requires Valid() && r in log && r.entry.repeating
      ensures var next := r.entry.(added := r.at);
              && (next in InWheel(views) || next in Ran(log))
              && (!NotLate(settings, next, cachedNow) ==> next in Ran(log))
    {
      var next := r.entry.(added := r.at);
      Conserved();
      Accurate();
      ReaddedByRun(log, r);
      assert next in multiset(added) + Readds(log);
    }

    /** The odometer: when all timers of an instant have fired, each ring has advanced once
        for every multiple of its resolution so far. */
    lemma {:induction false} Odometer(i: nat)
      requires Valid() && waiting == {} && i < |settings|
      ensures cachedNow == clock && turns[i] == clock / settings[i].resolution
    {
    }
  }

  /** An entry is stamped with the cached time, which lags the time of the call by at most
      one bottom resolution. */
  predicate CallsOk(cfg: seq<Setting>, added: seq<Entry>, calledAt: seq<nat>) {
    && |calledAt| == |added| && cfg != []
    && forall k :: 0 <= k < |added| ==> added[k].added <= calledAt[k] <= added[k].added + cfg[0].resolution
  }

  lemma {:induction false} OneMoreCall(cfg: seq<Setting>, added: seq<Entry>, calledAt: seq<nat>, e: Entry, at: nat)
    requires CallsOk(cfg, added, calledAt) && e.added <= at <= e.added + cfg[0].resolution
    ensures CallsOk(cfg, added + [e], calledAt + [at])
  {
  }

  /** The entry is less than two resolutions of its level late. */
  predicate NotLate(cfg: seq<Setting>, e: Entry, now: nat) {
    LevelFor(cfg, e.interval) < |cfg| && now < Deadline(e) + 2 * cfg[LevelFor(cfg, e.interval)].resolution
  }

  lemma {:induction false} StillTime(cfg: seq<Setting>, e: Entry, i: nat, turns: nat, s: nat, now: nat, later: nat)
    requires SettingsOk(cfg) && i < |cfg| && turns == Quotient(now, cfg[i].resolution)
    requires TimingOk(cfg, e, i, Due(cfg[i].resolution, turns, s), later)
    ensures NotLate(cfg, e, now)
  {
    LowerDivides(cfg, i, LevelFor(cfg, e.interval));
    BeforeDue(cfg[i].resolution, now, s);
  }

  lemma {:induction false} BeforeDue(resolution: nat, now: nat, s: nat)
    requires resolution > 0
    ensures now < Due(resolution, Quotient(now, resolution), s)
  {
    hide Quotient, Rest, Due;
    Euclid(now, resolution);
    DueIs(resolution, Quotient(now, resolution), s);
  }

  lemma {:induction false} OnlyRepeatingReadded(log: seq<Run>, e: Entry)
    requires !e.repeating
    ensures Readds(log)[e] == 0
  {
    if log != [] {
      OnlyRepeatingReadded(log[..|log| - 1], e);
    }
  }

  lemma {:induction false} ReaddedByRun(log: seq<Run>, r: Run)
    requires r in log && r.entry.repeating
    ensures r.entry.(added := r.at) in Readds(log)
  {
    if r != log[|log| - 1] {
      ReaddedByRun(log[..|log| - 1], r);
    }
  }

  lemma {:induction false} NoneStamped(now: nat, later: nat)
    ensures Stamped([], now) == Stamped([], later) == []
  {
  }

  lemma {:induction false} FirstStamped(es: seq<Entry>, k: nat, now: nat)
    requires k < |es|
    ensures Stamped(es[k..], now) != [] && Stamped(es[k..], now)[0] == es[k].(added := now)
    ensures Stamped(es[k..], now)[1..] == Stamped(es[k + 1..], now)
  {
  }

  /** What is due at the next instant. */
  lemma {:induction false} NextInstant(cfg: seq<Setting>, clock: nat, next: nat)
    requires SettingsOk(cfg) && Divides(cfg[0].resolution, clock) && next == clock + cfg[0].resolution
    ensures next > clock && Divides(cfg[0].resolution, next) && Divides(cfg[MainLevel(cfg, next, |cfg|)].resolution, next)
    ensures forall i :: 0 <= i < |cfg| ==>
              Quotient(next, cfg[i].resolution) == Quotient(clock, cfg[i].resolution) + if Divides(cfg[i].resolution, next) then 1 else 0
  {
    DividesItself(cfg[0].resolution);
    DividesSum(cfg[0].resolution, clock, cfg[0].resolution);
    MainLevelIs(cfg, next, |cfg|);
    forall i | 0 <= i < |cfg|
      ensures Quotient(next, cfg[i].resolution) == Quotient(clock, cfg[i].resolution) + if Divides(cfg[i].resolution, next) then 1 else 0
    {
      LowerDivides(cfg, 0, i);
      QuotientTick(cfg[i].resolution, cfg[0].resolution, next);
    }
  }

  lemma {:induction false} AddBalances(added: seq<Entry>, log: seq<Run>, wheel: multiset<Entry>, repeats: multiset<Entry>, e: Entry)
    requires Balanced(added, log, wheel + multiset([]) + multiset([]) + repeats)
    ensures Balanced(added + [e], log, (wheel + multiset{e}) + multiset([]) + multiset([]) + repeats)
  {
    forall x: Entry ensures (multiset(added + [e]) + Readds(log))[x]
      == (Ran(log) + ((wheel + multiset{e}) + multiset([]) + multiset([]) + repeats))[x] {
      assert (multiset(added) + Readds(log))[x] == (Ran(log) + (wheel + multiset([]) + multiset([]) + repeats))[x];
    }
  }

  // ----- Runs --------------------------------------------------------------------

  /** What happens to a wheel from outside: the timer of a level fires, time passes, a timer
      is added when `later` has passed since the timers last fired. */
  datatype Event = Fires(level: nat) | TimePasses | Added(callback: nat, interval: nat, repeating: bool, later: nat)

  /** The clock, the timers yet to fire, the time the wheel last looked at the clock, what was
      added and when. */
  datatype Situation = Situation(clock: nat, waiting: set<nat>, cachedNow: nat, added: seq<Entry>, calledAt: seq<nat>)

  const NOTHING_YET: Situation := Situation(0, {}, 0, [], [])

  /** A call comes before the next instant; while timers have yet to fire, no time has passed
      since this one. */
  predicate CanCall(cfg: seq<Setting>, waiting: set<nat>, later: nat) {
    cfg != [] && later < cfg[0].resolution && (waiting != {} ==> later == 0)
  }

  /** What the events amount to, without any wheel. Those that the clock does not allow at
      their point are passed over. */
  function Replay(cfg: seq<Setting>, events: seq<Event>): Situation
    requires SettingsOk(cfg)
  {
    if events == [] then NOTHING_YET else After(cfg, Replay(cfg, events[..|events| - 1]), events[|events| - 1])
  }

  function After(cfg: seq<Setting>, o: Situation, event: Event): Situation
    requires SettingsOk(cfg)
  {
    match event
    case Fires(level) =>
      if level !in o.waiting then o
      else o.(waiting := o.waiting - {level},
              cachedNow := if level == MainLevel(cfg, o.clock, |cfg|) then o.clock else o.cachedNow)
    case TimePasses =>
      if o.waiting != {} then o
      else
        var next := o.clock + cfg[0].resolution;
        o.(clock := next, waiting := set i | 0 <= i < |cfg| && Divides(cfg[i].resolution, next))
    case Added(callback, interval, repeating, later) =>
      if !CanCall(cfg, o.waiting, later) || LevelFor(cfg, interval) >= |cfg| then o
      else o.(added := o.added + [Entry(callback, interval, repeating, o.cachedNow)], calledAt := o.calledAt + [o.clock + later])
  }

  /** Every run: whatever is added, and in whichever order simultaneous timers fire, the wheel
      keeps its promises and has taken exactly the events that the clock allows. */
  method EveryRun(cfg: seq<Setting>, events: seq<Event>) returns (wheel: HTimerWheel)
    requires SettingsOk(cfg)
    ensures wheel.Valid() && wheel.settings == cfg
    ensures wheel.Outside() == Replay(cfg, events)
  {
    hide HTimerWheel.Valid, SettingsOk, InWheel, Divides, MainLevel, LevelFor;
    wheel := new HTimerWheel(cfg);
    assert events[..0] == [];
    for k := 0 to |events|
      invariant wheel.Valid() && wheel.settings == cfg && wheel.Outside() == Replay(cfg, events[..k])
      invariant fresh(wheel) && fresh(wheel.Buffers()) && fresh(wheel.Datas())
    {
      assert events[..k + 1][..k] == events[..k];
      match events[k] {
        case Fires(level) => if level in wheel.waiting { wheel.OnLevelTick(level); }
        case TimePasses => if wheel.waiting == {} { wheel.PassTime(); }
        case Added(callback, interval, repeating, later) =>
          if CanCall(cfg, wheel.waiting, later) { var _ := wheel.Add(callback, interval, repeating, later); }
      }
    }
    assert events[..|events|] == events;
  }

  lemma {:induction false} TopUncounted(levels: seq<Level>, fires: seq<nat>, n: nat)
    requires |levels| == |fires| > 0 && CountersOk(levels, fires)
    ensures CountersOk(levels, fires[|fires| - 1 := n])
  {
  }

  /** A timer that fires is that of the main level exactly if the level above does not tick. */
  lemma {:induction false} TickMeans(cfg: seq<Setting>, idx: nat, clock: nat, fires: nat)
    requires SettingsOk(cfg) && idx < |cfg| && Divides(cfg[0].resolution, clock) && Divides(cfg[idx].resolution, clock)
    requires Quotient(clock, cfg[idx].resolution) == fires + 1
    ensures idx == |cfg| - 1 ==> MainLevel(cfg, clock, |cfg|) == idx
    ensures idx < |cfg| - 1 ==>
              var skip := SkipTick(cfg, idx);
              && skip > 0
              && Rest(fires + 1, skip) == (if Rest(fires, skip) + 1 == skip then 0 else Rest(fires, skip) + 1)
              && (Rest(fires, skip) + 1 == skip <==> MainLevel(cfg, clock, |cfg|) != idx)
  {
    MainLevelIs(cfg, clock, |cfg|);
    if idx < |cfg| - 1 {
      LowerDivides(cfg, idx, idx + 1);
      var skip := QuotientOf(cfg[idx].resolution, cfg[idx + 1].resolution);
      assert skip > 0 by {
        assert cfg[idx + 1].resolution > 0;
      }
      RestStep(fires, skip);
      SkippedTick(cfg[idx].resolution, skip, clock);
    }
  }

  /** At an instant, the front slots of the main level and those below it come up. */
  lemma {:induction false} FrontsAreDue(cfg: seq<Setting>, turns: seq<nat>, prev: nat, clock: nat, idx: nat)
    requires SettingsOk(cfg) && |turns| == |cfg| && idx == MainLevel(cfg, clock, |cfg|)
    requires clock == prev + cfg[0].resolution && Divides(cfg[0].resolution, clock)
    requires forall i :: 0 <= i < |turns| ==> turns[i] == Quotient(prev, cfg[i].resolution)
    ensures forall i :: 0 <= i <= idx ==> Due(cfg[i].resolution, turns[i], 0) == clock
  {
    MainLevelIs(cfg, clock, |cfg|);
    forall i | 0 <= i <= idx ensures Due(cfg[i].resolution, turns[i], 0) == clock {
      LowerDivides(cfg, 0, i);
      QuotientTick(cfg[i].resolution, cfg[0].resolution, clock);
      var q := QuotientOf(cfg[i].resolution, clock);
    }
  }

  /** Exactly the rings of the main level and those below it turn on. */
  lemma {:induction false} TurnedOn(cfg: seq<Setting>, turns: seq<nat>, turns': seq<nat>, prev: nat, clock: nat, idx: nat)
    requires SettingsOk(cfg) && |turns| == |turns'| == |cfg| && idx == MainLevel(cfg, clock, |cfg|)
    requires clock == prev + cfg[0].resolution && Divides(cfg[0].resolution, clock)
    requires forall i :: 0 <= i < |turns| ==> turns[i] == Quotient(prev, cfg[i].resolution)
    requires forall i :: 0 <= i < |turns| ==> turns'[i] == turns[i] + if i <= idx then 1 else 0
    ensures forall i :: 0 <= i < |turns'| ==> turns'[i] == Quotient(clock, cfg[i].resolution)
  {
    MainLevelIs(cfg, clock, |cfg|);
    forall i | 0 <= i < |cfg| ensures turns'[i] == Quotient(clock, cfg[i].resolution) {
      LowerDivides(cfg, 0, i);
      QuotientTick(cfg[i].resolution, cfg[0].resolution, clock);
    }
  }

  lemma {:induction false} EmptyLevel(n: nat)
    ensures InLevel(EmptySlots(n)) == multiset{}
  {
    if n > 0 {
      EmptyLevel(n - 1);
      assert EmptySlots(n)[..n - 1] == EmptySlots(n - 1);
    }
  }

  lemma {:induction false} EmptyWheel(views: seq<View>)
    requires forall i :: 0 <= i < |views| ==> InLevel(views[i]) == multiset{}
    ensures InWheel(views) == multiset{}
  {
    if views != [] {
      EmptyWheel(views[..|views| - 1]);
    }
  }

  /** A new wheel holds nothing. */
  lemma {:induction false} StartsEmpty(cfg: seq<Setting>, views: seq<View>, turns: seq<nat>)
    requires |views| == |turns| == |cfg|
    requires forall i :: 0 <= i < |cfg| ==> views[i] == EmptySlots(cfg[i].slots)
    ensures InWheel(views) == multiset{} && AllTiming(cfg, views, turns, 0)
  {
    forall i | 0 <= i < |views| ensures InLevel(views[i]) == multiset{} {
      EmptyLevel(cfg[i].slots);
    }
    EmptyWheel(views);
    forall i | 0 <= i < |cfg| ensures LevelTiming(cfg, views[i], i, turns[i], 0) {
      forall s | 0 <= s < |views[i]| ensures SlotTiming(cfg, views[i][s], i, Due(cfg[i].resolution, turns[i], s), 0) {
        assert views[i][s] == [];
      }
    }
  }

  lemma {:induction false} StartsAtZero(cfg: seq<Setting>)
    requires SettingsOk(cfg)
    ensures Divides(cfg[0].resolution, 0)
    ensures forall i :: 0 <= i < |cfg| ==> Quotient(0, cfg[i].resolution) == 0
    ensures forall i :: 0 <= i < |cfg| - 1 ==> SkipTick(cfg, i) > 0 && Rest(0, SkipTick(cfg, i)) == 0
  {
    forall i | 0 <= i < |cfg| - 1 ensures SkipTick(cfg, i) > 0 {
      LowerDivides(cfg, i, i + 1);
      var skip := QuotientOf(cfg[i].resolution, cfg[i + 1].resolution);
    }
  }

  /** The first of the entries to place moves into the wheel. */
  lemma {:induction false} Placed(wheel: multiset<Entry>, es: seq<Entry>, rest: multiset<Entry>)
    requires es != []
    ensures wheel + multiset{} + multiset(es) + rest == (wheel + multiset{es[0]}) + multiset{} + multiset(es[1..]) + rest
  {
    assert es == [es[0]] + es[1..];
  }

  lemma {:induction false} NothingElse(wheel: multiset<Entry>, es: seq<Entry>)
    ensures wheel + multiset{} + multiset(es) + multiset{} == wheel + multiset([]) + multiset([]) + multiset(es)
  {
  }

  /** An entry placed by its remaining time is in time for it. */
  lemma {:induction false} PlacedInTime(cfg: seq<Setting>, e: Entry, i: nat, now: nat)
    requires SettingsOk(cfg) && Divides(cfg[0].resolution, now) && e.added <= now <= Deadline(e)
    requires i == LevelFor(cfg, Remaining(e, now)) < |cfg| && LevelFor(cfg, e.interval) < |cfg|
    requires e.added == now || LevelFor(cfg, e.interval) > 0
    ensures TimingOk(cfg, e, i, Due(cfg[i].resolution, Quotient(now, cfg[i].resolution),
                                    SlotIdx(Remaining(e, now), cfg[i].resolution, true)), now)
  {
    hide Due, SlotIdx;
    SlotComesUp(Remaining(e, now), cfg[i].resolution, now);
    LevelForMonotone(cfg, Remaining(e, now), e.interval, 0);
    if LevelFor(cfg, e.interval) == 0 {
      var turns := QuotientOf(cfg[0].resolution, now);
      DueExactly(e.interval, cfg[0].resolution, turns);
    }
  }

  /** One more entry in a slot that comes up in time for it. */
  lemma {:induction false} SlotGains(cfg: seq<Setting>, views: seq<View>, turns: seq<nat>, now: nat, later: nat, i: nat, s: nat, e: Entry)
    requires AllTiming(cfg, views, turns, later) && i < |views| && s < |views[i]| && now <= later
    requires TimingOk(cfg, e, i, Due(cfg[i].resolution, turns[i], s), now)
    ensures AllTiming(cfg, WithSlot(views, i, s, views[i][s] + [e]), turns, later)
    ensures InWheel(WithSlot(views, i, s, views[i][s] + [e])) == InWheel(views) + multiset{e}
  {
    hide Due, InWheel;
    assert LevelTiming(cfg, views[i], i, turns[i], later);
    assert SlotTiming(cfg, views[i][s], i, Due(cfg[i].resolution, turns[i], s), later);
    TimingWithSlot(cfg, views, turns, later, i, s, views[i][s] + [e]);
    InWheelWithSlot(views, i, s, views[i][s] + [e]);
    Gained(InWheel(views), InWheel(WithSlot(views, i, s, views[i][s] + [e])), views[i][s], e);
  }

  lemma {:induction false} Gained(before: multiset<Entry>, after: multiset<Entry>, es: seq<Entry>, e: Entry)
    requires after + multiset(es) == before + multiset(es + [e])
    ensures after == before + multiset{e}
  {
    forall x: Entry ensures after[x] == (before + multiset{e})[x] {
      assert (after + multiset(es))[x] == (before + multiset(es + [e]))[x];
    }
  }

  lemma {:induction false} NoDelay(resolution: nat)
    requires resolution > 0
    ensures SlotIdx(0, resolution, true) == 0
  {
  }

  lemma {:induction false} ManySlots(cfg: seq<Setting>, i: nat)
    requires SettingsOk(cfg) && i < |cfg|
    ensures cfg[i].slots > 1 && cfg[i].resolution > 0
  {
  }

  /** The entries of the slot that comes up now. */
  lemma {:induction false} CurrentTiming(cfg: seq<Setting>, views: seq<View>, turns: seq<nat>, now: nat, i: nat)
    requires AllTiming(cfg, views, turns, now) && i < |cfg| && views[i] != []
    requires Due(cfg[i].resolution, turns[i], 0) == now
    ensures SlotTiming(cfg, views[i][0], i, now, now)
  {
    hide Due;
    assert LevelTiming(cfg, views[i], i, turns[i], now);
  }

  lemma {:induction false} CurrentInTime(cfg: seq<Setting>, es: seq<Entry>, k: nat, now: nat)
    requires SettingsOk(cfg) && SlotTiming(cfg, es, 0, now, now) && k < |es|
    ensures InTime(cfg, es[k], now)
  {
    SortedOut(cfg, es[k], 0, now);
  }

  lemma {:induction false} EmptyTiming(cfg: seq<Setting>, i: nat, due: nat, now: nat)
    requires i < |cfg|
    ensures SlotTiming(cfg, [], i, due, now)
  {
  }

  /** Entries that leave the wheel for the lists are still held. */
  lemma {:induction false} Moved(wheel: multiset<Entry>, wheel': multiset<Entry>, current: multiset<Entry>, pending: multiset<Entry>,
              subs: multiset<Entry>, subs0: multiset<Entry>, repeats: multiset<Entry>)
    requires wheel' + current == wheel + multiset{}
    requires pending + subs == subs0 + current
    ensures wheel' + pending + subs + repeats == wheel + multiset{} + subs0 + repeats
  {
    forall e: Entry ensures (wheel' + pending + subs + repeats)[e] == (wheel + multiset{} + subs0 + repeats)[e] {
      assert (wheel' + current)[e] == (wheel + multiset{})[e] && (pending + subs)[e] == (subs0 + current)[e];
    }
  }

  /** Running the first pending entry keeps the books. */
  lemma {:induction false} RunOne(added: seq<Entry>, log: seq<Run>, r: Run, wheel: multiset<Entry>, pending: seq<Entry>, subs: seq<Entry>,
               repeats: seq<Entry>, repeats': seq<Entry>)
    requires pending != [] && pending[0] == r.entry
    requires Balanced(added, log, wheel + multiset(pending) + multiset(subs) + multiset(Stamped(repeats, r.at)))
    requires repeats' == if r.entry.repeating then repeats + [r.entry] else repeats
    ensures Balanced(added, log + [r], wheel + multiset(pending[1..]) + multiset(subs) + multiset(Stamped(repeats', r.at)))
  {
    hide Balanced;
    var held := wheel + multiset(pending[1..]) + multiset(subs) + multiset(Stamped(repeats, r.at));
    assert pending == [r.entry] + pending[1..];
    assert held + multiset{r.entry} == wheel + multiset(pending) + multiset(subs) + multiset(Stamped(repeats, r.at));
    RunBalances(added, log, held, r);
    if r.entry.repeating {
      assert Stamped(repeats', r.at) == Stamped(repeats, r.at) + [r.entry.(added := r.at)];
    }
    assert held + Readded(r) == wheel + multiset(pending[1..]) + multiset(subs) + multiset(Stamped(repeats', r.at));
  }

  lemma {:induction false} InTimeFits(cfg: seq<Setting>, e: Entry, now: nat)
    requires InTime(cfg, e, now)
    ensures LevelFor(cfg, e.interval) < |cfg|
  {
  }

  /** An entry taken goes to either list. */
  lemma {:induction false} Appended(a: seq<Entry>, b: seq<Entry>, before: multiset<Entry>, taken: seq<Entry>, e: Entry)
    requires multiset(a) + multiset(b) == before + multiset(taken)
    ensures multiset(a + [e]) + multiset(b) == before + multiset(taken + [e])
    ensures multiset(a) + multiset(b + [e]) == before + multiset(taken + [e])
  {
    assert multiset(a + [e]) + multiset(b) == multiset(a) + multiset(b) + multiset{e};
    assert multiset(a) + multiset(b + [e]) == multiset(a) + multiset(b) + multiset{e};
    assert before + multiset(taken + [e]) == before + multiset(taken) + multiset{e};
  }

  /** An entry whose slot comes up now at a level: it is in time to run if little is left,
      and has a future deadline if not. */
  lemma {:induction false} SortedOut(cfg: seq<Setting>, e: Entry, i: nat, now: nat)
    requires SettingsOk(cfg) && i < |cfg| && TimingOk(cfg, e, i, now, now)
    ensures var remaining := Remaining(e, now);
            i > 0 ==>
            if remaining < cfg[0].resolution && remaining < cfg[0].resolution - remaining then InTime(cfg, e, now)
            else ToPlace(cfg, e, now)
    ensures i == 0 ==> InTime(cfg, e, now)
  {
    LowerDivides(cfg, i, LevelFor(cfg, e.interval));
  }
}
