/** The arithmetic of the hierarchical timer wheel: where `getSlotIdx` puts a delay, when
    that slot comes up, and which ticks of which level the clock causes. Times are
    milliseconds since the start of the wheel. */
module WheelTiming {
  import opened Bits

  datatype Setting = Setting(resolution: nat, slots: nat)

  datatype Entry = Entry(callback: nat, interval: nat, repeating: bool, added: nat)

  function Deadline(e: Entry): nat {
    e.added + e.interval
  }

  /** `getRemainingTime`. */
  function Remaining(e: Entry, now: nat): nat {
    if Deadline(e) <= now then 0 else Deadline(e) - now
  }

  /** Less than half a resolution is left until the deadline, or it has passed. */
  predicate IsClose(e: Entry, now: nat, resolution: nat) {
    2 * Deadline(e) < 2 * now + resolution
  }

  predicate AllClose(es: seq<Entry>, now: nat, resolution: nat) {
    forall k :: 0 <= k < |es| ==> IsClose(es[k], now, resolution)
  }

  predicate NoneClose(es: seq<Entry>, now: nat, resolution: nat) {
    forall k :: 0 <= k < |es| ==> !IsClose(es[k], now, resolution)
  }

  lemma {:induction false} NothingClose(now: nat, resolution: nat)
    ensures AllClose([], now, resolution) && NoneClose([], now, resolution)
  {
  }

  /** Comparing the remaining time with what is missing to a resolution tells close ones. */
  lemma {:induction false} OneMoreSorted(close: seq<Entry>, far: seq<Entry>, e: Entry, now: nat, resolution: nat)
    requires resolution > 0 && AllClose(close, now, resolution) && NoneClose(far, now, resolution)
    ensures if Remaining(e, now) < resolution && Remaining(e, now) < resolution - Remaining(e, now)
            then AllClose(close + [e], now, resolution) else NoneClose(far + [e], now, resolution)
  {
  }

  // ----- Divisibility ------------------------------------------------------------

  predicate Divides(d: nat, n: nat) {
    d > 0 && n % d == 0
  }

  lemma {:induction false} QuotientOf(d: nat, n: nat) returns (q: nat)
    requires Divides(d, n)
    ensures n == d * q && q == n / d
  {
    q := n / d;
  }

  lemma {:induction false} DividesProduct(d: nat, q: nat)
    requires d > 0
    ensures Divides(d, d * q) && d * q / d == q
  {
    DivUnique(d * q, d, q, 0);
  }

  lemma {:induction false} DividesTransitive(a: nat, b: nat, c: nat)
    requires Divides(a, b) && Divides(b, c)
    ensures Divides(a, c)
  {
    var p := QuotientOf(a, b);
    var q := QuotientOf(b, c);
    assert c == a * (p * q) by {
      assert c == (a * p) * q;
    }
    DividesProduct(a, p * q);
  }

  lemma {:induction false} DividesSum(d: nat, a: nat, b: nat)
    requires Divides(d, a)
    ensures Divides(d, a + b) <==> Divides(d, b)
    ensures (a + b) / d == a / d + b / d
  {
    var q := QuotientOf(d, a);
    assert b == d * (b / d) + b % d;
    assert a + b == d * (q + b / d) + b % d by {
      assert d * (q + b / d) == d * q + d * (b / d);
    }
    DivUnique(a + b, d, q + b / d, b % d);
  }

  lemma {:induction false} DividesAtMost(d: nat, n: nat)
    requires Divides(d, n) && n > 0
    ensures d <= n
  {
    var q := QuotientOf(d, n);
    assert q != 0;
    assert n == d + d * (q - 1);
  }

  // ----- Settings ----------------------------------------------------------------

  /** What the ideal clock needs: resolutions of which each divides the next, and at least
      two slots at every level. */
  predicate SettingsOk(cfg: seq<Setting>) {
    && |cfg| > 0
    && (forall i :: 0 <= i < |cfg| ==> cfg[i].resolution > 0 && cfg[i].slots >= 2)
    && (forall i :: 0 < i < |cfg| ==> Divides(cfg[i - 1].resolution, cfg[i].resolution))
  }

  lemma {:induction false} LowerDivides(cfg: seq<Setting>, i: nat, j: nat)
    requires SettingsOk(cfg) && i <= j < |cfg|
    ensures Divides(cfg[i].resolution, cfg[j].resolution)
    ensures cfg[i].resolution <= cfg[j].resolution
    decreases j - i
  {
    if i < j {
      LowerDivides(cfg, i, j - 1);
      DividesTransitive(cfg[i].resolution, cfg[j - 1].resolution, cfg[j].resolution);
      DividesAtMost(cfg[i].resolution, cfg[j].resolution);
    } else {
      DividesProduct(cfg[i].resolution, 1);
    }
  }

  function Capacity(s: Setting): nat {
    s.resolution * s.slots
  }

  /** The first level from `from` on that has room for a delay, or the number of levels. */
  function LevelFor(cfg: seq<Setting>, delay: nat, from: nat := 0): (i: nat)
    requires from <= |cfg|
    ensures from <= i <= |cfg|
    decreases |cfg| - from
  {
    if from == |cfg| || delay < Capacity(cfg[from]) then from else LevelFor(cfg, delay, from + 1)
  }

  /** The level is the lowest one that has room. */
  lemma {:induction false} LevelForIsLowest(cfg: seq<Setting>, delay: nat, i: nat)
    ensures LevelFor(cfg, delay) == i
       <==> && i <= |cfg| && (i < |cfg| ==> delay < cfg[i].resolution * cfg[i].slots)
            && forall j :: 0 <= j < i ==> delay >= cfg[j].resolution * cfg[j].slots
  {
    LowestFrom(cfg, delay, 0);
  }

  lemma {:induction false} LowestFrom(cfg: seq<Setting>, delay: nat, from: nat)
    requires from <= |cfg|
    ensures var i := LevelFor(cfg, delay, from);
            && (i < |cfg| ==> delay < Capacity(cfg[i]))
            && forall j :: from <= j < i ==> delay >= Capacity(cfg[j])
    decreases |cfg| - from
  {
    if from < |cfg| {
      LowestFrom(cfg, delay, from + 1);
    }
  }

  /** A shorter delay never needs a higher level. */
  lemma {:induction false} LevelForMonotone(cfg: seq<Setting>, shorter: nat, longer: nat, from: nat)
    requires from <= |cfg| && shorter <= longer
    ensures LevelFor(cfg, shorter, from) <= LevelFor(cfg, longer, from)
    decreases |cfg| - from
  {
    if from < |cfg| {
      LevelForMonotone(cfg, shorter, longer, from + 1);
    }
  }

  lemma {:induction false} LevelForFits(cfg: seq<Setting>, delay: nat, from: nat)
    requires from <= |cfg|
    ensures LevelFor(cfg, delay, from) < |cfg| ==> delay < Capacity(cfg[LevelFor(cfg, delay, from)])
    decreases |cfg| - from
  {
    if from < |cfg| {
      LevelForFits(cfg, delay, from + 1);
    }
  }

  // ----- The slot of a delay -----------------------------------------------------

  function Quotient(n: nat, d: nat): nat
    requires d > 0
  {
    n / d
  }

  function Rest(n: nat, d: nat): nat
    requires d > 0
  {
    n % d
  }

  lemma {:induction false} Euclid(n: nat, d: nat)
    requires d > 0
    ensures n == d * Quotient(n, d) + Rest(n, d) && Rest(n, d) < d
  {
  }

  /** The closed form of `getSlotIdx`. */
  function SlotIdx(delay: nat, resolution: nat, isBottom: bool): nat
    requires resolution > 0
  {
    var whole, over := Quotient(delay, resolution), Rest(delay, resolution);
    var idx := if whole == 0 then 0 else if over > 0 then whole - 1 else whole;
    if isBottom && idx == 0 && resolution - over < over then 1 else idx
  }

  /** `getSlotIdx`: the loop that counts up to the delay, and the rounding of short ones. */
  method GetSlotIdx(delay: nat, resolution: nat, slots: nat, isBottom: bool) returns (r: Result)
    requires resolution > 0
    ensures r == if delay > resolution * slots then OutOfRange else Found(SlotIdx(delay, resolution, isBottom))
  {
    if delay > resolution * slots {
      return OutOfRange;
    }
    hide Quotient, Rest;
    Euclid(delay, resolution);
    var overflow := Rest(delay, resolution);
    var toConsider := delay - overflow;
    ghost var whole := Quotient(delay, resolution);
    var idx, current := 0, 0;
    Ordered(resolution, 1, whole);
    if delay < resolution {
      assert whole == 0 && overflow == delay;
    } else {
      assert whole > 0;
      ghost var stop := if overflow > 0 then whole - 1 else whole;
      while true
        invariant 0 <= idx <= stop && current == resolution * idx
        decreases stop - idx
      {
        assert current + resolution == resolution * (idx + 1);
        current := current + resolution;
        Ordered(resolution, idx + 1, whole);
        if overflow > 0 {
          if current < toConsider {
            idx := idx + 1;
          } else {
            break;
          }
        } else {
          if current <= toConsider {
            idx := idx + 1;
          } else {
            break;
          }
        }
      }
    }
    if isBottom {
      if idx == 0 {
        var tickDelta := resolution - overflow;
        if tickDelta < overflow {
          idx := idx + 1;
        }
      }
    } else if delay < resolution {
      idx := 0;
    }
    return Found(idx);
  }

  datatype Result = Found(idx: nat) | OutOfRange

  lemma {:induction false} Ordered(d: nat, a: nat, b: nat)
    requires d > 0
    ensures d * a < d * b <==> a < b
    ensures d * a == d * b <==> a == b
  {
    MulStep(d, a, b);
    MulStep(d, b, a);
  }

  /** The index is that of a slot for every delay below the capacity, exactly when there
      are two slots or rounding up is impossible. */
  lemma {:induction false} SlotIdxInRange(resolution: nat, slots: nat)
    requires resolution > 0 && slots > 0
    ensures (forall delay: nat :: delay < resolution * slots ==> SlotIdx(delay, resolution, true) < slots)
       <==> slots >= 2 || resolution <= 2
  {
    if slots >= 2 || resolution <= 2 {
      forall delay: nat | delay < resolution * slots ensures SlotIdx(delay, resolution, true) < slots {
        OneSlotIdx(delay, resolution, slots);
      }
    } else {
      var delay := resolution - 1;
      DivUnique(delay, resolution, 0, delay);
      assert delay < resolution * slots && SlotIdx(delay, resolution, true) == 1;
    }
  }

  lemma {:induction false} OneSlotIdx(delay: nat, resolution: nat, slots: nat)
    requires resolution > 0 && slots > 0 && delay < resolution * slots
    requires slots >= 2 || resolution <= 2
    ensures SlotIdx(delay, resolution, true) < slots
  {
    assert delay == resolution * (delay / resolution) + delay % resolution;
    Ordered(resolution, delay / resolution, slots);
    assert resolution * (delay / resolution) < resolution * slots;
  }

  // ----- When a slot comes up ----------------------------------------------------

  /** When the slot at position `s` of a ring that has advanced `turns` times is processed. */
  function Due(resolution: nat, turns: nat, s: nat): nat {
    resolution * (turns + 1 + s)
  }

  /** A slot that comes up at `due` serves a deadline: it is less than two resolutions away,
      and if `exact` less than one before it. */
  predicate Near(due: nat, deadline: nat, resolution: nat, exact: bool) {
    && due < deadline + 2 * resolution && deadline < due + 2 * resolution
    && (exact ==> deadline < due + resolution)
  }

  /** Where a delay is put, its slot comes up less than two resolutions before or after the
      deadline; at the bottom level (where the time is a multiple of the resolution) it
      comes up less than one resolution before. */
  lemma {:induction false} SlotComesUp(delay: nat, resolution: nat, now: nat)
    requires resolution > 0
    ensures Near(Due(resolution, Quotient(now, resolution), SlotIdx(delay, resolution, true)), now + delay, resolution,
                 Rest(now, resolution) == 0)
  {
    hide SlotIdx, Due, Rounds, Near, Quotient, Rest;
    SlotProduct(delay, resolution);
    Euclid(now, resolution);
    Euclid(delay, resolution);
    ComesUp(resolution, now, Quotient(now, resolution), Rest(now, resolution),
            delay, Quotient(delay, resolution), Rest(delay, resolution), SlotIdx(delay, resolution, true));
  }

  lemma {:induction false} ComesUp(resolution: nat, now: nat, turns: nat, into: nat, delay: nat, whole: nat, over: nat, idx: nat)
    requires now == resolution * turns + into && delay == resolution * whole + over
    requires into < resolution && over < resolution && Rounds(resolution, resolution * whole, over, resolution * idx)
    ensures Near(Due(resolution, turns, idx), now + delay, resolution, into == 0)
  {
    DueIs(resolution, turns, idx);
    ComesUpNear(resolution, resolution * turns, into, resolution * whole, over, resolution * idx);
  }

  lemma {:induction false} DueIs(resolution: nat, turns: nat, s: nat)
    ensures Due(resolution, turns, s) == resolution * turns + resolution + resolution * s
  {
  }

  /** How far the product of index and resolution is from the delay. */
  predicate Rounds(resolution: nat, whole: nat, over: nat, slot: nat) {
    if whole == 0 then slot == if resolution - over < over then resolution else 0
    else if over == 0 then slot == whole
    else slot == if whole == resolution && resolution - over < over then whole else whole - resolution
  }

  lemma {:induction false} SlotProduct(delay: nat, resolution: nat)
    requires resolution > 0
    ensures Rounds(resolution, resolution * Quotient(delay, resolution), Rest(delay, resolution),
                   resolution * SlotIdx(delay, resolution, true))
  {
    var whole := Quotient(delay, resolution);
    if whole > 0 {
      assert resolution * whole == resolution * (whole - 1) + resolution;
    }
  }

  lemma {:induction false} ComesUpNear(resolution: nat, turned: nat, into: nat, whole: nat, over: nat, slot: nat)
    requires into < resolution && over < resolution && Rounds(resolution, whole, over, slot)
    ensures Near(turned + resolution + slot, turned + into + whole + over, resolution, into == 0)
  {
  }

  /** When a delay that begins at a multiple of the resolution comes up, exactly. One of whole
      resolutions is a resolution late. Any other of two resolutions or more is early by the
      rest. One between one and two resolutions comes up at the multiple that is nearer, one
      below a resolution after one resolution or, if it is more than half a resolution,
      after two. */
  function ComesUpAt(start: nat, delay: nat, resolution: nat): int {
    var deadline, rest := start + delay, if resolution == 0 then 0 else delay % resolution;
    if delay < resolution then start + if 2 * delay <= resolution then resolution else 2 * resolution
    else if rest == 0 then deadline + resolution
    else if delay < 2 * resolution && 2 * rest > resolution then deadline - rest + resolution
    else deadline - rest
  }

  /** Where a delay is put at a multiple of the resolution, its slot comes up just then; so no
      delay below two resolutions is more than half a resolution early. */
  lemma {:induction false} DueExactly(delay: nat, resolution: nat, turns: nat)
    requires resolution > 0
    ensures var start := resolution * turns;
            var due := Due(resolution, turns, SlotIdx(delay, resolution, true));
            && due == ComesUpAt(start, delay, resolution)
            && (delay < 2 * resolution ==> 2 * (start + delay - due) <= resolution)
  {
    var whole, over := Quotient(delay, resolution), Rest(delay, resolution);
    SlotProduct(delay, resolution);
    DueIs(resolution, turns, SlotIdx(delay, resolution, true));
    Euclid(delay, resolution);
    Ordered(resolution, whole, 1);
    Ordered(resolution, whole, 2);
    Ordered(resolution, 1, whole);
    DueBy(resolution, resolution * turns, resolution * whole, over, resolution * SlotIdx(delay, resolution, true));
  }

  lemma {:induction false} DueBy(resolution: nat, start: nat, whole: nat, over: nat, slot: nat)
    requires over < resolution && Rounds(resolution, whole, over, slot)
    requires whole == 0 || whole == resolution || whole >= 2 * resolution
    requires (whole + over) % resolution == over
    ensures start + resolution + slot == ComesUpAt(start, whole + over, resolution)
    ensures whole + over < 2 * resolution ==> 2 * (start + whole + over - (start + resolution + slot)) <= resolution
  {
  }

  // ----- Ticks -------------------------------------------------------------------

  /** Between two instants a bottom resolution apart, a ring turns on exactly when its
      resolution divides the later one. */
  lemma {:induction false} QuotientTick(d: nat, bottom: nat, t: nat)
    requires Divides(bottom, d) && Divides(bottom, t) && d > 0 && t >= bottom > 0
    ensures Quotient(t, d) == Quotient(t - bottom, d) + if Divides(d, t) then 1 else 0
  {
    hide Divides, Quotient, Rest;
    var before := t - bottom;
    DividesItself(bottom);
    DividesSum(bottom, bottom, before);
    Euclid(before, d);
    RestMultiple(bottom, d, before);
    RoomToNext(bottom, Rest(before, d), d);
    NextQuotient(before, d, bottom);
  }

  lemma {:induction false} DividesItself(d: nat)
    requires d > 0
    ensures Divides(d, d)
  {
    DividesProduct(d, 1);
  }

  lemma {:induction false} NextQuotient(n: nat, d: nat, step: nat)
    requires d > 0 && 0 < step && Rest(n, d) + step <= d
    ensures Quotient(n + step, d) == Quotient(n, d) + if Divides(d, n + step) then 1 else 0
  {
    var q, r := n / d, n % d;
    assert n == d * q + r;
    if r + step == d {
      assert n + step == d * (q + 1) + 0;
      DivUnique(n + step, d, q + 1, 0);
    } else {
      DivUnique(n + step, d, q, r + step);
    }
  }

  lemma {:induction false} DividesMultiple(d: nat, n: nat, q: nat)
    requires Divides(d, n)
    ensures Divides(d, n * q)
  {
    var k := QuotientOf(d, n);
    assert n * q == d * (k * q) by {
      assert n * q == (d * k) * q;
    }
    DividesProduct(d, k * q);
  }

  lemma {:induction false} RestMultiple(bottom: nat, d: nat, n: nat)
    requires Divides(bottom, d) && Divides(bottom, n) && d > 0
    ensures Divides(bottom, Rest(n, d))
  {
    hide Divides, Quotient, Rest;
    Euclid(n, d);
    DividesMultiple(bottom, d, Quotient(n, d));
    DividesSum(bottom, d * Quotient(n, d), Rest(n, d));
  }

  /** Multiples that differ, differ by the whole. */
  lemma {:induction false} RoomToNext(bottom: nat, a: nat, b: nat)
    requires Divides(bottom, a) && Divides(bottom, b) && a < b
    ensures a + bottom <= b
  {
    var p := QuotientOf(bottom, a);
    var q := QuotientOf(bottom, b);
    Ordered(bottom, p, q);
    MulStep(bottom, p, q);
  }

  lemma {:induction false} RestStep(n: nat, m: nat)
    requires m > 0
    ensures Rest(n + 1, m) == if Rest(n, m) + 1 == m then 0 else Rest(n, m) + 1
  {
    var q, r := n / m, n % m;
    assert n == m * q + r;
    if r + 1 == m {
      assert n + 1 == m * (q + 1) + 0;
      DivUnique(n + 1, m, q + 1, 0);
    } else {
      DivUnique(n + 1, m, q, r + 1);
    }
  }

  /** The ticks of a level are a multiple of its skip count exactly when the level above
      ticks as well. */
  lemma {:induction false} SkippedTick(resolution: nat, skip: nat, t: nat)
    requires resolution > 0 && skip > 0 && Divides(resolution, t)
    ensures Rest(Quotient(t, resolution), skip) == 0 <==> Divides(resolution * skip, t)
  {
    var n := QuotientOf(resolution, t);
    var q, r := n / skip, n % skip;
    assert n == skip * q + r;
    assert t == (resolution * skip) * q + resolution * r by {
      assert resolution * n == resolution * (skip * q) + resolution * r;
      assert resolution * (skip * q) == (resolution * skip) * q;
    }
    assert resolution * r < resolution * skip by {
      Ordered(resolution, r, skip);
    }
    DivUnique(t, resolution * skip, q, resolution * r);
    Ordered(resolution, 0, r);
  }
}
