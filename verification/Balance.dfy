/** The load balancing that `computeLeasesToTake` and `chooseLeasesToSteal` decide on,
    seen as numbers: how many leases each worker holds and how many one of them steals. */
module Balance {
  import opened Bits

  // ----- The decision ------------------------------------------------------------

  /** The number of leases a worker aims for. */
  function Target(leases: nat, workers: nat, maxSteal: nat): nat
    requires workers > 0
  {
    if workers > leases then 1
    else
      var even := leases / workers + if leases % workers != 0 then 1 else 0;
      if maxSteal < even then maxSteal else even
  }

  /** How many leases a worker that needs `needed` more steals from one that has `most`. */
  function StealCount(most: nat, target: nat, needed: nat, maxSteal: nat): nat {
    if most >= target && needed > 0 then
      var over := most - target;
      var some := if needed < over then needed else over;
      var wanted := if needed > 1 && some == 0 then 1 else some;
      if maxSteal < wanted then maxSteal else wanted
    else 0
  }

  /** The same, from what the worker sees: its own load, the number of leases and of workers. */
  function Wanted(own: nat, most: nat, leases: nat, workers: nat, maxSteal: nat): nat
    requires workers > 0
  {
    var target := Target(leases, workers, maxSteal);
    if leases == 0 || own >= target then 0 else StealCount(most, target, target - own, maxSteal)
  }

  /** A worker that steals leaves its victim at least as much as it then has itself. */
  lemma {:induction false} StealIsFair(own: nat, most: nat, leases: nat, workers: nat, maxSteal: nat)
    requires workers > 0
    ensures var k := Wanted(own, most, leases, workers, maxSteal);
            k > 0 ==> k <= most && own + k <= most - k
  {
  }

  /** `even` is the even share of the leases among the workers, rounded up. */
  predicate IsEvenShare(even: nat, leases: nat, workers: nat) {
    leases <= even * workers < leases + workers
  }

  /** What a worker aims for: one lease while there are more workers than leases, and else
      the even share, or the limit on steals if that is less. */
  function Aim(even: nat, leases: nat, workers: nat, maxSteal: nat): nat {
    if workers > leases then 1 else if maxSteal < even then maxSteal else even
  }

  /** A worker with `own` leases steals `k` of the `most` of another: something whenever it
      may, within the bounds, and so much that one of the bounds is reached. A victim that
      has just what the thief aims for gives one lease to a thief that lacks two. */
  predicate StealsAllItMay(own: nat, most: nat, aim: nat, maxSteal: nat, k: nat) {
    && (k > 0 <==> own < aim && maxSteal > 0 && (most > aim || (most == aim && own + 1 < aim)))
    && (k > 0 ==> k <= maxSteal && own + k <= aim && (aim + k <= most || (most == aim && k == 1)))
    && (k > 0 ==> k == maxSteal || own + k == aim || aim + k == most || (most == aim && k == 1))
  }

  lemma {:induction false} TargetIsAim(even: nat, leases: nat, workers: nat, maxSteal: nat)
    requires workers > 0 && IsEvenShare(even, leases, workers)
    ensures Target(leases, workers, maxSteal) == Aim(even, leases, workers, maxSteal)
  {
    if workers <= leases {
      assert workers * (even - 1) < leases <= workers * even;
      RoundedUp(leases, workers, even - 1, even);
    }
  }

  /** A steal is as large as the rules allow. */
  lemma {:induction false} StealIsFull(own: nat, most: nat, leases: nat, workers: nat, maxSteal: nat, even: nat)
    requires workers > 0 && leases > 0 && IsEvenShare(even, leases, workers)
    ensures StealsAllItMay(own, most, Aim(even, leases, workers, maxSteal), maxSteal, Wanted(own, most, leases, workers, maxSteal))
  {
    hide Target, Aim;
    TargetIsAim(even, leases, workers, maxSteal);
  }

  // ----- Loads -------------------------------------------------------------------

  function Sum(loads: seq<nat>): nat {
    if loads == [] then 0 else Sum(loads[..|loads| - 1]) + loads[|loads| - 1]
  }

  /** The sum of the squared loads. */
  function Squares(loads: seq<nat>): nat {
    if loads == [] then 0 else Squares(loads[..|loads| - 1]) + loads[|loads| - 1] * loads[|loads| - 1]
  }

  /** How many workers hold something. */
  function Holders(loads: seq<nat>): nat {
    if loads == [] then 0 else Holders(loads[..|loads| - 1]) + if loads[|loads| - 1] > 0 then 1 else 0
  }

  function Most(loads: seq<nat>): nat {
    if loads == [] then 0
    else var m := Most(loads[..|loads| - 1]); if loads[|loads| - 1] > m then loads[|loads| - 1] else m
  }

  lemma {:induction false} MostIsMost(loads: seq<nat>)
    ensures forall i :: 0 <= i < |loads| ==> loads[i] <= Most(loads)
    ensures loads != [] ==> exists i :: 0 <= i < |loads| && loads[i] == Most(loads)
  {
    if loads != [] {
      var init := loads[..|loads| - 1];
      MostIsMost(init);
      if init != [] && loads[|loads| - 1] <= Most(init) {
        var i :| 0 <= i < |init| && init[i] == Most(init);
        assert loads[i] == Most(loads);
      } else {
        assert loads[|loads| - 1] == Most(loads);
      }
    }
  }

  /** How many leases worker `i` steals: workers that hold nothing are only seen by themselves. */
  function Steals(loads: seq<nat>, i: nat, maxSteal: nat): nat
    requires i < |loads|
  {
    Wanted(loads[i], Most(loads), Sum(loads), Seen(loads, i), maxSteal)
  }

  /** How many workers worker `i` sees. */
  function Seen(loads: seq<nat>, i: nat): (n: nat)
    requires i < |loads|
    ensures n > 0
  {
    HolderCounts(loads, i);
    Holders(loads) + if loads[i] == 0 then 1 else 0
  }

  lemma {:induction false} HolderCounts(loads: seq<nat>, i: nat)
    requires i < |loads|
    ensures loads[i] > 0 ==> Holders(loads) > 0
  {
    if i < |loads| - 1 {
      HolderCounts(loads[..|loads| - 1], i);
    }
  }

  // ----- Rebalancing ends --------------------------------------------------------

  lemma {:induction false} SumUpdate(loads: seq<nat>, i: nat, x: nat)
    requires i < |loads|
    ensures Sum(loads[i := x]) + loads[i] == Sum(loads) + x
    ensures Squares(loads[i := x]) + loads[i] * loads[i] == Squares(loads) + x * x
  {
    var n := |loads| - 1;
    var loads' := loads[i := x];
    if i == n {
      assert loads'[..n] == loads[..n];
    } else {
      assert loads'[..n] == loads[..n][i := x];
      SumUpdate(loads[..n], i, x);
    }
  }

  /** Worker `i` steals from one of the most loaded workers. */
  predicate Steal(loads: seq<nat>, i: nat, victim: nat, maxSteal: nat, loads': seq<nat>) {
    && i < |loads| && victim < |loads| && loads[victim] == Most(loads)
    && var k := Steals(loads, i, maxSteal);
       k > 0 && victim != i && k <= loads[victim]
       && loads' == loads[i := loads[i] + k][victim := loads[victim] - k]
  }

  lemma {:induction false} SquaresFall(own: nat, most: nat, k: nat)
    requires 0 < k <= most && own + k <= most - k
    ensures (own + k) * (own + k) + (most - k) * (most - k) < own * own + most * most
  {
    assert (own + k) * (own + k) == own * own + 2 * (own * k) + k * k;
    assert (most - k) * (most - k) == most * most - 2 * (most * k) + k * k;
    assert most * k == own * k + (most - own) * k;
    Square(most - own, k);
  }

  lemma {:induction false} Square(d: nat, k: nat)
    requires 0 < k && 2 * k <= d
    ensures 2 * (d * k) > 2 * (k * k)
  {
    assert d * k == 2 * k * k + (d - 2 * k) * k;
    assert k * k > 0;
  }

  /** A steal moves leases from another worker, which keeps at least as many as the thief
      then has, and brings the sum of the squared loads down. */
  lemma {:induction false} StealEvensOut(loads: seq<nat>, i: nat, victim: nat, maxSteal: nat, loads': seq<nat>)
    requires Steal(loads, i, victim, maxSteal, loads')
    ensures |loads'| == |loads| && loads'[i] <= loads'[victim]
    ensures Sum(loads') == Sum(loads) && Squares(loads') < Squares(loads)
  {
    hide Wanted, Seen, Most, Sum, Squares;
    var k := Steals(loads, i, maxSteal);
    StealIsFair(loads[i], Most(loads), Sum(loads), Seen(loads, i), maxSteal);
    var mid := loads[i := loads[i] + k];
    SumUpdate(loads, i, loads[i] + k);
    SumUpdate(mid, victim, loads[victim] - k);
    SquaresFall(loads[i], loads[victim], k);
  }

  /** A worker that decides to steal never is its own victim. */
  lemma {:induction false} NeverFromItself(loads: seq<nat>, i: nat, victim: nat, maxSteal: nat)
    requires i < |loads| && victim < |loads| && loads[victim] == Most(loads) && Steals(loads, i, maxSteal) > 0
    ensures victim != i && Steals(loads, i, maxSteal) <= loads[victim]
  {
    StealIsFair(loads[i], Most(loads), Sum(loads), Seen(loads, i), maxSteal);
  }

  /** Some worker steals from one of the most loaded ones. */
  ghost predicate SomeSteal(loads: seq<nat>, maxSteal: nat, loads': seq<nat>) {
    exists i: nat, victim: nat :: Steal(loads, i, victim, maxSteal, loads')
  }

  /** A run of steals, each decided on the loads at that point. */
  ghost predicate StealRun(run: seq<seq<nat>>, maxSteal: nat) {
    run != [] && forall t :: 0 <= t < |run| - 1 ==> SomeSteal(run[t], maxSteal, run[t + 1])
  }

  /** No run of steals goes on for ever: it is no longer than the sum of the squared loads. */
  lemma {:induction false} RebalancingEnds(run: seq<seq<nat>>, maxSteal: nat)
    requires StealRun(run, maxSteal)
    ensures |run| - 1 + Squares(run[|run| - 1]) <= Squares(run[0])
    decreases |run|
  {
    if |run| > 1 {
      var t := |run| - 2;
      RebalancingEnds(run[..t + 1], maxSteal);
      assert SomeSteal(run[t], maxSteal, run[t + 1]);
      StealShrinks(run[t], maxSteal, run[t + 1]);
    }
  }

  lemma {:induction false} StealShrinks(loads: seq<nat>, maxSteal: nat, loads': seq<nat>)
    requires SomeSteal(loads, maxSteal, loads')
    ensures Squares(loads') < Squares(loads)
  {
    var i: nat, victim: nat :| Steal(loads, i, victim, maxSteal, loads');
    StealEvensOut(loads, i, victim, maxSteal, loads');
  }

  // ----- Where it ends -----------------------------------------------------------

  /** No worker steals any more. */
  predicate Quiet(loads: seq<nat>, maxSteal: nat) {
    forall i: nat :: i < |loads| ==> Steals(loads, i, maxSteal) == 0
  }

  predicate Balanced(loads: seq<nat>) {
    forall i, j :: 0 <= i < |loads| && 0 <= j < |loads| ==> loads[i] <= loads[j] + 1
  }

  /** The sum lies between the least and the greatest multiples of the number of workers. */
  lemma {:induction false} SumAtLeast(loads: seq<nat>, least: nat)
    requires forall i :: 0 <= i < |loads| ==> least <= loads[i]
    ensures |loads| * least <= Sum(loads)
  {
    if loads != [] {
      SumAtLeast(loads[..|loads| - 1], least);
      assert |loads| * least == (|loads| - 1) * least + least;
    }
  }

  lemma {:induction false} SumAtMost(loads: seq<nat>)
    ensures Sum(loads) <= Holders(loads) * Most(loads)
  {
    if loads != [] {
      var init, last := loads[..|loads| - 1], loads[|loads| - 1];
      SumAtMost(init);
      OneMore(Sum(init), Holders(init), Most(init), last, Most(loads));
    }
  }

  lemma {:induction false} OneMore(sum: nat, holders: nat, most: nat, last: nat, most': nat)
    requires sum <= holders * most && most <= most' && last <= most'
    ensures sum + last <= (holders + if last > 0 then 1 else 0) * most'
  {
    MulMonotone(holders, most, most');
    assert (holders + 1) * most' == holders * most' + most';
  }

  lemma {:induction false} HoldersAtMost(loads: seq<nat>)
    ensures Holders(loads) <= |loads|
    ensures (forall i :: 0 <= i < |loads| ==> loads[i] > 0) ==> Holders(loads) == |loads|
  {
    if loads != [] {
      HoldersAtMost(loads[..|loads| - 1]);
    }
  }

  lemma {:induction false} MulMonotone(a: nat, b: nat, c: nat)
    requires b <= c
    ensures a * b <= a * c
  {
  }

  lemma {:induction false} SumAbove(loads: seq<nat>, least: nat, i: nat)
    requires i < |loads| && forall j :: 0 <= j < |loads| ==> least <= loads[j]
    ensures Sum(loads) >= |loads| * least + (loads[i] - least)
  {
    SumUpdate(loads, i, least);
    SumAtLeast(loads[i := least], least);
  }

  /** `n / d` rounded up. */
  lemma {:induction false} RoundedUp(n: nat, d: nat, low: nat, high: nat)
    requires d > 0 && d * low < n <= d * high
    ensures low < n / d + (if n % d != 0 then 1 else 0) <= high
  {
    var q, r := n / d, n % d;
    assert n == d * q + r;
    MulStep(d, q, low);
    MulStep(d, high, q);
    if q == low {
      assert r > 0;
    }
  }

  /** The least loaded worker steals, unless the limit on steals holds it back, as long as
      another has at least two more. */
  lemma {:induction false} LeastLoadedSteals(loads: seq<nat>, w: nat, v: nat, maxSteal: nat)
    requires w < |loads| && v < |loads| && loads[v] == Most(loads) >= loads[w] + 2
    requires forall j :: 0 <= j < |loads| ==> loads[w] <= loads[j]
    requires loads[w] < maxSteal
    ensures Steals(loads, w, maxSteal) > 0
  {
    var s, m, leases, workers := loads[w], loads[v], Sum(loads), Seen(loads, w);
    SumAtMost(loads);
    HoldersAtMost(loads);
    SumAbove(loads, s, v);
    MulMonotone3(Holders(loads), workers, m);
    if workers > leases {
      if s > 0 {
        MulAtLeast(|loads|, s);
        assert false;
      }
    } else {
      if s == 0 {
        assert workers * 0 < leases;
      } else {
        assert workers == |loads|;
      }
      RoundedUp(leases, workers, s, m);
    }
  }

  lemma {:induction false} MulMonotone3(a: nat, b: nat, c: nat)
    requires a <= b
    ensures a * c <= b * c
  {
  }

  /** Where no worker steals, the loads differ by at most one, if the limit on steals is
      not too small for the number of leases. */
  lemma {:induction false} QuietIsBalanced(loads: seq<nat>, maxSteal: nat)
    requires Quiet(loads, maxSteal)
    requires |loads| == 1 || Sum(loads) <= |loads| * maxSteal + 1
    ensures Balanced(loads)
  {
    if loads != [] && !Balanced(loads) {
      MostIsMost(loads);
      var v: nat :| v < |loads| && loads[v] == Most(loads);
      var w := LeastLoaded(loads);
      if loads[w] < maxSteal {
        LeastLoadedSteals(loads, w, v, maxSteal);
      } else {
        SumAbove(loads, loads[w], v);
        MulMonotone(|loads|, maxSteal, loads[w]);
      }
    }
  }

  lemma {:induction false} LeastLoaded(loads: seq<nat>) returns (w: nat)
    requires loads != []
    ensures w < |loads| && forall j :: 0 <= j < |loads| ==> loads[w] <= loads[j]
  {
    var n := |loads| - 1;
    w := n;
    if n > 0 {
      var u := LeastLoaded(loads[..n]);
      if loads[u] <= loads[n] {
        w := u;
      }
    }
  }

  /** All but the first hold as many as the limit on steals. */
  function Stuck(n: nat, leases: nat, maxSteal: nat): seq<nat>
    requires n > 0 && leases >= maxSteal * (n - 1)
  {
    [leases - maxSteal * (n - 1)] + seq(n - 1, _ => maxSteal)
  }

  lemma {:induction false} StuckSums(n: nat, leases: nat, maxSteal: nat)
    requires n > 0 && leases >= maxSteal * (n - 1)
    ensures Sum(Stuck(n, leases, maxSteal)) == leases
    ensures maxSteal == 0 ==> Holders(Stuck(n, leases, maxSteal)) <= 1
    ensures Holders(Stuck(n, leases, maxSteal)) <= n
  {
    var loads := Stuck(n, leases, maxSteal);
    if n == 1 {
      assert loads[..0] == [];
    } else {
      assert maxSteal * (n - 1) == maxSteal * (n - 2) + maxSteal;
      StuckSums(n - 1, leases - maxSteal, maxSteal);
      assert loads[..n - 1] == Stuck(n - 1, leases - maxSteal, maxSteal);
    }
  }

  /** With too small a limit, the loads can stay far apart. */
  lemma {:induction false} StuckIsQuiet(n: nat, leases: nat, maxSteal: nat)
    requires n >= 2 && leases >= maxSteal * n + 2 && leases >= maxSteal * (n - 1)
    ensures var loads := Stuck(n, leases, maxSteal);
            |loads| == n && Sum(loads) == leases && Quiet(loads, maxSteal) && !Balanced(loads)
  {
    var loads := Stuck(n, leases, maxSteal);
    StuckSums(n, leases, maxSteal);
    assert maxSteal * n == maxSteal * (n - 1) + maxSteal;
    assert loads[0] > loads[1] + 1;
    forall i: nat | i < n ensures Steals(loads, i, maxSteal) == 0 {
      if maxSteal > 0 {
        MulAtLeast(n, maxSteal);
        assert n * maxSteal == maxSteal * n;
      }
      assert Seen(loads, i) <= leases;
      assert loads[i] >= maxSteal;
    }
  }

  /** Rebalancing ends balanced exactly if there is one worker, or no more leases than the
      limit on steals times the number of workers, and one. In particular a limit of an even
      share, rounded up, is enough. */
  lemma {:induction false} BalancedExactlyIf(n: nat, leases: nat, maxSteal: nat)
    requires n > 0
    ensures (forall loads: seq<nat> :: |loads| == n && Sum(loads) == leases && Quiet(loads, maxSteal) ==> Balanced(loads))
       <==> n == 1 || leases <= n * maxSteal + 1
  {
    if n == 1 || leases <= n * maxSteal + 1 {
      forall loads: seq<nat> | |loads| == n && Sum(loads) == leases && Quiet(loads, maxSteal) ensures Balanced(loads) {
        QuietIsBalanced(loads, maxSteal);
      }
    } else {
      assert n * maxSteal == maxSteal * n == maxSteal * (n - 1) + maxSteal;
      StuckIsQuiet(n, leases, maxSteal);
    }
  }
}
