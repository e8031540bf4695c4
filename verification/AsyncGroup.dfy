/** `AsyncGroup`: each of `n` asynchronous callbacks posts, asks whether all have posted,
    and if so competes to be the leader that reports the joint result. */
module AsyncGroup {

  datatype Pc = Start | Posted | CheckedDone | SawLeader(chosen: bool) | Leader | Follower

  datatype State = State(counter: nat, target: nat, leaderChosen: bool, pcs: seq<Pc>)

  predicate Init(s: State) {
    && s.counter == 0 && !s.leaderChosen && s.target == |s.pcs|
    && forall t :: 0 <= t < |s.pcs| ==> s.pcs[t] == Start
  }

  /** The next access of callback `t`: the fetch_add of `post`, the load of `isDone`, and
      the load and compare-and-swap of `becomeLeaderCAS`. */
  predicate Next(s: State, t: nat, s': State) {
    && t < |s.pcs|
    && match s.pcs[t]
       case Start => s' == s.(counter := s.counter + 1, pcs := s.pcs[t := Posted])
       case Posted => s' == s.(pcs := s.pcs[t := if s.counter == s.target then CheckedDone else Follower])
       case CheckedDone => s' == s.(pcs := s.pcs[t := SawLeader(s.leaderChosen)])
       case SawLeader(true) => s' == s.(pcs := s.pcs[t := Follower])
       case SawLeader(false) =>
         s' == if s.leaderChosen then s.(pcs := s.pcs[t := CheckedDone])
               else s.(leaderChosen := true, pcs := s.pcs[t := Leader])
       case _ => false
  }

  function Started(pcs: seq<Pc>): nat {
    if pcs == [] then 0 else Started(pcs[..|pcs| - 1]) + (if pcs[|pcs| - 1] == Start then 0 else 1)
  }

  lemma {:induction false} StartedUpdate(pcs: seq<Pc>, t: nat, pc: Pc)
    requires t < |pcs| && pc != Start
    ensures Started(pcs[t := pc]) == Started(pcs) + (if pcs[t] == Start then 1 else 0)
  {
    var n := |pcs| - 1;
    if t < n {
      StartedUpdate(pcs[..n], t, pc);
      assert pcs[t := pc][..n] == pcs[..n][t := pc];
    } else {
      assert pcs[t := pc][..n] == pcs[..n];
    }
  }

  lemma {:induction false} AllStarted(pcs: seq<Pc>)
    ensures Started(pcs) <= |pcs|
    ensures Started(pcs) == |pcs| <==> forall t :: 0 <= t < |pcs| ==> pcs[t] != Start
  {
    if pcs != [] {
      AllStarted(pcs[..|pcs| - 1]);
    }
  }

  /** Callback `t` may still become the leader. */
  predicate Contends(pc: Pc) {
    pc == Posted || pc == CheckedDone || pc == SawLeader(false)
  }

  ghost predicate Inv(s: State) {
    && s.target == |s.pcs| && s.counter == Started(s.pcs)
    && (s.leaderChosen <==> exists t :: 0 <= t < |s.pcs| && s.pcs[t] == Leader)
    && (forall t, u :: 0 <= t < |s.pcs| && 0 <= u < |s.pcs| && s.pcs[t] == Leader && s.pcs[u] == Leader ==> t == u)
    && (forall t :: 0 <= t < |s.pcs| && s.pcs[t] == SawLeader(true) ==> s.leaderChosen)
    && (forall t :: 0 <= t < |s.pcs| && (s.pcs[t].CheckedDone? || s.pcs[t].SawLeader? || s.pcs[t].Leader?) ==> s.counter == s.target)
    && (s.counter == s.target && s.target > 0 ==>
          s.leaderChosen || exists t :: 0 <= t < |s.pcs| && Contends(s.pcs[t]))
  }

  lemma {:induction false} NoneStarted(pcs: seq<Pc>)
    requires forall t :: 0 <= t < |pcs| ==> pcs[t] == Start
    ensures Started(pcs) == 0
  {
    if pcs != [] {
      NoneStarted(pcs[..|pcs| - 1]);
    }
  }

  lemma {:induction false} StepKeepsInv(s: State, t: nat, s': State)
    requires Inv(s) && Next(s, t, s')
    ensures Inv(s')
  {
    hide Started;
    StartedUpdate(s.pcs, t, s'.pcs[t]);
    AllStarted(s.pcs);
    assert s'.pcs[t] == Posted ==> Contends(s'.pcs[t]);
    if s.leaderChosen {
      var l :| 0 <= l < |s.pcs| && s.pcs[l] == Leader;
      assert s'.pcs[l] == Leader;
    } else if u :| 0 <= u < |s.pcs| && Contends(s.pcs[u]) {
      assert u != t ==> Contends(s'.pcs[u]);
    }
  }

  predicate Run(run: seq<State>, who: seq<nat>) {
    && |run| == |who| + 1
    && Init(run[0])
    && forall i :: 0 <= i < |who| ==> Next(run[i], who[i], run[i + 1])
  }

  lemma {:induction false} RunKeepsInv(run: seq<State>, who: seq<nat>, n: nat)
    requires Run(run, who) && n < |run|
    ensures Inv(run[n]) && run[n].target == run[0].target
  {
    if n == 0 {
      NoneStarted(run[0].pcs);
    } else {
      RunKeepsInv(run, who, n - 1);
      StepKeepsInv(run[n - 1], who[n - 1], run[n]);
    }
  }

  predicate Finished(s: State) {
    forall t :: 0 <= t < |s.pcs| ==> s.pcs[t] == Leader || s.pcs[t] == Follower
  }

  /** In every interleaving a leader exists only once all callbacks have posted, there is
      never a second one, and when all of one or more callbacks are over there is one. */
  lemma {:induction false} OneLeaderAfterAllPosts(run: seq<State>, who: seq<nat>, n: nat)
    requires Run(run, who) && n < |run|
    ensures var pcs := run[n].pcs;
            && (forall t :: 0 <= t < |pcs| && pcs[t] == Leader ==> run[n].counter == |pcs|)
            && (forall t, u :: 0 <= t < |pcs| && 0 <= u < |pcs| && pcs[t] == Leader && pcs[u] == Leader ==> t == u)
            && (Finished(run[n]) && |pcs| > 0 ==> exists t :: 0 <= t < |pcs| && pcs[t] == Leader)
  {
    RunKeepsInv(run, who, n);
    AllStarted(run[n].pcs);
  }

  // ----- Every run ends ----------------------------------------------------------

  function StepsLeft(pc: Pc, leaderChosen: bool): nat {
    match pc
    case Start => 6
    case Posted => 5
    case CheckedDone => if leaderChosen then 2 else 4
    case SawLeader(chosen) => if chosen then 1 else 3
    case _ => 0
  }

  function TotalLeft(pcs: seq<Pc>, leaderChosen: bool): nat {
    if pcs == [] then 0 else TotalLeft(pcs[..|pcs| - 1], leaderChosen) + StepsLeft(pcs[|pcs| - 1], leaderChosen)
  }

  lemma {:induction false} TotalUpdate(pcs: seq<Pc>, t: nat, pc: Pc, chosen: bool, chosen': bool)
    requires t < |pcs| && (chosen ==> chosen')
    ensures TotalLeft(pcs[t := pc], chosen') <= TotalLeft(pcs, chosen) - StepsLeft(pcs[t], chosen) + StepsLeft(pc, chosen')
  {
    var n := |pcs| - 1;
    if t < n {
      TotalUpdate(pcs[..n], t, pc, chosen, chosen');
      assert pcs[t := pc][..n] == pcs[..n][t := pc];
    } else {
      assert pcs[t := pc][..n] == pcs[..n];
      TotalFalls(pcs[..n], chosen, chosen');
    }
  }

  lemma {:induction false} TotalFalls(pcs: seq<Pc>, chosen: bool, chosen': bool)
    requires chosen ==> chosen'
    ensures TotalLeft(pcs, chosen') <= TotalLeft(pcs, chosen)
  {
    if pcs != [] {
      TotalFalls(pcs[..|pcs| - 1], chosen, chosen');
    }
  }

  lemma {:induction false} TotalAtStart(pcs: seq<Pc>, leaderChosen: bool)
    requires forall t :: 0 <= t < |pcs| ==> pcs[t] == Start
    ensures TotalLeft(pcs, leaderChosen) == 6 * |pcs|
  {
    if pcs != [] {
      TotalAtStart(pcs[..|pcs| - 1], leaderChosen);
    }
  }

  lemma {:induction false} StepShortens(s: State, t: nat, s': State)
    requires Next(s, t, s')
    ensures TotalLeft(s'.pcs, s'.leaderChosen) < TotalLeft(s.pcs, s.leaderChosen) && |s'.pcs| == |s.pcs|
  {
    hide TotalLeft;
    TotalUpdate(s.pcs, t, s'.pcs[t], s.leaderChosen, s'.leaderChosen);
  }

  lemma {:induction false} RunShortens(run: seq<State>, who: seq<nat>, n: nat)
    requires Run(run, who) && n < |run|
    ensures n + TotalLeft(run[n].pcs, run[n].leaderChosen) <= 6 * |run[n].pcs|
  {
    if n == 0 {
      TotalAtStart(run[0].pcs, run[0].leaderChosen);
    } else {
      RunShortens(run, who, n - 1);
      StepShortens(run[n - 1], who[n - 1], run[n]);
    }
  }

  ghost predicate CanStep(s: State, t: nat) {
    exists s' :: Next(s, t, s')
  }

  lemma {:induction false} CallbackCanStep(s: State, t: nat)
    requires t < |s.pcs| && s.pcs[t] != Leader && s.pcs[t] != Follower
    ensures CanStep(s, t)
  {
    match s.pcs[t]
    case Start => assert Next(s, t, s.(counter := s.counter + 1, pcs := s.pcs[t := Posted]));
    case Posted => assert Next(s, t, s.(pcs := s.pcs[t := if s.counter == s.target then CheckedDone else Follower]));
    case CheckedDone => assert Next(s, t, s.(pcs := s.pcs[t := SawLeader(s.leaderChosen)]));
    case SawLeader(chosen) =>
      assert Next(s, t, if chosen then s.(pcs := s.pcs[t := Follower])
                        else if s.leaderChosen then s.(pcs := s.pcs[t := CheckedDone])
                        else s.(leaderChosen := true, pcs := s.pcs[t := Leader]));
  }

  /** The joint result is always reported: a run of one or more callbacks has at most six steps
      for each, and when none of them can take another step one of them is the leader. */
  lemma {:induction false} EndsWithLeader(run: seq<State>, who: seq<nat>, n: nat)
    requires Run(run, who) && n < |run| && |run[n].pcs| > 0
    ensures n <= 6 * |run[n].pcs|
    ensures (forall t :: 0 <= t < |run[n].pcs| ==> !CanStep(run[n], t)) ==>
              exists t :: 0 <= t < |run[n].pcs| && run[n].pcs[t] == Leader
  {
    hide CanStep, Next;
    RunShortens(run, who, n);
    if forall t :: 0 <= t < |run[n].pcs| ==> !CanStep(run[n], t) {
      forall t | 0 <= t < |run[n].pcs| ensures run[n].pcs[t] == Leader || run[n].pcs[t] == Follower {
        if run[n].pcs[t] != Leader && run[n].pcs[t] != Follower {
          CallbackCanStep(run[n], t);
        }
      }
      OneLeaderAfterAllPosts(run, who, n);
    }
  }
}
