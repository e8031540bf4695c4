/** What the calls on the free list come to: when `requisition_block` finds nothing, and what
    a call does that no other thread disturbs. */
module FreeRuns {
  import opened FreeList
  import opened Options

  // ----- A call that finds nothing -----------------------------------------------

  /** The thread has loaded an empty head and goes by it. */
  predicate KnowsNone(pc: Pc) {
    match pc
    case Looking(None) => true
    case Dropping(_, None) => true
    case KnowZero(_, resume) => resume == Search(None)
    case Linking(_, _, resume) => resume == Search(None)
    case Linked(_, _, resume) => resume == Search(None)
    case Publishing(_, _, resume) => resume == Search(None)
    case Retreating(_, _, resume) => resume == Search(None)
    case _ => false
  }

  /** The thread searches the list. */
  predicate Searches(pc: Pc) {
    match pc
    case LoadHead => true
    case Looking(_) => true
    case SawRefs(_, _) => true
    case Holding(_) => true
    case HoldingNext(_, _) => true
    case Unlinked(_) => true
    case Dropping(_, _) => true
    case KnowZero(_, resume) => resume.Search?
    case Linking(_, _, resume) => resume.Search?
    case Linked(_, _, resume) => resume.Search?
    case Publishing(_, _, resume) => resume.Search?
    case Retreating(_, _, resume) => resume.Search?
    case _ => false
  }

  predicate Calls(s: State, t: Tid) {
    t in s.pcs && s.pcs[t] != Idle
  }

  /** The call thread `t` is in at instant `n` was already in progress at instant `m`. */
  predicate SameCall(run: seq<State>, t: Tid, m: nat, n: nat)
    requires m <= n < |run|
  {
    forall k :: m <= k <= n ==> Calls(run[k], t)
  }

  predicate Adds(pc: Pc) {
    pc.KnowZero? || pc.Linking? || pc.Linked? || pc.Publishing? || pc.Retreating?
  }

  /** Where the next access leads a thread. */
  predicate Turns(s: State, pc: Pc, pc': Pc) {
    match pc
    case Idle => false
    case CheckPool => pc' == if s.poolIndex >= s.poolSize then LoadHead else DrawPool
    case DrawPool => pc' == if s.poolIndex >= s.poolSize then LoadHead else Idle
    case LoadHead => pc' == Looking(s.head)
    case Looking(head) => head.Some? && pc'.SawRefs?
    case SawRefs(n, _) => pc' == Holding(n) || pc' == LoadHead
    case Holding(_) => pc'.HoldingNext?
    case HoldingNext(n, _) => pc' == Unlinked(n) || pc' == Dropping(n, s.head)
    case Unlinked(_) => pc' == Idle
    case Dropping(n, head) => pc' == KnowZero(n, Search(head)) || pc' == Looking(head)
    case _ => (Adds(pc') && pc'.resume == pc.resume) || pc' == After(pc.resume)
  }

  /** The step moves this thread, and no other one. */
  predicate MovesOne(s: State, t: Tid, s': State)
    requires t in s.pcs
  {
    && t in s'.pcs && s'.pcs == s.pcs[t := s'.pcs[t]] && Turns(s, s.pcs[t], s'.pcs[t])
    && s'.poolIndex >= s.poolIndex && s'.poolSize == s.poolSize
  }

  lemma {:induction false} GetterMovesOne(s: State, t: Tid, s': State)
    requires t in s.pcs && Advances(s, t, s')
    requires s.pcs[t].SawRefs? || s.pcs[t].HoldingNext? || s.pcs[t].Unlinked? || s.pcs[t].Dropping?
    ensures MovesOne(s, t, s')
  {
  }

  lemma {:induction false} AdderMovesOne(s: State, t: Tid, s': State)
    requires t in s.pcs && Advances(s, t, s') && Adds(s.pcs[t])
    ensures MovesOne(s, t, s')
  {
  }

  lemma {:induction false} ReaderMovesOne(s: State, t: Tid, s': State)
    requires t in s.pcs && Advances(s, t, s')
    requires s.pcs[t].CheckPool? || s.pcs[t].DrawPool? || s.pcs[t].LoadHead? || s.pcs[t].Looking? || s.pcs[t].Holding?
    ensures MovesOne(s, t, s')
  {
  }

  lemma {:induction false} AdvanceMovesOne(s: State, t: Tid, s': State)
    requires t in s.pcs && Advances(s, t, s')
    ensures MovesOne(s, t, s')
  {
    hide MovesOne, DrawFromPool, TryIncrement, Unlink, HandOut, Drop, Push, Retreat;
    if Adds(s.pcs[t]) {
      AdderMovesOne(s, t, s');
    } else if s.pcs[t].SawRefs? || s.pcs[t].HoldingNext? || s.pcs[t].Unlinked? || s.pcs[t].Dropping? {
      GetterMovesOne(s, t, s');
    } else {
      ReaderMovesOne(s, t, s');
    }
  }

  lemma {:induction false} OthersStay(s: State, a: Action, s': State, t: Tid)
    requires Next(s, a, s') && t in s'.pcs && a.t != t
    ensures t in s.pcs && s'.pcs[t] == s.pcs[t]
  {
    hide Advances;
    if a.Advance? {
      AdvanceMovesOne(s, a.t, s');
    }
  }

  lemma {:induction false} PoolStays(s: State, a: Action, s': State)
    requires Next(s, a, s') && s.poolIndex >= s.poolSize
    ensures s'.poolIndex >= s'.poolSize
  {
    hide Advances;
    if a.Advance? {
      AdvanceMovesOne(s, a.t, s');
    }
  }

  lemma {:induction false} KnowsNoneFrom(s: State, a: Action, s': State, t: Tid)
    requires Next(s, a, s') && t in s'.pcs && KnowsNone(s'.pcs[t])
    ensures Calls(s, t) && (KnowsNone(s.pcs[t]) || s.head == None)
  {
    hide Advances;
    if a.t != t {
      OthersStay(s, a, s', t);
    } else if a.Advance? {
      AdvanceMovesOne(s, t, s');
    }
  }

  lemma {:induction false} NoneWasSeen(run: seq<State>, actions: seq<Action>, n: nat, t: Tid) returns (m: nat)
    requires Run(run, actions) && n < |run| && t in run[n].pcs && KnowsNone(run[n].pcs[t])
    ensures m <= n && SameCall(run, t, m, n) && run[m].head == None
  {
    hide Next;
    assert n > 0;
    KnowsNoneFrom(run[n - 1], actions[n - 1], run[n], t);
    if KnowsNone(run[n - 1].pcs[t]) {
      m := NoneWasSeen(run, actions, n - 1, t);
    } else {
      m := n - 1;
    }
  }

  lemma {:induction false} SearchesFrom(s: State, a: Action, s': State, t: Tid)
    requires Next(s, a, s') && t in s'.pcs && Searches(s'.pcs[t])
    requires t in s.pcs && Searches(s.pcs[t]) ==> s.poolIndex >= s.poolSize
    ensures s'.poolIndex >= s'.poolSize
  {
    hide Advances;
    if t in s.pcs && Searches(s.pcs[t]) {
      PoolStays(s, a, s');
    } else if a.t != t {
      OthersStay(s, a, s', t);
    } else if a.Advance? {
      AdvanceMovesOne(s, t, s');
    }
  }

  lemma {:induction false} PoolUsedUp(run: seq<State>, actions: seq<Action>, n: nat, t: Tid)
    requires Run(run, actions) && n < |run| && t in run[n].pcs && Searches(run[n].pcs[t])
    ensures run[n].poolIndex >= run[n].poolSize
  {
    hide Next;
    assert n > 0;
    if t in run[n - 1].pcs && Searches(run[n - 1].pcs[t]) {
      PoolUsedUp(run, actions, n - 1, t);
    }
    SearchesFrom(run[n - 1], actions[n - 1], run[n], t);
  }

  /** In every interleaving, a call that comes away with no block (and so creates one or
      returns null) found the pool used up, and the list was empty at an instant of that
      very call. */
  lemma {:induction false} NothingMeansEmpty(run: seq<State>, actions: seq<Action>, n: nat, t: Tid)
    requires Run(run, actions) && n < |actions|
    requires actions[n] == GiveUp(t) || (actions[n].Create? && actions[n].t == t)
    ensures run[n].poolIndex >= run[n].poolSize
    ensures exists m: nat :: m <= n && SameCall(run, t, m, n) && run[m].chain == []
  {
    assert Next(run[n], actions[n], run[n + 1]);
    PoolUsedUp(run, actions, n, t);
    var m := NoneWasSeen(run, actions, n, t);
    RunKeepsInv(run, actions, m);
  }

  // ----- Calls that nobody disturbs ----------------------------------------------

  /** A call that begins in state `s`, and then steps of the calling thread only; the other
      threads may stand still anywhere. */
  predicate Alone(states: seq<State>, s: State, begin: Action, t: Tid) {
    && |states| >= 2 && states[0] == s
    && Next(s, begin, states[1])
    && forall i :: 1 <= i < |states| - 1 ==> Next(states[i], Advance(t), states[i + 1])
  }

  ghost predicate CanGoOn(s: State, t: Tid) {
    exists s' :: Next(s, Advance(t), s')
  }

  /** The thread gets as far as `steps` steps, and can go on before and only before. */
  ghost predicate Takes(states: seq<State>, steps: nat, t: Tid)
    requires |states| > 0
  {
    |states| <= steps + 1 && (|states| <= steps <==> CanGoOn(states[|states| - 1], t))
  }

  /** The action leads to this state and no other. */
  ghost predicate Only(s: State, a: Action, s': State) {
    forall x :: Next(s, a, x) <==> x == s'
  }

  /** A thread alone has no choice, and comes to the end of the path. */
  ghost predicate Forced(path: seq<State>, s: State, begin: Action, t: Tid) {
    && |path| >= 2 && path[0] == s && Only(s, begin, path[1]) && !CanGoOn(path[|path| - 1], t)
    && forall i {:trigger path[i]} :: 1 <= i < |path| - 1 ==> Only(path[i], Advance(t), path[i + 1])
  }

  lemma {:induction false} Follows(states: seq<State>, path: seq<State>, s: State, begin: Action, t: Tid, i: nat)
    requires Alone(states, s, begin, t) && Forced(path, s, begin, t) && i < |states|
    ensures i < |path| && states[i] == path[i]
  {
    hide Next;
    if i > 1 {
      Follows(states, path, s, begin, t, i - 1);
      assert Next(states[i - 1], Advance(t), states[i]);
      assert CanGoOn(states[i - 1], t);
      assert i < |path|;
      assert Only(path[i - 1], Advance(t), path[i]);
    }
  }

  lemma {:induction false} StaysThere(s: State, t: Tid)
    requires t in s.pcs && (s.pcs[t] == Idle || s.pcs[t] == Looking(None))
    ensures !CanGoOn(s, t)
  {
  }

  lemma {:induction false} ForcedTakes(states: seq<State>, path: seq<State>, s: State, begin: Action, t: Tid)
    requires Alone(states, s, begin, t) && Forced(path, s, begin, t)
    ensures Takes(states, |path| - 1, t) && states[|states| - 1] == path[|states| - 1]
  {
    hide Next;
    var last := |states| - 1;
    Follows(states, path, s, begin, t, last);
    if last < |path| - 1 {
      assert Only(path[last], Advance(t), path[last + 1]);
      assert Next(path[last], Advance(t), path[last + 1]);
    }
  }

  lemma {:induction false} BeginsGet(s: State, t: Tid)
    requires t in s.pcs && s.pcs[t] == Idle
    ensures Only(s, Request(t), Goto(s, t, CheckPool))
  {
  }

  /** Going somewhere twice is going there at once. */
  lemma {:induction false} GotoTwice(s: State, t: Tid, a: Pc, b: Pc)
    ensures Goto(Goto(s, t, a), t, b) == Goto(s, t, b)
  {
    assert s.pcs[t := a][t := b] == s.pcs[t := b];
  }

  lemma {:induction false} ChecksPool(s: State, t: Tid)
    requires t in s.pcs
    ensures Only(Goto(s, t, CheckPool), Advance(t), Goto(s, t, if s.poolIndex >= s.poolSize then LoadHead else DrawPool))
  {
    GotoTwice(s, t, CheckPool, LoadHead);
    GotoTwice(s, t, CheckPool, DrawPool);
  }

  lemma {:induction false} LoadsHead(s: State, t: Tid)
    requires t in s.pcs
    ensures Only(Goto(s, t, LoadHead), Advance(t), Goto(s, t, Looking(s.head)))
  {
    GotoTwice(s, t, LoadHead, Looking(s.head));
  }

  function Drawn(s: State, t: Tid): State {
    var n := s.poolIndex;
    Goto(s, t, Idle).(poolIndex := n + 1, status := s.status[n := Owned], log := s.log + [Issued(n)])
  }

  lemma {:induction false} Draws(s: State, t: Tid)
    requires t in s.pcs && s.poolIndex < s.poolSize
    ensures Only(Goto(s, t, DrawPool), Advance(t), Drawn(s, t))
  {
    GotoTwice(s, t, DrawPool, Idle);
  }

  /** While the pool has blocks, a call takes the next of them in three steps. */
  lemma {:induction false} LoneDraw(s: State, t: Tid, states: seq<State>)
    requires t in s.pcs && s.pcs[t] == Idle && s.poolIndex < s.poolSize && Alone(states, s, Request(t), t)
    ensures Takes(states, 3, t)
    ensures |states| == 4 ==> states[3] == s.(pcs := s.pcs[t := Idle], poolIndex := s.poolIndex + 1,
                                               status := s.status[s.poolIndex := Owned], log := s.log + [Issued(s.poolIndex)])
  {
    hide Next, Goto;
    var path := [s, Goto(s, t, CheckPool), Goto(s, t, DrawPool), Drawn(s, t)];
    BeginsGet(s, t);
    ChecksPool(s, t);
    Draws(s, t);
    DrawnIs(s, t);
    StaysThere(path[3], t);
    ForcedTakes(states, path, s, Request(t), t);
  }

  lemma {:induction false} DrawnIs(s: State, t: Tid)
    ensures Drawn(s, t) == s.(pcs := s.pcs[t := Idle], poolIndex := s.poolIndex + 1,
                              status := s.status[s.poolIndex := Owned], log := s.log + [Issued(s.poolIndex)])
  {
  }

  /** With the pool used up and the list empty, a call finds nothing in three steps. */
  lemma {:induction false} LoneMiss(s: State, t: Tid, states: seq<State>)
    requires Inv(s) && t in s.pcs && s.pcs[t] == Idle && s.poolIndex >= s.poolSize && s.chain == []
    requires Alone(states, s, Request(t), t)
    ensures Takes(states, 3, t)
    ensures |states| == 4 ==> states[3] == Goto(s, t, Looking(None))
  {
    hide Next, Inv, Goto;
    BeginsGet(s, t);
    ChecksPool(s, t);
    LoadsHead(s, t);
    NoHead(s);
    var path := [s, Goto(s, t, CheckPool), Goto(s, t, LoadHead), Goto(s, t, Looking(None))];
    GotoIs(s, t, Looking(None));
    StaysThere(path[3], t);
    ForcedTakes(states, path, s, Request(t), t);
  }

  lemma {:induction false} GotoIs(s: State, t: Tid, pc: Pc)
    ensures Goto(s, t, pc) == s.(pcs := s.pcs[t := pc])
  {
  }

  lemma {:induction false} NoHead(s: State)
    requires Inv(s)
    ensures s.head == Nth(s.chain, 0)
  {
  }

  // ----- Taking a block from the list --------------------------------------------

  /** The list's first block can be referenced: its count bits are not zero and not full. */
  lemma {:induction false} FirstIsReferable(s: State)
    requires Inv(s) && s.chain != []
    ensures var c := s.chain[0];
            && s.head == Some(c) && c in s.refs && c in s.next && c in s.status
            && 0 < s.refs[c] < SHOULD_BE_ON_FREELIST && s.next[c] == Nth(s.chain, 1)
  {
    var c := s.chain[0];
    assert RefsOk(s, c) && LinkOk(s.next, s.chain, 0);
    HoldersBounded(s, c);
  }

  /** After the increment the thread holds a reference to `c`. */
  function WithRef(s: State, c: Node): State
    requires c in s.refs
  {
    s.(refs := s.refs[c := s.refs[c] + 1])
  }

  function WithTaken(s: State, t: Tid, c: Node, nx: Option<Node>): State
    requires c in s.refs && s.chain != []
  {
    WithRef(s, c).(head := nx, status := s.status[c := Taken(t)], chain := s.chain[1..])
  }

  /** The state after `c`, the first block of the list, is handed out. */
  function WithGiven(s: State, c: Node, nx: Option<Node>): State
    requires c in s.refs && s.chain != [] && s.refs[c] > 0
  {
    s.(head := nx, refs := s.refs[c := s.refs[c] - 1], status := s.status[c := Owned],
       chain := s.chain[1..], log := s.log + [Issued(c)])
  }

  lemma {:induction false} LooksAtRefs(s: State, t: Tid, c: Node)
    requires t in s.pcs && c in s.refs
    ensures Only(Goto(s, t, Looking(Some(c))), Advance(t), Goto(s, t, SawRefs(c, s.refs[c])))
  {
    GotoTwice(s, t, Looking(Some(c)), SawRefs(c, s.refs[c]));
  }

  lemma {:induction false} TakesRef(s: State, t: Tid, c: Node)
    requires t in s.pcs && c in s.refs && 0 < s.refs[c] < SHOULD_BE_ON_FREELIST
    ensures Only(Goto(s, t, SawRefs(c, s.refs[c])), Advance(t), Goto(WithRef(s, c), t, Holding(c)))
  {
    GotoTwice(s, t, SawRefs(c, s.refs[c]), Holding(c));
  }

  lemma {:induction false} ReadsNext(s: State, t: Tid, c: Node)
    requires t in s.pcs && c in s.next
    ensures Only(Goto(s, t, Holding(c)), Advance(t), Goto(s, t, HoldingNext(c, s.next[c])))
  {
    GotoTwice(s, t, Holding(c), HoldingNext(c, s.next[c]));
  }

  lemma {:induction false} Unlinks(s: State, t: Tid, c: Node, nx: Option<Node>)
    requires t in s.pcs && c in s.refs && s.chain != [] && s.head == Some(c)
    ensures Only(Goto(WithRef(s, c), t, HoldingNext(c, nx)), Advance(t), Goto(WithTaken(s, t, c, nx), t, Unlinked(c)))
  {
    GotoTwice(WithRef(s, c), t, HoldingNext(c, nx), Unlinked(c));
  }

  lemma {:induction false} HandsOut(s: State, t: Tid, c: Node, nx: Option<Node>)
    requires t in s.pcs && c in s.refs && s.chain != [] && s.refs[c] > 0
    ensures Only(Goto(WithTaken(s, t, c, nx), t, Unlinked(c)), Advance(t), Goto(WithGiven(s, c, nx), t, Idle))
  {
    var refs := s.refs[c := s.refs[c] + 1];
    assert refs[c := refs[c] - 2] == s.refs[c := s.refs[c] - 1];
    assert s.status[c := Taken(t)][c := Owned] == s.status[c := Owned];
    assert s.pcs[t := Unlinked(c)][t := Idle] == s.pcs[t := Idle];
  }

  /** With the pool used up, a call that nobody disturbs takes the first block of the list
      in eight steps, wherever the other threads stand. */
  lemma {:induction false} LoneGet(s: State, t: Tid, states: seq<State>)
    requires Inv(s) && t in s.pcs && s.pcs[t] == Idle && s.poolIndex >= s.poolSize && s.chain != []
    requires Alone(states, s, Request(t), t)
    ensures Takes(states, 8, t)
    ensures |states| == 9 ==>
              var c := s.chain[0];
              && c in s.refs && s.refs[c] > 0
              && states[8] == s.(pcs := s.pcs[t := Idle], head := Nth(s.chain, 1), refs := s.refs[c := s.refs[c] - 1],
                                 status := s.status[c := Owned], chain := s.chain[1..], log := s.log + [Issued(c)])
  {
    hide Next, Inv, Goto, Only, WithRef, WithTaken, WithGiven;
    var c := s.chain[0];
    FirstIsReferable(s);
    var nx := s.next[c];
    var path := [s, Goto(s, t, CheckPool), Goto(s, t, LoadHead), Goto(s, t, Looking(Some(c))), Goto(s, t, SawRefs(c, s.refs[c])),
                 Goto(WithRef(s, c), t, Holding(c)), Goto(WithRef(s, c), t, HoldingNext(c, nx)),
                 Goto(WithTaken(s, t, c, nx), t, Unlinked(c)), Goto(WithGiven(s, c, nx), t, Idle)];
    GetIsForced(s, t, c, nx, path);
    GivenIs(s, t, c, nx);
    ForcedTakes(states, path, s, Request(t), t);
  }

  lemma {:induction false} GivenIs(s: State, t: Tid, c: Node, nx: Option<Node>)
    requires c in s.refs && s.chain != [] && s.refs[c] > 0
    ensures Goto(WithGiven(s, c, nx), t, Idle)
         == s.(pcs := s.pcs[t := Idle], head := nx, refs := s.refs[c := s.refs[c] - 1],
               status := s.status[c := Owned], chain := s.chain[1..], log := s.log + [Issued(c)])
  {
  }

  lemma {:induction false} GetIsForced(s: State, t: Tid, c: Node, nx: Option<Node>, path: seq<State>)
    requires t in s.pcs && s.pcs[t] == Idle && s.poolIndex >= s.poolSize && s.chain != [] && s.head == Some(c)
    requires c in s.refs && c in s.next && nx == s.next[c] && 0 < s.refs[c] < SHOULD_BE_ON_FREELIST
    requires path == [s, Goto(s, t, CheckPool), Goto(s, t, LoadHead), Goto(s, t, Looking(Some(c))), Goto(s, t, SawRefs(c, s.refs[c])),
                      Goto(WithRef(s, c), t, Holding(c)), Goto(WithRef(s, c), t, HoldingNext(c, nx)),
                      Goto(WithTaken(s, t, c, nx), t, Unlinked(c)), Goto(WithGiven(s, c, nx), t, Idle)]
    ensures Forced(path, s, Request(t), t)
  {
    hide Next, Inv, Goto, Only, WithRef, WithTaken, WithGiven, CanGoOn;
    BeginsGet(s, t);
    ChecksPool(s, t);
    LoadsHead(s, t);
    LooksAtRefs(s, t, c);
    TakesRef(s, t, c);
    RefKeeps(s, c);
    ReadsNext(WithRef(s, c), t, c);
    Unlinks(s, t, c, nx);
    HandsOut(s, t, c, nx);
    GivenIs(s, t, c, nx);
    StaysThere(path[8], t);
  }

  lemma {:induction false} RefKeeps(s: State, c: Node)
    requires c in s.refs
    ensures WithRef(s, c).next == s.next && WithRef(s, c).pcs == s.pcs
  {
  }

  // ----- Putting a block on the list ---------------------------------------------

  /** The state after `c` is put in front of the list. */
  function WithFirst(s: State, c: Node): State {
    s.(head := Some(c), next := s.next[c := s.head], refs := s.refs[c := 1], status := s.status[c := Listed],
       chain := [c] + s.chain, log := s.log + [Returned(c)])
  }

  /** The block as `add` leaves it when nobody references it: the caller is to link it. */
  function WithZero(s: State, t: Tid, c: Node): State {
    s.(refs := s.refs[c := SHOULD_BE_ON_FREELIST], status := s.status[c := Zero(t)], log := s.log + [Returned(c)])
  }

  function WithLink(s: State, t: Tid, c: Node): State {
    WithZero(s, t, c).(next := s.next[c := s.head])
  }

  function WithCount(s: State, t: Tid, c: Node): State {
    WithLink(s, t, c).(refs := s.refs[c := 1], status := s.status[c := Fresh(t)])
  }

  lemma {:induction false} BeginsPut(s: State, t: Tid, c: Node)
    requires t in s.pcs && s.pcs[t] == Idle && c in s.refs && s.refs[c] == 0 && c in s.status && s.status[c] == Owned
    ensures Only(s, Return(t, c), Goto(WithZero(s, t, c), t, KnowZero(c, Done)))
  {
  }

  lemma {:induction false} LoadsHeadToLink(s: State, t: Tid, c: Node)
    requires t in s.pcs
    ensures Only(Goto(s, t, KnowZero(c, Done)), Advance(t), Goto(s, t, Linking(c, s.head, Done)))
  {
    GotoTwice(s, t, KnowZero(c, Done), Linking(c, s.head, Done));
  }

  lemma {:induction false} Links(s: State, t: Tid, c: Node)
    requires t in s.pcs
    ensures Only(Goto(WithZero(s, t, c), t, Linking(c, s.head, Done)), Advance(t), Goto(WithLink(s, t, c), t, Linked(c, s.head, Done)))
  {
    GotoTwice(s, t, Linking(c, s.head, Done), Linked(c, s.head, Done));
  }

  lemma {:induction false} SetsCount(s: State, t: Tid, c: Node)
    requires t in s.pcs
    ensures Only(Goto(WithLink(s, t, c), t, Linked(c, s.head, Done)), Advance(t), Goto(WithCount(s, t, c), t, Publishing(c, s.head, Done)))
  {
    GotoTwice(s, t, Linked(c, s.head, Done), Publishing(c, s.head, Done));
    assert s.refs[c := SHOULD_BE_ON_FREELIST][c := 1] == s.refs[c := 1];
    assert s.status[c := Zero(t)][c := Fresh(t)] == s.status[c := Fresh(t)];
  }

  lemma {:induction false} Publishes(s: State, t: Tid, c: Node)
    requires t in s.pcs
    ensures Only(Goto(WithCount(s, t, c), t, Publishing(c, s.head, Done)), Advance(t), Goto(WithFirst(s, c), t, Idle))
  {
    GotoTwice(s, t, Publishing(c, s.head, Done), Idle);
    assert s.status[c := Fresh(t)][c := Listed] == s.status[c := Listed];
  }

  lemma {:induction false} FirstIs(s: State, t: Tid, c: Node)
    ensures Goto(WithFirst(s, c), t, Idle)
         == s.(pcs := s.pcs[t := Idle], head := Some(c), next := s.next[c := s.head], refs := s.refs[c := 1],
               status := s.status[c := Listed], chain := [c] + s.chain, log := s.log + [Returned(c)])
  {
  }

  lemma {:induction false} PutIsForced(s: State, t: Tid, c: Node, path: seq<State>)
    requires t in s.pcs && s.pcs[t] == Idle && c in s.refs && s.refs[c] == 0 && c in s.status && s.status[c] == Owned
    requires path == [s, Goto(WithZero(s, t, c), t, KnowZero(c, Done)), Goto(WithZero(s, t, c), t, Linking(c, s.head, Done)),
                      Goto(WithLink(s, t, c), t, Linked(c, s.head, Done)), Goto(WithCount(s, t, c), t, Publishing(c, s.head, Done)),
                      Goto(WithFirst(s, c), t, Idle)]
    ensures Forced(path, s, Return(t, c), t)
  {
    hide Next, Goto, Only, WithLink, WithCount, WithFirst, CanGoOn;
    BeginsPut(s, t, c);
    LoadsHeadToLink(WithZero(s, t, c), t, c);
    Links(s, t, c);
    SetsCount(s, t, c);
    Publishes(s, t, c);
    FirstIs(s, t, c);
    StaysThere(path[5], t);
  }

  /** Giving a block back, undisturbed: if no getter still references it, it is the first of
      the list after five steps; otherwise the call is over at once, and the last getter to
      drop its reference has to put the block on the list. */
  lemma {:induction false} LonePut(s: State, t: Tid, c: Node, states: seq<State>)
    requires Inv(s) && t in s.pcs && s.pcs[t] == Idle && c in s.status && s.status[c] == Owned
    requires Alone(states, s, Return(t, c), t)
    ensures Takes(states, if Holders(s.pcs, c) == {} then 5 else 1, t)
    ensures |states| == 6 ==>
              states[5] == s.(pcs := s.pcs[t := Idle], head := Some(c), next := s.next[c := s.head], refs := s.refs[c := 1],
                              status := s.status[c := Listed], chain := [c] + s.chain, log := s.log + [Returned(c)])
    ensures Holders(s.pcs, c) != {} ==>
              c in states[1].status && states[1].status[c] == Flagged && states[1].chain == s.chain && states[1].log == s.log + [Returned(c)]
  {
    OwnedCount(s, c);
    if Holders(s.pcs, c) == {} {
      PutAtOnce(s, t, c, states);
    } else {
      PutForLater(s, t, c, states);
    }
  }

  lemma {:induction false} OwnedCount(s: State, c: Node)
    requires Inv(s) && c in s.status && s.status[c] == Owned
    ensures c in s.refs && (s.refs[c] == 0 <==> Holders(s.pcs, c) == {})
  {
    assert RefsOk(s, c);
  }

  lemma {:induction false} PutAtOnce(s: State, t: Tid, c: Node, states: seq<State>)
    requires t in s.pcs && s.pcs[t] == Idle && c in s.refs && s.refs[c] == 0 && c in s.status && s.status[c] == Owned
    requires Alone(states, s, Return(t, c), t)
    ensures Takes(states, 5, t)
    ensures |states| == 6 ==>
              states[5] == s.(pcs := s.pcs[t := Idle], head := Some(c), next := s.next[c := s.head], refs := s.refs[c := 1],
                              status := s.status[c := Listed], chain := [c] + s.chain, log := s.log + [Returned(c)])
  {
    hide Next, Goto, Only, WithZero, WithLink, WithCount, WithFirst, Forced, Alone;
    var path := [s, Goto(WithZero(s, t, c), t, KnowZero(c, Done)), Goto(WithZero(s, t, c), t, Linking(c, s.head, Done)),
                 Goto(WithLink(s, t, c), t, Linked(c, s.head, Done)), Goto(WithCount(s, t, c), t, Publishing(c, s.head, Done)),
                 Goto(WithFirst(s, c), t, Idle)];
    PutIsForced(s, t, c, path);
    FirstIs(s, t, c);
    ForcedTakes(states, path, s, Return(t, c), t);
  }

  lemma {:induction false} PutForLater(s: State, t: Tid, c: Node, states: seq<State>)
    requires t in s.pcs && s.pcs[t] == Idle && c in s.refs && s.refs[c] > 0 && c in s.status && s.status[c] == Owned
    requires Alone(states, s, Return(t, c), t)
    ensures Takes(states, 1, t)
    ensures c in states[1].status && states[1].status[c] == Flagged && states[1].chain == s.chain && states[1].log == s.log + [Returned(c)]
  {
    var s1 := states[1];
    assert s1.pcs == s.pcs[t := Idle];
    StaysThere(s1, t);
    if |states| > 2 {
      assert Next(s1, Advance(t), states[2]);
      assert CanGoOn(s1, t);
    }
  }

  // ----- In every run ------------------------------------------------------------

  /** The steps `requisition_block` takes undisturbed. */
  function RequisitionSteps(s: State): nat {
    if s.poolIndex >= s.poolSize && s.chain != [] then 8 else 3
  }

  /** At any instant of any run, a `requisition_block` that nobody disturbs returns the next
      block of the pool, or else the first block of the list, and finds nothing only if
      there is neither; the other threads may stand still anywhere inside their calls. */
  lemma {:induction false} RequisitionAlone(run: seq<State>, actions: seq<Action>, i: nat, t: Tid, states: seq<State>)
    requires Run(run, actions) && i < |run| && Alone(states, run[i], Request(t), t)
    ensures Takes(states, RequisitionSteps(run[i]), t)
    ensures |states| == RequisitionSteps(run[i]) + 1 ==>
              var s, s' := run[i], states[|states| - 1];
              t in s'.pcs &&
              if s.poolIndex < s.poolSize then
                s'.pcs[t] == Idle && s'.log == s.log + [Issued(s.poolIndex)] && s'.chain == s.chain
              else if s.chain != [] then
                s'.pcs[t] == Idle && s'.log == s.log + [Issued(s.chain[0])] && s'.chain == s.chain[1..]
              else
                s'.pcs[t] == Looking(None) && s'.log == s.log
  {
    var s := run[i];
    assert t in s.pcs && s.pcs[t] == Idle by {
      assert Next(s, Request(t), states[1]);
    }
    RunKeepsInv(run, actions, i);
    hide Inv, Takes, Alone, Run;
    if s.poolIndex < s.poolSize {
      LoneDraw(s, t, states);
    } else if s.chain != [] {
      LoneGet(s, t, states);
    } else {
      LoneMiss(s, t, states);
    }
  }

  /** At any instant of any run, an `add` that nobody disturbs puts its block in front of the
      list if no getter still references it, and otherwise leaves that to the getters. */
  lemma {:induction false} AddAlone(run: seq<State>, actions: seq<Action>, i: nat, t: Tid, c: Node, states: seq<State>)
    requires Run(run, actions) && i < |run| && Alone(states, run[i], Return(t, c), t)
    ensures Takes(states, if Holders(run[i].pcs, c) == {} then 5 else 1, t)
    ensures Holders(run[i].pcs, c) == {} && |states| == 6 ==>
              t in states[5].pcs && states[5].pcs[t] == Idle
              && states[5].chain == [c] + run[i].chain && states[5].log == run[i].log + [Returned(c)]
    ensures Holders(run[i].pcs, c) != {} ==>
              c in states[1].status && states[1].status[c] == Flagged && states[1].chain == run[i].chain
  {
    var s := run[i];
    assert t in s.pcs && s.pcs[t] == Idle && c in s.status && s.status[c] == Owned by {
      assert Next(s, Return(t, c), states[1]);
    }
    RunKeepsInv(run, actions, i);
    hide Inv, Takes, Alone, Run;
    LonePut(s, t, c, states);
  }

  lemma {:induction false} AdderCanGoOn(s: State, t: Tid)
    requires t in s.pcs && Adds(s.pcs[t]) && s.pcs[t].n in s.refs
    ensures CanGoOn(s, t)
  {
    match s.pcs[t]
    case KnowZero(n, resume) => assert Next(s, Advance(t), Goto(s, t, Linking(n, s.head, resume)));
    case Linking(n, head, resume) => assert Next(s, Advance(t), Goto(s, t, Linked(n, head, resume)).(next := s.next[n := head]));
    case Linked(n, head, resume) =>
      assert Next(s, Advance(t), Goto(s, t, Publishing(n, head, resume)).(refs := s.refs[n := 1], status := s.status[n := Fresh(t)]));
    case Publishing(n, head, resume) =>
      if s.head == head {
        assert Next(s, Advance(t), Goto(s, t, After(resume)).(head := Some(n), status := s.status[n := Listed], chain := [n] + s.chain));
      } else {
        assert Next(s, Advance(t), Goto(s, t, Retreating(n, s.head, resume)));
      }
    case Retreating(n, head, resume) =>
      var alone := s.refs[n] == 1;
      assert Next(s, Advance(t), Goto(s, t, if alone then Linking(n, head, resume) else After(resume))
                                 .(refs := s.refs[n := s.refs[n] + SHOULD_BE_ON_FREELIST - 1],
                                   status := s.status[n := if alone then Zero(t) else Flagged]));
  }

  lemma {:induction false} ReaderCanGoOn(s: State, t: Tid)
    requires t in s.pcs && (s.pcs[t].CheckPool? || s.pcs[t].DrawPool? || s.pcs[t].LoadHead? || s.pcs[t].Looking?)
    requires s.pcs[t] != Looking(None) && (s.pcs[t].Looking? ==> s.pcs[t].head.value in s.refs)
    ensures CanGoOn(s, t)
  {
    match s.pcs[t]
    case CheckPool => assert Next(s, Advance(t), Goto(s, t, if s.poolIndex >= s.poolSize then LoadHead else DrawPool));
    case DrawPool =>
      var n := s.poolIndex;
      if n < s.poolSize {
        assert Next(s, Advance(t), Drawn(s, t));
      } else {
        assert Next(s, Advance(t), Goto(s, t, LoadHead).(poolIndex := n + 1));
      }
    case LoadHead => assert Next(s, Advance(t), Goto(s, t, Looking(s.head)));
    case Looking(head) => assert Next(s, Advance(t), Goto(s, t, SawRefs(head.value, s.refs[head.value])));
  }

  lemma {:induction false} GetterCanGoOn(s: State, t: Tid)
    requires t in s.pcs && (s.pcs[t].SawRefs? || s.pcs[t].Holding? || s.pcs[t].HoldingNext? || s.pcs[t].Unlinked? || s.pcs[t].Dropping?)
    requires s.pcs[t].n in s.refs && s.pcs[t].n in s.next
    requires s.refs[s.pcs[t].n] >= if s.pcs[t].Unlinked? then 2 else if s.pcs[t].Dropping? then 1 else 0
    ensures CanGoOn(s, t)
  {
    match s.pcs[t]
    case SawRefs(n, refs) =>
      if refs % SHOULD_BE_ON_FREELIST != 0 && s.refs[n] == refs {
        assert Next(s, Advance(t), Goto(s, t, Holding(n)).(refs := s.refs[n := refs + 1]));
      } else {
        assert Next(s, Advance(t), Goto(s, t, LoadHead));
      }
    case Holding(n) => assert Next(s, Advance(t), Goto(s, t, HoldingNext(n, s.next[n])));
    case HoldingNext(n, nx) =>
      if s.head == Some(n) {
        assert Next(s, Advance(t), Goto(s, t, Unlinked(n))
                                   .(head := nx, status := s.status[n := Taken(t)],
                                     chain := if s.chain == [] then [] else s.chain[1..]));
      } else {
        assert Next(s, Advance(t), Goto(s, t, Dropping(n, s.head)));
      }
    case Unlinked(n) =>
      assert Next(s, Advance(t), Goto(s, t, Idle)
                                 .(refs := s.refs[n := s.refs[n] - 2], status := s.status[n := Owned], log := s.log + [Issued(n)]));
    case Dropping(n, head) =>
      var last := s.refs[n] == SHOULD_BE_ON_FREELIST + 1;
      assert Next(s, Advance(t), Goto(s, t, if last then KnowZero(n, Search(head)) else Looking(head))
                                 .(refs := s.refs[n := s.refs[n] - 1], status := if last then s.status[n := Zero(t)] else s.status));
  }

  /** A thread that is to drop a reference has one, and the list's too if it took the block. */
  lemma {:induction false} HolderIsCounted(s: State, t: Tid)
    requires Inv(s) && t in s.pcs && (s.pcs[t].Unlinked? || s.pcs[t].Dropping?)
    ensures s.pcs[t].n in s.refs && s.refs[s.pcs[t].n] >= if s.pcs[t].Unlinked? then 2 else 1
  {
    var n := s.pcs[t].n;
    assert PcOk(s, t) && RefsOk(s, n);
    assert t in Holders(s.pcs, n);
  }

  lemma {:induction false} PcNodeIsThere(s: State, t: Tid)
    requires Inv(s) && t in s.pcs
    ensures Adds(s.pcs[t]) ==> s.pcs[t].n in s.refs
    ensures s.pcs[t].SawRefs? || s.pcs[t].Holding? || s.pcs[t].HoldingNext? || s.pcs[t].Unlinked? || s.pcs[t].Dropping? ==>
              s.pcs[t].n in s.refs && s.pcs[t].n in s.next
    ensures s.pcs[t].Looking? && s.pcs[t].head.Some? ==> s.pcs[t].head.value in s.refs
  {
    assert PcOk(s, t);
  }

  lemma {:induction false} OnlyEndsStop(s: State, t: Tid)
    requires Inv(s) && t in s.pcs
    ensures CanGoOn(s, t) <==> s.pcs[t] != Idle && s.pcs[t] != Looking(None)
  {
    PcNodeIsThere(s, t);
    if s.pcs[t].Unlinked? || s.pcs[t].Dropping? {
      HolderIsCounted(s, t);
    }
    hide Inv, CanGoOn;
    if s.pcs[t] == Idle || s.pcs[t] == Looking(None) {
      StaysThere(s, t);
    } else if Adds(s.pcs[t]) {
      AdderCanGoOn(s, t);
    } else if s.pcs[t].CheckPool? || s.pcs[t].DrawPool? || s.pcs[t].LoadHead? || s.pcs[t].Looking? {
      ReaderCanGoOn(s, t);
    } else {
      GetterCanGoOn(s, t);
    }
  }

  /** In every run a thread inside a call can take its next step, until it has its block or
      knows that there is none. */
  lemma {:induction false} NobodyIsStuck(run: seq<State>, actions: seq<Action>, i: nat, t: Tid)
    requires Run(run, actions) && i < |run| && t in run[i].pcs
    ensures CanGoOn(run[i], t) <==> run[i].pcs[t] != Idle && run[i].pcs[t] != Looking(None)
  {
    hide Inv, CanGoOn;
    RunKeepsInv(run, actions, i);
    OnlyEndsStop(run[i], t);
  }

  // ----- Left alone, every call ends ---------------------------------------------

  /** Dropping a reference now would put the block on the list. */
  predicate IsLastRef(s: State, n: Node) {
    n in s.refs && s.refs[n] == SHOULD_BE_ON_FREELIST + 1
  }

  /** How many steps a getter that goes on from this head may still take if left alone. */
  function LookLeft(s: State, head: Option<Node>): nat {
    if head == None then 0 else if head == s.head then 5 else 11
  }

  function ResumeLeft(resume: Resume): nat {
    match resume
    case Done => 0
    case Search(head) => if head == None then 0 else 11
  }

  /** How many steps a call may still take if left alone. */
  function AloneLeft(s: State, pc: Pc): nat {
    match pc
    case Idle => 0
    case CheckPool => 8
    case DrawPool => 7
    case LoadHead => 6
    case Looking(head) => LookLeft(s, head)
    case SawRefs(n, refs) => if s.head == Some(n) && n in s.refs && s.refs[n] == refs then 4 else 10
    case Holding(n) => if s.head == Some(n) then 3 else if IsLastRef(s, n) then 18 else 9
    case HoldingNext(n, _) => if s.head == Some(n) then 2 else if IsLastRef(s, n) then 17 else 8
    case Unlinked(_) => 1
    case Dropping(n, head) => if IsLastRef(s, n) then 16 else if head == s.head then 7 else 12
    case KnowZero(_, resume) => ResumeLeft(resume) + 4
    case Linking(_, head, resume) => ResumeLeft(resume) + if head == s.head then 3 else 7
    case Linked(_, head, resume) => ResumeLeft(resume) + if head == s.head then 2 else 6
    case Publishing(_, head, resume) => ResumeLeft(resume) + if head == s.head then 1 else 5
    case Retreating(_, head, resume) => ResumeLeft(resume) + if head == s.head then 4 else 8
  }

  lemma {:induction false} LinkerGetsNearer(s: State, t: Tid, s': State)
    requires t in s.pcs && Advances(s, t, s') && (s.pcs[t].KnowZero? || s.pcs[t].Linking? || s.pcs[t].Linked?)
    ensures t in s'.pcs && AloneLeft(s', s'.pcs[t]) < AloneLeft(s, s.pcs[t])
  {
    hide IsLastRef, LookLeft;
  }

  lemma {:induction false} AdderGetsNearer(s: State, t: Tid, s': State)
    requires t in s.pcs && Advances(s, t, s') && (s.pcs[t].Publishing? || s.pcs[t].Retreating?)
    ensures t in s'.pcs && AloneLeft(s', s'.pcs[t]) < AloneLeft(s, s.pcs[t])
  {
    hide IsLastRef, LookLeft;
    LooksAtMost(s', s.pcs[t].resume);
  }

  lemma {:induction false} LooksAtMost(s: State, resume: Resume)
    ensures AloneLeft(s, After(resume)) <= ResumeLeft(resume)
  {
  }

  lemma {:induction false} ReaderGetsNearer(s: State, t: Tid, s': State)
    requires t in s.pcs && Advances(s, t, s')
    requires s.pcs[t].CheckPool? || s.pcs[t].DrawPool? || s.pcs[t].LoadHead? || s.pcs[t].Looking? || s.pcs[t].Holding?
    ensures t in s'.pcs && AloneLeft(s', s'.pcs[t]) < AloneLeft(s, s.pcs[t])
  {
  }

  lemma {:induction false} GetterGetsNearer(s: State, t: Tid, s': State)
    requires t in s.pcs && Advances(s, t, s')
    requires s.pcs[t].SawRefs? || s.pcs[t].HoldingNext? || s.pcs[t].Unlinked? || s.pcs[t].Dropping?
    requires s.head.Some? ==> s.head.value in s.refs && 0 < s.refs[s.head.value] < SHOULD_BE_ON_FREELIST
    ensures t in s'.pcs && AloneLeft(s', s'.pcs[t]) < AloneLeft(s, s.pcs[t])
  {
  }

  lemma {:induction false} HeadIsReferable(s: State)
    requires Inv(s)
    ensures s.head.Some? ==> s.head.value in s.refs && 0 < s.refs[s.head.value] < SHOULD_BE_ON_FREELIST
  {
    NoHead(s);
    if s.chain != [] {
      FirstIsReferable(s);
    }
  }

  lemma {:induction false} GetsNearer(s: State, t: Tid, s': State)
    requires Inv(s) && Next(s, Advance(t), s')
    ensures t in s.pcs && t in s'.pcs && AloneLeft(s', s'.pcs[t]) < AloneLeft(s, s.pcs[t])
  {
    HeadIsReferable(s);
    hide Inv, DrawFromPool, TryIncrement, Unlink, HandOut, Drop, Push, Retreat, AloneLeft;
    if s.pcs[t].Publishing? || s.pcs[t].Retreating? {
      AdderGetsNearer(s, t, s');
    } else if Adds(s.pcs[t]) {
      LinkerGetsNearer(s, t, s');
    } else if s.pcs[t].SawRefs? || s.pcs[t].HoldingNext? || s.pcs[t].Unlinked? || s.pcs[t].Dropping? {
      GetterGetsNearer(s, t, s');
    } else {
      ReaderGetsNearer(s, t, s');
    }
  }

  /** The states that follow one another by steps of thread `t` only. */
  predicate GoesOnAlone(states: seq<State>, t: Tid) {
    forall k :: 0 <= k < |states| - 1 ==> Next(states[k], Advance(t), states[k + 1])
  }

  lemma {:induction false} NearerEachStep(states: seq<State>, t: Tid, k: nat)
    requires k < |states| && GoesOnAlone(states, t) && Inv(states[0]) && t in states[0].pcs
    ensures Inv(states[k]) && t in states[k].pcs && AloneLeft(states[k], states[k].pcs[t]) + k <= AloneLeft(states[0], states[0].pcs[t])
  {
    hide Next, Inv, AloneLeft;
    if k > 0 {
      NearerEachStep(states, t, k - 1);
      GetsNearer(states[k - 1], t, states[k]);
      StepKeepsInv(states[k - 1], Advance(t), states[k]);
    }
  }

  /** From any instant of any run, however far the call of a thread has got and wherever the
      others stand, the thread left alone is done within nineteen steps: it has its block,
      knows that there is none, or has given its block back. */
  lemma {:induction false} LeftAloneEnds(run: seq<State>, actions: seq<Action>, i: nat, t: Tid, states: seq<State>)
    requires Run(run, actions) && i < |run| && t in run[i].pcs
    requires states != [] && states[0] == run[i] && GoesOnAlone(states, t)
    ensures |states| <= 20
    ensures var s := states[|states| - 1];
            t in s.pcs && (CanGoOn(s, t) || s.pcs[t] == Idle || s.pcs[t] == Looking(None))
  {
    hide Next, Inv, CanGoOn, GoesOnAlone;
    RunKeepsInv(run, actions, i);
    var last := |states| - 1;
    NearerEachStep(states, t, last);
    AtMostNineteen(states[0], states[0].pcs[t]);
    OnlyEndsStop(states[last], t);
  }

  lemma {:induction false} AtMostNineteen(s: State, pc: Pc)
    ensures AloneLeft(s, pc) <= 19
  {
  }
}
