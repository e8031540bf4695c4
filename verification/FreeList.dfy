/** The reference-counted lock-free free list of blocks and `requisition_block`, which
    also draws from a fixed initial pool and can create blocks. Every access to a
    shared variable is one step; the steps of any number of threads interleave. */
module FreeList {
  import opened Options

  type Tid = nat
  type Node = nat

  /** The top bit of `freeListRefs`; the bits below it are the reference count. */
  const SHOULD_BE_ON_FREELIST: nat := 0x8000_0000

  /** What `try_get` does once an `add_knowing_refcount_is_zero` it had to run is over. */
  datatype Resume = Done | Search(head: Option<Node>)

  datatype Pc =
    | Idle
    | CheckPool
    | DrawPool
    | LoadHead
    | Looking(head: Option<Node>)
    | SawRefs(n: Node, refs: nat)
    | Holding(n: Node)
    | HoldingNext(n: Node, nx: Option<Node>)
    | Unlinked(n: Node)
    | Dropping(n: Node, head: Option<Node>)
    | KnowZero(n: Node, resume: Resume)
    | Linking(n: Node, head: Option<Node>, resume: Resume)
    | Linked(n: Node, head: Option<Node>, resume: Resume)
    | Publishing(n: Node, head: Option<Node>, resume: Resume)
    | Retreating(n: Node, head: Option<Node>, resume: Resume)

  /** Where a block is: waiting in the pool, in use, given back but still referenced,
      being put on the list by `t` (before and after its count is set to one), on the
      list, or unlinked by `t`, which is about to return it. */
  datatype Status = Unissued | Owned | Flagged | Zero(t: Tid) | Fresh(t: Tid) | Listed | Taken(t: Tid)

  datatype Event = Issued(n: Node) | Returned(n: Node)

  /** The shared variables and program counters, and three histories: the status of
      every block, the nodes on the list in order, and the hand-outs and returns so far. */
  datatype State = State(head: Option<Node>, refs: map<Node, nat>, next: map<Node, Option<Node>>,
                         poolIndex: nat, poolSize: nat, pcs: map<Tid, Pc>,
                         status: map<Node, Status>, chain: seq<Node>, log: seq<Event>)

  ghost predicate Init(s: State) {
    && s.head == None && s.poolIndex == 0 && s.chain == [] && s.log == []
    && |s.pcs| < SHOULD_BE_ON_FREELIST - 1
    && (forall t <- s.pcs :: s.pcs[t] == Idle)
    && s.refs.Keys == s.next.Keys && s.refs.Keys == s.status.Keys
    && (forall n: Node :: n in s.refs <==> n < s.poolSize)
    && (forall n <- s.refs :: s.refs[n] == 0 && s.status[n] == Unissued)
  }

  function Goto(s: State, t: Tid, pc: Pc): State {
    s.(pcs := s.pcs[t := pc])
  }

  /** Where `add_knowing_refcount_is_zero` returns to. */
  function After(resume: Resume): Pc {
    match resume
    case Done => Idle
    case Search(head) => Looking(head)
  }

  // ----- Steps -------------------------------------------------------------------

  datatype Action =
    | Request(t: Tid)           // requisition_block is called
    | Return(t: Tid, n: Node)   // add is called on a block in use
    | Create(t: Tid, n: Node)   // requisition_block creates a block
    | GiveUp(t: Tid)            // requisition_block may not allocate and returns null
    | Advance(t: Tid)           // the next access of a call in progress

  predicate Next(s: State, a: Action, s': State) {
    match a
    case Request(t) => t in s.pcs && s.pcs[t] == Idle && s' == Goto(s, t, CheckPool)
    case Return(t, n) => t in s.pcs && s.pcs[t] == Idle && n in s.refs && n in s.status && s.status[n] == Owned && Add(s, t, n, s')
    case Create(t, n) => t in s.pcs && s.pcs[t] == Looking(None) && n !in s.refs && CreateBlock(s, t, n, s')
    case GiveUp(t) => t in s.pcs && s.pcs[t] == Looking(None) && s' == Goto(s, t, Idle)
    case Advance(t) => t in s.pcs && Advances(s, t, s')
  }

  /** `add`: set the flag; whoever brings a flagged count to zero puts the node on the list. */
  predicate Add(s: State, t: Tid, n: Node, s': State)
    requires n in s.refs
  {
    s' == Goto(s, t, if s.refs[n] == 0 then KnowZero(n, Done) else Idle)
          .(refs := s.refs[n := s.refs[n] + SHOULD_BE_ON_FREELIST],
            status := s.status[n := if s.refs[n] == 0 then Zero(t) else Flagged],
            log := s.log + [Returned(n)])
  }

  predicate CreateBlock(s: State, t: Tid, n: Node, s': State) {
    n >= s.poolSize &&
    s' == Goto(s, t, Idle)
          .(refs := s.refs[n := 0], next := s.next[n := None], status := s.status[n := Owned],
            log := s.log + [Issued(n)])
  }

  predicate Advances(s: State, t: Tid, s': State)
    requires t in s.pcs
  {
    match s.pcs[t]
    case Idle => false
    case CheckPool => s' == Goto(s, t, if s.poolIndex >= s.poolSize then LoadHead else DrawPool)
    case DrawPool => DrawFromPool(s, t, s')
    case LoadHead => s' == Goto(s, t, Looking(s.head))
    case Looking(None) => false
    case Looking(Some(n)) => n in s.refs && s' == Goto(s, t, SawRefs(n, s.refs[n]))
    case SawRefs(n, refs) => n in s.refs && TryIncrement(s, t, n, refs, s')
    case Holding(n) => n in s.next && s' == Goto(s, t, HoldingNext(n, s.next[n]))
    case HoldingNext(n, nx) =>
      if s.head == Some(n) then Unlink(s, t, n, nx, s') else s' == Goto(s, t, Dropping(n, s.head))
    case Unlinked(n) => n in s.refs && HandOut(s, t, n, s')
    case Dropping(n, head) => n in s.refs && Drop(s, t, n, head, s')
    case KnowZero(n, resume) => s' == Goto(s, t, Linking(n, s.head, resume))
    case Linking(n, head, resume) => s' == Goto(s, t, Linked(n, head, resume)).(next := s.next[n := head])
    case Linked(n, head, resume) =>
      s' == Goto(s, t, Publishing(n, head, resume)).(refs := s.refs[n := 1], status := s.status[n := Fresh(t)])
    case Publishing(n, head, resume) =>
      if s.head == head then Push(s, t, n, resume, s') else s' == Goto(s, t, Retreating(n, s.head, resume))
    case Retreating(n, head, resume) => n in s.refs && Retreat(s, t, n, head, resume, s')
  }

  /** The fetch_add on the pool index, which may run past the end of the pool. */
  predicate DrawFromPool(s: State, t: Tid, s': State) {
    var n := s.poolIndex;
    if n < s.poolSize
    then s' == Goto(s, t, Idle).(poolIndex := n + 1, status := s.status[n := Owned], log := s.log + [Issued(n)])
    else s' == Goto(s, t, LoadHead).(poolIndex := n + 1)
  }

  /** Only a node whose count is not zero may be referenced; otherwise, and when the
      compare-and-swap fails, the head is loaded again. */
  predicate TryIncrement(s: State, t: Tid, n: Node, refs: nat, s': State)
    requires n in s.refs
  {
    if refs % SHOULD_BE_ON_FREELIST != 0 && s.refs[n] == refs
    then s' == Goto(s, t, Holding(n)).(refs := s.refs[n := refs + 1])
    else s' == Goto(s, t, LoadHead)
  }

  /** The compare-and-swap of the head from `n` to the next node that was read. */
  predicate Unlink(s: State, t: Tid, n: Node, nx: Option<Node>, s': State) {
    s' == Goto(s, t, Unlinked(n))
          .(head := nx, status := s.status[n := Taken(t)], chain := if s.chain == [] then [] else s.chain[1..])
  }

  /** `fetch_add(-2)`: the getter's reference and the list's; then the block is returned. */
  predicate HandOut(s: State, t: Tid, n: Node, s': State)
    requires n in s.refs
  {
    s.refs[n] >= 2 &&
    s' == Goto(s, t, Idle)
          .(refs := s.refs[n := s.refs[n] - 2], status := s.status[n := Owned], log := s.log + [Issued(n)])
  }

  /** `fetch_add(-1)` after a lost race; the last reference to a flagged node puts it on the list. */
  predicate Drop(s: State, t: Tid, n: Node, head: Option<Node>, s': State)
    requires n in s.refs
  {
    s.refs[n] >= 1 &&
    var last := s.refs[n] == SHOULD_BE_ON_FREELIST + 1;
    s' == Goto(s, t, if last then KnowZero(n, Search(head)) else Looking(head))
          .(refs := s.refs[n := s.refs[n] - 1],
            status := if last then s.status[n := Zero(t)] else s.status)
  }

  /** The successful compare-and-swap that puts `n` in front. */
  predicate Push(s: State, t: Tid, n: Node, resume: Resume, s': State) {
    s' == Goto(s, t, After(resume))
          .(head := Some(n), status := s.status[n := Listed], chain := [n] + s.chain)
  }

  /** The add failed: give the count of one back and set the flag again; try once more
      only if nobody else holds a reference. */
  predicate Retreat(s: State, t: Tid, n: Node, head: Option<Node>, resume: Resume, s': State)
    requires n in s.refs
  {
    var alone := s.refs[n] == 1;
    s' == Goto(s, t, if alone then Linking(n, head, resume) else After(resume))
          .(refs := s.refs[n := s.refs[n] + SHOULD_BE_ON_FREELIST - 1],
            status := s.status[n := if alone then Zero(t) else Flagged])
  }

  // ----- The invariant -----------------------------------------------------------

  predicate HoldsRef(pc: Pc, n: Node) {
    (pc.Holding? || pc.HoldingNext? || pc.Unlinked? || pc.Dropping?) && pc.n == n
  }

  function Holders(pcs: map<Tid, Pc>, n: Node): set<Tid> {
    set t | t in pcs && HoldsRef(pcs[t], n)
  }

  /** The value of `freeListRefs`: the flag, the list's own reference, and the getters'. */
  function Count(st: Status, holders: nat): nat {
    (if st.Flagged? || st.Zero? then SHOULD_BE_ON_FREELIST else 0)
    + (if st.Fresh? || st.Listed? || st.Taken? then 1 else 0)
    + holders
  }

  /** The status that a program counter working on `n` requires of it. */
  predicate Serves(pc: Pc, t: Tid, n: Node, st: Status) {
    match st
    case Zero(u) => u == t && (pc.KnowZero? || pc.Linking? || pc.Linked?) && pc.n == n
    case Fresh(u) => u == t && (pc.Publishing? || pc.Retreating?) && pc.n == n
    case Taken(u) => u == t && pc == Unlinked(n)
    case _ => false
  }

  predicate InService(st: Status) {
    st.Zero? || st.Fresh? || st.Taken?
  }

  /** The node at position `i` of the chain, if there is one. */
  function Nth(chain: seq<Node>, i: nat): Option<Node> {
    if i < |chain| then Some(chain[i]) else None
  }

  /** The next pointer of the node at position `i` leads to position `i + 1`. */
  predicate LinkOk(next: map<Node, Option<Node>>, chain: seq<Node>, i: nat) {
    i < |chain| ==> chain[i] in next && next[chain[i]] == Nth(chain, i + 1)
  }

  predicate Shape(s: State) {
    && s.refs.Keys == s.next.Keys && s.refs.Keys == s.status.Keys
    && |s.pcs| < SHOULD_BE_ON_FREELIST - 1
    && (forall n: Node :: n < s.poolSize ==> n in s.refs)
    && (forall n <- s.status :: s.status[n].Unissued? <==> s.poolIndex <= n < s.poolSize)
  }

  /** The list really is a chain of next pointers from the head through the listed nodes. */
  predicate ChainOk(s: State)
    requires s.refs.Keys == s.next.Keys && s.refs.Keys == s.status.Keys
  {
    && s.head == Nth(s.chain, 0)
    && (forall i :: 0 <= i < |s.chain| ==> s.chain[i] in s.status && s.status[s.chain[i]] == Listed)
    && (forall i: nat :: i < |s.chain| ==> LinkOk(s.next, s.chain, i))
    && (forall i, j :: 0 <= i < j < |s.chain| ==> s.chain[i] != s.chain[j])
    && (forall n <- s.status :: s.status[n] == Listed ==> n in s.chain)
  }

  predicate RefsOk(s: State, n: Node)
    requires n in s.refs && n in s.status
  {
    var holders := Holders(s.pcs, n);
    && s.refs[n] == Count(s.status[n], |holders|)
    && (s.status[n].Zero? || s.status[n].Unissued? ==> holders == {})
    && (s.status[n].Flagged? ==> holders != {})
  }

  /** What the thread relies on between two steps; in particular a next pointer read
      while holding a reference is still the node's next pointer. */
  predicate PcOk(s: State, t: Tid)
    requires t in s.pcs && s.refs.Keys == s.next.Keys && s.refs.Keys == s.status.Keys
  {
    match s.pcs[t]
    case Looking(Some(n)) => n in s.refs
    case SawRefs(n, _) => n in s.refs
    case Holding(n) => n in s.refs
    case HoldingNext(n, nx) => n in s.refs && s.next[n] == nx
    case Unlinked(n) => n in s.refs && s.status[n] == Taken(t)
    case Dropping(n, head) => n in s.refs && ResumeOk(s, Search(head))
    case KnowZero(n, resume) => n in s.refs && s.status[n] == Zero(t) && ResumeOk(s, resume)
    case Linking(n, head, resume) => n in s.refs && s.status[n] == Zero(t) && ResumeOk(s, resume)
    case Linked(n, head, resume) => n in s.refs && s.status[n] == Zero(t) && s.next[n] == head && ResumeOk(s, resume)
    case Publishing(n, head, resume) => n in s.refs && s.status[n] == Fresh(t) && s.next[n] == head && ResumeOk(s, resume)
    case Retreating(n, head, resume) => n in s.refs && s.status[n] == Fresh(t) && ResumeOk(s, resume)
    case _ => true
  }

  predicate ResumeOk(s: State, resume: Resume) {
    match resume
    case Search(Some(n)) => n in s.refs
    case _ => true
  }

  /** The last event about `n` was a hand-out. */
  predicate IsOut(log: seq<Event>, n: Node) {
    if log == [] then false
    else if log[|log| - 1].n == n then log[|log| - 1].Issued?
    else IsOut(log[..|log| - 1], n)
  }

  /** Hand-outs and returns of each block alternate, starting with a hand-out. */
  predicate Alternates(log: seq<Event>) {
    log == [] ||
    (var init, last := log[..|log| - 1], log[|log| - 1];
     Alternates(init) && (last.Issued? <==> !IsOut(init, last.n)))
  }

  ghost predicate LogOk(s: State) {
    && Alternates(s.log)
    && (forall n {:trigger IsOut(s.log, n)} :: IsOut(s.log, n) <==> n in s.status && s.status[n].Owned?)
  }

  /** A node in service still has the thread that serves it. */
  predicate Served(s: State, n: Node)
    requires n in s.status
  {
    InService(s.status[n]) ==>
      s.status[n].t in s.pcs && Serves(s.pcs[s.status[n].t], s.status[n].t, n, s.status[n])
  }

  /** The parts of the invariant that do not speak of the list or the history. */
  ghost predicate NodesOk(s: State) {
    && Shape(s)
    && (forall n {:trigger Served(s, n)} :: n in s.status ==> Served(s, n))
    && (forall n {:trigger RefsOk(s, n)} :: n in s.refs ==> RefsOk(s, n))
    && (forall t {:trigger PcOk(s, t)} :: t in s.pcs ==> PcOk(s, t))
  }

  ghost predicate Inv(s: State) {
    NodesOk(s) && ChainOk(s) && LogOk(s)
  }

  lemma {:induction false} InitInv(s: State)
    requires Init(s)
    ensures Inv(s)
  {
    forall n <- s.refs ensures RefsOk(s, n) {
      assert Holders(s.pcs, n) == {};
    }
  }

  // ----- Reference counts under a change of one program counter -------------------

  lemma {:induction false} HoldersUpdate(pcs: map<Tid, Pc>, t: Tid, pc: Pc, n: Node)
    requires t in pcs
    ensures |Holders(pcs[t := pc], n)|
         == |Holders(pcs, n)| - (if HoldsRef(pcs[t], n) then 1 else 0) + (if HoldsRef(pc, n) then 1 else 0)
    ensures Holders(pcs[t := pc], n) == if HoldsRef(pc, n) then Holders(pcs, n) + {t} else Holders(pcs, n) - {t}
  {
    var was, now := Holders(pcs, n), Holders(pcs[t := pc], n);
    assert now == if HoldsRef(pc, n) then was + {t} else was - {t};
  }

  /** Fewer threads hold a reference than the count bits can represent. */
  lemma {:induction false} HoldersBounded(s: State, n: Node)
    requires Shape(s)
    ensures |Holders(s.pcs, n)| < SHOULD_BE_ON_FREELIST - 1
  {
    assert Holders(s.pcs, n) <= s.pcs.Keys;
    SubsetSize(Holders(s.pcs, n), s.pcs.Keys);
    assert |s.pcs.Keys| == |s.pcs|;
  }

  lemma {:induction false} SubsetSize<T>(a: set<T>, b: set<T>)
    requires a <= b
    ensures |a| <= |b|
  {
    if a != {} {
      var x :| x in a;
      SubsetSize(a - {x}, b - {x});
    }
  }

  // ----- Every step keeps the invariant ------------------------------------------

  /** What another thread relies on survives a step that takes away no node it serves
      and changes no next pointer of a node it holds. */
  lemma {:induction false} PcOkKept(s: State, s': State, u: Tid)
    requires u in s.pcs && u in s'.pcs && s'.pcs[u] == s.pcs[u]
    requires s.refs.Keys == s.next.Keys && s.refs.Keys == s.status.Keys
    requires s'.refs.Keys == s'.next.Keys && s'.refs.Keys == s'.status.Keys && s.refs.Keys <= s'.refs.Keys
    requires PcOk(s, u)
    requires forall m <- s.refs :: Serves(s.pcs[u], u, m, s.status[m]) ==> s'.status[m] == s.status[m] && s'.next[m] == s.next[m]
    requires forall m <- s.refs :: HoldsRef(s.pcs[u], m) ==> s'.next[m] == s.next[m]
    ensures PcOk(s', u)
  {
  }

  lemma {:induction false} RefsOkKept(s: State, t: Tid, pc: Pc, s': State, m: Node)
    requires t in s.pcs && s'.pcs == s.pcs[t := pc]
    requires m in s.refs && m in s.status && m in s'.refs && m in s'.status
    requires s'.refs[m] == s.refs[m] && s'.status[m] == s.status[m]
    requires HoldsRef(pc, m) <==> HoldsRef(s.pcs[t], m)
    requires RefsOk(s, m)
    ensures RefsOk(s', m)
  {
    assert Holders(s'.pcs, m) == Holders(s.pcs, m);
  }

  lemma {:induction false} SameThreads(pcs: map<Tid, Pc>, t: Tid, pc: Pc)
    requires t in pcs
    ensures |pcs[t := pc]| == |pcs|
  {
    assert |pcs[t := pc].Keys| == |pcs[t := pc]| && pcs[t := pc].Keys == pcs.Keys && |pcs.Keys| == |pcs|;
  }

  /** A step that changes only the program counter of `t`, and neither its references
      nor its duties. */
  lemma {:induction false} PcStepKeepsInv(s: State, t: Tid, pc: Pc, s': State)
    requires Inv(s) && t in s.pcs && s' == Goto(s, t, pc)
    requires forall n: Node :: HoldsRef(pc, n) <==> HoldsRef(s.pcs[t], n)
    requires forall n <- s.status :: Serves(s.pcs[t], t, n, s.status[n]) ==> Serves(pc, t, n, s.status[n])
    requires PcOk(s', t)
    ensures Inv(s')
  {
    SameThreads(s.pcs, t, pc);
    forall n <- s'.status ensures Served(s', n) {
      assert Served(s, n);
    }
    forall i: nat | i < |s.chain| ensures LinkOk(s'.next, s'.chain, i) {
      assert LinkOk(s.next, s.chain, i);
    }
    forall n <- s'.refs ensures RefsOk(s', n) {
      assert RefsOk(s, n);
      RefsOkKept(s, t, pc, s', n);
    }
    forall u <- s'.pcs ensures PcOk(s', u) {
      if u != t {
        assert PcOk(s, u);
        PcOkKept(s, s', u);
      }
    }
  }

  /** Thread `t` changes its program counter and the variables of one node `n`. */
  predicate OnlyNode(s: State, t: Tid, pc: Pc, n: Node, refs: nat, nx: Option<Node>, st: Status, s': State) {
    && t in s.pcs && n in s.refs
    && s'.pcs == s.pcs[t := pc] && s'.refs == s.refs[n := refs]
    && s'.next == s.next[n := nx] && s'.status == s.status[n := st]
    && s'.poolSize == s.poolSize
  }

  /** The program counter is about no node but `n`. */
  predicate About(pc: Pc, n: Node) {
    pc.Idle? || pc.CheckPool? || pc.DrawPool? || pc.LoadHead? || pc.Looking? || pc.n == n
  }

  predicate SameKeys(s: State) {
    s.refs.Keys == s.next.Keys && s.refs.Keys == s.status.Keys
  }

  /** A step of `t` on node `n` alone that leaves the list as it is, or takes `n` off its
      front, or puts it there. */
  predicate StepOk(s: State, t: Tid, pc: Pc, n: Node, refs: nat, nx: Option<Node>, st: Status, s': State)
    requires SameKeys(s)
  {
    && OnlyNode(s, t, pc, n, refs, nx, st, s')
    && s'.poolIndex == s.poolIndex && (st.Unissued? <==> s.status[n].Unissued?)
    && About(s.pcs[t], n) && About(pc, n)
    && (if st == s.status[n] && !(InService(st) && st.t == t)
        then nx == s.next[n]
        else (InService(s.status[n]) ==> s.status[n].t == t) && (InService(st) ==> Serves(pc, t, n, st)))
    && RefsOk(s', n) && PcOk(s', t)
    && (nx != s.next[n] ==> Holders(s.pcs, n) == {})
    && (s.status[n] == Listed ==> nx == s.next[n]) && ListStep(s, n, nx, st, s')
  }

  predicate ListStep(s: State, n: Node, nx: Option<Node>, st: Status, s': State)
    requires SameKeys(s) && n in s.refs
  {
    if st == Listed && s.status[n] != Listed then
      s'.chain == [n] + s.chain && s'.head == Some(n) && nx == s.head
    else if s.status[n] == Listed && st != Listed then
      s.head == Some(n) && s.chain == [n] + s'.chain && s'.head == s.next[n]
    else
      s'.head == s.head && s'.chain == s.chain && (st == Listed ==> nx == s.next[n])
  }

  lemma {:induction false} OthersKept(s: State, t: Tid, pc: Pc, n: Node, refs: nat, nx: Option<Node>, st: Status, s': State, u: Tid)
    requires SameKeys(s) && StepOk(s, t, pc, n, refs, nx, st, s')
    requires u in s.pcs && u != t && PcOk(s, u)
    ensures PcOk(s', u)
  {
    assert HoldsRef(s.pcs[u], n) ==> u in Holders(s.pcs, n);
    PcOkKept(s, s', u);
  }

  lemma {:induction false} ServedKept(s: State, t: Tid, pc: Pc, n: Node, refs: nat, nx: Option<Node>, st: Status, s': State, m: Node)
    requires SameKeys(s) && StepOk(s, t, pc, n, refs, nx, st, s') && m in s.status && Served(s, m)
    ensures Served(s', m)
  {
  }

  lemma {:induction false} ChainPushed(s: State, n: Node, s': State)
    requires SameKeys(s) && SameKeys(s') && ChainOk(s) && n in s.refs && s.status[n] != Listed
    requires s'.status == s.status[n := Listed] && s'.next == s.next[n := s.head]
    requires s'.chain == [n] + s.chain && s'.head == Some(n)
    ensures ChainOk(s')
  {
    forall i: nat | i < |s'.chain| ensures LinkOk(s'.next, s'.chain, i) {
      assert i > 0 ==> LinkOk(s.next, s.chain, i - 1);
    }
  }

  lemma {:induction false} ChainPopped(s: State, n: Node, st: Status, s': State)
    requires SameKeys(s) && SameKeys(s') && ChainOk(s) && n in s.refs && st != Listed
    requires s'.status == s.status[n := st] && s'.next == s.next
    requires s.head == Some(n) && s.chain == [n] + s'.chain && s'.head == s.next[n]
    ensures ChainOk(s')
  {
    assert forall i :: 0 <= i < |s'.chain| ==> s'.chain[i] == s.chain[i + 1];
    forall i: nat | i < |s'.chain| ensures LinkOk(s'.next, s'.chain, i) {
      LinkPopped(s.next, n, s'.chain, i);
    }
    assert LinkOk(s.next, s.chain, 0);
    hide LinkOk;
    forall m <- s'.status ensures s'.status[m] == Listed ==> m in s'.chain {
      assert s.status[m] == Listed ==> m in s.chain;
    }
  }

  lemma {:induction false} LinkPopped(next: map<Node, Option<Node>>, n: Node, rest: seq<Node>, i: nat)
    requires LinkOk(next, [n] + rest, i + 1)
    ensures LinkOk(next, rest, i)
  {
  }

  lemma {:induction false} ChainKept(s: State, n: Node, nx: Option<Node>, st: Status, s': State)
    requires SameKeys(s) && SameKeys(s') && ChainOk(s) && n in s.refs
    requires s'.status == s.status[n := st] && s'.next == s.next[n := nx]
    requires ListStep(s, n, nx, st, s') && (s.status[n] == Listed ==> nx == s.next[n])
    ensures ChainOk(s')
  {
    if st == Listed && s.status[n] != Listed {
      ChainPushed(s, n, s');
    } else if s.status[n] == Listed && st != Listed {
      assert s'.next == s.next;
      ChainPopped(s, n, st, s');
    } else {
      forall i: nat | i < |s'.chain| ensures LinkOk(s'.next, s'.chain, i) {
        assert LinkOk(s.next, s.chain, i);
      }
    }
  }

  lemma {:induction false} StepKeepsNodes(s: State, t: Tid, pc: Pc, n: Node, refs: nat, nx: Option<Node>, st: Status, s': State)
    requires NodesOk(s) && StepOk(s, t, pc, n, refs, nx, st, s')
    ensures NodesOk(s')
  {
    SameThreads(s.pcs, t, pc);
    forall m <- s'.status ensures Served(s', m) {
      assert Served(s, m);
      ServedKept(s, t, pc, n, refs, nx, st, s', m);
    }
    forall m <- s'.refs ensures RefsOk(s', m) {
      if m != n {
        assert RefsOk(s, m);
        RefsOkKept(s, t, pc, s', m);
      }
    }
    forall u <- s'.pcs ensures PcOk(s', u) {
      if u != t {
        assert PcOk(s, u);
        OthersKept(s, t, pc, n, refs, nx, st, s', u);
      }
    }
  }

  lemma {:induction false} LogKept(s: State, s': State)
    requires LogOk(s) && s'.log == s.log && s'.status.Keys == s.status.Keys
    requires forall n <- s.status :: s.status[n].Owned? <==> s'.status[n].Owned?
    ensures LogOk(s')
  {
  }

  /** One more event about `n` that says what the status says. */
  lemma {:induction false} LogAppended(s: State, e: Event, s': State)
    requires LogOk(s) && s'.log == s.log + [e]
    requires e.n in s'.status && s'.status.Keys == s.status.Keys + {e.n}
    requires forall m <- s.status :: m != e.n ==> (s.status[m].Owned? <==> s'.status[m].Owned?)
    requires e.Issued? <==> s'.status[e.n].Owned?
    requires (e.n in s.status && s.status[e.n].Owned?) <==> e.Returned?
    ensures LogOk(s')
  {
    assert s'.log[..|s'.log| - 1] == s.log;
  }

  // What each step does to its node, from what is known of that node and thread alone.

  lemma {:induction false} AddEffect(s: State, t: Tid, n: Node, s': State)
    requires SameKeys(s) && t in s.pcs && s.pcs[t] == Idle && n in s.refs && s.status[n] == Owned && RefsOk(s, n)
    requires Add(s, t, n, s')
    ensures StepOk(s, t, s'.pcs[t], n, s'.refs[n], s.next[n], s'.status[n], s')
  {
    HoldersUpdate(s.pcs, t, s'.pcs[t], n);
  }

  lemma {:induction false} IncrementEffect(s: State, t: Tid, n: Node, refs: nat, s': State)
    requires SameKeys(s) && t in s.pcs && s.pcs[t] == SawRefs(n, refs) && n in s.refs && RefsOk(s, n)
    requires TryIncrement(s, t, n, refs, s') && refs % SHOULD_BE_ON_FREELIST != 0 && s.refs[n] == refs
    requires InService(s.status[n]) ==> s.status[n].t != t
    ensures StepOk(s, t, Holding(n), n, refs + 1, s.next[n], s.status[n], s')
  {
    HoldersUpdate(s.pcs, t, Holding(n), n);
  }

  /** The compare-and-swap succeeds on the first node of the list, whose next pointer is
      still the one read under the reference. */
  lemma {:induction false} UnlinkEffect(s: State, t: Tid, n: Node, nx: Option<Node>, s': State)
    requires SameKeys(s) && t in s.pcs && s.pcs[t] == HoldingNext(n, nx) && s.head == Some(n)
    requires s.chain != [] && s.chain[0] == n && n in s.refs && s.status[n] == Listed && RefsOk(s, n) && PcOk(s, t)
    requires Unlink(s, t, n, nx, s')
    ensures StepOk(s, t, Unlinked(n), n, s.refs[n], s.next[n], Taken(t), s')
  {
    HoldersUpdate(s.pcs, t, Unlinked(n), n);
    assert s.chain == [n] + s'.chain;
  }

  lemma {:induction false} HandOutEffect(s: State, t: Tid, n: Node, s': State)
    requires SameKeys(s) && t in s.pcs && s.pcs[t] == Unlinked(n) && n in s.refs && RefsOk(s, n) && PcOk(s, t)
    requires HandOut(s, t, n, s')
    ensures StepOk(s, t, Idle, n, s'.refs[n], s.next[n], Owned, s')
  {
    HoldersUpdate(s.pcs, t, Idle, n);
  }

  /** A set of one element holds nothing else. */
  lemma {:induction false} LastHolder(holders: set<Tid>, t: Tid)
    requires t in holders
    ensures |holders| == 1 <==> holders - {t} == {}
  {
    assert |holders - {t}| == |holders| - 1;
  }

  lemma {:induction false} DropEffect(s: State, t: Tid, n: Node, head: Option<Node>, s': State)
    requires SameKeys(s) && Shape(s) && t in s.pcs && s.pcs[t] == Dropping(n, head) && n in s.refs
    requires RefsOk(s, n) && PcOk(s, t)
    requires InService(s.status[n]) ==> s.status[n].t != t
    requires Drop(s, t, n, head, s')
    ensures StepOk(s, t, s'.pcs[t], n, s'.refs[n], s.next[n], s'.status[n], s')
    ensures s.status[n].Owned? <==> s'.status[n].Owned?
  {
    HoldersUpdate(s.pcs, t, s'.pcs[t], n);
    HoldersBounded(s, n);
    LastHolder(Holders(s.pcs, n), t);
  }

  lemma {:induction false} LinkEffect(s: State, t: Tid, n: Node, head: Option<Node>, resume: Resume, s': State)
    requires SameKeys(s) && t in s.pcs && s.pcs[t] == Linking(n, head, resume) && n in s.refs && RefsOk(s, n) && PcOk(s, t)
    requires s' == Goto(s, t, Linked(n, head, resume)).(next := s.next[n := head])
    ensures StepOk(s, t, Linked(n, head, resume), n, s.refs[n], head, s.status[n], s')
  {
    HoldersUpdate(s.pcs, t, Linked(n, head, resume), n);
  }

  lemma {:induction false} SetCountEffect(s: State, t: Tid, n: Node, head: Option<Node>, resume: Resume, s': State)
    requires SameKeys(s) && t in s.pcs && s.pcs[t] == Linked(n, head, resume) && n in s.refs && RefsOk(s, n) && PcOk(s, t)
    requires s' == Goto(s, t, Publishing(n, head, resume)).(refs := s.refs[n := 1], status := s.status[n := Fresh(t)])
    ensures StepOk(s, t, Publishing(n, head, resume), n, 1, s.next[n], Fresh(t), s')
  {
    HoldersUpdate(s.pcs, t, Publishing(n, head, resume), n);
  }

  /** The node put in front has as next pointer the head it replaces. */
  lemma {:induction false} PushEffect(s: State, t: Tid, n: Node, resume: Resume, s': State)
    requires SameKeys(s) && t in s.pcs && s.pcs[t] == Publishing(n, s.head, resume) && n in s.refs && RefsOk(s, n) && PcOk(s, t)
    requires Push(s, t, n, resume, s')
    ensures StepOk(s, t, After(resume), n, s.refs[n], s.next[n], Listed, s')
  {
    HoldersUpdate(s.pcs, t, After(resume), n);
  }

  lemma {:induction false} RetreatEffect(s: State, t: Tid, n: Node, head: Option<Node>, resume: Resume, s': State)
    requires SameKeys(s) && t in s.pcs && s.pcs[t] == Retreating(n, head, resume) && n in s.refs && RefsOk(s, n) && PcOk(s, t)
    requires Retreat(s, t, n, head, resume, s')
    ensures StepOk(s, t, s'.pcs[t], n, s'.refs[n], s.next[n], s'.status[n], s')
  {
    hide Holders;
    HoldersUpdate(s.pcs, t, s'.pcs[t], n);
  }

  /** A node step with no event, which moves no block into or out of use. */
  lemma {:induction false} QuietStepKeepsInv(s: State, t: Tid, pc: Pc, n: Node, refs: nat, nx: Option<Node>, st: Status, s': State)
    requires Inv(s) && StepOk(s, t, pc, n, refs, nx, st, s')
    requires s'.log == s.log && (s.status[n].Owned? <==> st.Owned?)
    ensures Inv(s')
  {
    StepKeepsNodes(s, t, pc, n, refs, nx, st, s');
    ChainKept(s, n, nx, st, s');
    LogKept(s, s');
  }

  /** A node step that hands a block out or gives it back. */
  lemma {:induction false} EventStepKeepsInv(s: State, t: Tid, pc: Pc, n: Node, refs: nat, nx: Option<Node>, st: Status, e: Event, s': State)
    requires Inv(s) && StepOk(s, t, pc, n, refs, nx, st, s')
    requires s'.log == s.log + [e] && e.n == n && (s.status[n].Owned? <==> e.Returned?) && (st.Owned? <==> e.Issued?)
    ensures Inv(s')
  {
    StepKeepsNodes(s, t, pc, n, refs, nx, st, s');
    ChainKept(s, n, nx, st, s');
    LogAppended(s, e, s');
  }

  /** A block that no thread references comes into use, from the pool or newly created. */
  predicate BroughtIn(s: State, n: Node, s': State)
    requires SameKeys(s)
  {
    && (if n in s.refs then s.status[n] == Unissued && s'.next == s.next && s'.refs == s.refs
        else s'.refs == s.refs[n := 0] && s'.next == s.next[n := None])
    && s'.pcs == s.pcs && s'.status == s.status[n := Owned]
    && s'.head == s.head && s'.chain == s.chain
    && s'.poolSize == s.poolSize && s'.poolIndex == (if n in s.refs then n + 1 else s.poolIndex)
    && (if n in s.refs then n == s.poolIndex < s.poolSize else n >= s.poolSize)
    && s'.log == s.log + [Issued(n)]
  }

  lemma {:induction false} NewHasNoHolders(s: State, n: Node)
    requires NodesOk(s) && n !in s.refs
    ensures Holders(s.pcs, n) == {}
  {
    forall u <- s.pcs ensures !HoldsRef(s.pcs[u], n) {
      assert PcOk(s, u);
    }
  }

  lemma {:induction false} BroughtInKeepsPc(s: State, n: Node, s': State, u: Tid)
    requires SameKeys(s) && BroughtIn(s, n, s') && u in s.pcs && PcOk(s, u)
    ensures PcOk(s', u)
  {
  }

  lemma {:induction false} BroughtInKeepsRefs(s: State, n: Node, s': State, m: Node)
    requires SameKeys(s) && BroughtIn(s, n, s') && m in s'.refs
    requires m in s.refs ==> RefsOk(s, m)
    requires n !in s.refs ==> Holders(s.pcs, n) == {}
    ensures RefsOk(s', m)
  {
  }

  lemma {:induction false} BroughtInKeepsChain(s: State, n: Node, s': State)
    requires SameKeys(s) && ChainOk(s) && BroughtIn(s, n, s')
    ensures ChainOk(s')
  {
    forall i: nat | i < |s.chain| ensures LinkOk(s'.next, s'.chain, i) {
      assert LinkOk(s.next, s.chain, i);
    }
  }

  lemma {:induction false} BroughtInKeepsNodes(s: State, n: Node, s': State)
    requires NodesOk(s) && BroughtIn(s, n, s')
    ensures NodesOk(s')
  {
    hide Holders, HoldsRef, Count;
    if n !in s.refs {
      NewHasNoHolders(s, n);
    }
    forall m <- s'.status ensures Served(s', m) {
      assert m != n ==> Served(s, m);
    }
    forall m <- s'.refs ensures RefsOk(s', m) {
      assert m in s.refs ==> RefsOk(s, m);
      BroughtInKeepsRefs(s, n, s', m);
    }
    forall u <- s'.pcs ensures PcOk(s', u) {
      assert PcOk(s, u);
      BroughtInKeepsPc(s, n, s', u);
    }
  }

  lemma {:induction false} BroughtInKeepsInv(s: State, n: Node, s': State)
    requires Inv(s) && BroughtIn(s, n, s')
    ensures Inv(s')
  {
    hide ChainOk, HoldsRef, Alternates;
    BroughtInKeepsNodes(s, n, s');
    BroughtInKeepsChain(s, n, s');
    LogAppended(s, Issued(n), s');
  }

  /** Drawing past the end of the pool changes nothing but the index. */
  lemma {:induction false} OverdrawKeepsInv(s: State, s': State)
    requires Inv(s) && s.poolIndex >= s.poolSize && s' == s.(poolIndex := s.poolIndex + 1)
    ensures Inv(s')
  {
    forall m <- s'.refs ensures RefsOk(s', m) && Served(s', m) {
      assert RefsOk(s, m) && Served(s, m);
    }
    forall u <- s'.pcs ensures PcOk(s', u) {
      assert PcOk(s, u);
    }
    forall i: nat | i < |s.chain| ensures LinkOk(s'.next, s'.chain, i) {
      assert LinkOk(s.next, s.chain, i);
    }
  }

  /** A thread that has to do with no node goes on to something that has to do with none. */
  lemma {:induction false} NoNodeKeepsInv(s: State, t: Tid, pc: Pc, s': State)
    requires Inv(s) && t in s.pcs && s' == Goto(s, t, pc)
    requires s.pcs[t].DrawPool? || s.pcs[t].Looking? || s.pcs[t].CheckPool?
    requires pc.Idle? || pc.LoadHead? || pc.DrawPool?
    ensures Inv(s')
  {
    PcStepKeepsInv(s, t, pc, s');
  }

  lemma {:induction false} NextInPool(s: State)
    requires Inv(s)
    ensures SameKeys(s) && (s.poolIndex < s.poolSize ==> s.poolIndex in s.refs && s.status[s.poolIndex] == Unissued)
  {
  }

  lemma {:induction false} DrawKeepsInv(s: State, t: Tid, s': State)
    requires Inv(s) && t in s.pcs && s.pcs[t] == DrawPool && DrawFromPool(s, t, s')
    ensures Inv(s')
  {
    var n := s.poolIndex;
    NextInPool(s);
    hide Inv, NodesOk, Shape, ChainOk, LogOk;
    if n < s.poolSize {
      var s1 := s.(poolIndex := n + 1, status := s.status[n := Owned], log := s.log + [Issued(n)]);
      BroughtInKeepsInv(s, n, s1);
      NoNodeKeepsInv(s1, t, Idle, s');
    } else {
      var s1 := s.(poolIndex := n + 1);
      OverdrawKeepsInv(s, s1);
      NoNodeKeepsInv(s1, t, LoadHead, s');
    }
  }

  lemma {:induction false} CreateKeepsInv(s: State, t: Tid, n: Node, s': State)
    requires Inv(s) && t in s.pcs && s.pcs[t] == Looking(None) && n !in s.refs && CreateBlock(s, t, n, s')
    ensures Inv(s')
  {
    hide Inv, NodesOk, Shape;
    var s1 := s.(refs := s.refs[n := 0], next := s.next[n := None], status := s.status[n := Owned],
                 log := s.log + [Issued(n)]);
    BroughtInKeepsInv(s, n, s1);
    NoNodeKeepsInv(s1, t, Idle, s');
  }

  /** The current head, if any, is a node on the list. */
  lemma {:induction false} HeadInRefs(s: State)
    requires SameKeys(s) && ChainOk(s)
    ensures s.head.Some? ==> s.head.value in s.refs && s.status[s.head.value] == Listed && s.chain != [] && s.chain[0] == s.head.value
  {
  }

  lemma {:induction false} NotServing(s: State, t: Tid, n: Node)
    requires SameKeys(s) && t in s.pcs && n in s.refs && Served(s, n)
    requires !Serves(s.pcs[t], t, n, s.status[n])
    ensures InService(s.status[n]) ==> s.status[n].t != t
  {
  }

  lemma {:induction false} IncrementKeepsInv(s: State, t: Tid, n: Node, refs: nat, s': State)
    requires Inv(s) && t in s.pcs && s.pcs[t] == SawRefs(n, refs) && n in s.refs && TryIncrement(s, t, n, refs, s')
    ensures Inv(s')
  {
    if refs % SHOULD_BE_ON_FREELIST != 0 && s.refs[n] == refs {
      assert RefsOk(s, n) && Served(s, n);
      NotServing(s, t, n);
      IncrementEffect(s, t, n, refs, s');
      QuietStepKeepsInv(s, t, Holding(n), n, refs + 1, s.next[n], s.status[n], s');
    } else {
      PcStepKeepsInv(s, t, LoadHead, s');
    }
  }

  lemma {:induction false} UnlinkKeepsInv(s: State, t: Tid, n: Node, nx: Option<Node>, s': State)
    requires Inv(s) && t in s.pcs && s.pcs[t] == HoldingNext(n, nx) && s.head == Some(n) && Unlink(s, t, n, nx, s')
    ensures Inv(s')
  {
    HeadInRefs(s);
    assert RefsOk(s, n) && PcOk(s, t);
    UnlinkEffect(s, t, n, nx, s');
    QuietStepKeepsInv(s, t, Unlinked(n), n, s.refs[n], s.next[n], Taken(t), s');
  }

  lemma {:induction false} HandOutKeepsInv(s: State, t: Tid, n: Node, s': State)
    requires Inv(s) && t in s.pcs && s.pcs[t] == Unlinked(n) && n in s.refs && HandOut(s, t, n, s')
    ensures Inv(s')
  {
    assert RefsOk(s, n) && PcOk(s, t);
    HandOutEffect(s, t, n, s');
    EventStepKeepsInv(s, t, Idle, n, s'.refs[n], s.next[n], Owned, Issued(n), s');
  }

  lemma {:induction false} DropKeepsInv(s: State, t: Tid, n: Node, head: Option<Node>, s': State)
    requires Inv(s) && t in s.pcs && s.pcs[t] == Dropping(n, head) && n in s.refs && Drop(s, t, n, head, s')
    ensures Inv(s')
  {
    assert RefsOk(s, n) && PcOk(s, t) && Served(s, n);
    NotServing(s, t, n);
    DropEffect(s, t, n, head, s');
    QuietStepKeepsInv(s, t, s'.pcs[t], n, s'.refs[n], s.next[n], s'.status[n], s');
  }

  /** An adder finds that the head is not the one it linked its node to. */
  lemma {:induction false} OvertakenKeepsInv(s: State, t: Tid, n: Node, head: Option<Node>, resume: Resume, s': State)
    requires Inv(s) && t in s.pcs && n in s.refs && PcOk(s, t)
    requires s.pcs[t] == Publishing(n, head, resume) && s' == Goto(s, t, Retreating(n, s.head, resume))
    ensures Inv(s')
  {
    hide NodesOk, ChainOk, LogOk, RefsOk;
    PcStepKeepsInv(s, t, s'.pcs[t], s');
  }

  lemma {:induction false} AdderKeepsInv(s: State, t: Tid, n: Node, s': State)
    requires Inv(s) && t in s.pcs && n in s.refs && SameKeys(s) && RefsOk(s, n) && PcOk(s, t)
    requires s.pcs[t].Linking? || s.pcs[t].Linked? || s.pcs[t].Publishing? || s.pcs[t].Retreating?
    requires s.pcs[t].n == n && Advances(s, t, s')
    ensures Inv(s')
  {
    hide Inv, RefsOk, StepOk;
    match s.pcs[t]
    case Linking(_, head, resume) =>
      LinkEffect(s, t, n, head, resume, s');
      QuietStepKeepsInv(s, t, s'.pcs[t], n, s.refs[n], head, s.status[n], s');
    case Linked(_, head, resume) =>
      SetCountEffect(s, t, n, head, resume, s');
      QuietStepKeepsInv(s, t, s'.pcs[t], n, 1, s.next[n], Fresh(t), s');
    case Publishing(_, head, resume) =>
      if s.head == head {
        PushEffect(s, t, n, resume, s');
        QuietStepKeepsInv(s, t, After(resume), n, s.refs[n], s.next[n], Listed, s');
      } else {
        OvertakenKeepsInv(s, t, n, head, resume, s');
      }
    case Retreating(_, head, resume) =>
      RetreatEffect(s, t, n, head, resume, s');
      QuietStepKeepsInv(s, t, s'.pcs[t], n, s'.refs[n], s.next[n], s'.status[n], s');
  }

  lemma {:induction false} MoveKeepsInv(s: State, t: Tid, s': State)
    requires Inv(s) && t in s.pcs && PcOk(s, t) && Advances(s, t, s')
    requires s.pcs[t].CheckPool? || s.pcs[t].LoadHead? || s.pcs[t].Looking? || s.pcs[t].Holding? || s.pcs[t].KnowZero?
    ensures Inv(s')
  {
    hide LogOk, LinkOk, RefsOk, Served;
    HeadInRefs(s);
    PcStepKeepsInv(s, t, s'.pcs[t], s');
  }

  lemma {:induction false} AdvanceKeepsInv(s: State, t: Tid, s': State)
    requires Inv(s) && t in s.pcs && Advances(s, t, s')
    ensures Inv(s')
  {
    hide ChainOk, LogOk, Served;
    assert PcOk(s, t);
    match s.pcs[t]
    case DrawPool => DrawKeepsInv(s, t, s');
    case SawRefs(n, refs) => IncrementKeepsInv(s, t, n, refs, s');
    case HoldingNext(n, nx) =>
      if s.head == Some(n) {
        UnlinkKeepsInv(s, t, n, nx, s');
      } else {
        LostRaceKeepsInv(s, t, n, nx, s');
      }
    case Unlinked(n) => HandOutKeepsInv(s, t, n, s');
    case Dropping(n, head) => DropKeepsInv(s, t, n, head, s');
    case Linking(n, _, _) => assert RefsOk(s, n); AdderKeepsInv(s, t, n, s');
    case Linked(n, _, _) => assert RefsOk(s, n); AdderKeepsInv(s, t, n, s');
    case Publishing(n, _, _) => assert RefsOk(s, n); AdderKeepsInv(s, t, n, s');
    case Retreating(n, _, _) => assert RefsOk(s, n); AdderKeepsInv(s, t, n, s');
    case _ => MoveKeepsInv(s, t, s');
  }

  lemma {:induction false} LostRaceKeepsInv(s: State, t: Tid, n: Node, nx: Option<Node>, s': State)
    requires Inv(s) && t in s.pcs && s.pcs[t] == HoldingNext(n, nx) && s' == Goto(s, t, Dropping(n, s.head))
    ensures Inv(s')
  {
    assert PcOk(s, t);
    HeadInRefs(s);
    PcStepKeepsInv(s, t, Dropping(n, s.head), s');
  }

  lemma {:induction false} StepKeepsInv(s: State, a: Action, s': State)
    requires Inv(s) && Next(s, a, s')
    ensures Inv(s')
  {
    match a
    case Request(t) => PcStepKeepsInv(s, t, CheckPool, s');
    case Return(t, n) =>
      assert RefsOk(s, n);
      AddEffect(s, t, n, s');
      EventStepKeepsInv(s, t, s'.pcs[t], n, s'.refs[n], s.next[n], s'.status[n], Returned(n), s');
    case Create(t, n) => CreateKeepsInv(s, t, n, s');
    case GiveUp(t) => PcStepKeepsInv(s, t, Idle, s');
    case Advance(t) => AdvanceKeepsInv(s, t, s');
  }

  // ----- What holds in every run -------------------------------------------------

  ghost predicate Run(run: seq<State>, actions: seq<Action>) {
    && |run| == |actions| + 1
    && Init(run[0])
    && forall i :: 0 <= i < |actions| ==> Next(run[i], actions[i], run[i + 1])
  }

  lemma {:induction false} RunKeepsInv(run: seq<State>, actions: seq<Action>, n: nat)
    requires Run(run, actions) && n < |run|
    ensures Inv(run[n])
  {
    if n == 0 {
      InitInv(run[0]);
    } else {
      RunKeepsInv(run, actions, n - 1);
      StepKeepsInv(run[n - 1], actions[n - 1], run[n]);
    }
  }

  /** Following next pointers from `from` for `steps` nodes leads to `n`. */
  predicate Reaches(next: map<Node, Option<Node>>, from: Option<Node>, steps: nat, n: Node)
    decreases steps
  {
    from.Some? &&
    if steps == 0 then from.value == n
    else from.value in next && Reaches(next, next[from.value], steps - 1, n)
  }

  /** What next pointers reach from the head are the nodes of the chain, in order. */
  lemma {:induction false} ReachesChain(s: State, i: nat, steps: nat, n: Node)
    requires SameKeys(s) && ChainOk(s)
    ensures Reaches(s.next, Nth(s.chain, i), steps, n) <==> i + steps < |s.chain| && s.chain[i + steps] == n
    decreases steps
  {
    if i < |s.chain| {
      assert LinkOk(s.next, s.chain, i);
      if steps > 0 {
        ReachesChain(s, i + 1, steps - 1, n);
      }
    }
  }

  /** No thread is inside a call. */
  predicate Quiescent(s: State) {
    forall t <- s.pcs :: s.pcs[t] == Idle
  }

  /** A block can be taken by the next getter: it hangs on the list under the head. */
  ghost predicate IsFree(s: State, n: Node) {
    exists k: nat :: Reaches(s.next, s.head, k, n)
  }

  /** In every interleaving no block is handed out twice without being given back in
      between, and none is given back without having been handed out. */
  lemma {:induction false} NeverHandedOutTwice(run: seq<State>, actions: seq<Action>, i: nat)
    requires Run(run, actions) && i < |run|
    ensures Alternates(run[i].log)
  {
    RunKeepsInv(run, actions, i);
  }

  /** Every block that exists is in exactly one place: still in the pool, in use, or free;
      free means on the list, or that a thread is inside a call that holds a reference to it
      or has the block in service. No add is forgotten: when no call is in progress, a block
      given back hangs on the list. */
  lemma {:induction false} NoBlockIsLost(run: seq<State>, actions: seq<Action>, i: nat, n: Node)
    requires Run(run, actions) && i < |run| && n in run[i].refs
    ensures var s := run[i];
            && n in s.status
            && (s.status[n].Unissued? <==> s.poolIndex <= n < s.poolSize)
            && (s.status[n].Owned? <==> IsOut(s.log, n))
            && (s.status[n].Listed? <==> IsFree(s, n))
            && (!s.status[n].Unissued? && !s.status[n].Owned? && !IsFree(s, n) ==>
                  exists t :: t in s.pcs && (HoldsRef(s.pcs[t], n) || Serves(s.pcs[t], t, n, s.status[n])))
            && (Quiescent(s) ==> s.status[n].Unissued? || s.status[n].Owned? || IsFree(s, n))
  {
    var s := run[i];
    RunKeepsInv(run, actions, i);
    assert RefsOk(s, n) && Served(s, n);
    assert IsOut(s.log, n) <==> s.status[n].Owned?;
    if s.status[n].Listed? {
      var k :| 0 <= k < |s.chain| && s.chain[k] == n;
      ReachesChain(s, 0, k, n);
    }
    if k: nat :| Reaches(s.next, s.head, k, n) {
      ReachesChain(s, 0, k, n);
    }
    if s.status[n].Flagged? {
      var t :| t in Holders(s.pcs, n);
      assert t in s.pcs && HoldsRef(s.pcs[t], n);
    } else if InService(s.status[n]) {
      var t := s.status[n].t;
      assert t in s.pcs && Serves(s.pcs[t], t, n, s.status[n]);
    }
  }
}
