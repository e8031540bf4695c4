/** Any number of workers on one lease table: reads, renewals, takes, evictions, updates and
    creations by any of them, with answers that arrive late, out of order or not at all. A
    conditional write is one step. Rows are never deleted. */
module LeaseProtocol {
  import opened LeaseCodec
  import opened Leases
  import opened LeaseRenewer
  import opened LeaseTable
  import opened Options

  type Tid = string

  /** What a copy of a lease says that matters to a write. */
  datatype Claim = Claim(key: string, owner: Option<string>, counter: Option<nat>, switches: nat)

  function ClaimOf(l: LeaseState): Claim {
    Claim(l.key, l.owner, l.counter, OrZero(l.switches))
  }

  function ClaimOnRow(key: string, row: Row): Claim {
    Claim(key, row.owner, Some(row.counter), row.switches)
  }

  /** An answer to a worker that has not arrived yet. */
  datatype Answer =
    | Renewed(l: LeaseState)
    | NotRenewed(key: string)
    | Taken(l: LeaseState)
    | Updated(l: LeaseState)

  /** A worker: the leases it holds, what it has read of the table, the answers under way. */
  datatype Worker = Worker(held: Held, seen: set<Claim>, answers: seq<Answer>)

  datatype Kind = RenewWrite | TakeWrite | EvictWrite | UpdateWrite
  datatype Write = Write(kind: Kind, worker: Tid)

  /** A row with its past: the rows since it was created, of which the last is the one in
      the table, and the writes that made each from the one before. */
  datatype Past = Past(rows: seq<Row>, writes: seq<Write>)

  datatype State = State(table: map<string, Past>, workers: map<Tid, Worker>)

  function Current(p: Past): Row
    requires p.rows != []
  {
    p.rows[|p.rows| - 1]
  }

  function WithWrite(p: Past, row: Row, w: Write): Past {
    Past(p.rows + [row], p.writes + [w])
  }

  predicate Init(s: State) {
    s.table == map[] && forall w <- s.workers :: s.workers[w] == Worker(map[], {}, [])
  }

  // ----- Steps -------------------------------------------------------------------

  datatype Action =
    | Create(l: LeaseState)
    | Read(w: Tid, key: string)
    | Renew(w: Tid, l: LeaseState, answered: bool)
    | Take(w: Tid, l: LeaseState, answered: bool)
    | Evict(w: Tid, l: LeaseState)
    | Update(w: Tid, l: LeaseState, answered: bool)
    | Deliver(w: Tid, i: nat)
    | Drop(w: Tid, key: string)
    | Clear(w: Tid)

  /** The worker can make a write from this copy: it has read it, or holds it. */
  predicate Knows(s: State, w: Tid, l: LeaseState) {
    w in s.workers && (ClaimOf(l) in s.workers[w].seen
                       || (l.key in s.workers[w].held && ClaimOf(s.workers[w].held[l.key]) == ClaimOf(l)))
  }

  /** The condition of a write from copy `l` holds. */
  predicate Succeeds(s: State, l: LeaseState) {
    l.key in s.table && s.table[l.key].rows != [] && Matches(Current(s.table[l.key]), l)
  }

  function WithAnswer(s: State, w: Tid, a: Answer): State
    requires w in s.workers
  {
    s.(workers := s.workers[w := s.workers[w].(answers := s.workers[w].answers + [a])])
  }

  function WithHeld(s: State, w: Tid, held: Held): State
    requires w in s.workers
  {
    s.(workers := s.workers[w := s.workers[w].(held := held)])
  }

  /** The table after a successful write. */
  function Written(s: State, l: LeaseState, row: Row, w: Write): State
    requires l.key in s.table
  {
    s.(table := s.table[l.key := WithWrite(s.table[l.key], row, w)])
  }

  const RENEW: UpdateParams := UpdateParams(false, None)

  function TakeFor(w: Tid): UpdateParams {
    UpdateParams(false, Some(w))
  }

  const EVICT: UpdateParams := UpdateParams(true, None)

  /** `createLeaseIfNotExists`. */
  predicate CreateStep(s: State, l: LeaseState, s': State) {
    s' == if l.key in s.table then s else s.(table := s.table[l.key := Past([CreatedRow(l)], [])])
  }

  /** The owner is there and not empty. A row without an owner cannot be read, and what is
      read of a row with an empty one is a copy without an owner, from which no write succeeds. */
  predicate IsNamed(owner: Option<string>) {
    owner.Some? && owner.value != ""
  }

  /** A worker reads one row; scans are sequences of reads. */
  predicate ReadStep(s: State, w: Tid, key: string, s': State) {
    && w in s.workers && key in s.table && s.table[key].rows != [] && IsNamed(Current(s.table[key]).owner)
    && s' == s.(workers := s.workers[w := s.workers[w].(seen := s.workers[w].seen + {ClaimOnRow(key, Current(s.table[key]))})])
  }

  /** `renewLease`: an answer that gets lost counts as a failure. */
  predicate RenewStep(s: State, w: Tid, l: LeaseState, answered: bool, s': State) {
    && Knows(s, w, l)
    && if Succeeds(s, l) then
         s' == WithAnswer(Written(s, l, RowAfter(Current(s.table[l.key]), l, RENEW), Write(RenewWrite, w)), w,
                          if answered then Renewed(WithIncrementedCounter(l)) else NotRenewed(l.key))
       else s' == WithAnswer(s, w, NotRenewed(l.key))
  }

  /** `takeLease` answers with the copy as it was. */
  predicate TakeStep(s: State, w: Tid, l: LeaseState, answered: bool, s': State) {
    && Knows(s, w, l)
    && if Succeeds(s, l) then
         var after := Written(s, l, RowAfter(Current(s.table[l.key]), l, TakeFor(w)), Write(TakeWrite, w));
         s' == if answered then WithAnswer(after, w, Taken(l)) else after
       else s' == s
  }

  predicate EvictStep(s: State, w: Tid, l: LeaseState, s': State) {
    && Knows(s, w, l)
    && s' == if Succeeds(s, l) then Written(s, l, RowAfter(Current(s.table[l.key]), l, EVICT), Write(EvictWrite, w)) else s
  }

  /** `updateLease` answers with the copy as it was. */
  predicate UpdateStep(s: State, w: Tid, l: LeaseState, answered: bool, s': State) {
    && Knows(s, w, l)
    && if Succeeds(s, l) then
         var after := Written(s, l, Checkpointed(RowAfter(Current(s.table[l.key]), l, RENEW), l), Write(UpdateWrite, w));
         s' == if answered then WithAnswer(after, w, Updated(l)) else after
       else s' == s
  }

  /** What a worker does with an answer. */
  function Handle(held: Held, a: Answer): Held {
    match a
    case Renewed(l) => held[l.key := l]
    case NotRenewed(key) => held - {key}
    case Taken(l) => Added(held, [l])
    case Updated(l) => held[l.key := l]
  }

  /** Any answer may arrive next. */
  predicate DeliverStep(s: State, w: Tid, i: nat, s': State) {
    && w in s.workers && i < |s.workers[w].answers|
    && var me := s.workers[w];
       s' == s.(workers := s.workers[w := Worker(Handle(me.held, me.answers[i]), me.seen, me.answers[..i] + me.answers[i + 1..])])
  }

  predicate Next(s: State, a: Action, s': State) {
    match a
    case Create(l) => CreateStep(s, l, s')
    case Read(w, key) => ReadStep(s, w, key, s')
    case Renew(w, l, answered) => RenewStep(s, w, l, answered, s')
    case Take(w, l, answered) => TakeStep(s, w, l, answered, s')
    case Evict(w, l) => EvictStep(s, w, l, s')
    case Update(w, l, answered) => UpdateStep(s, w, l, answered, s')
    case Deliver(w, i) => DeliverStep(s, w, i, s')
    case Drop(w, key) => w in s.workers && s' == WithHeld(s, w, s.workers[w].held - {key})
    case Clear(w) => w in s.workers && s' == WithHeld(s, w, map[])
  }

  // ----- The invariant -----------------------------------------------------------

  /** The write is a take that gives the lease to another owner. */
  predicate IsChange(before: Row, w: Write, after: Row) {
    w.kind == TakeWrite && after.owner != before.owner
  }

  /** How many of the first `n` writes changed the owner by a take. */
  function Changes(p: Past, n: nat): nat
    requires |p.rows| == |p.writes| + 1 && n <= |p.writes|
  {
    if n == 0 then 0 else Changes(p, n - 1) + if IsChange(p.rows[n - 1], p.writes[n - 1], p.rows[n]) then 1 else 0
  }

  /** What a write makes of a row: every write counts up; a take gives the lease to the taker,
      counting the switch if it had another owner; an eviction leaves it to nobody; only an
      update touches the checkpoint. */
  predicate Makes(before: Row, w: Write, after: Row) {
    && after.counter == before.counter + 1
    && after.owner == (match w.kind case TakeWrite => Some(w.worker) case EvictWrite => None case _ => before.owner)
    && after.switches == before.switches + (if IsChange(before, w, after) then 1 else 0)
    && (w.kind != UpdateWrite ==> after.checkpoint == before.checkpoint && after.subCheckpoint == before.subCheckpoint)
  }

  /** Row `i` of a past is `i` writes after the first: its counter says so, and its switches
      count the changes of owner. */
  predicate RowOk(p: Past, i: nat)
    requires |p.rows| == |p.writes| + 1 && i < |p.rows|
  {
    && p.rows[i].counter == p.rows[0].counter + i
    && p.rows[i].switches == p.rows[0].switches + Changes(p, i)
    && (i > 0 ==> Makes(p.rows[i - 1], p.writes[i - 1], p.rows[i]))
  }

  ghost predicate PastOk(p: Past) {
    |p.rows| == |p.writes| + 1 && forall i: nat :: i < |p.rows| ==> RowOk(p, i)
  }

  /** The claim is what the row of that counter said, and that row had an owner. */
  predicate Genuine(table: map<string, Past>, c: Claim) {
    && c.key in table && c.counter.Some? && IsNamed(c.owner)
    && var p := table[c.key];
       p.rows != [] && var i := c.counter.value - p.rows[0].counter;
       0 <= i < |p.rows| && p.rows[i].owner == c.owner && p.rows[i].switches == c.switches
  }

  /** No row with this claim's counter was made by anyone but a renewal of `w`, unless it is
      a row of the past. */
  predicate Fenced(table: map<string, Past>, w: Tid, c: Claim)
    requires Genuine(table, c)
  {
    var p := table[c.key];
    var i := c.counter.value - p.rows[0].counter;
    i < |p.rows| - 1 || (|p.writes| == |p.rows| - 1 && i > 0 && p.writes[i - 1] == Write(RenewWrite, w))
  }

  predicate CopyOk(table: map<string, Past>, w: Tid, l: LeaseState) {
    Genuine(table, ClaimOf(l)) && Fenced(table, w, ClaimOf(l))
  }

  predicate AnswerOk(table: map<string, Past>, w: Tid, a: Answer) {
    a.NotRenewed? || CopyOk(table, w, a.l)
  }

  ghost predicate WorkerOk(table: map<string, Past>, w: Tid, me: Worker) {
    && (forall k <- me.held :: me.held[k].key == k && CopyOk(table, w, me.held[k]))
    && (forall c <- me.seen :: Genuine(table, c))
    && (forall i :: 0 <= i < |me.answers| ==> AnswerOk(table, w, me.answers[i]))
  }

  ghost predicate Inv(s: State) {
    && (forall k <- s.table :: PastOk(s.table[k]))
    && (forall w <- s.workers :: WorkerOk(s.table, w, s.workers[w]))
  }

  // ----- Growing pasts keep what workers know ------------------------------------

  /** The pasts of the table have only been added to. */
  predicate Grown(table: map<string, Past>, table': map<string, Past>) {
    forall k <- table :: k in table' && table[k].rows <= table'[k].rows && table[k].writes <= table'[k].writes
  }

  lemma {:induction false} CopyKept(table: map<string, Past>, table': map<string, Past>, w: Tid, l: LeaseState)
    requires Grown(table, table') && CopyOk(table, w, l) && PastOk(table'[l.key])
    ensures CopyOk(table', w, l)
  {
  }

  lemma {:induction false} WorkerKept(table: map<string, Past>, table': map<string, Past>, w: Tid, me: Worker)
    requires Grown(table, table') && WorkerOk(table, w, me)
    requires forall k <- table' :: PastOk(table'[k])
    ensures WorkerOk(table', w, me)
  {
    hide PastOk, Fenced;
    forall k <- me.held ensures CopyOk(table', w, me.held[k]) {
      CopyKept(table, table', w, me.held[k]);
    }
    forall i | 0 <= i < |me.answers| ensures AnswerOk(table', w, me.answers[i]) {
      if !me.answers[i].NotRenewed? {
        assert AnswerOk(table, w, me.answers[i]);
        CopyKept(table, table', w, me.answers[i].l);
      }
    }
  }

  lemma {:induction false} KnownIsGenuine(s: State, w: Tid, l: LeaseState)
    requires Inv(s) && Knows(s, w, l)
    ensures Genuine(s.table, ClaimOf(l))
  {
    assert WorkerOk(s.table, w, s.workers[w]);
    if ClaimOf(l) !in s.workers[w].seen {
      assert CopyOk(s.table, w, s.workers[w].held[l.key]);
    }
  }

  lemma {:induction false} ChangesPrefix(p: Past, row: Row, w: Write, n: nat)
    requires |p.rows| == |p.writes| + 1 && n <= |p.writes|
    ensures Changes(WithWrite(p, row, w), n) == Changes(p, n)
  {
    if n > 0 {
      ChangesPrefix(p, row, w, n - 1);
    }
  }

  /** A write from a genuine copy that matches makes the next row of the past. */
  lemma {:induction false} WriteGrows(p: Past, l: LeaseState, row: Row, w: Write)
    requires PastOk(p) && Matches(Current(p), l) && OrZero(l.switches) == Current(p).switches
    requires Makes(Current(p), w, row)
    ensures PastOk(WithWrite(p, row, w))
  {
    hide Makes, Matches;
    var p' := WithWrite(p, row, w);
    forall i: nat | i < |p'.rows| ensures RowOk(p', i) {
      if i < |p.rows| {
        assert RowOk(p, i);
        ChangesPrefix(p, row, w, i);
      } else {
        assert RowOk(p, i - 1);
        ChangesPrefix(p, row, w, i - 1);
        MakesCounts(Current(p), w, row);
      }
    }
  }

  lemma {:induction false} MakesCounts(before: Row, w: Write, after: Row)
    requires Makes(before, w, after)
    ensures after.counter == before.counter + 1
    ensures after.switches == before.switches + if IsChange(before, w, after) then 1 else 0
  {
  }

  /** A copy whose write succeeds is genuine at the current row. */
  lemma {:induction false} MatchIsCurrent(table: map<string, Past>, l: LeaseState)
    requires Genuine(table, ClaimOf(l)) && PastOk(table[l.key]) && Matches(Current(table[l.key]), l)
    ensures OrZero(l.switches) == Current(table[l.key]).switches
    ensures l.counter.value - table[l.key].rows[0].counter == |table[l.key].rows| - 1
  {
    var p := table[l.key];
    assert RowOk(p, |p.rows| - 1);
  }

  /** After a successful write, the copy it was made from is one of the past; after a
      renewal, the copy with the next counter is the writer's. */
  lemma {:induction false} AfterWrite(table: map<string, Past>, l: LeaseState, row: Row, w: Write)
    requires Genuine(table, ClaimOf(l)) && PastOk(table[l.key]) && Matches(Current(table[l.key]), l)
    requires Makes(Current(table[l.key]), w, row)
    ensures var table' := table[l.key := WithWrite(table[l.key], row, w)];
            && Grown(table, table') && PastOk(table'[l.key])
            && CopyOk(table', w.worker, l)
            && (w.kind == RenewWrite && row.owner == l.owner ==> CopyOk(table', w.worker, WithIncrementedCounter(l)))
  {
    MatchIsCurrent(table, l);
    WriteGrows(table[l.key], l, row, w);
  }

  // ----- Every step keeps the invariant ------------------------------------------

  /** The table grows; one worker does not hold more than before, and may get an answer. */
  lemma {:induction false} TableStep(s: State, w: Tid, table': map<string, Past>, answers: seq<Answer>, s': State)
    requires Inv(s) && w in s.workers && Grown(s.table, table')
    requires forall k <- table' :: PastOk(table'[k])
    requires forall i :: 0 <= i < |answers| ==> AnswerOk(table', w, answers[i])
    requires s' == State(table', s.workers[w := s.workers[w].(answers := s.workers[w].answers + answers)])
    ensures Inv(s')
  {
    hide PastOk, CopyOk, Genuine;
    forall u <- s'.workers ensures WorkerOk(table', u, s'.workers[u]) {
      WorkerKept(s.table, table', u, s.workers[u]);
    }
  }

  /** A step in which only worker `w` changes, and knows no more than it may. */
  lemma {:induction false} WorkerStep(s: State, w: Tid, me: Worker, s': State)
    requires Inv(s) && w in s.workers && WorkerOk(s.table, w, me) && s' == s.(workers := s.workers[w := me])
    ensures Inv(s')
  {
  }

  lemma {:induction false} CreateKeepsInv(s: State, l: LeaseState, s': State)
    requires Inv(s) && CreateStep(s, l, s')
    ensures Inv(s')
  {
    if l.key !in s.table {
      assert PastOk(s'.table[l.key]);
      forall u <- s'.workers ensures WorkerOk(s'.table, u, s'.workers[u]) {
        WorkerKept(s.table, s'.table, u, s.workers[u]);
      }
    }
  }

  lemma {:induction false} ReadIsGenuine(p: Past, key: string, table: map<string, Past>)
    requires key in table && table[key] == p && PastOk(p) && IsNamed(Current(p).owner)
    ensures Genuine(table, ClaimOnRow(key, Current(p)))
  {
    assert RowOk(p, |p.rows| - 1);
  }

  lemma {:induction false} ReadKeepsInv(s: State, w: Tid, key: string, s': State)
    requires Inv(s) && ReadStep(s, w, key, s')
    ensures Inv(s')
  {
    ReadIsGenuine(s.table[key], key, s.table);
    WorkerStep(s, w, s'.workers[w], s');
  }

  /** A write of any kind, if it succeeds. */
  lemma {:induction false} WriteKeepsInv(s: State, w: Tid, l: LeaseState, row: Row, kind: Kind, answers: seq<Answer>, s': State)
    requires Inv(s) && Knows(s, w, l) && Succeeds(s, l)
    requires OrZero(l.switches) == Current(s.table[l.key]).switches ==> Makes(Current(s.table[l.key]), Write(kind, w), row)
    requires answers == [] || answers == [NotRenewed(l.key)] || answers == [Taken(l)] || answers == [Updated(l)]
             || (answers == [Renewed(WithIncrementedCounter(l))] && kind == RenewWrite && row.owner == l.owner)
    requires var after := Written(s, l, row, Write(kind, w));
             s' == after.(workers := s.workers[w := s.workers[w].(answers := s.workers[w].answers + answers)])
    ensures Inv(s')
  {
    hide PastOk, CopyOk, Genuine, Matches, Changes, Makes;
    KnownIsGenuine(s, w, l);
    MatchIsCurrent(s.table, l);
    AfterWrite(s.table, l, row, Write(kind, w));
    TableStep(s, w, s'.table, answers, s');
  }

  lemma {:induction false} RenewKeepsInv(s: State, w: Tid, l: LeaseState, answered: bool, s': State)
    requires Inv(s) && RenewStep(s, w, l, answered, s')
    ensures Inv(s')
  {
    hide Inv, PastOk, WorkerOk;
    if Succeeds(s, l) {
      WriteKeepsInv(s, w, l, RowAfter(Current(s.table[l.key]), l, RENEW), RenewWrite,
                    [if answered then Renewed(WithIncrementedCounter(l)) else NotRenewed(l.key)], s');
    } else {
      FailureKeepsInv(s, w, l.key, s');
    }
  }

  lemma {:induction false} FailureKeepsInv(s: State, w: Tid, key: string, s': State)
    requires Inv(s) && w in s.workers && s' == WithAnswer(s, w, NotRenewed(key))
    ensures Inv(s')
  {
    WorkerStep(s, w, s'.workers[w], s');
  }

  lemma {:induction false} SameWorker(s: State, w: Tid)
    requires w in s.workers
    ensures s.workers[w := s.workers[w].(answers := s.workers[w].answers + [])] == s.workers
  {
    assert s.workers[w].answers + [] == s.workers[w].answers;
  }

  lemma {:induction false} TakeKeepsInv(s: State, w: Tid, l: LeaseState, answered: bool, s': State)
    requires Inv(s) && TakeStep(s, w, l, answered, s')
    ensures Inv(s')
  {
    hide Inv, PastOk, WorkerOk;
    if Succeeds(s, l) {
      SameWorker(s, w);
      WriteKeepsInv(s, w, l, RowAfter(Current(s.table[l.key]), l, TakeFor(w)), TakeWrite,
                    if answered then [Taken(l)] else [], s');
    }
  }

  lemma {:induction false} EvictKeepsInv(s: State, w: Tid, l: LeaseState, s': State)
    requires Inv(s) && EvictStep(s, w, l, s')
    ensures Inv(s')
  {
    hide Inv, PastOk, WorkerOk;
    if Succeeds(s, l) {
      SameWorker(s, w);
      WriteKeepsInv(s, w, l, RowAfter(Current(s.table[l.key]), l, EVICT), EvictWrite, [], s');
    }
  }

  lemma {:induction false} UpdateKeepsInv(s: State, w: Tid, l: LeaseState, answered: bool, s': State)
    requires Inv(s) && UpdateStep(s, w, l, answered, s')
    ensures Inv(s')
  {
    hide Inv, PastOk, WorkerOk;
    if Succeeds(s, l) {
      SameWorker(s, w);
      WriteKeepsInv(s, w, l, Checkpointed(RowAfter(Current(s.table[l.key]), l, RENEW), l), UpdateWrite,
                    if answered then [Updated(l)] else [], s');
    }
  }

  lemma {:induction false} AddedOne(held: Held, l: LeaseState)
    ensures Added(held, [l]) == if l.lastIncrement.None? || l.key in held then held else held[l.key := l]
  {
    assert [l][..0] == [];
  }

  lemma {:induction false} DeliverKeepsInv(s: State, w: Tid, i: nat, s': State)
    requires Inv(s) && DeliverStep(s, w, i, s')
    ensures Inv(s')
  {
    hide PastOk, CopyOk, Added;
    var me, me' := s.workers[w], s'.workers[w];
    assert WorkerOk(s.table, w, me);
    assert AnswerOk(s.table, w, me.answers[i]);
    match me.answers[i] {
      case Taken(l) => AddedOne(me.held, l);
      case _ =>
    }
    assert WorkerOk(s.table, w, me');
    WorkerStep(s, w, me', s');
  }

  lemma {:induction false} StepKeepsInv(s: State, a: Action, s': State)
    requires Inv(s) && Next(s, a, s')
    ensures Inv(s')
  {
    hide Inv, PastOk, WorkerOk, CreateStep, ReadStep, RenewStep, TakeStep, EvictStep, UpdateStep, DeliverStep;
    match a
    case Create(l) => CreateKeepsInv(s, l, s');
    case Read(w, key) => ReadKeepsInv(s, w, key, s');
    case Renew(w, l, answered) => RenewKeepsInv(s, w, l, answered, s');
    case Take(w, l, answered) => TakeKeepsInv(s, w, l, answered, s');
    case Evict(w, l) => EvictKeepsInv(s, w, l, s');
    case Update(w, l, answered) => UpdateKeepsInv(s, w, l, answered, s');
    case Deliver(w, i) => DeliverKeepsInv(s, w, i, s');
    case Drop(w, key) => ForgetKeepsInv(s, w, s.workers[w].held - {key}, s');
    case Clear(w) => ForgetKeepsInv(s, w, map[], s');
  }

  lemma {:induction false} ForgetKeepsInv(s: State, w: Tid, held: Held, s': State)
    requires Inv(s) && w in s.workers && held.Keys <= s.workers[w].held.Keys
    requires forall k <- held :: held[k] == s.workers[w].held[k]
    requires s' == WithHeld(s, w, held)
    ensures Inv(s')
  {
    WorkerStep(s, w, s'.workers[w], s');
  }

  // ----- Runs --------------------------------------------------------------------

  predicate Run(run: seq<State>, actions: seq<Action>) {
    && |run| == |actions| + 1 && Init(run[0])
    && forall t :: 0 <= t < |actions| ==> Next(run[t], actions[t], run[t + 1])
  }

  lemma {:induction false} RunKeepsInv(run: seq<State>, actions: seq<Action>, n: nat)
    requires Run(run, actions) && n < |run|
    ensures Inv(run[n])
  {
    if n > 0 {
      RunKeepsInv(run, actions, n - 1);
      StepKeepsInv(run[n - 1], actions[n - 1], run[n]);
    }
  }

  /** Worker `w` holds the copy, or its renewal is under way to it. */
  predicate Has(s: State, w: Tid, l: LeaseState) {
    w in s.workers && ((l.key in s.workers[w].held && s.workers[w].held[l.key] == l) || Renewed(l) in s.workers[w].answers)
  }

  lemma {:induction false} HasIsOk(s: State, w: Tid, l: LeaseState)
    requires Inv(s) && Has(s, w, l)
    ensures CopyOk(s.table, w, l)
  {
    hide CopyOk;
    assert WorkerOk(s.table, w, s.workers[w]);
    if Renewed(l) in s.workers[w].answers {
      var i :| 0 <= i < |s.workers[w].answers| && s.workers[w].answers[i] == Renewed(l);
      assert AnswerOk(s.table, w, s.workers[w].answers[i]);
    }
  }

  /** Copy `l` carries the counter the table has now. */
  predicate IsCurrent(s: State, l: LeaseState) {
    l.key in s.table && s.table[l.key].rows != [] && l.counter == Some(Current(s.table[l.key]).counter)
  }

  /** Fencing: in every run, at most one worker has a copy of a lease with the counter of
      the table, and that worker made the last write, a renewal. */
  lemma {:induction false} AtMostOneCurrent(run: seq<State>, actions: seq<Action>, n: nat, w: Tid, l: LeaseState, w': Tid, l': LeaseState)
    requires Run(run, actions) && n < |run|
    requires Has(run[n], w, l) && IsCurrent(run[n], l)
    ensures var writes := run[n].table[l.key].writes; writes != [] && writes[|writes| - 1] == Write(RenewWrite, w)
    ensures Has(run[n], w', l') && IsCurrent(run[n], l') && l'.key == l.key ==> w' == w
  {
    hide Next;
    RunKeepsInv(run, actions, n);
    CurrentIsLast(run[n], w, l);
    if Has(run[n], w', l') && IsCurrent(run[n], l') && l'.key == l.key {
      CurrentIsLast(run[n], w', l');
    }
  }

  lemma {:induction false} CurrentIsLast(s: State, w: Tid, l: LeaseState)
    requires Inv(s) && Has(s, w, l) && IsCurrent(s, l)
    ensures var writes := s.table[l.key].writes; writes != [] && writes[|writes| - 1] == Write(RenewWrite, w)
    ensures Current(s.table[l.key]).owner == l.owner
  {
    var p := s.table[l.key];
    HasIsOk(s, w, l);
    assert PastOk(p) && RowOk(p, |p.rows| - 1);
  }

  lemma {:induction false} StepGrows(s: State, a: Action, s': State)
    requires Next(s, a, s')
    ensures Grown(s.table, s'.table)
  {
    hide Matches, RowAfter;
  }

  lemma {:induction false} RunGrows(run: seq<State>, actions: seq<Action>, m: nat, n: nat)
    requires Run(run, actions) && m <= n < |run|
    ensures Grown(run[m].table, run[n].table)
    decreases n
  {
    hide Next;
    if m < n {
      RunGrows(run, actions, m, n - 1);
      StepGrows(run[n - 1], actions[n - 1], run[n]);
    }
  }

  lemma {:induction false} GrownCounter(p: Past, p': Past)
    requires PastOk(p) && PastOk(p') && p.rows <= p'.rows
    ensures Current(p').counter == Current(p).counter + (|p'.rows| - |p.rows|)
  {
    assert RowOk(p, |p.rows| - 1) && RowOk(p', |p'.rows| - 1);
  }

  /** The step made a write on a key. */
  predicate WroteOn(s: State, s': State, key: string) {
    key in s.table && key in s'.table && |s'.table[key].writes| > |s.table[key].writes|
  }

  function LastWriter(p: Past): Tid
    requires p.writes != []
  {
    p.writes[|p.writes| - 1].worker
  }

  /** Once another worker has made a write on a lease, no copy a worker had then can ever
      again pass the condition of a write. */
  lemma {:induction false} NeverAgain(run: seq<State>, actions: seq<Action>, m: nat, n: nat, w: Tid, l: LeaseState)
    requires Run(run, actions) && m + 1 <= n < |run|
    requires WroteOn(run[m], run[m + 1], l.key) && LastWriter(run[m + 1].table[l.key]) != w
    requires Has(run[m + 1], w, l)
    ensures !Succeeds(run[n], l)
  {
    hide Next, Matches;
    RunKeepsInv(run, actions, m + 1);
    RunKeepsInv(run, actions, n);
    RunGrows(run, actions, m + 1, n);
    var p, p' := run[m + 1].table[l.key], run[n].table[l.key];
    GrownCounter(p, p');
    if IsCurrent(run[m + 1], l) {
      CurrentIsLast(run[m + 1], w, l);
    }
    HasIsOk(run[m + 1], w, l);
    PastIsBehind(run[m + 1].table, w, l);
    NoMatchBehind(Current(p'), l);
  }

  lemma {:induction false} PastIsBehind(table: map<string, Past>, w: Tid, l: LeaseState)
    requires CopyOk(table, w, l) && PastOk(table[l.key])
    ensures l.counter.value <= Current(table[l.key]).counter
  {
    var p := table[l.key];
    assert RowOk(p, |p.rows| - 1);
  }

  lemma {:induction false} NoMatchBehind(row: Row, l: LeaseState)
    requires l.counter.Some? && l.counter.value < row.counter
    ensures !Matches(row, l)
  {
  }

  /** Write `j` of a past was a take, and the row had another owner after it than before. */
  predicate TookOver(p: Past, j: nat)
    requires 0 < j < |p.rows| == |p.writes| + 1
  {
    p.writes[j - 1].kind == TakeWrite && p.rows[j].owner != p.rows[j - 1].owner
  }

  function Takeovers(p: Past, n: nat): set<nat>
    requires |p.rows| == |p.writes| + 1 && n <= |p.writes|
  {
    set j: nat | 0 < j <= n && TookOver(p, j)
  }

  /** The counter of every row a lease has had is the one it was created with and the number
      of writes since; its owner switches are those it was created with and the number of
      takes since after which the row had another owner than before. */
  lemma {:induction false} CountersCount(run: seq<State>, actions: seq<Action>, n: nat, key: string, i: nat)
    requires Run(run, actions) && n < |run| && key in run[n].table && i < |run[n].table[key].rows|
    ensures var p := run[n].table[key];
            && |p.rows| == |p.writes| + 1
            && p.rows[i].counter == p.rows[0].counter + i
            && p.rows[i].switches == p.rows[0].switches + |Takeovers(p, i)|
  {
    hide Next;
    RunKeepsInv(run, actions, n);
    var p := run[n].table[key];
    assert PastOk(p) && RowOk(p, i);
    ChangesAreMany(p, i);
  }

  lemma {:induction false} ChangesAreMany(p: Past, n: nat)
    requires |p.rows| == |p.writes| + 1 && n <= |p.writes|
    ensures Changes(p, n) == |Takeovers(p, n)|
  {
    if n == 0 {
      assert Takeovers(p, n) == {};
    } else {
      ChangesAreMany(p, n - 1);
      OneMoreChange(p, n);
    }
  }

  lemma {:induction false} OneMoreChange(p: Past, n: nat)
    requires |p.rows| == |p.writes| + 1 && 0 < n <= |p.writes|
    ensures |Takeovers(p, n)|
         == |Takeovers(p, n - 1)| + if IsChange(p.rows[n - 1], p.writes[n - 1], p.rows[n]) then 1 else 0
  {
    var before, now := Takeovers(p, n - 1), Takeovers(p, n);
    assert TookOver(p, n) <==> IsChange(p.rows[n - 1], p.writes[n - 1], p.rows[n]);
    hide TookOver, IsChange;
    assert now == before + if TookOver(p, n) then {n} else {};
  }

  /** Whichever writes the lease has seen in a run, each made of the row before it just what
      it is for. */
  lemma {:induction false} WritesMake(run: seq<State>, actions: seq<Action>, n: nat, key: string, i: nat)
    requires Run(run, actions) && n < |run| && key in run[n].table && i < |run[n].table[key].writes|
    ensures var p := run[n].table[key];
            |p.rows| == |p.writes| + 1 && Makes(p.rows[i], p.writes[i], p.rows[i + 1])
  {
    hide Next;
    RunKeepsInv(run, actions, n);
    var p := run[n].table[key];
    assert PastOk(p) && RowOk(p, i + 1);
  }

  /** A renewal that succeeds and is answered leaves the renewer with a copy, held or under way
      to it, that is current and from which the next write succeeds; one that fails leaves
      the table as it was and tells the renewer so. */
  lemma {:induction false} RenewerIsCurrent(run: seq<State>, actions: seq<Action>, m: nat, w: Tid, l: LeaseState)
    requires Run(run, actions) && m < |actions| && actions[m] == Renew(w, l, true)
    ensures w in run[m + 1].workers
    ensures Succeeds(run[m], l) ==>
              var l' := WithIncrementedCounter(l);
              Has(run[m + 1], w, l') && IsCurrent(run[m + 1], l') && Succeeds(run[m + 1], l')
    ensures !Succeeds(run[m], l) ==> run[m + 1].table == run[m].table && NotRenewed(l.key) in run[m + 1].workers[w].answers
  {
    assert Next(run[m], actions[m], run[m + 1]);
  }

  /** When the answer to a renewal arrives, and nobody has written to the lease since, the
      worker holds the renewed copy, and its next write succeeds. The answer that it was not
      renewed makes the worker drop the lease. No other lease it holds is touched. */
  lemma {:induction false} AnswerArrives(run: seq<State>, actions: seq<Action>, m: nat, w: Tid, i: nat)
    requires Run(run, actions) && m < |actions| && actions[m] == Deliver(w, i)
    ensures w in run[m].workers && i < |run[m].workers[w].answers| && w in run[m + 1].workers
    ensures var held, held' := run[m].workers[w].held, run[m + 1].workers[w].held;
            match run[m].workers[w].answers[i]
            case Renewed(l) =>
              && l.key in held' && held'[l.key] == l && OthersHeld(held, held', l.key)
              && (IsCurrent(run[m], l) ==> Succeeds(run[m + 1], l))
            case NotRenewed(key) => key !in held' && OthersHeld(held, held', key)
            case Taken(l) => OthersHeld(held, held', l.key) && (l.lastIncrement.Some? ==> l.key in held')
            case Updated(l) => l.key in held' && held'[l.key] == l && OthersHeld(held, held', l.key)
  {
    hide Succeeds, IsCurrent, Inv;
    assert Next(run[m], actions[m], run[m + 1]);
    var a := run[m].workers[w].answers[i];
    match a
    case Renewed(l) =>
      if IsCurrent(run[m], l) {
        RunKeepsInv(run, actions, m);
        CurrentSucceeds(run[m], w, l);
        SameTable(run[m], run[m + 1], l);
      }
    case Taken(l) => AddedOne(run[m].workers[w].held, l);
    case _ =>
  }

  /** Apart from one lease, the same are held in the same copies. */
  predicate OthersHeld(held: Held, held': Held, key: string) {
    && (forall k <- held :: k != key ==> k in held' && held'[k] == held[k])
    && (forall k <- held' :: k != key ==> k in held)
  }

  lemma {:induction false} CurrentSucceeds(s: State, w: Tid, l: LeaseState)
    requires Inv(s) && Has(s, w, l) && IsCurrent(s, l)
    ensures Succeeds(s, l)
  {
    CurrentIsLast(s, w, l);
  }

  lemma {:induction false} SameTable(s: State, s': State, l: LeaseState)
    requires s'.table == s.table
    ensures Succeeds(s', l) == Succeeds(s, l)
  {
  }

  /** A take that succeeds makes the taker the owner, whoever it was before, and is the last
      write; a take that fails changes nothing. */
  lemma {:induction false} TakerOwns(run: seq<State>, actions: seq<Action>, m: nat, w: Tid, l: LeaseState, answered: bool)
    requires Run(run, actions) && m < |actions| && actions[m] == Take(w, l, answered)
    ensures !Succeeds(run[m], l) ==> run[m + 1] == run[m]
    ensures Succeeds(run[m], l) ==> l.key in run[m + 1].table
    ensures Succeeds(run[m], l) ==>
              var p, p' := run[m].table[l.key], run[m + 1].table[l.key];
              && p'.writes == p.writes + [Write(TakeWrite, w)] && |p'.rows| == |p.rows| + 1
              && Current(p').owner == Some(w) && Current(p').counter == Current(p).counter + 1
  {
    assert Next(run[m], actions[m], run[m + 1]);
  }

  /** Whatever a worker has read or has of a lease, if its counter is that of the table, it
      agrees with the table on the owner and on the owner switches. */
  lemma {:induction false} CurrentCopiesAgree(run: seq<State>, actions: seq<Action>, n: nat, w: Tid, l: LeaseState)
    requires Run(run, actions) && n < |run| && IsCurrent(run[n], l)
    requires Has(run[n], w, l) || Knows(run[n], w, l)
    ensures Current(run[n].table[l.key]).owner == l.owner
    ensures Current(run[n].table[l.key]).switches == OrZero(l.switches)
  {
    hide Next;
    RunKeepsInv(run, actions, n);
    if Has(run[n], w, l) {
      HasIsOk(run[n], w, l);
    } else {
      KnownIsGenuine(run[n], w, l);
    }
    var p := run[n].table[l.key];
    assert PastOk(p) && RowOk(p, |p.rows| - 1);
  }
  // ----- Leases without an owner -------------------------------------------------

  /** Nobody owns the lease: it has been evicted, or was created so. */
  predicate IsUnowned(s: State, key: string) {
    key in s.table && s.table[key].rows != [] && !IsNamed(Current(s.table[key]).owner)
  }

  lemma {:induction false} UnownedCannotBeWritten(s: State, w: Tid, l: LeaseState)
    requires Inv(s) && Knows(s, w, l) && IsUnowned(s, l.key)
    ensures !Succeeds(s, l)
  {
    KnownIsGenuine(s, w, l);
  }

  lemma {:induction false} StepKeepsUnowned(s: State, a: Action, s': State, key: string)
    requires Inv(s) && Next(s, a, s') && IsUnowned(s, key)
    ensures IsUnowned(s', key) && s'.table[key] == s.table[key]
  {
    hide Inv, Knows, Succeeds, RowAfter, IsNamed;
    if (a.Renew? || a.Take? || a.Evict? || a.Update?) && a.l.key == key {
      assert Knows(s, a.w, a.l);
      UnownedCannotBeWritten(s, a.w, a.l);
    }
  }

  /** A lease without an owner stays as it is in every run: no worker reads it again, and no
      copy anybody has passes its condition. */
  lemma {:induction false} UnownedForever(run: seq<State>, actions: seq<Action>, m: nat, n: nat, key: string)
    requires Run(run, actions) && m <= n < |run| && IsUnowned(run[m], key)
    ensures IsUnowned(run[n], key) && run[n].table[key] == run[m].table[key]
    ensures forall w, l :: Knows(run[n], w, l) && l.key == key ==> !Succeeds(run[n], l)
    decreases n
  {
    hide Next, Inv, Knows, Succeeds, IsUnowned;
    RunKeepsInv(run, actions, n);
    if m < n {
      UnownedForever(run, actions, m, n - 1, key);
      RunKeepsInv(run, actions, n - 1);
      StepKeepsUnowned(run[n - 1], actions[n - 1], run[n], key);
    }
    forall w, l | Knows(run[n], w, l) && l.key == key ensures !Succeeds(run[n], l) {
      UnownedCannotBeWritten(run[n], w, l);
    }
  }

  /** So an eviction that succeeds is the last write its lease ever sees. */
  lemma {:induction false} EvictionIsForGood(run: seq<State>, actions: seq<Action>, m: nat, n: nat, w: Tid, l: LeaseState)
    requires Run(run, actions) && m < n < |run| && actions[m] == Evict(w, l) && Succeeds(run[m], l)
    ensures l.key in run[n].table && run[n].table[l.key] == run[m + 1].table[l.key]
    ensures Current(run[n].table[l.key]).owner == None && !Succeeds(run[n], l)
  {
    RunKeepsInv(run, actions, m);
    assert Next(run[m], actions[m], run[m + 1]);
    KnownIsGenuine(run[m], w, l);
    UnownedForever(run, actions, m + 1, n, l.key);
  }
}
