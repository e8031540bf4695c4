/** The lease table and `LeaseManager`: every write is conditional on the owner and the
    counter of the copy it is made from, and counts up the counter. */
module LeaseTable {
  import opened Decimals
  import opened LeaseCodec
  import opened Leases
  import opened Options

  // ----- Conditional writes on attributes ----------------------------------------

  datatype Expected = Exactly(a: Attribute) | Absent
  datatype Update = Put(a: Attribute) | Delete
  datatype UpdateParams = UpdateParams(setOwnerToNull: bool, newOwner: Option<string>)

  /** Numbers in the table are all written by `Decimal`, so that equal ones look alike. */
  predicate Holds(item: Item, expected: map<string, Expected>) {
    forall name <- expected ::
      match expected[name]
      case Exactly(a) => name in item && item[name] == a
      case Absent => name !in item
  }

  function Apply(item: Item, updates: map<string, Update>): Item {
    map name | name in item.Keys + updates.Keys && (name in updates ==> updates[name].Put?) ::
      if name in updates then updates[name].a else item[name]
  }

  function CasExpectation(l: LeaseState): map<string, Expected> {
    map["leaseOwner" := match l.owner case Some(o) => Exactly(S(o)) case None => Absent,
        "leaseCounter" := match l.counter case Some(c) => Exactly(N(Decimal(c))) case None => Absent]
  }

  /** `makeCASExpectation`. */
  method MakeCasExpectation(l: LeaseState) returns (expected: map<string, Expected>)
    ensures expected == CasExpectation(l)
  {
    expected := map[];
    if l.owner.Some? {
      expected := expected["leaseOwner" := Exactly(S(l.owner.value))];
    } else {
      expected := expected["leaseOwner" := Absent];
    }
    if l.counter.Some? {
      expected := expected["leaseCounter" := Exactly(N(Decimal(l.counter.value)))];
    } else {
      expected := expected["leaseCounter" := Absent];
    }
  }

  /** Whether an update writes a new owner, and with it the number of switches. */
  predicate ChangesOwner(l: LeaseState, params: UpdateParams) {
    !params.setOwnerToNull && params.newOwner.Some? && l.owner != params.newOwner
  }

  function UpdateValues(l: LeaseState, params: UpdateParams): map<string, Update> {
    var owner := if params.setOwnerToNull then (if l.owner.Some? then map["leaseOwner" := Delete] else map[])
                 else if ChangesOwner(l, params) then
                   map["leaseOwner" := Put(S(params.newOwner.value)),
                       "ownerSwitchesSinceCheckpoint" := Put(N(Decimal(OrZero(l.switches) + 1)))]
                 else map[];
    owner["leaseCounter" := Put(N(Decimal(OrZero(l.counter) + 1)))]
  }

  /** `makeUpdateValues`. */
  method MakeUpdateValues(l: LeaseState, params: UpdateParams) returns (result: map<string, Update>)
    ensures result == UpdateValues(l, params)
  {
    result := map[];
    var oldOwner := l.owner;
    if params.setOwnerToNull {
      if oldOwner.Some? {
        result := result["leaseOwner" := Delete];
      }
    } else if params.newOwner.Some? {
      if oldOwner.None? || oldOwner.value != params.newOwner.value {
        result := result["leaseOwner" := Put(S(params.newOwner.value))];
        var numSwitches := 0;
        if l.switches.Some? {
          numSwitches := l.switches.value;
        }
        numSwitches := numSwitches + 1;
        result := result["ownerSwitchesSinceCheckpoint" := Put(N(Decimal(numSwitches)))];
      }
    }
    var nextCounter := 0;
    if l.counter.Some? {
      nextCounter := l.counter.value;
    }
    nextCounter := nextCounter + 1;
    result := result["leaseCounter" := Put(N(Decimal(nextCounter)))];
  }

  // ----- Rows --------------------------------------------------------------------

  /** What an item says. */
  datatype Row = Row(owner: Option<string>, counter: nat, switches: nat,
                     checkpoint: Option<string>, subCheckpoint: Option<string>)

  function AttributeOf(item: Item, name: string): Option<Attribute> {
    if name in item then Some(item[name]) else None
  }

  function StringAttribute(s: Option<string>): Option<Attribute> {
    match s case None => None case Some(v) => Some(S(v))
  }

  predicate Represents(item: Item, row: Row) {
    && AttributeOf(item, "leaseOwner") == StringAttribute(row.owner)
    && AttributeOf(item, "leaseCounter") == Some(N(Decimal(row.counter)))
    && (AttributeOf(item, "ownerSwitchesSinceCheckpoint") == Some(N(Decimal(row.switches)))
        || (AttributeOf(item, "ownerSwitchesSinceCheckpoint") == None && row.switches == 0))
    && AttributeOf(item, "checkpoint") == StringAttribute(row.checkpoint)
    && AttributeOf(item, "checkpointSubSequenceNumber") == StringAttribute(row.subCheckpoint)
  }

  /** The copy's condition, on a row: its owner and its counter. */
  predicate Matches(row: Row, l: LeaseState) {
    l.owner == row.owner && l.counter == Some(row.counter)
  }

  /** The row after a write from copy `l`. */
  function RowAfter(row: Row, l: LeaseState, params: UpdateParams): Row {
    row.(owner := if params.setOwnerToNull then None else if ChangesOwner(l, params) then params.newOwner else row.owner,
         switches := if ChangesOwner(l, params) then OrZero(l.switches) + 1 else row.switches,
         counter := row.counter + 1)
  }

  /** The conditional write on the attributes of an item passes exactly for copies with the
      owner and the counter of its row. */
  lemma {:induction false} ConditionIsMatch(item: Item, row: Row, l: LeaseState)
    requires Represents(item, row)
    ensures Holds(item, CasExpectation(l)) <==> Matches(row, l)
  {
    var expected := CasExpectation(l);
    assert "leaseOwner" in expected && "leaseCounter" in expected;
    if l.counter.Some? && Decimal(l.counter.value) == Decimal(row.counter) {
      DecimalInjective(l.counter.value, row.counter);
    }
  }

  /** Where the write passes, it makes the item of the row after it. */
  lemma {:induction false} WriteIsRowAfter(item: Item, row: Row, l: LeaseState, params: UpdateParams)
    requires Represents(item, row) && Matches(row, l)
    ensures Represents(Apply(item, UpdateValues(l, params)), RowAfter(row, l, params))
  {
    hide Decimal;
  }

  // ----- The table ---------------------------------------------------------------

  /** What the absence of a row amounts to for a write. */
  const NO_ROW: Row := Row(None, 0, 0, None, None)

  function RowIn(rows: map<string, Row>, key: string): Row {
    if key in rows then rows[key] else NO_ROW
  }

  /** A copy passes: it matches the row, or knows of no owner and no counter where there is none. */
  predicate PassesIn(rows: map<string, Row>, l: LeaseState) {
    if l.key in rows then Matches(rows[l.key], l) else l.owner == None && l.counter == None
  }

  class LeaseManager {
    var items: map<string, Item>
    ghost var rows: map<string, Row>

    ghost predicate Valid()
      reads this
    {
      items.Keys == rows.Keys && forall k <- items :: Represents(items[k], rows[k])
    }

    constructor ()
      ensures Valid() && rows == map[]
    {
      items, rows := map[], map[];
    }

    ghost predicate Passes(l: LeaseState)
      reads this
    {
      PassesIn(rows, l)
    }

    ghost function RowOf(key: string): Row
      reads this
    {
      RowIn(rows, key)
    }

    /** `UpdateItem`: checks the expectation and applies the updates in one step; an item
        that does not exist is made. */
    method UpdateItem(key: string, expected: map<string, Expected>, updates: map<string, Update>) returns (ok: bool)
      modifies this`items
      ensures ok == Holds(if key in old(items) then old(items)[key] else map[], expected)
      ensures items == if ok then old(items)[key := Apply(if key in old(items) then old(items)[key] else map["leaseKey" := S(key)], updates)]
                       else old(items)
    {
      if key in items {
        ok := Holds(items[key], expected);
        if ok {
          items := items[key := Apply(items[key], updates)];
        }
      } else {
        ok := Holds(map[], expected);
        if ok {
          items := items[key := Apply(map["leaseKey" := S(key)], updates)];
        }
      }
    }

    /** `internalUpdateLease`. */
    method InternalUpdateLease(l: LeaseState, params: UpdateParams) returns (ok: bool)
      requires Valid()
      modifies this
      ensures Valid() && ok == old(Passes(l))
      ensures rows == if ok then old(rows)[l.key := RowAfter(old(RowOf(l.key)), l, params)] else old(rows)
    {
      hide Represents, Holds, Apply, UpdateValues, CasExpectation, Matches, RowAfter;
      var expected := MakeCasExpectation(l);
      var updates := MakeUpdateValues(l, params);
      WriteIsStep(l, params);
      ok := UpdateItem(l.key, expected, updates);
      if ok {
        rows := rows[l.key := RowAfter(RowOf(l.key), l, params)];
      }
    }

    /** The item a write is about. */
    ghost function ItemAt(key: string): Item
      reads this
    {
      if key in items then items[key] else map["leaseKey" := S(key)]
    }

    /** What the conditional write from a copy does to the attributes is what it does to the row. */
    lemma {:induction false} WriteIsStep(l: LeaseState, params: UpdateParams)
      requires Valid()
      ensures Holds(if l.key in items then items[l.key] else map[], CasExpectation(l)) <==> Passes(l)
      ensures Passes(l) ==> Represents(Apply(ItemAt(l.key), UpdateValues(l, params)), RowAfter(RowOf(l.key), l, params))
    {
      hide Represents, Holds, Apply, UpdateValues, CasExpectation, Matches, RowAfter;
      if l.key in rows {
        ConditionIsMatch(items[l.key], rows[l.key], l);
        if Passes(l) {
          WriteIsRowAfter(items[l.key], rows[l.key], l, params);
        }
      } else {
        NothingMatches(l);
        if Passes(l) {
          FirstWrite(l, params);
        }
      }
    }

    /** `renewLease`: a success returns the copy with the counter the row now has. */
    method RenewLease(l: LeaseState) returns (renewed: Option<LeaseState>)
      requires Valid()
      modifies this
      ensures Valid() && renewed == if old(Passes(l)) then Some(WithIncrementedCounter(l)) else None
      ensures rows == if old(Passes(l)) then old(rows)[l.key := old(RowOf(l.key)).(counter := old(RowOf(l.key)).counter + 1)]
                      else old(rows)
      ensures renewed.Some? ==> Matches(rows[l.key], renewed.value)
    {
      hide Represents;
      var ok := InternalUpdateLease(l, UpdateParams(false, None));
      renewed := if ok then Some(WithIncrementedCounter(l)) else None;
    }

    /** `takeLease`: a success returns the copy as it was, which no longer matches. */
    method TakeLease(l: LeaseState, newOwner: string) returns (taken: Option<LeaseState>)
      requires Valid()
      modifies this
      ensures Valid() && taken == if old(Passes(l)) then Some(l) else None
      ensures rows == if taken.Some? then old(rows)[l.key := TakenRow(old(RowOf(l.key)), l, newOwner)] else old(rows)
      ensures taken.Some? ==> rows[l.key].owner == Some(newOwner) && !Passes(l)
      ensures taken.Some? && l.owner == Some(newOwner) ==>
                rows[l.key] == old(RowOf(l.key)).(counter := old(RowOf(l.key)).counter + 1)
    {
      var ok := InternalUpdateLease(l, UpdateParams(false, Some(newOwner)));
      taken := if ok then Some(l) else None;
    }

    /** `evictLease`: the item that is left cannot be read, so that `listLeases` passes it over. */
    method EvictLease(l: LeaseState) returns (evicted: bool)
      requires Valid()
      modifies this
      ensures Valid() && evicted == old(Passes(l))
      ensures rows == if evicted then old(rows)[l.key := old(RowOf(l.key)).(owner := None, counter := old(RowOf(l.key)).counter + 1)]
                      else old(rows)
      ensures evicted ==> rows[l.key].owner == None && !Passes(l)
      ensures evicted ==> l.key in items && forall stale :: LeaseOf(items[l.key], stale) == Failure
    {
      hide Represents, LeaseOf;
      evicted := InternalUpdateLease(l, UpdateParams(true, None));
      if evicted {
        UnownedIsUnreadable(items[l.key], rows[l.key]);
      }
    }

    /** `updateLease`: writes the checkpoint of the copy, which then no longer matches. */
    method UpdateLease(l: LeaseState) returns (updated: Option<LeaseState>)
      requires Valid()
      modifies this
      ensures Valid() && updated == if old(Passes(l)) then Some(l) else None
      ensures rows == if updated.Some? then
                        var row := old(RowOf(l.key));
                        old(rows)[l.key := row.(counter := row.counter + 1,
                                                checkpoint := if l.checkpoint.Some? then l.checkpoint else row.checkpoint,
                                                subCheckpoint := if l.subCheckpoint.Some? then l.subCheckpoint else row.subCheckpoint)]
                      else old(rows)
      ensures updated.Some? ==> !Passes(l)
    {
      hide Represents, Holds, Apply, UpdateValues, CasExpectation, Matches, RowAfter, Checkpointed;
      var params := UpdateParams(false, None);
      var toUpdate := MakeUpdateValues(l, params);
      ghost var updates := toUpdate;
      if l.checkpoint.Some? {
        toUpdate := toUpdate["checkpoint" := Put(S(l.checkpoint.value))];
      }
      if l.subCheckpoint.Some? {
        toUpdate := toUpdate["checkpointSubSequenceNumber" := Put(S(l.subCheckpoint.value))];
      }
      var expected := MakeCasExpectation(l);
      WriteIsStep(l, params);
      NoCheckpointUpdates(l, params);
      if Passes(l) {
        CheckpointWrite(ItemAt(l.key), RowAfter(RowOf(l.key), l, params), l, updates);
      }
      var ok := UpdateItem(l.key, expected, toUpdate);
      if ok {
        rows := rows[l.key := Checkpointed(RowAfter(RowOf(l.key), l, params), l)];
        PassedOnce(l, params, old(RowOf(l.key)));
        OnlyCounts(old(RowOf(l.key)), l);
      }
      updated := if ok then Some(l) else None;
    }

    /** `createLeaseIfNotExists`. */
    method CreateLeaseIfNotExists(l: LeaseState) returns (created: bool)
      requires Valid()
      modifies this
      ensures Valid() && created == (l.key !in old(rows))
      ensures rows == if created then old(rows)[l.key := CreatedRow(l)] else old(rows)
    {
      created := l.key !in items;
      if created {
        var item := ToDynamoDict(l);
        CreatedItem(l);
        items := items[l.key := item];
        rows := rows[l.key := CreatedRow(l)];
      }
    }
  }

  /** The row taken over by `newOwner`: the switches are counted up only if the owner changes. */
  function TakenRow(row: Row, l: LeaseState, newOwner: string): Row {
    row.(owner := Some(newOwner), counter := row.counter + 1,
         switches := if l.owner == Some(newOwner) then row.switches else OrZero(l.switches) + 1)
  }

  function CreatedRow(l: LeaseState): Row {
    Row(l.owner, OrZero(l.counter), OrZero(l.switches), l.checkpoint, l.subCheckpoint)
  }

  /** `fromDynamoDict` makes no lease of an item without an owner. */
  lemma {:induction false} UnownedIsUnreadable(item: Item, row: Row)
    requires Represents(item, row) && row.owner == None
    ensures forall stale :: LeaseOf(item, stale) == Failure
  {
    assert "leaseOwner" !in item;
  }

  /** A write that is not about the owner counts up the counter. */
  lemma {:induction false} OnlyCounts(row: Row, l: LeaseState)
    ensures RowAfter(row, l, UpdateParams(false, None)) == row.(counter := row.counter + 1)
    ensures Checkpointed(RowAfter(row, l, UpdateParams(false, None)), l)
         == row.(counter := row.counter + 1,
                 checkpoint := if l.checkpoint.Some? then l.checkpoint else row.checkpoint,
                 subCheckpoint := if l.subCheckpoint.Some? then l.subCheckpoint else row.subCheckpoint)
  {
  }

  /** A copy that has written does not match the row it made. */
  lemma {:induction false} PassedOnce(l: LeaseState, params: UpdateParams, row: Row)
    requires Matches(row, l) || (row == NO_ROW && l.counter == None)
    ensures !Matches(RowAfter(row, l, params), l) && !Matches(Checkpointed(RowAfter(row, l, params), l), l)
  {
  }

  /** The row with the checkpoint of a copy, as far as the copy has one. */
  function Checkpointed(row: Row, l: LeaseState): Row {
    row.(checkpoint := if l.checkpoint.Some? then l.checkpoint else row.checkpoint,
         subCheckpoint := if l.subCheckpoint.Some? then l.subCheckpoint else row.subCheckpoint)
  }

  lemma {:induction false} CreatedItem(l: LeaseState)
    ensures Represents(ItemOf(l), CreatedRow(l))
  {
    assert Decimal(0) == "0";
  }

  lemma {:induction false} NothingMatches(l: LeaseState)
    ensures Holds(map[], CasExpectation(l)) <==> l.owner == None && l.counter == None
  {
    var expected := CasExpectation(l);
    assert "leaseOwner" in expected && "leaseCounter" in expected;
  }

  lemma {:induction false} FirstWrite(l: LeaseState, params: UpdateParams)
    requires l.owner == None && l.counter == None
    ensures Represents(Apply(map["leaseKey" := S(l.key)], UpdateValues(l, params)), RowAfter(NO_ROW, l, params))
  {
    hide Decimal, Apply;
    var item, updates := map["leaseKey" := S(l.key)], UpdateValues(l, params);
    forall name ensures AttributeOf(Apply(item, updates), name)
                     == if name in updates then (if updates[name].Put? then Some(updates[name].a) else None) else AttributeOf(item, name)
    {
      Applied(item, updates, name);
    }
  }

  lemma {:induction false} Applied(item: Item, updates: map<string, Update>, name: string)
    ensures AttributeOf(Apply(item, updates), name)
         == if name in updates then (if updates[name].Put? then Some(updates[name].a) else None) else AttributeOf(item, name)
  {
  }

  /** One more update changes one more attribute. */
  lemma {:induction false} ApplyPut(item: Item, updates: map<string, Update>, name: string, a: Attribute, other: string)
    requires name !in updates
    ensures AttributeOf(Apply(item, updates[name := Put(a)]), other)
         == if other == name then Some(a) else AttributeOf(Apply(item, updates), other)
  {
  }

  function WithPut(updates: map<string, Update>, name: string, s: Option<string>): map<string, Update> {
    match s case None => updates case Some(v) => updates[name := Put(S(v))]
  }

  /** The updates of `updateLease`. */
  function WithCheckpoint(updates: map<string, Update>, l: LeaseState): map<string, Update> {
    WithPut(WithPut(updates, "checkpoint", l.checkpoint), "checkpointSubSequenceNumber", l.subCheckpoint)
  }

  /** Adding the checkpoint to the updates adds it to the row. */
  lemma {:induction false} CheckpointWrite(item: Item, after: Row, l: LeaseState, updates: map<string, Update>)
    requires Represents(Apply(item, updates), after)
    requires "checkpoint" !in updates && "checkpointSubSequenceNumber" !in updates
    ensures Represents(Apply(item, WithCheckpoint(updates, l)), Checkpointed(after, l))
  {
    hide Decimal, Apply;
    var first := WithPut(updates, "checkpoint", l.checkpoint);
    forall name ensures AttributeOf(Apply(item, first), name)
                     == if name == "checkpoint" && l.checkpoint.Some? then Some(S(l.checkpoint.value)) else AttributeOf(Apply(item, updates), name)
    {
      if l.checkpoint.Some? {
        ApplyPut(item, updates, "checkpoint", S(l.checkpoint.value), name);
      }
    }
    forall name ensures AttributeOf(Apply(item, WithCheckpoint(updates, l)), name)
                     == if name == "checkpointSubSequenceNumber" && l.subCheckpoint.Some? then Some(S(l.subCheckpoint.value))
                        else AttributeOf(Apply(item, first), name)
    {
      if l.subCheckpoint.Some? {
        ApplyPut(item, first, "checkpointSubSequenceNumber", S(l.subCheckpoint.value), name);
      }
    }
  }

  lemma {:induction false} NoCheckpointUpdates(l: LeaseState, params: UpdateParams)
    ensures "checkpoint" !in UpdateValues(l, params) && "checkpointSubSequenceNumber" !in UpdateValues(l, params)
  {
  }
}
