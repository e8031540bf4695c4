/** Leases as items of the table: `toDynamoDict` and `fromDynamoDict`. */
module LeaseCodec {
  import opened Decimals
  import opened Leases
  import opened Options

  /** An `AttributeValue`: a string, or a number written as one. */
  datatype Attribute = S(s: string) | N(n: string)

  type Item = map<string, Attribute>

  /** `GetS` and `GetN`: empty if the attribute is of the other kind. */
  function GetS(a: Attribute): string {
    match a case S(s) => s case N(_) => ""
  }

  function GetN(a: Attribute): string {
    match a case S(_) => "" case N(n) => n
  }

  // ----- Writing -----------------------------------------------------------------

  function NumberText(n: Option<nat>): string {
    match n case None => "0" case Some(v) => Decimal(v)
  }

  function WithString(item: Item, name: string, s: Option<string>): Item {
    match s case None => item case Some(v) => item[name := S(v)]
  }

  /** The item of a lease; its concurrency token and its parents are not part of it. */
  function ItemOf(l: LeaseState): Item {
    var strings := WithString(WithString(WithString(map["leaseKey" := S(l.key)], "leaseOwner", l.owner),
                                         "checkpoint", l.checkpoint), "checkpointSubSequenceNumber", l.subCheckpoint);
    strings["leaseCounter" := N(NumberText(l.counter))]
           ["ownerSwitchesSinceCheckpoint" := N(NumberText(l.switches))]
           ["lastCounterIncrementNanoseconds" := N(NumberText(l.lastIncrement))]
  }

  /** `toDynamoDict`. */
  method ToDynamoDict(l: LeaseState) returns (result: Item)
    ensures result == ItemOf(l)
  {
    hide Decimal;
    result := map["leaseKey" := S(l.key)];
    ghost var first := result;
    if l.owner.Some? {
      result := result["leaseOwner" := S(l.owner.value)];
    }
    assert result == WithString(first, "leaseOwner", l.owner);
    ghost var second := result;
    if l.checkpoint.Some? {
      result := result["checkpoint" := S(l.checkpoint.value)];
    }
    assert result == WithString(second, "checkpoint", l.checkpoint);
    ghost var third := result;
    if l.subCheckpoint.Some? {
      result := result["checkpointSubSequenceNumber" := S(l.subCheckpoint.value)];
    }
    assert result == WithString(third, "checkpointSubSequenceNumber", l.subCheckpoint);
    hide WithString;
    var leaseCounter := "0";
    if l.counter.Some? {
      leaseCounter := Decimal(l.counter.value);
    }
    result := result["leaseCounter" := N(leaseCounter)];
    var ownerSwitches := "0";
    if l.switches.Some? {
      ownerSwitches := Decimal(l.switches.value);
    }
    result := result["ownerSwitchesSinceCheckpoint" := N(ownerSwitches)];
    var lastIncrement := "0";
    if l.lastIncrement.Some? {
      lastIncrement := Decimal(l.lastIncrement.value);
    }
    result := result["lastCounterIncrementNanoseconds" := N(lastIncrement)];
  }

  // ----- Reading -----------------------------------------------------------------

  function ReadString(item: Item, name: string): Option<string> {
    if name in item then Some(GetS(item[name])) else None
  }

  /** A number: 0 without the attribute, none if it is no number, and an error if it cannot be read. */
  function ReadNumber(item: Item, name: string, stale: bool): Outcome<Option<nat>> {
    if name !in item then Success(Some(0))
    else if GetN(item[name]) == "" then Success(None)
    else match SafeStrToUll(GetN(item[name]), stale)
      case Failure => Failure
      case Success(v) => Success(Some(v))
  }

  /** The lease of an item, if it can be read. */
  function LeaseOf(item: Item, stale: bool): Outcome<LeaseState> {
    if "leaseKey" !in item || GetS(item["leaseKey"]) == "" || "leaseOwner" !in item then Failure
    else
      var owner := GetS(item["leaseOwner"]);
      match (ReadNumber(item, "leaseCounter", stale), ReadNumber(item, "ownerSwitchesSinceCheckpoint", stale),
             ReadNumber(item, "lastCounterIncrementNanoseconds", stale))
      case (Success(counter), Success(switches), Success(lastIncrement)) =>
        Success(LeaseState(GetS(item["leaseKey"]), if owner == "" then None else Some(owner), None, lastIncrement, counter,
                           ReadString(item, "checkpoint"), ReadString(item, "checkpointSubSequenceNumber"), switches, {}))
      case _ => Failure
  }

  /** `fromDynamoDict`. */
  method FromDynamoDict(item: Item, stale: bool) returns (outcome: Outcome<LeaseState>)
    ensures outcome == LeaseOf(item, stale)
  {
    var l := LeaseState("", None, None, None, None, None, None, None, {});
    if "leaseKey" !in item {
      return Failure;
    }
    if GetS(item["leaseKey"]) == "" {
      return Failure;
    }
    l := l.(key := GetS(item["leaseKey"]));
    if "leaseOwner" !in item {
      return Failure;
    }
    if GetS(item["leaseOwner"]) != "" {
      l := l.(owner := Some(GetS(item["leaseOwner"])));
    }
    if "checkpoint" in item {
      l := l.(checkpoint := Some(GetS(item["checkpoint"])));
    }
    if "checkpointSubSequenceNumber" in item {
      l := l.(subCheckpoint := Some(GetS(item["checkpointSubSequenceNumber"])));
    }
    var counter := ReadNumber(item, "leaseCounter", stale);
    if counter.Failure? {
      return Failure;
    }
    l := l.(counter := counter.result);
    var switches := ReadNumber(item, "ownerSwitchesSinceCheckpoint", stale);
    if switches.Failure? {
      return Failure;
    }
    l := l.(switches := switches.result);
    var lastIncrement := ReadNumber(item, "lastCounterIncrementNanoseconds", stale);
    if lastIncrement.Failure? {
      return Failure;
    }
    l := l.(lastIncrement := lastIncrement.result);
    return Success(l);
  }

  // ----- The round trip ----------------------------------------------------------

  function OrZero(n: Option<nat>): nat {
    match n case None => 0 case Some(v) => v
  }

  /** The numbers of a lease are words. */
  predicate Fits(l: LeaseState) {
    OrZero(l.counter) <= ULLONG_MAX && OrZero(l.switches) <= ULLONG_MAX && OrZero(l.lastIncrement) <= ULLONG_MAX
  }

  /** What an item keeps of a lease: absent numbers become 0, and the token and the parents are lost. */
  function Kept(l: LeaseState): LeaseState {
    l.(token := None, parents := {}, counter := Some(OrZero(l.counter)),
       switches := Some(OrZero(l.switches)), lastIncrement := Some(OrZero(l.lastIncrement)))
  }

  lemma {:induction false} NumberReadsBack(item: Item, name: string, n: Option<nat>, stale: bool)
    requires name in item && item[name] == N(NumberText(n)) && OrZero(n) <= ULLONG_MAX
    ensures ReadNumber(item, name, stale)
         == if stale && OrZero(n) == ULLONG_MAX then Failure else Success(Some(OrZero(n)))
  {
    assert NumberText(n) == Decimal(OrZero(n)) by {
      assert Decimal(0) == "0";
    }
    DecimalValue(OrZero(n));
    ReadsBack(OrZero(n), stale);
  }

  /** A lease survives the table exactly if it has a key and an owner that are not empty, and
      no number is the greatest word while `errno` is stale. A lease without an owner cannot
      be read back at all. */
  lemma {:induction false} RoundTrip(l: LeaseState, stale: bool)
    requires Fits(l)
    ensures LeaseOf(ItemOf(l), stale) == Success(Kept(l))
       <==> && l.key != "" && l.owner.Some? && l.owner.value != ""
            && (stale ==> OrZero(l.counter) != ULLONG_MAX && OrZero(l.switches) != ULLONG_MAX
                          && OrZero(l.lastIncrement) != ULLONG_MAX)
    ensures l.owner.None? ==> LeaseOf(ItemOf(l), stale) == Failure
  {
    hide ReadNumber, NumberText;
    NumberReadsBack(ItemOf(l), "leaseCounter", l.counter, stale);
    NumberReadsBack(ItemOf(l), "ownerSwitchesSinceCheckpoint", l.switches, stale);
    NumberReadsBack(ItemOf(l), "lastCounterIncrementNanoseconds", l.lastIncrement, stale);
  }

  /** What the attributes of an item say. */
  lemma {:induction false} ItemSays(l: LeaseState)
    ensures var item := ItemOf(l);
            && "leaseKey" in item && item["leaseKey"] == S(l.key)
            && (if l.owner.Some? then "leaseOwner" in item && item["leaseOwner"] == S(l.owner.value) else "leaseOwner" !in item)
            && ReadString(item, "checkpoint") == l.checkpoint
            && ReadString(item, "checkpointSubSequenceNumber") == l.subCheckpoint
            && "leaseCounter" in item && item["leaseCounter"] == N(NumberText(l.counter))
            && "ownerSwitchesSinceCheckpoint" in item && item["ownerSwitchesSinceCheckpoint"] == N(NumberText(l.switches))
            && "lastCounterIncrementNanoseconds" in item && item["lastCounterIncrementNanoseconds"] == N(NumberText(l.lastIncrement))
  {
    hide NumberText;
  }

  /** The item with empty texts in those attributes. */
  function Blanked(item: Item, blank: set<string>): Item {
    map name | name in item :: if name in blank then N("") else item[name]
  }

  /** What is read of a number: 0 if its attribute is missing, nothing if its text is empty. */
  function AsRead(name: string, missing: set<string>, blank: set<string>, n: Option<nat>): Option<nat> {
    if name in missing then Some(0) else if name in blank then None else Some(OrZero(n))
  }

  /** An item of a lease in which some numbers are missing and others are empty is read as the
      lease with 0 for the former and without the latter. */
  lemma {:induction false} MissingNumbersAreZero(l: LeaseState, missing: set<string>, blank: set<string>, stale: bool)
    requires Fits(l) && l.key != "" && l.owner.Some? && l.owner.value != "" && !stale
    requires missing + blank <= {"leaseCounter", "ownerSwitchesSinceCheckpoint", "lastCounterIncrementNanoseconds"}
    ensures LeaseOf(Blanked(ItemOf(l) - missing, blank), stale)
         == Success(l.(token := None, parents := {},
                       counter := AsRead("leaseCounter", missing, blank, l.counter),
                       switches := AsRead("ownerSwitchesSinceCheckpoint", missing, blank, l.switches),
                       lastIncrement := AsRead("lastCounterIncrementNanoseconds", missing, blank, l.lastIncrement)))
  {
    hide ReadNumber, NumberText, ItemOf, AsRead;
    ItemSays(l);
    NumberIsRead(ItemOf(l), missing, blank, "leaseCounter", l.counter, stale);
    NumberIsRead(ItemOf(l), missing, blank, "ownerSwitchesSinceCheckpoint", l.switches, stale);
    NumberIsRead(ItemOf(l), missing, blank, "lastCounterIncrementNanoseconds", l.lastIncrement, stale);
  }

  lemma {:induction false} NumberIsRead(item: Item, missing: set<string>, blank: set<string>, name: string, n: Option<nat>, stale: bool)
    requires name in item && item[name] == N(NumberText(n)) && OrZero(n) <= ULLONG_MAX && !stale
    ensures ReadNumber(Blanked(item - missing, blank), name, stale) == Success(AsRead(name, missing, blank, n))
  {
    if name !in missing && name !in blank {
      NumberReadsBack(Blanked(item - missing, blank), name, n, stale);
    }
  }
}
