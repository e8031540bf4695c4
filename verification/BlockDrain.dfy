/** How the consumers give a block of the multi-consumer queue back: a claimed range of
    indices is read block by block, each stretch is added to the block's counter, and
    whoever brings the counter to the block size releases the block. */
module BlockDrain {
  import opened Words

  const BLOCK_SIZE: nat := 32

  /** The indices `from .. to`, all in one block. */
  datatype Stretch = Stretch(from: nat, to: nat)

  /** Blocks are numbered by the indices they hold. */
  function BlockOf(i: nat): nat {
    i / BLOCK_SIZE
  }

  predicate InOneBlock(c: Stretch) {
    c.from < c.to && BlockOf(c.from) == BlockOf(c.to - 1)
  }

  /** The stretches follow one another from `from` to `to`. */
  predicate Tiles(cs: seq<Stretch>, from: nat, to: nat) {
    if cs == [] then from == to
    else cs[|cs| - 1].to == to && Tiles(cs[..|cs| - 1], from, cs[|cs| - 1].from)
  }

  /** The loop of `dequeue_bulk` over the blocks of its claim: stretches that make up the
      claim exactly, none of them across a block boundary, and each to the end of its block
      or of the claim. */
  method Stretches(firstIndex: nat, actualCount: nat) returns (cs: seq<Stretch>)
    requires actualCount > 0 && firstIndex + actualCount + BLOCK_SIZE < TWO_63
    ensures Tiles(cs, firstIndex, firstIndex + actualCount)
    ensures forall k :: 0 <= k < |cs| ==> InOneBlock(cs[k])
    ensures forall k :: 0 <= k < |cs| ==> cs[k].to == firstIndex + actualCount || cs[k].to % BLOCK_SIZE == 0
  {
    hide CircularLess, Wrap, BlockOf, InOneBlock, Tiles;
    NoStretch(firstIndex);
    cs := [];
    var index := firstIndex;
    while index == firstIndex || index != firstIndex + actualCount
      invariant firstIndex <= index <= firstIndex + actualCount
      invariant Tiles(cs, firstIndex, index) && (index == firstIndex ==> cs == [])
      invariant forall k :: 0 <= k < |cs| ==> InOneBlock(cs[k])
      invariant forall k :: 0 <= k < |cs| ==> cs[k].to == firstIndex + actualCount || cs[k].to % BLOCK_SIZE == 0
      decreases firstIndex + actualCount - index
    {
      var blockStartIndex := index;
      var endIndex := index - index % BLOCK_SIZE + BLOCK_SIZE;
      StaysInBlock(index, endIndex, firstIndex + actualCount);
      if CircularLess(Wrap(firstIndex + actualCount), Wrap(endIndex)) {
        endIndex := firstIndex + actualCount;
      }
      index := endIndex;
      OneMoreStretch(cs, firstIndex, Stretch(blockStartIndex, endIndex));
      cs := cs + [Stretch(blockStartIndex, endIndex)];
    }
  }

  lemma {:induction false} NoStretch(from: nat)
    ensures Tiles([], from, from)
  {
  }

  lemma {:induction false} OneMoreStretch(cs: seq<Stretch>, from: nat, c: Stretch)
    requires Tiles(cs, from, c.from)
    ensures Tiles(cs + [c], from, c.to)
  {
    assert (cs + [c])[..|cs|] == cs;
  }

  /** Where the block of an index ends, and whether that is beyond the end of the claim. */
  lemma {:induction false} StaysInBlock(index: nat, endIndex: nat, last: nat)
    requires endIndex == index - index % BLOCK_SIZE + BLOCK_SIZE && endIndex < TWO_63 && last < TWO_63
    ensures index < endIndex && InOneBlock(Stretch(index, endIndex))
    ensures index < last < endIndex ==> InOneBlock(Stretch(index, last))
    ensures CircularLess(Wrap(last), Wrap(endIndex)) <==> last < endIndex
  {
    assert index == BLOCK_SIZE * BlockOf(index) + index % BLOCK_SIZE;
    CircularLessIsLess(last, endIndex);
  }

  // ----- Releasing ---------------------------------------------------------------

  /** The counters of the blocks, the indices that were read, and the blocks released. */
  datatype State = State(counters: map<nat, nat>, read: set<nat>, released: seq<nat>)

  function Counter(s: State, b: nat): nat {
    if b in s.counters then s.counters[b] else 0
  }

  function Range(from: nat, to: nat): (r: set<nat>)
    ensures forall i: nat :: i in r <==> from <= i < to
    ensures |r| == if from <= to then to - from else 0
  {
    if from < to then Range(from, to - 1) + {to - 1} else {}
  }

  function Indices(c: Stretch): set<nat> {
    Range(c.from, c.to)
  }

  function BlockIndices(b: nat): set<nat> {
    Range(b * BLOCK_SIZE, b * BLOCK_SIZE + BLOCK_SIZE)
  }

  predicate Init(s: State) {
    s == State(map[], {}, [])
  }

  /** `set_many_empty` (`set_empty` for a single index): the fetch_add on the counter, and
      the release. */
  function Counted(s: State, c: Stretch): State
    requires c.from <= c.to
  {
    var b := BlockOf(c.from);
    var count := Counter(s, b) + (c.to - c.from);
    State(s.counters[b := count], s.read + Indices(c), if count == BLOCK_SIZE then s.released + [b] else s.released)
  }

  /** A stretch is reported that nobody else has claimed. */
  predicate Report(s: State, c: Stretch, s': State) {
    InOneBlock(c) && Indices(c) !! s.read && s' == Counted(s, c)
  }

  /** The counter of a block counts the indices read of it. */
  predicate CounterOk(s: State, b: nat) {
    && Counter(s, b) == |s.read * BlockIndices(b)|
    && (b in s.released <==> Counter(s, b) == BLOCK_SIZE)
  }

  predicate Once(released: seq<nat>) {
    forall i, j :: 0 <= i < j < |released| ==> released[i] != released[j]
  }

  ghost predicate Inv(s: State) {
    (forall b: nat :: CounterOk(s, b)) && Once(s.released)
  }

  lemma {:induction false} SubsetSize(a: set<nat>, b: set<nat>)
    requires a <= b
    ensures |a| <= |b| && (|a| == |b| ==> a == b)
  {
    assert b == a + (b - a);
  }

  lemma {:induction false} InItsBlock(c: Stretch, b: nat)
    requires InOneBlock(c)
    ensures if b == BlockOf(c.from) then Indices(c) <= BlockIndices(b) else Indices(c) !! BlockIndices(b)
  {
    forall i | i in Indices(c) ensures i in BlockIndices(b) <==> b == BlockOf(c.from) {
      assert BlockOf(i) == BlockOf(c.from) by {
        assert c.from <= i <= c.to - 1;
      }
      assert i == BLOCK_SIZE * BlockOf(i) + i % BLOCK_SIZE;
    }
  }

  lemma {:induction false} ReportKeepsInv(s: State, c: Stretch, s': State)
    requires Inv(s) && Report(s, c, s')
    ensures Inv(s')
  {
    hide BlockOf, BlockIndices, Indices;
    forall b: nat ensures CounterOk(s', b) {
      assert CounterOk(s, b);
      ReportCounts(s, c, s', b);
    }
    NotYetReleased(s, c);
  }

  /** A block of which something is still to be read has not been released. */
  lemma {:induction false} NotYetReleased(s: State, c: Stretch)
    requires CounterOk(s, BlockOf(c.from)) && InOneBlock(c) && Indices(c) !! s.read
    ensures BlockOf(c.from) !in s.released
  {
    var b := BlockOf(c.from);
    InItsBlock(c, b);
    SubsetSize(s.read * BlockIndices(b), BlockIndices(b));
    assert c.from in Indices(c);
  }

  /** What a stretch adds to what has been read of a block. */
  lemma {:induction false} ReadOfBlock(s: State, c: Stretch, b: nat)
    requires InOneBlock(c) && Indices(c) !! s.read
    ensures |(s.read + Indices(c)) * BlockIndices(b)|
         == |s.read * BlockIndices(b)| + if b == BlockOf(c.from) then c.to - c.from else 0
  {
    InItsBlock(c, b);
    hide BlockOf, BlockIndices;
    if b == BlockOf(c.from) {
      assert (s.read + Indices(c)) * BlockIndices(b) == s.read * BlockIndices(b) + Indices(c);
    } else {
      assert (s.read + Indices(c)) * BlockIndices(b) == s.read * BlockIndices(b);
    }
  }

  lemma {:induction false} ReportCounts(s: State, c: Stretch, s': State, b: nat)
    requires CounterOk(s, b) && Report(s, c, s')
    ensures CounterOk(s', b)
  {
    hide BlockOf, BlockIndices, Indices, InOneBlock;
    ReadOfBlock(s, c, b);
    if b == BlockOf(c.from) {
      NotYetReleased(s, c);
    }
  }

  predicate Run(run: seq<State>, reports: seq<Stretch>) {
    && |run| == |reports| + 1 && Init(run[0])
    && forall t :: 0 <= t < |reports| ==> Report(run[t], reports[t], run[t + 1])
  }

  lemma {:induction false} RunKeepsInv(run: seq<State>, reports: seq<Stretch>, n: nat)
    requires Run(run, reports) && n < |run|
    ensures Inv(run[n])
  {
    if n == 0 {
      forall b: nat ensures CounterOk(run[0], b) {
        assert run[0].read * BlockIndices(b) == {};
      }
    } else {
      RunKeepsInv(run, reports, n - 1);
      ReportKeepsInv(run[n - 1], reports[n - 1], run[n]);
    }
  }

  /** However the stretches of the consumers interleave, a block is released exactly when
      every index of it has been read, and never a second time. */
  lemma {:induction false} ReleasedWhenDrained(run: seq<State>, reports: seq<Stretch>, n: nat, b: nat)
    requires Run(run, reports) && n < |run|
    ensures b in run[n].released <==> BlockIndices(b) <= run[n].read
    ensures Once(run[n].released)
  {
    RunKeepsInv(run, reports, n);
    var s := run[n];
    assert CounterOk(s, b);
    SubsetSize(s.read * BlockIndices(b), BlockIndices(b));
    if BlockIndices(b) <= s.read {
      assert s.read * BlockIndices(b) == BlockIndices(b);
    }
  }
}
