/** `DynamicWheelBuffer`: a fixed vector whose position 0 moves on by one slot at each
    `advance`. Seen from position 0, advancing rotates the contents. */
module WheelBuffer {

  /** `s` with its first element moved to the end. */
  function Rotated<T>(s: seq<T>): (r: seq<T>)
    requires s != []
    ensures |r| == |s|
  {
    s[1..] + [s[0]]
  }

  /** `s` seen from position `c` on, around the ring. */
  function From<T>(s: seq<T>, c: nat): (r: seq<T>)
    requires c < |s|
    ensures |r| == |s|
  {
    s[c..] + s[..c]
  }

  lemma {:induction false} FromNext<T>(s: seq<T>, c: nat)
    requires c < |s|
    ensures From(s, if c + 1 == |s| then 0 else c + 1) == Rotated(From(s, c))
  {
    var next := if c + 1 == |s| then 0 else c + 1;
    assert |Rotated(From(s, c))| == |s|;
    assert Rotated(From(s, c))[|s| - 1] == s[c];
    forall k: nat | k < |s| - 1 ensures Rotated(From(s, c))[k] == From(s, next)[k] {
      assert Rotated(From(s, c))[k] == From(s, c)[k + 1];
    }
  }

  /** The remainder that brings an index back into the ring. */
  function Into(x: nat, size: nat): nat
    requires size > 0
  {
    x % size
  }

  lemma {:induction false} IntoOnce(x: nat, size: nat)
    requires size > 0 && x < 2 * size
    ensures Into(x, size) == if x < size then x else x - size
  {
    if x >= size {
      assert x == size * 1 + (x - size);
    }
  }

  class DynamicWheelBuffer<T(0)> {
    const data: array<T>
    var currentIndex: nat

    ghost predicate Valid()
      reads this
    {
      currentIndex < data.Length
    }

    /** The slots in the order of their positions. */
    ghost function Contents(): (s: seq<T>)
      requires Valid()
      reads this, data
      ensures |s| == data.Length
    {
      From(data[..], currentIndex)
    }

    constructor (count: nat, empty: T)
      requires count > 0
      ensures Valid() && fresh(data) && data.Length == count
      ensures Contents() == seq(count, _ => empty)
    {
      data := new T[count](_ => empty);
      currentIndex := 0;
    }

    function RealIndex(position: nat): nat
      requires data.Length > 0
      reads this
    {
      Into(currentIndex + position, data.Length)
    }

    lemma {:induction false} RealIndexIsPosition(position: nat)
      requires Valid() && position < data.Length
      ensures RealIndex(position) < data.Length
      ensures data[RealIndex(position)] == Contents()[position]
      ensures RealIndex(position) == if currentIndex + position < data.Length then currentIndex + position
                                     else currentIndex + position - data.Length
    {
      hide Into;
      IntoOnce(currentIndex + position, data.Length);
    }

    method GetAt(position: nat) returns (x: T)
      requires Valid() && position < data.Length
      ensures x == Contents()[position]
    {
      RealIndexIsPosition(position);
      x := data[RealIndex(position)];
    }

    method SetAt(position: nat, x: T)
      requires Valid() && position < data.Length
      modifies data
      ensures Contents() == old(Contents())[position := x]
    {
      RealIndexIsPosition(position);
      data[RealIndex(position)] := x;
    }

    method Advance()
      requires Valid()
      modifies this
      ensures Valid() && Contents() == Rotated(old(Contents()))
    {
      hide Into;
      FromNext(data[..], currentIndex);
      IntoOnce(currentIndex + 1, data.Length);
      currentIndex := Into(currentIndex + 1, data.Length);
    }
  }
}
