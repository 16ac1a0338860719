/**
 * The three sample rings of the runtime: a power-of-two ring with separate
 * read and write positions wrapped by a bit mask, a write-only ring that
 * wraps modulo an adjustable limit (the storage behind every internal
 * buffer of the graph), and a two-slot history.
 */
module RingBuf {
  import opened MathUtils
  import opened Wrappers

  function Zeros(n: nat): (r: seq<real>)
    ensures |r| == n && forall i :: 0 <= i < n ==> r[i] == 0.0
  {
    seq(n, _ => 0.0)
  }

  /**
   * The abstract state of a `SimpleFloatBuffer`: its storage, the limit the
   * write position wraps at, and the write position.
   */
  datatype Ring = Ring(data: seq<real>, limit: nat, writeIdx: nat)
  {
    ghost predicate Valid()
    {
      limit <= |data| && (writeIdx < |data| || writeIdx == 0)
    }

    /** `write`: store at the write position, then advance it modulo the limit. */
    function Write(v: real): (r: Ring)
      requires Valid() && limit > 0
      ensures r.Valid() && r.limit == limit && |r.data| == |data|
      ensures r.data[writeIdx] == v
      ensures forall j :: 0 <= j < |data| && j != writeIdx ==> r.data[j] == data[j]
      ensures r.writeIdx < limit
    {
      Ring(data[writeIdx := v], limit, (writeIdx + 1) % limit)
    }

    /** `read`: the slot `idx` places after the write position, modulo the limit. */
    function Read(idx: nat): real
      requires Valid() && limit > 0
    {
      data[(writeIdx + idx) % limit]
    }

    /** Successive `write`s of every sample of `vs`, in order. */
    function WriteAll(vs: seq<real>): (r: Ring)
      requires Valid() && limit > 0
      ensures r.Valid() && r.limit == limit && |r.data| == |data|
      decreases |vs|
    {
      if vs == [] then this else Write(vs[0]).WriteAll(vs[1..])
    }
  }

  /** Advancing a position below the limit by one wraps only at the limit. */
  lemma NextPos(w: nat, L: nat)
    requires w < L
    ensures (w + 1) % L == if w + 1 == L then 0 else w + 1
  {
    if w + 1 == L {
      ModWrapOnce(w + 1, L);
    } else {
      ModSmall(w + 1, L);
    }
  }

  /** Moving on by one and then by k is moving on by k + 1. */
  lemma ShiftPos(w: nat, k: nat, L: nat)
    requires w < L
    ensures ((w + 1) % L + k) % L == (w + 1 + k) % L
  {
    ModAddLeft(w + 1, k, L);
  }

  /** How many writes from position w it takes to reach slot j. */
  function Dist(w: nat, j: nat, L: nat): nat
    requires w < L && j < L
  {
    if j >= w then j - w else j + L - w
  }

  /** After `n` writes the write position has moved on by `n`, modulo the limit. */
  lemma {:induction false} WriteAllPosition(r: Ring, vs: seq<real>)
    requires r.Valid() && 0 < r.limit && r.writeIdx < r.limit
    ensures r.WriteAll(vs).writeIdx == (r.writeIdx + |vs|) % r.limit
    decreases |vs|
  {
    if vs == [] {
      ModSmall(r.writeIdx, r.limit);
    } else {
      var r1 := r.Write(vs[0]);
      WriteAllPosition(r1, vs[1..]);
      ShiftPos(r.writeIdx, |vs| - 1, r.limit);
    }
  }

  /** A block of fewer writes than the distance to slot j leaves slot j alone. */
  lemma {:induction false} WriteAllUntouched(r: Ring, vs: seq<real>, j: nat)
    requires r.Valid() && 0 < r.limit && r.writeIdx < r.limit && j < r.limit
    requires |vs| <= Dist(r.writeIdx, j, r.limit)
    ensures r.WriteAll(vs).data[j] == r.data[j]
    decreases |vs|
  {
    if vs != [] {
      var r1 := r.Write(vs[0]);
      NextPos(r.writeIdx, r.limit);
      WriteAllUntouched(r1, vs[1..], j);
    }
  }

  /**
   * Every sample written lands where the write position stood when it was
   * written: slot (w + i) mod limit holds vs[i] unless a later sample of the
   * block overwrote it, i.e. unless i + limit < |vs|.
   */
  lemma {:induction false} WriteAllSlot(r: Ring, vs: seq<real>, i: nat)
    requires r.Valid() && 0 < r.limit && r.writeIdx < r.limit
    requires i < |vs| && |vs| <= i + r.limit
    ensures r.WriteAll(vs).data[(r.writeIdx + i) % r.limit] == vs[i]
    decreases |vs|
  {
    var r1 := r.Write(vs[0]);
    NextPos(r.writeIdx, r.limit);
    if i == 0 {
      WriteAllUntouched(r1, vs[1..], r.writeIdx);
      ModSmall(r.writeIdx, r.limit);
    } else {
      WriteAllSlot(r1, vs[1..], i - 1);
      ShiftPos(r.writeIdx, i - 1, r.limit);
    }
  }

  /**
   * The ring remembers the last `limit` samples: reading at `limit - d`
   * returns the sample written `d` writes ago.
   */
  lemma {:induction false} History(r: Ring, vs: seq<real>, d: nat)
    requires r.Valid() && 0 < r.limit && r.writeIdx < r.limit
    requires 1 <= d <= |vs| && d <= r.limit
    ensures r.WriteAll(vs).Read(r.limit - d) == vs[|vs| - d]
  {
    var L := r.limit;
    var w := r.writeIdx;
    var i := |vs| - d;
    var after := r.WriteAll(vs);
    WriteAllPosition(r, vs);
    WriteAllSlot(r, vs, i);
    StepBack(w + |vs|, d, L);
    assert after.Read(L - d) == after.data[(w + i) % L];
  }

  /** Stepping `L - d` forward modulo `L` from position e lands where e - d does. */
  lemma StepBack(e: nat, d: nat, L: nat)
    requires 1 <= d <= L && d <= e
    ensures (e % L + (L - d)) % L == (e - d) % L
  {
    ModAddLeft(e, L - d, L);
    assert e + (L - d) == (e - d) + 1 * L;
    ModShift(e - d, 1, L);
  }

  /**
   * A block of exactly `limit` samples reads back in order at indices
   * 0 .. limit-1, whatever the write position was.
   */
  lemma BlockReadBack(r: Ring, vs: seq<real>, i: nat)
    requires r.Valid() && 0 < r.limit && r.writeIdx < r.limit
    requires |vs| == r.limit && i < |vs|
    ensures r.WriteAll(vs).Read(i) == vs[i]
  {
    WriteAllPosition(r, vs);
    ModWrapOnce(r.writeIdx + |vs|, r.limit);
    WriteAllSlot(r, vs, i);
  }

  /**
   * After writing a block the write position is back where it started (the
   * precondition of an in-order read-back) exactly when the block length is
   * a multiple of the limit.
   */
  lemma {:induction false} Realigned(r: Ring, vs: seq<real>)
    requires r.Valid() && 0 < r.limit && r.writeIdx < r.limit
    ensures r.WriteAll(vs).writeIdx == r.writeIdx <==> |vs| % r.limit == 0
  {
    var w, n, L := r.writeIdx, |vs|, r.limit;
    WriteAllPosition(r, vs);
    BackAtStart(w, n, L);
  }

  lemma BackAtStart(w: nat, n: nat, L: nat)
    requires w < L
    ensures (w + n) % L == w <==> n % L == 0
  {
    var k := n % L;
    ModAddLeft(n, w, L);
    assert (w + n) % L == (k + w) % L;
    if k + w < L {
      ModSmall(k + w, L);
    } else {
      ModWrapOnce(k + w, L);
    }
  }

  /**
   * A block shorter than the limit does not read back: in a zeroed ring of
   * limit 2, writing [1.0] and reading index 0 returns the untouched 0.0.
   */
  lemma ShortBlockMisreads()
    ensures Ring([0.0, 0.0], 2, 0).WriteAll([1.0]).Read(0) == 0.0
  {
    var r := Ring([0.0, 0.0], 2, 0);
    assert r.WriteAll([1.0]) == r.Write(1.0).WriteAll([]);
  }

  /** A write-only ring that wraps modulo `limit`; `data` always has `capacity` slots. */
  class SimpleFloatBuffer {
    const data: array<real>
    const capacity: nat
    var limit: nat
    var writeIdx: nat

    ghost predicate Valid()
      reads this
    {
      data.Length == capacity && limit <= capacity && (writeIdx < capacity || writeIdx == 0)
    }

    function State(): (r: Ring)
      reads this, data
      ensures r.data == data[..] && r.limit == limit && r.writeIdx == writeIdx
    {
      Ring(data[..], limit, writeIdx)
    }

    /** `capacity` zeroed slots, limit = capacity, write position 0. */
    constructor WithMaxCapacity(c: nat)
      ensures Valid() && fresh(data)
      ensures State() == Ring(Zeros(c), c, 0) && capacity == c
    {
      var a := new real[c];
      var i := 0;
      while i < c
        invariant 0 <= i <= c
        invariant forall j :: 0 <= j < i ==> a[j] == 0.0
      {
        a[i] := 0.0;
        i := i + 1;
      }
      data := a;
      capacity := c;
      limit := c;
      writeIdx := 0;
      assert a[..] == Zeros(c);
    }

    function GetCapacity(): (r: nat)
      reads this
      ensures r == capacity
    {
      capacity
    }

    function GetLimit(): (r: nat)
      reads this
      ensures r == limit
    {
      limit
    }

    /** The limit never exceeds the capacity. */
    method SetLimit(newLimit: nat)
      requires Valid()
      modifies this
      ensures Valid()
      ensures limit == if newLimit < capacity then newLimit else capacity
      ensures limit <= capacity && (newLimit <= capacity ==> limit == newLimit)
      ensures writeIdx == old(writeIdx)
    {
      limit := if capacity < newLimit then capacity else newLimit;
    }

    method Write(v: real)
      requires Valid() && limit > 0
      modifies this, data
      ensures Valid()
      ensures State() == old(State()).Write(v)
    {
      data[writeIdx] := v;
      writeIdx := (writeIdx + 1) % limit;
    }

    /** Zero every slot up to the capacity and rewind the write position. */
    method Clear()
      requires Valid()
      modifies this, data
      ensures Valid()
      ensures State() == Ring(Zeros(capacity), old(limit), 0)
    {
      var i := 0;
      while i < capacity
        invariant 0 <= i <= capacity
        invariant forall j :: 0 <= j < i ==> data[j] == 0.0
        modifies data
      {
        data[i] := 0.0;
        i := i + 1;
      }
      writeIdx := 0;
      assert data[..] == Zeros(capacity);
    }

    function Read(idx: nat): (r: real)
      requires Valid() && limit > 0
      reads this, data
      ensures r == State().Read(idx)
      ensures r == data[(writeIdx + idx) % limit]
    {
      data[(writeIdx + idx) % limit]
    }
  }

  /**
   * A power-of-two ring with independent read and write positions, both
   * wrapped by masking with `length - 1`.
   */
  class FFTCollectionBuffer {
    const data: array<real>
    const indexWrapMask: nat
    var readIdx: nat
    var writeIdx: nat

    ghost predicate Valid()
      reads this
    {
      IsPowerOf2(data.Length) && indexWrapMask == data.Length - 1
      && readIdx < data.Length && writeIdx < data.Length
    }

    /** `new`: a buffer exactly when the length is a power of two. */
    static method New(length: nat) returns (r: Option<FFTCollectionBuffer>)
      ensures r.Some? <==> IsPowerOf2(length)
      ensures r.Some? ==> fresh(r.value) && fresh(r.value.data) && r.value.Valid()
      ensures r.Some? ==> r.value.data[..] == Zeros(length)
      ensures r.Some? ==> r.value.readIdx == 0 && r.value.writeIdx == 0
    {
      if !IsPowerOf2(length) {
        return None;
      }
      var b := new FFTCollectionBuffer.Init(length);
      return Some(b);
    }

    constructor Init(length: nat)
      requires IsPowerOf2(length)
      ensures Valid() && fresh(data)
      ensures data[..] == Zeros(length) && readIdx == 0 && writeIdx == 0
    {
      var a := new real[length];
      var i := 0;
      while i < length
        invariant 0 <= i <= length
        invariant forall j :: 0 <= j < i ==> a[j] == 0.0
      {
        a[i] := 0.0;
        i := i + 1;
      }
      data := a;
      indexWrapMask := length - 1;
      readIdx := 0;
      writeIdx := 0;
      assert a[..] == Zeros(length);
    }

    function GetReadIdx(): (r: nat)
      reads this
      ensures r == readIdx
    {
      readIdx
    }

    function GetWriteIdx(): (r: nat)
      reads this
      ensures r == writeIdx
    {
      writeIdx
    }

    /** Positions past the end are clamped to the last slot. */
    method SetReadIdx(newIdx: nat)
      requires Valid()
      modifies this
      ensures Valid() && writeIdx == old(writeIdx)
      ensures readIdx == if newIdx >= data.Length then data.Length - 1 else newIdx
    {
      readIdx := newIdx;
      if readIdx >= data.Length {
        readIdx := data.Length - 1;
      }
    }

    method SetWriteIdx(newIdx: nat)
      requires Valid()
      modifies this
      ensures Valid() && readIdx == old(readIdx)
      ensures writeIdx == if newIdx >= data.Length then data.Length - 1 else newIdx
    {
      writeIdx := newIdx;
      if writeIdx >= data.Length {
        writeIdx := data.Length - 1;
      }
    }

    /** Masking with `length - 1` is reduction modulo the power-of-two length. */
    lemma MaskIsMod(x: nat)
      requires Valid()
      ensures BitAnd(x, indexWrapMask) == x % data.Length
    {
      var k := Pow2OfPowerOf2(data.Length);
      BitAndLowMask(x, k);
    }

    method AdvanceReadIdx()
      requires Valid()
      modifies this
      ensures Valid() && writeIdx == old(writeIdx)
      ensures readIdx == (old(readIdx) + 1) % data.Length
    {
      MaskIsMod(readIdx + 1);
      readIdx := BitAnd(readIdx + 1, indexWrapMask);
    }

    method AdvanceWriteIdx()
      requires Valid()
      modifies this
      ensures Valid() && readIdx == old(readIdx)
      ensures writeIdx == (old(writeIdx) + 1) % data.Length
    {
      MaskIsMod(writeIdx + 1);
      writeIdx := BitAnd(writeIdx + 1, indexWrapMask);
    }

    method AdvanceBothIdx()
      requires Valid()
      modifies this
      ensures Valid()
      ensures readIdx == (old(readIdx) + 1) % data.Length
      ensures writeIdx == (old(writeIdx) + 1) % data.Length
    {
      AdvanceReadIdx();
      AdvanceWriteIdx();
    }

    /**
     * Move the read position back by `count`, wrapping below zero. The
     * arithmetic underflows once `count` exceeds the length plus the position.
     */
    method RewindReadIdx(count: nat)
      requires Valid() && count <= data.Length + readIdx
      modifies this
      ensures Valid() && writeIdx == old(writeIdx)
      ensures readIdx == (old(readIdx) - count) % data.Length
    {
      if count <= readIdx {
        ModSmall(readIdx - count, data.Length);
        readIdx := readIdx - count;
      } else {
        var newCount := count - readIdx - 1;
        readIdx := data.Length - 1 - newCount;
        ModWrapBelow(old(readIdx) - count, data.Length);
      }
    }

    method RewindWriteIdx(count: nat)
      requires Valid() && count <= data.Length + writeIdx
      modifies this
      ensures Valid() && readIdx == old(readIdx)
      ensures writeIdx == (old(writeIdx) - count) % data.Length
    {
      if count <= writeIdx {
        ModSmall(writeIdx - count, data.Length);
        writeIdx := writeIdx - count;
      } else {
        var newCount := count - writeIdx - 1;
        writeIdx := data.Length - 1 - newCount;
        ModWrapBelow(old(writeIdx) - count, data.Length);
      }
    }

    function GetAtIdx(idx: nat): (r: real)
      requires idx < data.Length
      reads data
      ensures r == data[idx]
    {
      data[idx]
    }

    method SetAtIdx(idx: nat, value: real)
      requires idx < data.Length
      modifies data
      ensures data[..] == old(data[..])[idx := value]
      ensures GetAtIdx(idx) == value
    {
      data[idx] := value;
    }

    function GetAtReadIdx(): (r: real)
      requires Valid()
      reads this, data
      ensures r == GetAtIdx(readIdx)
    {
      GetAtIdx(GetReadIdx())
    }

    method SetAtWriteIdx(value: real)
      requires Valid()
      modifies data
      ensures data[..] == old(data[..])[writeIdx := value]
    {
      SetAtIdx(GetWriteIdx(), value);
    }
  }

  /** A two-slot history: `Z1` is the last sample written, `Z2` the one before. */
  class TinyFloatBuffer {
    const x: array<real>
    var nextIdx: nat

    ghost predicate Valid()
      reads this
    {
      x.Length == 2 && nextIdx < 2
    }

    constructor()
      ensures Valid() && fresh(x)
      ensures Z1() == 0.0 && Z2() == 0.0
    {
      x := new real[2](_ => 0.0);
      nextIdx := 0;
    }

    function Z2(): real
      requires Valid()
      reads this, x
    {
      x[nextIdx]
    }

    function Z1(): real
      requires Valid()
      reads this, x
    {
      x[(nextIdx + 1) % 2]
    }

    /** The new sample becomes `Z1` and the previous `Z1` becomes `Z2`. */
    method Write(v: real)
      requires Valid()
      modifies this, x
      ensures Valid()
      ensures Z1() == v && Z2() == old(Z1())
    {
      x[nextIdx] := v;
      nextIdx := (nextIdx + 1) % 2;
    }
  }
}
