/**
 * Uniform sample access over the three kinds of buffer a graph index can
 * denote: nothing (reads give silence, writes vanish), an internal ring owned
 * by the graph, or a host array that may be null.
 */
module BufRw {
  import opened Wrappers
  import opened RingBuf

  /** Host memory: `None` is the null pointer. */
  type HostPtr = Option<array<real>>

  datatype AudioBufferReader = NullReader | InternalReader(buf: SimpleFloatBuffer) | ExternalReader(ptr: HostPtr)
  {
    function Footprint(): set<object>
    {
      match this
      case NullReader => {}
      case InternalReader(b) => {b, b.data}
      case ExternalReader(p) => if p.Some? then {p.value} else {}
    }

    /** Reading indices below `n` cannot fault. */
    ghost predicate Readable(n: nat)
      reads Footprint()
    {
      match this
      case NullReader => true
      case InternalReader(b) => b.Valid() && b.limit > 0
      case ExternalReader(p) => p.Some? ==> n <= p.value.Length
    }

    function BufRead(idx: nat): (r: real)
      requires Readable(idx + 1)
      reads Footprint()
      ensures NullReader? ==> r == 0.0
      ensures InternalReader? ==> r == buf.State().Read(idx)
      ensures ExternalReader? && ptr.None? ==> r == 0.0
      ensures ExternalReader? && ptr.Some? ==> r == ptr.value[idx]
    {
      match this
      case NullReader => 0.0
      case InternalReader(b) => b.Read(idx)
      case ExternalReader(p) => UnsafeBufRead(p, idx)
    }

    /** The samples at indices 0 .. n-1. */
    function ReadBlock(n: nat): (r: seq<real>)
      requires Readable(n)
      reads Footprint()
      ensures |r| == n && forall i :: 0 <= i < n ==> r[i] == BufRead(i)
    {
      seq(n, i requires 0 <= i < n && Readable(n) reads Footprint() => BufRead(i))
    }
  }

  /** A null pointer reads as silence; otherwise the host sample at `idx`. */
  function UnsafeBufRead(p: HostPtr, idx: nat): (r: real)
    requires p.Some? ==> idx < p.value.Length
    reads if p.Some? then {p.value} else {}
    ensures p.None? ==> r == 0.0
    ensures p.Some? ==> r == p.value[idx]
  {
    if p.None? then 0.0 else p.value[idx]
  }

  /** A null pointer swallows the write; otherwise exactly one host sample changes. */
  method UnsafeBufWrite(p: HostPtr, idx: nat, value: real)
    requires p.Some? ==> idx < p.value.Length
    modifies if p.Some? then {p.value} else {}
    ensures p.Some? ==> p.value[..] == old(p.value[..])[idx := value]
  {
    if p.None? {
      return;
    }
    p.value[idx] := value;
  }

  /**
   * The observable contents behind a writer: nothing, a ring's state, or a
   * host array's samples.
   */
  datatype Sink = NoSink | RingSink(ring: Ring) | HostSink(cells: seq<real>)
  {
    ghost predicate Accepts(n: nat)
    {
      match this
      case NoSink => true
      case RingSink(r) => r.Valid() && r.limit > 0
      case HostSink(c) => n <= |c|
    }

    /** One `buf_write(idx, v)`: the ring ignores `idx`, the host stores at it. */
    function Put(idx: nat, v: real): (s: Sink)
      requires Accepts(idx + 1)
      ensures s.Accepts(idx + 1)
      ensures forall m :: Accepts(m) ==> s.Accepts(m)
    {
      match this
      case NoSink => NoSink
      case RingSink(r) => RingSink(r.Write(v))
      case HostSink(c) => HostSink(c[idx := v])
    }

    /** `buf_write(i, vs[i])` for i = 0, 1, .., |vs|-1 in turn. */
    function PutBlock(vs: seq<real>): (s: Sink)
      requires Accepts(|vs|)
      ensures forall m :: Accepts(m) ==> s.Accepts(m)
      decreases |vs|
    {
      if vs == [] then this
      else PutBlock(vs[..|vs| - 1]).Put(|vs| - 1, vs[|vs| - 1])
    }
  }

  /** Writing the first `j + 1` samples of a block is writing the first `j` and then sample `j`. */
  lemma PutBlockPrefix(s: Sink, vs: seq<real>, j: nat)
    requires j < |vs| && s.Accepts(|vs|)
    ensures s.PutBlock(vs[..j + 1]) == s.PutBlock(vs[..j]).Put(j, vs[j])
  {
    assert vs[..j + 1][..j] == vs[..j];
  }

  /** Writing a block through a ring writer is `write` of each sample in turn. */
  lemma {:induction false} PutBlockRing(r: Ring, vs: seq<real>)
    requires r.Valid() && r.limit > 0
    ensures RingSink(r).PutBlock(vs) == RingSink(r.WriteAll(vs))
    decreases |vs|
  {
    if vs != [] {
      var init := vs[..|vs| - 1];
      PutBlockRing(r, init);
      WriteAllSnoc(r, init, vs[|vs| - 1]);
      assert init + [vs[|vs| - 1]] == vs;
    }
  }

  lemma {:induction false} WriteAllSnoc(r: Ring, vs: seq<real>, v: real)
    requires r.Valid() && r.limit > 0
    ensures r.WriteAll(vs + [v]) == r.WriteAll(vs).Write(v)
    decreases |vs|
  {
    if vs == [] {
      assert [v][1..] == [];
    } else {
      assert (vs + [v])[1..] == vs[1..] + [v];
      WriteAllSnoc(r.Write(vs[0]), vs[1..], v);
    }
  }

  /** Writing a block through a host writer replaces the first |vs| samples. */
  lemma {:induction false} PutBlockHost(c: seq<real>, vs: seq<real>)
    requires |vs| <= |c|
    ensures HostSink(c).PutBlock(vs) == HostSink(vs + c[|vs|..])
    decreases |vs|
  {
    if vs != [] {
      var init := vs[..|vs| - 1];
      PutBlockHost(c, init);
      assert (init + c[|init|..])[|vs| - 1 := vs[|vs| - 1]] == vs + c[|vs|..];
    }
  }

  lemma {:induction false} PutBlockNone(vs: seq<real>)
    ensures NoSink.PutBlock(vs) == NoSink
    decreases |vs|
  {
    if vs != [] {
      PutBlockNone(vs[..|vs| - 1]);
    }
  }

  /** Host memory keeps what was written: reading back at the written index gives the value. */
  lemma HostReadBack(c: seq<real>, idx: nat, v: real)
    requires idx < |c|
    ensures HostSink(c).Put(idx, v).cells[idx] == v
    ensures forall j :: 0 <= j < |c| && j != idx ==> HostSink(c).Put(idx, v).cells[j] == c[j]
  {
  }

  datatype AudioBufferWriter = NullWriter | InternalWriter(buf: SimpleFloatBuffer) | ExternalWriter(ptr: HostPtr)
  {
    function Footprint(): set<object>
    {
      match this
      case NullWriter => {}
      case InternalWriter(b) => {b, b.data}
      case ExternalWriter(p) => if p.Some? then {p.value} else {}
    }

    /** Writing indices below `n` cannot fault. */
    ghost predicate Writable(n: nat)
      reads Footprint()
    {
      match this
      case NullWriter => true
      case InternalWriter(b) => b.Valid() && b.limit > 0
      case ExternalWriter(p) => p.Some? ==> n <= p.value.Length
    }

    ghost function Contents(): (s: Sink)
      reads Footprint()
      ensures Writable(0) ==> forall m :: Writable(m) ==> s.Accepts(m)
    {
      match this
      case NullWriter => NoSink
      case InternalWriter(b) => RingSink(b.State())
      case ExternalWriter(p) => if p.Some? then HostSink(p.value[..]) else NoSink
    }

    method BufWrite(idx: nat, value: real)
      requires Writable(idx + 1)
      modifies Footprint()
      ensures Writable(idx + 1)
      ensures forall m :: old(Writable(m)) ==> Writable(m)
      ensures Contents() == old(Contents()).Put(idx, value)
    {
      match this
      case NullWriter =>
      case InternalWriter(b) => b.Write(value);
      case ExternalWriter(p) => UnsafeBufWrite(p, idx, value);
    }
  }
}
