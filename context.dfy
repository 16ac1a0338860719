/**
 * Build-time graph construction and block-time buffer dispatch.
 *
 * Buffer names map to indices: internal buffers are numbered 0, 1, 2, ... in
 * declaration order; `@SOURCE_k` maps to 1024 + k and `@SINK_k` to 2048 + k
 * for k < 10. Only internal buffers get storage. Connections name an effect
 * and lists of buffers to read and write, which are resolved to indices;
 * within one connection no buffer may appear twice.
 */
module Context {
  import opened Wrappers
  import opened MathUtils
  import opened RingBuf
  import opened BufRw
  import opened Conf

  const MAX_ALLOWABLE_BUF_DECLS: nat := 1024
  const MAX_ALLOWABLE_INPUTS: nat := 10
  const MAX_ALLOWABLE_OUTPUTS: nat := 10
  const MAX_EXTERNAL_INS: nat := 6
  const MAX_EXTERNAL_OUTS: nat := 6
  const FIRST_INPUT_IDX: nat := 1024
  const FIRST_OUTPUT_IDX: nat := 2048
  /** `usize` arithmetic wraps modulo 2^64. */
  const USIZE_MOD: nat := 0x1_0000_0000_0000_0000

  /* ---------------------------------------------------------------- names */

  predicate StartsWith(s: string, prefix: string)
  {
    |prefix| <= |s| && s[..|prefix|] == prefix
  }

  predicate AllDigits(s: string)
  {
    forall i :: 0 <= i < |s| ==> '0' <= s[i] <= '9'
  }

  function DigitsValue(s: string): nat
    requires AllDigits(s)
    decreases |s|
  {
    if s == [] then 0 else DigitsValue(s[..|s| - 1]) * 10 + (s[|s| - 1] as int - '0' as int)
  }

  /**
   * `str::parse::<usize>`: an optional `+`, then one or more decimal digits
   * whose value fits in 64 bits.
   */
  function ParseUsize(s: string): (r: Option<nat>)
    ensures r.Some? ==> r.value < USIZE_MOD
    ensures s == [] ==> r.None?
  {
    var d := if |s| > 0 && s[0] == '+' then s[1..] else s;
    if |d| > 0 && AllDigits(d) && DigitsValue(d) < USIZE_MOD then Some(DigitsValue(d)) else None
  }

  function DigitChar(d: nat): (c: char)
    requires d < 10
    ensures '0' <= c <= '9' && c as int - '0' as int == d
  {
    ('0' as int + d) as char
  }

  /** The decimal rendering of `k`, without leading zeros. */
  function ShowNat(k: nat): (s: string)
    ensures |s| > 0 && AllDigits(s)
    decreases k
  {
    if k < 10 then [DigitChar(k)] else ShowNat(k / 10) + [DigitChar(k % 10)]
  }

  lemma {:induction false} DigitsOfShow(k: nat)
    ensures DigitsValue(ShowNat(k)) == k
    decreases k
  {
    if k >= 10 {
      DigitsOfShow(k / 10);
      var s := ShowNat(k);
      assert s[..|s| - 1] == ShowNat(k / 10);
    }
  }

  /** Parsing inverts rendering for every 64-bit value. */
  lemma ParseShow(k: nat)
    requires k < USIZE_MOD
    ensures ParseUsize(ShowNat(k)) == Some(k)
  {
    DigitsOfShow(k);
  }

  lemma {:induction false} LeadingZero(s: string)
    requires AllDigits(s)
    ensures AllDigits("0" + s) && DigitsValue("0" + s) == DigitsValue(s)
    decreases |s|
  {
    if s != [] {
      LeadingZero(s[..|s| - 1]);
      assert ("0" + s)[..|"0" + s| - 1] == "0" + s[..|s| - 1];
    }
  }

  /** A leading `+` or `0` does not change the parsed value. */
  lemma ParseAliases(k: nat)
    requires k < USIZE_MOD
    ensures ParseUsize("+" + ShowNat(k)) == Some(k)
    ensures ParseUsize("0" + ShowNat(k)) == Some(k)
  {
    DigitsOfShow(k);
    LeadingZero(ShowNat(k));
    assert ("+" + ShowNat(k))[1..] == ShowNat(k);
  }

  datatype NameKind = InternalName | ExternalName(idx: nat) | Unmappable

  /** How `generate_idx_for_buf_name` treats a name. */
  function ClassifyBufName(name: string): (k: NameKind)
    ensures k.ExternalName? ==>
      (FIRST_INPUT_IDX <= k.idx < FIRST_INPUT_IDX + MAX_ALLOWABLE_INPUTS) ||
      (FIRST_OUTPUT_IDX <= k.idx < FIRST_OUTPUT_IDX + MAX_ALLOWABLE_OUTPUTS)
    ensures !StartsWith(name, "@SOURCE_") && !StartsWith(name, "@SINK_") ==> k == InternalName
  {
    if StartsWith(name, "@SOURCE_") && |name| > 8 then
      match ParseUsize(name[8..])
      case Some(k) => if k >= MAX_ALLOWABLE_INPUTS then Unmappable else ExternalName(k + FIRST_INPUT_IDX)
      case None => Unmappable
    else if StartsWith(name, "@SINK_") && |name| > 6 then
      match ParseUsize(name[6..])
      case Some(k) => if k >= MAX_ALLOWABLE_OUTPUTS then Unmappable else ExternalName(k + FIRST_OUTPUT_IDX)
      case None => Unmappable
    else
      InternalName
  }

  /** `@SOURCE_k` maps to 1024 + k when k < 10 and is rejected otherwise. */
  lemma {:induction false} SourceName(k: nat)
    requires k < USIZE_MOD
    ensures k < MAX_ALLOWABLE_INPUTS ==> ClassifyBufName("@SOURCE_" + ShowNat(k)) == ExternalName(FIRST_INPUT_IDX + k)
    ensures k >= MAX_ALLOWABLE_INPUTS ==> ClassifyBufName("@SOURCE_" + ShowNat(k)) == Unmappable
  {
    var name := "@SOURCE_" + ShowNat(k);
    assert name[..8] == "@SOURCE_";
    assert name[8..] == ShowNat(k);
    ParseShow(k);
  }

  /** `@SINK_k` maps to 2048 + k when k < 10 and is rejected otherwise. */
  lemma {:induction false} SinkName(k: nat)
    requires k < USIZE_MOD
    ensures k < MAX_ALLOWABLE_OUTPUTS ==> ClassifyBufName("@SINK_" + ShowNat(k)) == ExternalName(FIRST_OUTPUT_IDX + k)
    ensures k >= MAX_ALLOWABLE_OUTPUTS ==> ClassifyBufName("@SINK_" + ShowNat(k)) == Unmappable
  {
    var name := "@SINK_" + ShowNat(k);
    assert name[..6] == "@SINK_";
    assert !StartsWith(name, "@SOURCE_") by {
      if |name| >= 8 {
        assert name[..8][2] == 'I';
      }
    }
    assert name[6..] == ShowNat(k);
    ParseShow(k);
  }

  /** A special name whose suffix is not a number is rejected. */
  lemma NonNumericSuffix(suffix: string)
    requires |suffix| > 0 && suffix[0] != '+' && !('0' <= suffix[0] <= '9')
    ensures ClassifyBufName("@SOURCE_" + suffix) == Unmappable
    ensures ClassifyBufName("@SINK_" + suffix) == Unmappable
  {
    var source := "@SOURCE_" + suffix;
    assert source[..8] == "@SOURCE_" && source[8..] == suffix;
    var sink := "@SINK_" + suffix;
    assert sink[..6] == "@SINK_" && sink[6..] == suffix;
    assert !StartsWith(sink, "@SOURCE_") by {
      if |sink| >= 8 {
        assert sink[..8][2] == 'I';
      }
    }
  }

  /** Several spellings of one source name denote the same index. */
  lemma SourceAliases()
    ensures ClassifyBufName("@SOURCE_3") == ExternalName(1027)
    ensures ClassifyBufName("@SOURCE_03") == ExternalName(1027)
    ensures ClassifyBufName("@SOURCE_+3") == ExternalName(1027)
  {
    ParseAliases(3);
    assert ShowNat(3) == "3";
    SourceSuffix("3", 3);
    SourceSuffix("03", 3);
    SourceSuffix("+3", 3);
  }

  /** `@SOURCE_` followed by any spelling that parses to k < 10 maps to 1024 + k. */
  lemma SourceSuffix(suffix: string, k: nat)
    requires ParseUsize(suffix) == Some(k) && k < MAX_ALLOWABLE_INPUTS
    ensures ClassifyBufName("@SOURCE_" + suffix) == ExternalName(FIRST_INPUT_IDX + k)
  {
    var name := "@SOURCE_" + suffix;
    assert name[..8] == "@SOURCE_" && name[8..] == suffix;
  }

  /* ---------------------------------------------------------- declaration */

  datatype BufferUsageError = NoError | NoSuchBuffer(name: string) | BufferAlreadyUsed(name: string)

  /** One entry of the error list a failed build returns. */
  datatype BuildError =
    | TooManyBuffers(requested: nat)
    | Redeclaration(buffer: string)
    | FailedToGenerateIdx(buffer: string)
    | NonexistentNode(effect: string)
    | OrdinalTooLarge(effect: string, ordinal: nat)
    | BufferUsage(usage: BufferUsageError)

  predicate NoDuplicates<T(==)>(s: seq<T>)
  {
    forall i, j :: 0 <= i < j < |s| ==> s[i] != s[j]
  }

  /** `usize` subtraction as a release build performs it. */
  function WrappingSub(a: nat, b: nat): (r: nat)
    ensures r < USIZE_MOD
    ensures b <= a < b + USIZE_MOD ==> r == a - b
  {
    if b <= a < b + USIZE_MOD then ModSmall(a - b, USIZE_MOD); (a - b) % USIZE_MOD
    else (a - b) % USIZE_MOD
  }

  /** The declaration state: the names seen so far and how many were special. */
  datatype Cs = Cs(nameToIdx: map<string, nat>, numExternal: nat)

  datatype Generated = Generated(idx: Option<nat>, cs: Cs)

  /**
   * `generate_idx_for_buf_name`: a special name yields its fixed index and
   * counts as external; an internal name yields the number of names seen
   * minus the number of external ones; a malformed special name yields
   * nothing. The name map itself is left to the caller.
   */
  function NextIdx(cs: Cs, name: string): (g: Generated)
    ensures g.cs.nameToIdx == cs.nameToIdx
    ensures ClassifyBufName(name).ExternalName? ==>
      g.idx == Some(ClassifyBufName(name).idx) && g.cs.numExternal == cs.numExternal + 1
    ensures ClassifyBufName(name).Unmappable? ==> g.idx == None && g.cs == cs
    ensures ClassifyBufName(name).InternalName? ==>
      g.idx == Some(WrappingSub(|cs.nameToIdx|, cs.numExternal)) && g.cs == cs
  {
    match ClassifyBufName(name)
    case ExternalName(i) => Generated(Some(i), cs.(numExternal := cs.numExternal + 1))
    case Unmappable => Generated(None, cs)
    case InternalName => Generated(Some(WrappingSub(|cs.nameToIdx|, cs.numExternal)), cs)
  }

  datatype Declared = Declared(cs: Cs, errors: seq<BuildError>, allocations: nat)

  /** A well-formed ring of `size` zeroed samples, with nothing written yet. */
  ghost predicate Blank(b: SimpleFloatBuffer, size: nat)
    reads b, b.data
  {
    b.Valid() && b.capacity == size && b.State() == Ring(Zeros(size), size, 0)
  }

  /** One iteration of the declaration loop of `create_mem_buffers`. */
  function DeclareOne(cs: Cs, name: string): Declared
  {
    var redecl := if name in cs.nameToIdx then [Redeclaration(name)] else [];
    var g := NextIdx(cs, name);
    if g.idx.None? then Declared(g.cs, redecl + [FailedToGenerateIdx(name)], 0)
    else Declared(
      g.cs.(nameToIdx := g.cs.nameToIdx[name := g.idx.value]),
      redecl,
      if g.idx.value < MAX_ALLOWABLE_BUF_DECLS then 1 else 0)
  }

  /** The whole declaration loop: final state, errors in order, buffers allocations. */
  function Declare(cs: Cs, names: seq<string>): Declared
    decreases |names|
  {
    if names == [] then Declared(cs, [], 0)
    else
      var d := Declare(cs, names[..|names| - 1]);
      var e := DeclareOne(d.cs, names[|names| - 1]);
      Declared(e.cs, d.errors + e.errors, d.allocations + e.allocations)
  }

  /** Declaring one more name extends the loop by one `DeclareOne` step. */
  lemma DeclareSnoc(cs: Cs, names: seq<string>, i: nat)
    requires i < |names|
    ensures var d := Declare(cs, names[..i]);
      var e := DeclareOne(d.cs, names[i]);
      Declare(cs, names[..i + 1]) == Declared(e.cs, d.errors + e.errors, d.allocations + e.allocations)
  {
    assert names[..i + 1][..i] == names[..i];
  }

  /** How many of `names` are ordinary (internal) buffer names. */
  function CountInternal(names: seq<string>): (n: nat)
    ensures n <= |names|
    decreases |names|
  {
    if names == [] then 0
    else CountInternal(names[..|names| - 1]) + (if ClassifyBufName(names[|names| - 1]).InternalName? then 1 else 0)
  }

  predicate AllMappable(names: seq<string>)
  {
    forall y :: y in names ==> !ClassifyBufName(y).Unmappable?
  }

  /**
   * The name map a declaration list should produce: a special name maps to
   * its fixed index, an ordinary name to the number of ordinary names
   * declared before it.
   */
  function ExpectedMap(names: seq<string>): map<string, nat>
    decreases |names|
  {
    if names == [] then map[]
    else
      var p := names[..|names| - 1];
      var x := names[|names| - 1];
      match ClassifyBufName(x)
      case ExternalName(k) => ExpectedMap(p)[x := k]
      case InternalName => ExpectedMap(p)[x := CountInternal(p)]
      case Unmappable => ExpectedMap(p)
  }

  const EmptyCs: Cs := Cs(map[], 0)

  lemma SnocMembers(names: seq<string>)
    requires names != []
    ensures names == names[..|names| - 1] + [names[|names| - 1]]
    ensures forall y :: y in names <==> y in names[..|names| - 1] || y == names[|names| - 1]
  {
    assert names == names[..|names| - 1] + [names[|names| - 1]];
  }

  lemma NoDuplicatesSnoc(p: seq<string>, x: string)
    ensures NoDuplicates(p + [x]) <==> NoDuplicates(p) && x !in p
  {
    var s := p + [x];
    if NoDuplicates(s) {
      forall i, j | 0 <= i < j < |p| ensures p[i] != p[j] {
        assert s[i] == p[i] && s[j] == p[j];
      }
      forall i | 0 <= i < |p| ensures p[i] != x {
        assert s[i] == p[i] && s[|p|] == x;
      }
    }
  }

  /** A declaration run maps exactly the well-formed names it was given. */
  lemma {:induction false} DeclareKeys(cs: Cs, names: seq<string>)
    ensures forall y :: y in Declare(cs, names).cs.nameToIdx <==>
      y in cs.nameToIdx || (y in names && !ClassifyBufName(y).Unmappable?)
    decreases |names|
  {
    if names != [] {
      SnocMembers(names);
      DeclareKeys(cs, names[..|names| - 1]);
    }
  }

  /**
   * A declaration list builds without error exactly when no name repeats and
   * every special name is well formed.
   */
  lemma {:induction false} DeclareErrorsIff(names: seq<string>)
    ensures Declare(EmptyCs, names).errors == [] <==> NoDuplicates(names) && AllMappable(names)
    decreases |names|
  {
    if names != [] {
      var p := names[..|names| - 1];
      var x := names[|names| - 1];
      SnocMembers(names);
      DeclareErrorsIff(p);
      DeclareKeys(EmptyCs, p);
      NoDuplicatesSnoc(p, x);
    }
  }

  /**
   * An error-free declaration produces the expected map, counts every special
   * name as external and allocates storage once per ordinary name.
   */
  lemma {:induction false} DeclareExpected(names: seq<string>)
    requires |names| <= MAX_ALLOWABLE_BUF_DECLS
    requires Declare(EmptyCs, names).errors == []
    ensures Declare(EmptyCs, names) ==
      Declared(Cs(ExpectedMap(names), |names| - CountInternal(names)), [], CountInternal(names))
    ensures |ExpectedMap(names)| == |names|
    decreases |names|
  {
    if names != [] {
      var p := names[..|names| - 1];
      var x := names[|names| - 1];
      var d := Declare(EmptyCs, p);
      var e := DeclareOne(d.cs, x);
      assert Declare(EmptyCs, names) == Declared(e.cs, d.errors + e.errors, d.allocations + e.allocations);
      assert d.errors == [] && e.errors == [];
      DeclareExpected(p);
      assert x !in ExpectedMap(p);
      match ClassifyBufName(x) {
        case ExternalName(k) =>
        case InternalName =>
          assert WrappingSub(|p|, |p| - CountInternal(p)) == CountInternal(p);
        case Unmappable =>
          assert false;
      }
    }
  }

  /**
   * In the expected map special names keep their fixed index, ordinary names
   * get indices below the number of ordinary names, and no two ordinary
   * names share an index.
   */
  lemma {:induction false} ExpectedIndices(names: seq<string>)
    ensures forall y :: y in ExpectedMap(names) ==> y in names && !ClassifyBufName(y).Unmappable?
    ensures forall y :: y in ExpectedMap(names) && ClassifyBufName(y).ExternalName? ==>
      ExpectedMap(names)[y] == ClassifyBufName(y).idx
    ensures forall y :: y in ExpectedMap(names) && ClassifyBufName(y).InternalName? ==>
      ExpectedMap(names)[y] < CountInternal(names)
    ensures forall y, z ::
      (y in ExpectedMap(names) && z in ExpectedMap(names) &&
       ClassifyBufName(y).InternalName? && ClassifyBufName(z).InternalName? &&
       ExpectedMap(names)[y] == ExpectedMap(names)[z]) ==> y == z
    decreases |names|
  {
    if names != [] {
      SnocMembers(names);
      ExpectedIndices(names[..|names| - 1]);
    }
  }

  /** The name map and external-name count shared by both build passes. */
  class ConstructionState {
    var bufNameToIdx: map<string, nat>
    var numExternalBuffers: nat

    function Snapshot(): (cs: Cs)
      reads this
      ensures cs.nameToIdx == bufNameToIdx && cs.numExternal == numExternalBuffers
    {
      Cs(bufNameToIdx, numExternalBuffers)
    }

    constructor ()
      ensures Snapshot() == EmptyCs
    {
      bufNameToIdx := map[];
      numExternalBuffers := 0;
    }

    /**
     * The index for a declared name: `@SOURCE_k` and `@SINK_k` with k < 10
     * get their fixed index and count as external, other special names get
     * none, and an ordinary name gets the map size minus the external count.
     */
    method GenerateIdxForBufName(requested: string) returns (r: Option<nat>)
      modifies this
      ensures Generated(r, Snapshot()) == NextIdx(old(Snapshot()), requested)
    {
      if StartsWith(requested, "@SOURCE_") && |requested| > 8 {
        var parsed := ParseUsize(requested[8..]);
        if parsed.None? {
          return None;
        }
        if parsed.value >= MAX_ALLOWABLE_INPUTS {
          return None;
        }
        numExternalBuffers := numExternalBuffers + 1;
        return Some(parsed.value + FIRST_INPUT_IDX);
      } else if StartsWith(requested, "@SINK_") && |requested| > 6 {
        var parsed := ParseUsize(requested[6..]);
        if parsed.None? {
          return None;
        }
        if parsed.value >= MAX_ALLOWABLE_OUTPUTS {
          return None;
        }
        numExternalBuffers := numExternalBuffers + 1;
        return Some(parsed.value + FIRST_OUTPUT_IDX);
      } else {
        return Some(WrappingSub(|bufNameToIdx|, numExternalBuffers));
      }
    }
  }

  /** Zeroed rings of `size` samples, no two sharing a ring or its storage. */
  ghost predicate AllBlank(bufs: seq<SimpleFloatBuffer>, size: nat)
    reads set k | 0 <= k < |bufs| :: bufs[k], set k | 0 <= k < |bufs| :: bufs[k].data
  {
    && (forall k :: 0 <= k < |bufs| ==> Blank(bufs[k], size))
    && (forall k, l :: 0 <= k < l < |bufs| ==> bufs[k] != bufs[l] && bufs[k].data != bufs[l].data)
  }

  /**
   * One iteration of the declaration loop of `create_mem_buffers`: the
   * name is declared, and a new zeroed buffer is appended to `bufs` when
   * its index is internal.
   */
  method DeclareBuffer(st: ConstructionState, name: string, maxBlockSize: nat, bufs: seq<SimpleFloatBuffer>)
    returns (errs: seq<BuildError>, result: seq<SimpleFloatBuffer>)
    requires AllBlank(bufs, maxBlockSize)
    modifies st
    ensures var e := DeclareOne(old(st.Snapshot()), name);
      st.Snapshot() == e.cs && errs == e.errors && |result| == |bufs| + e.allocations
    ensures (forall k :: 0 <= k < |bufs| ==> result[k] == bufs[k]) && AllBlank(result, maxBlockSize)
    ensures forall k :: |bufs| <= k < |result| ==> fresh(result[k]) && fresh(result[k].data)
  {
    errs := [];
    result := bufs;
    if name in st.bufNameToIdx {
      errs := errs + [Redeclaration(name)];
    }
    var next := st.GenerateIdxForBufName(name);
    if next.None? {
      errs := errs + [FailedToGenerateIdx(name)];
      return;
    }
    st.bufNameToIdx := st.bufNameToIdx[name := next.value];
    if next.value < MAX_ALLOWABLE_BUF_DECLS {
      var b := new SimpleFloatBuffer.WithMaxCapacity(maxBlockSize);
      result := bufs + [b];
    }
  }

  /**
   * `create_mem_buffers`: more than 1024 names is rejected outright;
   * otherwise every name is declared in order, errors are collected, and one
   * zeroed buffer of `maxBlockSize` samples is allocated per name whose
   * index is internal.
   */
  method CreateMemBuffers(st: ConstructionState, bufNames: seq<string>, maxBlockSize: nat)
    returns (r: Result<seq<SimpleFloatBuffer>, seq<BuildError>>)
    modifies st
    ensures |bufNames| > MAX_ALLOWABLE_BUF_DECLS ==>
      r == Err([TooManyBuffers(|bufNames|)]) && st.Snapshot() == old(st.Snapshot())
    ensures |bufNames| <= MAX_ALLOWABLE_BUF_DECLS ==>
      var d := Declare(old(st.Snapshot()), bufNames);
      && st.Snapshot() == d.cs
      && (d.errors == [] ==> r.Ok? && |r.value| == d.allocations)
      && (d.errors != [] ==> r == Err(d.errors))
    ensures r.Ok? ==> forall k :: 0 <= k < |r.value| ==> fresh(r.value[k]) && fresh(r.value[k].data)
    ensures r.Ok? ==> forall k :: 0 <= k < |r.value| ==> Blank(r.value[k], maxBlockSize)
    ensures r.Ok? ==> forall k, l :: 0 <= k < l < |r.value| ==>
      r.value[k] != r.value[l] && r.value[k].data != r.value[l].data
  {
    if |bufNames| > MAX_ALLOWABLE_BUF_DECLS {
      return Err([TooManyBuffers(|bufNames|)]);
    }
    ghost var cs0 := st.Snapshot();
    var result: seq<SimpleFloatBuffer> := [];
    var errors: seq<BuildError> := [];
    var i := 0;
    while i < |bufNames|
      invariant 0 <= i <= |bufNames|
      invariant st.Snapshot() == Declare(cs0, bufNames[..i]).cs
      invariant errors == Declare(cs0, bufNames[..i]).errors
      invariant |result| == Declare(cs0, bufNames[..i]).allocations
      invariant forall k :: 0 <= k < |result| ==> fresh(result[k]) && fresh(result[k].data)
      invariant AllBlank(result, maxBlockSize)
    {
      DeclareSnoc(cs0, bufNames, i);
      var errs;
      errs, result := DeclareBuffer(st, bufNames[i], maxBlockSize, result);
      errors := errors + errs;
      i := i + 1;
    }
    assert bufNames[..i] == bufNames;
    if |errors| > 0 {
      return Err(errors);
    }
    return Ok(result);
  }

  /* ---------------------------------------------------------- connections */

  /** An effect with the resolved indices of the buffers it reads and writes. */
  datatype BoardConnection = BoardConnection(ordinal: nat, inputsIdxs: seq<nat>, outputIdxs: seq<nat>)

  /** A requested name is usable when it was declared and not yet used by this connection. */
  function IsValidBuffer(nameToIdx: map<string, nat>, used: set<string>, requested: string): (u: BufferUsageError)
    ensures u.NoError? <==> requested in nameToIdx && requested !in used
    ensures u.NoSuchBuffer? <==> requested !in nameToIdx
    ensures !u.NoError? ==> u.name == requested
  {
    if requested !in nameToIdx then NoSuchBuffer(requested)
    else if requested in used then BufferAlreadyUsed(requested)
    else NoError
  }

  /** The resolved indices, the names used so far and the errors so far. */
  datatype Targets = Targets(idxs: seq<nat>, used: set<string>, errors: seq<BuildError>)

  /** `find_buffer_targets` over a list of names, starting from `t`. */
  function FindTargets(m: map<string, nat>, t: Targets, names: seq<string>): Targets
    decreases |names|
  {
    if names == [] then t
    else
      var s := FindTargets(m, t, names[..|names| - 1]);
      var x := names[|names| - 1];
      var u := IsValidBuffer(m, s.used, x);
      if !u.NoError? then s.(errors := s.errors + [BufferUsage(u)])
      else Targets(s.idxs + [m[x]], s.used + {x}, s.errors)
  }

  /** The indices `m` gives to `names`, in order. */
  function Resolve(m: map<string, nat>, names: seq<string>): (r: seq<nat>)
    requires forall y :: y in names ==> y in m
    ensures |r| == |names| && forall i :: 0 <= i < |names| ==> r[i] == m[names[i]]
    decreases |names|
  {
    if names == [] then [] else Resolve(m, names[..|names| - 1]) + [m[names[|names| - 1]]]
  }

  lemma NoDuplicatesConcat(a: seq<string>, b: seq<string>)
    ensures NoDuplicates(a + b) <==> NoDuplicates(a) && NoDuplicates(b) && forall y :: y in b ==> y !in a
  {
    var s := a + b;
    if NoDuplicates(s) {
      forall i, j | 0 <= i < j < |b| ensures b[i] != b[j] {
        assert s[|a| + i] == b[i] && s[|a| + j] == b[j];
      }
      forall i, j | 0 <= i < j < |a| ensures a[i] != a[j] {
        assert s[i] == a[i] && s[j] == a[j];
      }
      forall y | y in b ensures y !in a {
        var j :| 0 <= j < |b| && b[j] == y;
        forall i | 0 <= i < |a| ensures a[i] != y {
          assert s[i] == a[i] && s[|a| + j] == y;
        }
      }
    }
    if NoDuplicates(a) && NoDuplicates(b) && forall y :: y in b ==> y !in a {
      forall i, j | 0 <= i < j < |s| ensures s[i] != s[j] {
        if j < |a| {
          assert s[i] == a[i] && s[j] == a[j];
        } else if i >= |a| {
          assert s[i] == b[i - |a|] && s[j] == b[j - |a|];
        } else {
          assert s[i] == a[i] && s[j] == b[j - |a|];
          assert b[j - |a|] in b;
        }
      }
    }
  }

  /**
   * Finding targets only appends; it adds no error exactly when every name
   * is declared, none repeats and none was used before, and then it appends
   * the names' indices in order and marks exactly those names used.
   */
  lemma {:induction false} FindTargetsSpec(m: map<string, nat>, t: Targets, names: seq<string>)
    ensures t.errors <= FindTargets(m, t, names).errors
    ensures FindTargets(m, t, names).errors == t.errors <==>
      (forall y :: y in names ==> y in m && y !in t.used) && NoDuplicates(names)
    ensures FindTargets(m, t, names).errors == t.errors ==>
      && (forall y :: y in names ==> y in m)
      && FindTargets(m, t, names).idxs == t.idxs + Resolve(m, names)
      && (forall y :: y in FindTargets(m, t, names).used <==> y in t.used || y in names)
    decreases |names|
  {
    if names != [] {
      var p := names[..|names| - 1];
      var x := names[|names| - 1];
      SnocMembers(names);
      FindTargetsSpec(m, t, p);
      NoDuplicatesSnoc(p, x);
    }
  }

  /**
   * `find_buffer_targets`: resolves each name in turn, recording an error
   * and skipping the name when it is undeclared or already used.
   */
  method FindBufferTargets(targets: seq<string>, resultVec: seq<nat>, usedBufferTracker: set<string>,
                           helper: ConstructionState, errorsAcc: seq<BuildError>)
    returns (resultOut: seq<nat>, usedOut: set<string>, errorsOut: seq<BuildError>)
    ensures Targets(resultOut, usedOut, errorsOut) ==
      FindTargets(helper.bufNameToIdx, Targets(resultVec, usedBufferTracker, errorsAcc), targets)
  {
    resultOut, usedOut, errorsOut := resultVec, usedBufferTracker, errorsAcc;
    var i := 0;
    while i < |targets|
      invariant 0 <= i <= |targets|
      invariant Targets(resultOut, usedOut, errorsOut) ==
        FindTargets(helper.bufNameToIdx, Targets(resultVec, usedBufferTracker, errorsAcc), targets[..i])
    {
      assert targets[..i + 1][..i] == targets[..i];
      var inputTarget := targets[i];
      var bufferUsage := IsValidBuffer(helper.bufNameToIdx, usedOut, inputTarget);
      if !bufferUsage.NoError? {
        errorsOut := errorsOut + [BufferUsage(bufferUsage)];
      } else {
        usedOut := usedOut + {inputTarget};
        resultOut := resultOut + [helper.bufNameToIdx[inputTarget]];
      }
      i := i + 1;
    }
    assert targets[..i] == targets;
  }

  /** Built connections and accumulated errors. */
  datatype Connected = Connected(connections: seq<BoardConnection>, errors: seq<BuildError>)

  /**
   * One iteration of `create_effect_connections`: an unknown effect or an
   * out-of-range ordinal is an error and the connection is skipped;
   * otherwise reads then writes are resolved with one shared used-name set,
   * which starts empty for each connection, and the connection is stored
   * even when a buffer error was recorded.
   */
  function ConnectOne(m: map<string, nat>, effects: map<string, nat>, acc: Connected,
                      decl: BoardConnectionDeclaration): Connected
  {
    if decl.effect !in effects then acc.(errors := acc.errors + [NonexistentNode(decl.effect)])
    else if effects[decl.effect] >= |effects| then
      acc.(errors := acc.errors + [OrdinalTooLarge(decl.effect, effects[decl.effect])])
    else
      var r := FindTargets(m, Targets([], {}, acc.errors), decl.readNames);
      var w := FindTargets(m, Targets([], r.used, r.errors), decl.writeNames);
      Connected(acc.connections + [BoardConnection(effects[decl.effect], r.idxs, w.idxs)], w.errors)
  }

  function ConnectAll(m: map<string, nat>, effects: map<string, nat>, decls: seq<BoardConnectionDeclaration>): Connected
    decreases |decls|
  {
    if decls == [] then Connected([], [])
    else ConnectOne(m, effects, ConnectAll(m, effects, decls[..|decls| - 1]), decls[|decls| - 1])
  }

  /** A connection declaration that builds without error. */
  predicate Acceptable(m: map<string, nat>, effects: map<string, nat>, decl: BoardConnectionDeclaration)
  {
    && decl.effect in effects
    && effects[decl.effect] < |effects|
    && (forall y :: y in decl.readNames + decl.writeNames ==> y in m)
    && NoDuplicates(decl.readNames + decl.writeNames)
  }

  /** The connection an acceptable declaration builds. */
  function Expected(m: map<string, nat>, effects: map<string, nat>, decl: BoardConnectionDeclaration): BoardConnection
    requires Acceptable(m, effects, decl)
  {
    assert forall y :: y in decl.readNames ==> y in decl.readNames + decl.writeNames;
    assert forall y :: y in decl.writeNames ==> y in decl.readNames + decl.writeNames;
    BoardConnection(effects[decl.effect], Resolve(m, decl.readNames), Resolve(m, decl.writeNames))
  }

  /**
   * One connection step keeps earlier errors, and from an error-free state it
   * adds no error exactly when the declaration is acceptable, storing the
   * expected connection.
   */
  lemma ConnectOneSpec(m: map<string, nat>, effects: map<string, nat>, acc: Connected, decl: BoardConnectionDeclaration)
    ensures acc.errors <= ConnectOne(m, effects, acc, decl).errors
    ensures acc.errors == [] ==>
      (ConnectOne(m, effects, acc, decl).errors == [] <==> Acceptable(m, effects, decl))
    ensures acc.errors == [] && Acceptable(m, effects, decl) ==>
      ConnectOne(m, effects, acc, decl).connections == acc.connections + [Expected(m, effects, decl)]
  {
    var rs := decl.readNames;
    var ws := decl.writeNames;
    if decl.effect in effects && effects[decl.effect] < |effects| {
      var r := FindTargets(m, Targets([], {}, acc.errors), rs);
      FindTargetsSpec(m, Targets([], {}, acc.errors), rs);
      FindTargetsSpec(m, Targets([], r.used, r.errors), ws);
      NoDuplicatesConcat(rs, ws);
      assert forall y :: y in rs + ws <==> y in rs || y in ws;
      if acc.errors == [] && Acceptable(m, effects, decl) {
        assert r.errors == [];
        assert [] + Resolve(m, rs) == Resolve(m, rs);
        assert [] + Resolve(m, ws) == Resolve(m, ws);
      }
    }
  }

  /**
   * The connection pass fails exactly when some declaration is not
   * acceptable; otherwise it stores one expected connection per declaration,
   * in declaration order.
   */
  lemma {:induction false} ConnectAllSpec(m: map<string, nat>, effects: map<string, nat>, decls: seq<BoardConnectionDeclaration>)
    ensures ConnectAll(m, effects, decls).errors == [] <==>
      forall k :: 0 <= k < |decls| ==> Acceptable(m, effects, decls[k])
    ensures ConnectAll(m, effects, decls).errors == [] ==>
      && |ConnectAll(m, effects, decls).connections| == |decls|
      && forall k :: 0 <= k < |decls| ==> ConnectAll(m, effects, decls).connections[k] == Expected(m, effects, decls[k])
    decreases |decls|
  {
    if decls != [] {
      var p := decls[..|decls| - 1];
      var x := decls[|decls| - 1];
      var c := ConnectAll(m, effects, p);
      ConnectAllSpec(m, effects, p);
      ConnectOneSpec(m, effects, c, x);
      assert forall k :: 0 <= k < |p| ==> p[k] == decls[k];
      if ConnectAll(m, effects, decls).errors == [] {
        assert c.errors == [];
        assert Acceptable(m, effects, x);
      }
    }
  }

  /** `create_effect_connections`, with each loaded effect given by its ordinal. */
  method CreateEffectConnections(helper: ConstructionState, connectionInfos: seq<BoardConnectionDeclaration>,
                                 effects: map<string, nat>)
    returns (r: Result<seq<BoardConnection>, seq<BuildError>>)
    ensures var c := ConnectAll(helper.bufNameToIdx, effects, connectionInfos);
      && (c.errors == [] ==> r == Ok(c.connections))
      && (c.errors != [] ==> r == Err(c.errors))
  {
    var errors: seq<BuildError> := [];
    var connections: seq<BoardConnection> := [];
    var i := 0;
    while i < |connectionInfos|
      invariant 0 <= i <= |connectionInfos|
      invariant Connected(connections, errors) == ConnectAll(helper.bufNameToIdx, effects, connectionInfos[..i])
    {
      assert connectionInfos[..i + 1][..i] == connectionInfos[..i];
      var info := connectionInfos[i];
      i := i + 1;
      if info.effect !in effects {
        errors := errors + [NonexistentNode(info.effect)];
        continue;
      }
      var effectOrdinal := effects[info.effect];
      if effectOrdinal >= |effects| {
        errors := errors + [OrdinalTooLarge(info.effect, effectOrdinal)];
        continue;
      }
      var inputTargetIdxs, used, errs := FindBufferTargets(info.readNames, [], {}, helper, errors);
      var outputTargetIdxs;
      outputTargetIdxs, used, errors := FindBufferTargets(info.writeNames, [], used, helper, errs);
      connections := connections + [BoardConnection(effectOrdinal, inputTargetIdxs, outputTargetIdxs)];
    }
    assert connectionInfos[..i] == connectionInfos;
    if |errors| > 0 {
      return Err(errors);
    }
    return Ok(connections);
  }

  /* ------------------------------------------------------------ soundness */

  /** No internal index occurs twice, so no internal buffer is borrowed twice. */
  predicate InternalDistinct(idxs: seq<nat>)
  {
    forall i, j :: 0 <= i < j < |idxs| && idxs[i] < FIRST_INPUT_IDX ==> idxs[i] != idxs[j]
  }

  /** Every internal index has storage among the first `n` buffers. */
  predicate InternalBelow(idxs: seq<nat>, n: nat)
  {
    forall i :: 0 <= i < |idxs| && idxs[i] < FIRST_INPUT_IDX ==> idxs[i] < n
  }

  lemma ResolveConcat(m: map<string, nat>, a: seq<string>, b: seq<string>)
    requires forall y :: y in a + b ==> y in m
    ensures forall y :: y in a ==> y in m
    ensures forall y :: y in b ==> y in m
    ensures Resolve(m, a + b) == Resolve(m, a) + Resolve(m, b)
  {
    assert forall y :: y in a + b <==> y in a || y in b;
    var l := Resolve(m, a + b);
    var r := Resolve(m, a) + Resolve(m, b);
    forall i | 0 <= i < |l| ensures l[i] == r[i] {
      if i < |a| {
        assert (a + b)[i] == a[i];
      } else {
        assert (a + b)[i] == b[i - |a|];
      }
    }
  }

  /**
   * Distinct declared names resolve to distinct internal indices, each below
   * the number of internal buffers.
   */
  lemma {:induction false} ResolvedSound(names: seq<string>, ns: seq<string>)
    requires |names| <= MAX_ALLOWABLE_BUF_DECLS
    requires forall y :: y in ns ==> y in ExpectedMap(names)
    requires NoDuplicates(ns)
    ensures InternalDistinct(Resolve(ExpectedMap(names), ns))
    ensures InternalBelow(Resolve(ExpectedMap(names), ns), CountInternal(names))
  {
    var m := ExpectedMap(names);
    var r := Resolve(m, ns);
    ExpectedIndices(names);
    forall i | 0 <= i < |r| && r[i] < FIRST_INPUT_IDX
      ensures ClassifyBufName(ns[i]).InternalName? && r[i] < CountInternal(names)
    {
      assert ns[i] in ns;
    }
    forall i, j | 0 <= i < j < |r| && r[i] < FIRST_INPUT_IDX ensures r[i] != r[j] {
      assert ns[i] in ns && ns[j] in ns;
      if r[j] < FIRST_INPUT_IDX {
        assert ClassifyBufName(ns[j]).InternalName?;
      }
    }
  }

  /**
   * In a successful build every connection refers to each internal buffer at
   * most once, across its reads and writes together, and only to internal
   * buffers that have storage.
   */
  lemma {:induction false} BuiltConnectionsSound(names: seq<string>, effects: map<string, nat>, decls: seq<BoardConnectionDeclaration>)
    requires |names| <= MAX_ALLOWABLE_BUF_DECLS
    requires ConnectAll(ExpectedMap(names), effects, decls).errors == []
    ensures forall c :: c in ConnectAll(ExpectedMap(names), effects, decls).connections ==>
      InternalDistinct(c.inputsIdxs + c.outputIdxs) && InternalBelow(c.inputsIdxs + c.outputIdxs, CountInternal(names))
  {
    var m := ExpectedMap(names);
    var cs := ConnectAll(m, effects, decls).connections;
    ConnectAllSpec(m, effects, decls);
    forall c | c in cs
      ensures InternalDistinct(c.inputsIdxs + c.outputIdxs) && InternalBelow(c.inputsIdxs + c.outputIdxs, CountInternal(names))
    {
      var k :| 0 <= k < |cs| && cs[k] == c;
      var d := decls[k];
      var ns := d.readNames + d.writeNames;
      assert c == Expected(m, effects, d);
      assert forall y :: y in ns <==> y in d.readNames || y in d.writeNames;
      ResolveConcat(m, d.readNames, d.writeNames);
      ResolvedSound(names, ns);
    }
  }

  /* -------------------------------------------------------------- context */

  /** Everything a board configuration must satisfy for the build to succeed. */
  predicate BuildsCleanly(bc: BoardConfig, effects: map<string, nat>)
  {
    && |bc.buffers| <= MAX_ALLOWABLE_BUF_DECLS
    && NoDuplicates(bc.buffers)
    && AllMappable(bc.buffers)
    && forall k :: 0 <= k < |bc.connections| ==> Acceptable(ExpectedMap(bc.buffers), effects, bc.connections[k])
  }

  /**
   * The runtime graph: storage for the internal buffers, the resolved
   * connections in declaration order, and six host pointer slots for
   * sources and six for sinks.
   */
  class BoardContext {
    const buffers: seq<SimpleFloatBuffer>
    const connections: seq<BoardConnection>
    var externalIns: seq<HostPtr>
    var externalOuts: seq<HostPtr>

    ghost predicate Valid()
      reads this, buffers
    {
      Shaped() && (forall i :: 0 <= i < |buffers| ==> buffers[i].Valid())
    }

    /** The parts of `Valid` that depend on the graph alone, not on the rings' positions. */
    ghost predicate Shaped()
      reads this
    {
      && |externalIns| == MAX_EXTERNAL_INS
      && |externalOuts| == MAX_EXTERNAL_OUTS
      && |buffers| <= MAX_ALLOWABLE_BUF_DECLS
      && (forall i, j :: 0 <= i < j < |buffers| ==> buffers[i] != buffers[j] && buffers[i].data != buffers[j].data)
      && (forall c :: c in connections ==>
            InternalDistinct(c.inputsIdxs + c.outputIdxs) && InternalBelow(c.inputsIdxs + c.outputIdxs, |buffers|))
    }

    constructor Make(bufs: seq<SimpleFloatBuffer>, conns: seq<BoardConnection>, ins: seq<HostPtr>, outs: seq<HostPtr>)
      ensures buffers == bufs && connections == conns && externalIns == ins && externalOuts == outs
    {
      buffers := bufs;
      connections := conns;
      externalIns := ins;
      externalOuts := outs;
    }

    /**
     * `initialize_context`: declares the buffers, then resolves the
     * connections against the resulting name map; the first pass that fails
     * returns its errors, and a successful build starts with every host
     * slot unbound.
     */
    static method InitializeContext(bc: BoardConfig, ac: AudioConfig, effects: map<string, nat>)
      returns (r: Result<BoardContext, seq<BuildError>>)
      ensures r.Ok? <==> BuildsCleanly(bc, effects)
      ensures |bc.buffers| > MAX_ALLOWABLE_BUF_DECLS ==> r == Err([TooManyBuffers(|bc.buffers|)])
      ensures |bc.buffers| <= MAX_ALLOWABLE_BUF_DECLS && Declare(EmptyCs, bc.buffers).errors != [] ==>
        r == Err(Declare(EmptyCs, bc.buffers).errors)
      ensures (|bc.buffers| <= MAX_ALLOWABLE_BUF_DECLS && Declare(EmptyCs, bc.buffers).errors == [] &&
               ConnectAll(ExpectedMap(bc.buffers), effects, bc.connections).errors != []) ==>
        r == Err(ConnectAll(ExpectedMap(bc.buffers), effects, bc.connections).errors)
      ensures r.Ok? ==>
        && fresh(r.value) && r.value.Valid()
        && r.value.connections == ConnectAll(ExpectedMap(bc.buffers), effects, bc.connections).connections
        && |r.value.buffers| == CountInternal(bc.buffers)
        && |r.value.externalIns| == MAX_EXTERNAL_INS && |r.value.externalOuts| == MAX_EXTERNAL_OUTS
        && (forall k :: 0 <= k < MAX_EXTERNAL_INS ==> r.value.externalIns[k].None?)
        && (forall k :: 0 <= k < MAX_EXTERNAL_OUTS ==> r.value.externalOuts[k].None?)
      ensures r.Ok? ==> forall k :: 0 <= k < |r.value.buffers| ==>
        && fresh(r.value.buffers[k]) && fresh(r.value.buffers[k].data)
        && r.value.buffers[k].capacity == ac.maxBlockSize
        && r.value.buffers[k].State() == Ring(Zeros(ac.maxBlockSize), ac.maxBlockSize, 0)
    {
      DeclareErrorsIff(bc.buffers);
      var st := new ConstructionState();
      var buffersR := CreateMemBuffers(st, bc.buffers, ac.maxBlockSize);
      if buffersR.Err? {
        return Err(buffersR.error);
      }
      DeclareExpected(bc.buffers);
      var connectionsR := CreateEffectConnections(st, bc.connections, effects);
      ConnectAllSpec(ExpectedMap(bc.buffers), effects, bc.connections);
      if connectionsR.Err? {
        return Err(connectionsR.error);
      }
      BuiltConnectionsSound(bc.buffers, effects, bc.connections);
      var externalIns := UnboundSlots(MAX_EXTERNAL_INS);
      var externalOuts := UnboundSlots(MAX_EXTERNAL_OUTS);
      var ctx := new BoardContext.Make(buffersR.value, connectionsR.value, externalIns, externalOuts);
      return Ok(ctx);
    }

    /** `n` host slots, none of them bound yet. */
    static method UnboundSlots(n: nat) returns (slots: seq<HostPtr>)
      ensures |slots| == n && forall k :: 0 <= k < n ==> slots[k].None?
    {
      slots := [];
      for i := 0 to n
        invariant |slots| == i && forall k :: 0 <= k < i ==> slots[k].None?
      {
        slots := slots + [None];
      }
    }

    /**
     * `bind_sink`: an index of 10 or more is ignored; any other index
     * replaces that one slot. Only six slots exist, so indices 6 to 9 pass
     * the guard but would index out of bounds; callers must avoid them.
     */
    method BindSink(sinkIdx: nat, sinkPtr: HostPtr)
      requires Valid()
      requires sinkIdx >= MAX_ALLOWABLE_OUTPUTS || sinkIdx < MAX_EXTERNAL_OUTS
      modifies this
      ensures Valid()
      ensures externalIns == old(externalIns)
      ensures sinkIdx >= MAX_ALLOWABLE_OUTPUTS ==> externalOuts == old(externalOuts)
      ensures sinkIdx < MAX_EXTERNAL_OUTS ==> externalOuts == old(externalOuts)[sinkIdx := sinkPtr]
    {
      if sinkIdx >= MAX_ALLOWABLE_OUTPUTS {
        return;
      }
      externalOuts := externalOuts[sinkIdx := sinkPtr];
    }

    /** `bind_source`, the same for the source slots. */
    method BindSource(sourceIdx: nat, sourcePtr: HostPtr)
      requires Valid()
      requires sourceIdx >= MAX_ALLOWABLE_INPUTS || sourceIdx < MAX_EXTERNAL_INS
      modifies this
      ensures Valid()
      ensures externalOuts == old(externalOuts)
      ensures sourceIdx >= MAX_ALLOWABLE_INPUTS ==> externalIns == old(externalIns)
      ensures sourceIdx < MAX_EXTERNAL_INS ==> externalIns == old(externalIns)[sourceIdx := sourcePtr]
    {
      if sourceIdx >= MAX_ALLOWABLE_INPUTS {
        return;
      }
      externalIns := externalIns[sourceIdx := sourcePtr];
    }

    /**
     * `get_buffer_for_read`: a source index reads the bound host array (or
     * nothing when unbound), an internal index with storage reads that
     * buffer, and every other index, sinks included, reads silence. Source
     * indices 1030 to 1033 have no slot and are excluded.
     */
    function GetBufferForRead(bufIdx: nat): (r: AudioBufferReader)
      reads this
      requires |externalIns| == MAX_EXTERNAL_INS
      requires !(FIRST_INPUT_IDX + MAX_EXTERNAL_INS <= bufIdx < FIRST_INPUT_IDX + MAX_ALLOWABLE_INPUTS)
      ensures FIRST_INPUT_IDX <= bufIdx < FIRST_INPUT_IDX + MAX_EXTERNAL_INS ==>
        (r.ExternalReader? <==> externalIns[bufIdx - FIRST_INPUT_IDX].Some?) &&
        (r.ExternalReader? ==> r.ptr == externalIns[bufIdx - FIRST_INPUT_IDX])
      ensures r.InternalReader? <==> bufIdx < FIRST_INPUT_IDX && bufIdx < |buffers|
      ensures r.InternalReader? ==> r.buf == buffers[bufIdx]
      ensures bufIdx >= FIRST_INPUT_IDX + MAX_ALLOWABLE_INPUTS || |buffers| <= bufIdx < FIRST_INPUT_IDX ==>
        r == NullReader
    {
      if bufIdx >= FIRST_INPUT_IDX then
        if bufIdx >= FIRST_INPUT_IDX + MAX_ALLOWABLE_INPUTS then NullReader
        else
          var normIdx := bufIdx - FIRST_INPUT_IDX;
          if externalIns[normIdx].None? then NullReader else ExternalReader(externalIns[normIdx])
      else if bufIdx >= |buffers| then NullReader
      else InternalReader(buffers[bufIdx])
    }

    /**
     * `get_buffer_for_write`, mirrored: sinks write to the bound host array,
     * internal indices to their buffer, and sources and everything else are
     * unwritable. Sink indices 2054 to 2057 have no slot and are excluded.
     */
    function GetBufferForWrite(bufIdx: nat): (r: AudioBufferWriter)
      reads this
      requires |externalOuts| == MAX_EXTERNAL_OUTS
      requires !(FIRST_OUTPUT_IDX + MAX_EXTERNAL_OUTS <= bufIdx < FIRST_OUTPUT_IDX + MAX_ALLOWABLE_OUTPUTS)
      ensures FIRST_OUTPUT_IDX <= bufIdx < FIRST_OUTPUT_IDX + MAX_EXTERNAL_OUTS ==>
        (r.ExternalWriter? <==> externalOuts[bufIdx - FIRST_OUTPUT_IDX].Some?) &&
        (r.ExternalWriter? ==> r.ptr == externalOuts[bufIdx - FIRST_OUTPUT_IDX])
      ensures r.InternalWriter? <==> bufIdx < FIRST_OUTPUT_IDX && bufIdx < |buffers|
      ensures r.InternalWriter? ==> r.buf == buffers[bufIdx]
      ensures bufIdx >= FIRST_OUTPUT_IDX + MAX_ALLOWABLE_OUTPUTS || |buffers| <= bufIdx < FIRST_OUTPUT_IDX ==>
        r == NullWriter
    {
      if bufIdx >= FIRST_OUTPUT_IDX then
        if bufIdx >= FIRST_OUTPUT_IDX + MAX_ALLOWABLE_OUTPUTS then NullWriter
        else
          var normIdx := bufIdx - FIRST_OUTPUT_IDX;
          if externalOuts[normIdx].None? then NullWriter else ExternalWriter(externalOuts[normIdx])
      else if bufIdx >= |buffers| then NullWriter
      else InternalWriter(buffers[bufIdx])
    }

    /** The read indices stored for a connection; the index must be in range. */
    function GetInputsForConnection(connectionIdx: nat): (r: seq<nat>)
      requires connectionIdx < |connections|
      ensures r == connections[connectionIdx].inputsIdxs
    {
      connections[connectionIdx].inputsIdxs
    }

    /** The write indices stored for a connection; the index must be in range. */
    function GetOutputsForConnection(connectionIdx: nat): (r: seq<nat>)
      requires connectionIdx < |connections|
      ensures r == connections[connectionIdx].outputIdxs
    {
      connections[connectionIdx].outputIdxs
    }

    function GetConnections(): (r: seq<BoardConnection>)
      ensures r == connections
    {
      connections
    }

    /** Everything a block of processing may read: internal storage and bound source arrays. */
    function ReadSet(): set<object>
      reads this
    {
      (set i | 0 <= i < |buffers| :: buffers[i])
      + (set i | 0 <= i < |buffers| :: buffers[i].data)
      + (set k | 0 <= k < |externalIns| && externalIns[k].Some? :: externalIns[k].value)
    }

    /** The reader for `idx` exists, lies within the read set, and can read `n` samples. */
    ghost predicate CanRead(n: nat, idx: nat)
      reads this, ReadSet()
    {
      && |externalIns| == MAX_EXTERNAL_INS
      && ReadMapped(idx)
      && GetBufferForRead(idx).Footprint() <= ReadSet()
      && GetBufferForRead(idx).Readable(n)
    }

    /** Everything a block of processing may write: internal storage and bound sink arrays. */
    function WriteSet(): set<object>
      reads this
    {
      (set i | 0 <= i < |buffers| :: buffers[i])
      + (set i | 0 <= i < |buffers| :: buffers[i].data)
      + (set k | 0 <= k < |externalOuts| && externalOuts[k].Some? :: externalOuts[k].value)
    }

    /**
     * What a block of `n` samples needs: a valid graph, nonempty rings,
     * bound host arrays of at least `n` samples, no host array bound both as
     * a source and as a sink, no two sink slots sharing an array, and no host
     * array among the internal storage.
     */
    ghost predicate Ready(n: nat)
      reads this, buffers
    {
      && Valid()
      && (forall i :: 0 <= i < |buffers| ==> buffers[i].limit > 0)
      && HostsReady(n)
    }

    /** The host-array parts of `Ready`, which no write to a ring can disturb. */
    ghost predicate HostsReady(n: nat)
      reads this
    {
      && |externalIns| == MAX_EXTERNAL_INS
      && |externalOuts| == MAX_EXTERNAL_OUTS
      && (forall k :: 0 <= k < MAX_EXTERNAL_INS && externalIns[k].Some? ==> n <= externalIns[k].value.Length)
      && (forall k :: 0 <= k < MAX_EXTERNAL_OUTS && externalOuts[k].Some? ==> n <= externalOuts[k].value.Length)
      && (forall k, l ::
            (0 <= k < MAX_EXTERNAL_INS && 0 <= l < MAX_EXTERNAL_OUTS && externalIns[k].Some? && externalOuts[l].Some?) ==>
            externalIns[k].value != externalOuts[l].value)
      && (forall k, l :: 0 <= k < l < MAX_EXTERNAL_OUTS && externalOuts[k].Some? && externalOuts[l].Some? ==>
            externalOuts[k].value != externalOuts[l].value)
      && (forall k, i :: 0 <= k < MAX_EXTERNAL_INS && 0 <= i < |buffers| && externalIns[k].Some? ==>
            externalIns[k].value != buffers[i].data)
      && (forall k, i :: 0 <= k < MAX_EXTERNAL_OUTS && 0 <= i < |buffers| && externalOuts[k].Some? ==>
            externalOuts[k].value != buffers[i].data)
    }
  }

  /** A read index the dispatch can serve without indexing past the six source slots. */
  predicate ReadMapped(idx: nat)
  {
    !(FIRST_INPUT_IDX + MAX_EXTERNAL_INS <= idx < FIRST_INPUT_IDX + MAX_ALLOWABLE_INPUTS)
  }

  /** A write index the dispatch can serve without indexing past the six sink slots. */
  predicate WriteMapped(idx: nat)
  {
    !(FIRST_OUTPUT_IDX + MAX_EXTERNAL_OUTS <= idx < FIRST_OUTPUT_IDX + MAX_ALLOWABLE_OUTPUTS)
  }

  /** Every index a connection names can be dispatched. */
  predicate ConnectionMapped(c: BoardConnection)
  {
    && (forall k :: 0 <= k < |c.inputsIdxs| ==> ReadMapped(c.inputsIdxs[k]))
    && (forall k :: 0 <= k < |c.outputIdxs| ==> WriteMapped(c.outputIdxs[k]))
  }

  /** In a ready graph every dispatched reader can read a whole block. */
  lemma ReaderUsable(ctx: BoardContext, n: nat, idx: nat)
    requires ctx.Ready(n) && ReadMapped(idx)
    ensures ctx.GetBufferForRead(idx).Readable(n)
    ensures ctx.GetBufferForRead(idx).Footprint() <= ctx.ReadSet()
    ensures ctx.CanRead(n, idx)
  {
    var r := ctx.GetBufferForRead(idx);
    if r.InternalReader? {
      assert ctx.buffers[idx] in (set i | 0 <= i < |ctx.buffers| :: ctx.buffers[i]);
      assert ctx.buffers[idx].data in (set i | 0 <= i < |ctx.buffers| :: ctx.buffers[i].data);
    } else if r.ExternalReader? && r.ptr.Some? {
      var k := idx - FIRST_INPUT_IDX;
      assert ctx.externalIns[k].value in
        (set k | 0 <= k < |ctx.externalIns| && ctx.externalIns[k].Some? :: ctx.externalIns[k].value);
    }
  }

  /** In a ready graph every dispatched writer can write a whole block, within the write set. */
  lemma WriterUsable(ctx: BoardContext, n: nat, idx: nat)
    requires ctx.Ready(n) && WriteMapped(idx)
    ensures ctx.GetBufferForWrite(idx).Writable(n)
    ensures ctx.GetBufferForWrite(idx).Footprint() <= ctx.WriteSet()
  {
    var w := ctx.GetBufferForWrite(idx);
    if w.InternalWriter? {
      assert ctx.buffers[idx] in (set i | 0 <= i < |ctx.buffers| :: ctx.buffers[i]);
      assert ctx.buffers[idx].data in (set i | 0 <= i < |ctx.buffers| :: ctx.buffers[i].data);
    } else if w.ExternalWriter? {
      var k := idx - FIRST_OUTPUT_IDX;
      assert ctx.externalOuts[k].value in
        (set k | 0 <= k < |ctx.externalOuts| && ctx.externalOuts[k].Some? :: ctx.externalOuts[k].value);
    }
  }

  /**
   * A reader and a writer never share memory unless they name the same
   * internal buffer.
   */
  lemma ReaderWriterDisjoint(ctx: BoardContext, n: nat, r: nat, w: nat)
    requires ctx.Ready(n) && ReadMapped(r) && WriteMapped(w)
    requires r < FIRST_INPUT_IDX ==> r != w
    ensures ctx.GetBufferForRead(r).Footprint() !! ctx.GetBufferForWrite(w).Footprint()
  {
  }

  /**
   * Within one stored connection an internal index is never both read and
   * written, and never written twice.
   */
  lemma ConnectionIndicesDistinct(ctx: BoardContext, ci: nat)
    requires ctx.Valid() && ci < |ctx.connections|
    ensures var c := ctx.connections[ci];
      forall i, j :: 0 <= i < |c.inputsIdxs| && 0 <= j < |c.outputIdxs| && c.inputsIdxs[i] < FIRST_INPUT_IDX ==>
        c.inputsIdxs[i] != c.outputIdxs[j]
    ensures var c := ctx.connections[ci];
      forall i, j :: 0 <= i < j < |c.outputIdxs| && c.outputIdxs[i] < FIRST_INPUT_IDX ==>
        c.outputIdxs[i] != c.outputIdxs[j]
  {
    var c := ctx.connections[ci];
    assert c in ctx.connections;
    var all := c.inputsIdxs + c.outputIdxs;
    assert InternalDistinct(all);
    forall i, j | 0 <= i < |c.inputsIdxs| && 0 <= j < |c.outputIdxs| && c.inputsIdxs[i] < FIRST_INPUT_IDX
      ensures c.inputsIdxs[i] != c.outputIdxs[j]
    {
      assert all[i] == c.inputsIdxs[i] && all[|c.inputsIdxs| + j] == c.outputIdxs[j];
    }
    forall i, j | 0 <= i < j < |c.outputIdxs| && c.outputIdxs[i] < FIRST_INPUT_IDX
      ensures c.outputIdxs[i] != c.outputIdxs[j]
    {
      assert all[|c.inputsIdxs| + i] == c.outputIdxs[i] && all[|c.inputsIdxs| + j] == c.outputIdxs[j];
    }
  }

  /** Two writers for different indices never share memory. */
  lemma WritersDisjoint(ctx: BoardContext, n: nat, w1: nat, w2: nat)
    requires ctx.Ready(n) && WriteMapped(w1) && WriteMapped(w2) && w1 != w2
    ensures ctx.GetBufferForWrite(w1).Footprint() !! ctx.GetBufferForWrite(w2).Footprint()
  {
  }

  /**
   * One sample written through a dispatched writer: the writer's sink takes
   * the value and the graph stays ready for the same block size.
   */
  method WriteThrough(ctx: BoardContext, n: nat, idx: nat, i: nat, value: real)
    requires ctx.Ready(n) && WriteMapped(idx) && i < n
    modifies ctx.GetBufferForWrite(idx).Footprint()
    ensures unchanged(ctx) && ctx.Ready(n)
    ensures ctx.GetBufferForWrite(idx).Contents() == old(ctx.GetBufferForWrite(idx).Contents()).Put(i, value)
  {
    WriterUsable(ctx, n, idx);
    var w := ctx.GetBufferForWrite(idx);
    w.BufWrite(i, value);
  }
}
