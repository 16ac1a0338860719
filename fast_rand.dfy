/**
 * WyHash pseudo-random generator: a 64-bit Weyl-sequence state, advanced by
 * a fixed odd increment, whose every value is mixed by two 64x64 -> 128-bit
 * multiplications. The state addition wraps modulo 2^64 (release-build
 * semantics of `u64 +=`).
 */
module FastRand {
  import opened MathUtils

  const U64_MOD: nat := 0x1_0000_0000_0000_0000
  const U128_MOD: nat := U64_MOD * U64_MOD

  type u64 = x: nat | x < U64_MOD

  const GAMMA: u64 := 0x60be_e2be_e120_fc15
  const M1: u64 := 0xa3b1_9535_4a39_b70d
  const M2: u64 := 0x1b03_7387_12fa_d5c9

  lemma Pow2Is64()
    ensures Pow2(64) == U64_MOD
  {
    assert Pow2(4) == 16;
    Pow2Add(4, 4);
    assert Pow2(8) == 0x100;
    Pow2Add(8, 8);
    assert Pow2(16) == 0x1_0000;
    Pow2Add(16, 16);
    assert Pow2(32) == 0x1_0000_0000;
    Pow2Add(32, 32);
  }

  lemma {:induction false} Pow2Add(a: nat, b: nat)
    ensures Pow2(a + b) == Pow2(a) * Pow2(b)
  {
    if a > 0 {
      Pow2Add(a - 1, b);
    }
  }

  /** Neither 128-bit product in the mixer overflows: both factors are below 2^64. */
  lemma ProductFits(a: u64, b: u64)
    ensures a * b < U128_MOD
  {
    assert a * b <= a * (U64_MOD - 1) by { MulPos(a, U64_MOD - 1 - b); }
    assert a * (U64_MOD - 1) <= (U64_MOD - 1) * (U64_MOD - 1) by { MulPos(U64_MOD - 1 - a, U64_MOD - 1); }
  }

  /**
   * `((t >> 64) ^ t) as u64` on a 128-bit value: the exclusive or of its high
   * and low 64-bit halves.
   */
  function Fold(t: nat): (r: u64)
    requires t < U128_MOD
    ensures r == BitXor(t / U64_MOD, t % U64_MOD)
  {
    Pow2Is64();
    BitXorLow(t / U64_MOD, t, 64);
    assert (t / U64_MOD) % U64_MOD == t / U64_MOD;
    BitXor(t / U64_MOD, t) % U64_MOD
  }

  /** The state after one call of `next`. */
  function Step(s: u64): u64
  {
    (s + GAMMA) % U64_MOD
  }

  /** The value `next` returns once the state has been advanced to `s`. */
  function Output(s: u64): u64
  {
    ProductFits(s, M1);
    var m1 := Fold(s * M1);
    ProductFits(m1, M2);
    Fold(m1 * M2)
  }

  /** The state after `n` calls of `next`. */
  function StateAfter(s: u64, n: nat): u64
  {
    if n == 0 then s else Step(StateAfter(s, n - 1))
  }

  /** The first `n` values `next` returns from state `s`. */
  function Outputs(s: u64, n: nat): (r: seq<u64>)
    ensures |r| == n
  {
    if n == 0 then [] else Outputs(s, n - 1) + [Output(StateAfter(s, n))]
  }

  /** The state is a Weyl sequence: after n steps it is s + n*GAMMA modulo 2^64. */
  lemma {:induction false} StateAfterClosedForm(s: u64, n: nat)
    ensures StateAfter(s, n) == (s + n * GAMMA) % U64_MOD
  {
    if n > 0 {
      StateAfterClosedForm(s, n - 1);
      var p := s + (n - 1) * GAMMA;
      assert StateAfter(s, n) == (p % U64_MOD + GAMMA) % U64_MOD;
      ModAddLeft(p, GAMMA, U64_MOD);
      assert p + GAMMA == s + n * GAMMA;
    }
  }

  /** One step is an addition with at most one wrap-around. */
  lemma StepCases(s: u64)
    ensures Step(s) == if s + GAMMA >= U64_MOD then s + GAMMA - U64_MOD else s + GAMMA
  {
    if s + GAMMA >= U64_MOD {
      ModUnique(s + GAMMA, U64_MOD, 1, s + GAMMA - U64_MOD);
    } else {
      ModUnique(s + GAMMA, U64_MOD, 0, s + GAMMA);
    }
  }

  /** Distinct states step to distinct states, so no two seeds merge. */
  lemma StepInjective(a: u64, b: u64)
    requires Step(a) == Step(b)
    ensures a == b
  {
    StepCases(a);
    StepCases(b);
  }

  /**
   * The i-th value drawn depends on nothing but the seed and i: it is the
   * mix of the seed advanced by (i+1) increments.
   */
  lemma {:induction false} OutputsClosedForm(s: u64, n: nat, i: nat)
    requires i < n
    ensures Outputs(s, n)[i] == Output((s + (i + 1) * GAMMA) % U64_MOD)
  {
    if i == n - 1 {
      StateAfterClosedForm(s, n);
    } else {
      OutputsClosedForm(s, n - 1, i);
    }
  }

  class WyHashPRNG {
    var state: u64

    constructor(initialState: u64)
      ensures state == initialState
    {
      state := initialState;
    }

    function GetState(): (r: u64)
      reads this
      ensures r == state
    {
      state
    }

    method SetState(s: u64)
      modifies this
      ensures state == s
    {
      state := s;
    }

    /** Advance the state by GAMMA (wrapping) and mix the new state. */
    method Next() returns (r: u64)
      modifies this
      ensures state == Step(old(state))
      ensures r == Output(state)
    {
      StepCases(state);
      var s := state + GAMMA;
      if s >= U64_MOD {
        s := s - U64_MOD;
      }
      state := s;
      ProductFits(s, M1);
      var tmp := s * M1;
      var m1 := Fold(tmp);
      ProductFits(m1, M2);
      tmp := m1 * M2;
      r := Fold(tmp);
    }
  }

  /** `n` successive calls of `next` from a fresh generator return `Outputs(seed, n)`. */
  method Draw(g: WyHashPRNG, n: nat) returns (vs: seq<u64>)
    modifies g
    ensures vs == Outputs(old(g.state), n)
    ensures g.state == StateAfter(old(g.state), n)
  {
    vs := [];
    var i := 0;
    while i < n
      invariant 0 <= i <= n
      invariant g.state == StateAfter(old(g.state), i)
      invariant vs == Outputs(old(g.state), i)
    {
      var v := g.Next();
      vs := vs + [v];
      i := i + 1;
    }
  }
}
