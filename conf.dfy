/**
 * Configuration records of the runtime, as they stand after the JSON
 * configuration has been parsed, and the tagged parameter value with its
 * conversions.
 */
module Conf {

  const I32_MIN: int := -0x8000_0000
  const I32_MAX: int := 0x7fff_ffff

  type i32 = x: int | I32_MIN <= x <= I32_MAX

  /** Sample rate and the largest block the host will ever ask for. */
  datatype AudioConfig = AudioConfig(sampleRate: real, maxBlockSize: nat)

  /** A parameter value is an integer (`N`) or a float (`F`), nothing else. */
  datatype ParamValue = N(n: i32) | F(f: real)

  datatype ParameterRange = NRange(nLo: i32, nHi: i32) | FRange(fLo: real, fHi: real)

  datatype AdvertisedParameter = AdvertisedParameter(name: string, range: ParameterRange, defaultValue: ParamValue)

  datatype BoardEffectConfigParameter = BoardEffectConfigParameter(name: string, value: ParamValue)

  datatype BoardEffectDeclaration = BoardEffectDeclaration(
    effectName: string,
    bindName: string,
    config: seq<BoardEffectConfigParameter>,
    enabled: bool)

  datatype BoardConnectionDeclaration = BoardConnectionDeclaration(
    effect: string,
    readNames: seq<string>,
    writeNames: seq<string>)

  datatype BoardConfig = BoardConfig(
    buffers: seq<string>,
    effects: seq<BoardEffectDeclaration>,
    connections: seq<BoardConnectionDeclaration>)

  /** Rounding half away from zero, as `f32::round` does. */
  function Round(x: real): (r: int)
    ensures (r as real) - 0.5 <= x <= (r as real) + 0.5
    ensures x >= 0.0 ==> r >= 0
    ensures x < 0.0 ==> r <= 0
  {
    if x >= 0.0 then (x + 0.5).Floor else -((-x + 0.5).Floor)
  }

  /** The saturating `as i32` conversion. */
  function SaturateI32(x: int): (r: i32)
    ensures I32_MIN <= x <= I32_MAX ==> r == x
    ensures x > I32_MAX ==> r == I32_MAX
    ensures x < I32_MIN ==> r == I32_MIN
  {
    if x > I32_MAX then I32_MAX else if x < I32_MIN then I32_MIN else x
  }

  /** `as_int`: integers unchanged, floats rounded and saturated. */
  function AsInt(v: ParamValue): (r: i32)
    ensures v.N? ==> r == v.n
    ensures v.F? && I32_MIN as real <= v.f <= I32_MAX as real ==> (r as real) - 0.5 <= v.f <= (r as real) + 0.5
  {
    match v
    case N(x) => x
    case F(x) => SaturateI32(Round(x))
  }

  /** `as_flt`: floats unchanged, integers converted. */
  function AsFlt(v: ParamValue): (r: real)
    ensures v.F? ==> r == v.f
    ensures v.N? ==> r == v.n as real
  {
    match v
    case N(x) => x as real
    case F(x) => x
  }

  /**
   * `as_enum` for a C-like enumeration whose variants have the discriminants
   * 0 .. variantCount - 1: a valid discriminant gives that variant, anything
   * else the default variant.
   */
  function AsEnum(v: ParamValue, variantCount: nat, default: nat): (r: nat)
    requires default < variantCount
    ensures r < variantCount
    ensures 0 <= AsInt(v) < variantCount ==> r == AsInt(v)
    ensures !(0 <= AsInt(v) < variantCount) ==> r == default
  {
    var d := AsInt(v);
    if 0 <= d < variantCount then d else default
  }

  /**
   * An integer value of magnitude at most 2^24 converts to a float and
   * back unchanged; within that range every integer is exactly a 32-bit
   * float, so the model's reals agree with the source's conversion.
   */
  lemma AsIntOfAsFlt(x: i32)
    requires -0x100_0000 <= x <= 0x100_0000
    ensures AsInt(F(AsFlt(N(x)))) == x
  {
    var r := Round(x as real);
    assert (r as real) - 0.5 <= x as real <= (r as real) + 0.5;
    assert r - 1 < x < r + 1;
  }
}
