/**
 * The effect registry: the constructors the registration tables name, the
 * per-family tables and the set of families the runtime loads, and the
 * effect interface dispatched over the built effects.
 */
module Effects {
  import opened Conf
  import opened RingBuf
  import opened BufRw
  import opened Context
  import opened Bypass
  import opened BasicDelay
  import opened DelayBuf

  /** Every constructor a registration table names. */
  datatype Maker =
    | MonoBypassMaker
    | MonoDelayBasicMaker
    | MonoPhaserMaker | FlangerMaker | ChorusMaker | VibratoMaker | WhiteChorusMaker
    | BitCrusherMaker | WaveShaperMaker
    | BiquadFilterMaker
    | CompressorMaker | DownwardExpanderMaker | LimiterMaker | NoiseGateMaker
    | OceanPitchShifterMaker | VocoderBypassMaker | RobotizeMaker | WhisperMaker

  /**
   * `FactoryExtension`: the effect names of one family and their
   * constructors. Each constructor comes with its information function,
   * `InfoFor` below.
   */
  type FactoryExtension = map<string, Maker>

  /**
   * The parameter tables of the effects whose implementation lies outside
   * this model; they come with those effects and enter as a parameter.
   */
  type ForeignInfo = Maker -> seq<AdvertisedParameter>

  /** The information function registered beside each constructor. */
  function InfoFor(m: Maker, foreign: ForeignInfo): seq<AdvertisedParameter>
  {
    match m
    case MonoBypassMaker => MonoBypass.Info()
    case MonoDelayBasicMaker => MonoDelayBasic.Info()
    case VocoderBypassMaker => VocoderBypass.Info()
    case _ => foreign(m)
  }

  function BypassEffects(): FactoryExtension
  {
    map["Bypass/Mono" := MonoBypassMaker]
  }

  function DelayEffects(): FactoryExtension
  {
    map["Delay/Basic" := MonoDelayBasicMaker]
  }

  function ModulationEffects(): FactoryExtension
  {
    map[
      "Modulation/Phaser" := MonoPhaserMaker,
      "Modulation/Flanger" := FlangerMaker,
      "Modulation/Chorus" := ChorusMaker,
      "Modulation/Vibrato" := VibratoMaker,
      "Modulation/WhiteChorus" := WhiteChorusMaker]
  }

  function NonlinearProcessingEffects(): FactoryExtension
  {
    map[
      "NonLinear/BitCrusher" := BitCrusherMaker,
      "NonLinear/WaveShaper" := WaveShaperMaker]
  }

  function MiscEffects(): FactoryExtension
  {
    map["Filter/Biquad" := BiquadFilterMaker]
  }

  function DynamicsEffects(): FactoryExtension
  {
    map[
      "Dynamics/BasicCompressor" := CompressorMaker,
      "Dynamics/BasicDownwardExpander" := DownwardExpanderMaker,
      "Dynamics/BasicLimiter" := LimiterMaker,
      "Dynamics/BasicNoiseGate" := NoiseGateMaker]
  }

  function VocoderEffects(): FactoryExtension
  {
    map[
      "PitchShifter/Ocean" := OceanPitchShifterMaker,
      "Vocoder/Bypass" := VocoderBypassMaker,
      "Vocoder/Robotize" := RobotizeMaker,
      "Vocoder/Whisper" := WhisperMaker]
  }

  /** The reverb family registers nothing. */
  function ReverbEffects(): FactoryExtension
  {
    map[]
  }

  /** `loaded_set`: the families the runtime loads, in lookup order. */
  function LoadedSet(): seq<FactoryExtension>
  {
    [ BypassEffects(), DelayEffects(), MiscEffects(), ModulationEffects(),
      NonlinearProcessingEffects(), DynamicsEffects(), VocoderEffects(), ReverbEffects() ]
  }

  /** The loaded set has eight families, the reverb family last and empty. */
  lemma LoadedSetShape()
    ensures |LoadedSet()| == 8 && LoadedSet()[7] == map[]
  {
  }

  /** "Bypass/Mono" builds the mono bypass and "Delay/Basic" the basic delay. */
  lemma ReferenceEffectsRegistered()
    ensures "Bypass/Mono" in LoadedSet()[0] && LoadedSet()[0]["Bypass/Mono"] == MonoBypassMaker
    ensures "Delay/Basic" in LoadedSet()[1] && LoadedSet()[1]["Delay/Basic"] == MonoDelayBasicMaker
  {
  }

  /** The loaded family a name's first two letters point to; 8 for none. */
  function Owner(first: char, second: char): nat
  {
    if first == 'B' then 0
    else if first == 'D' then (if second == 'e' then 1 else if second == 'y' then 5 else 8)
    else if first == 'F' then 2
    else if first == 'M' then 3
    else if first == 'N' then 4
    else if first == 'P' || first == 'V' then 6
    else 8
  }

  /** Every name family `i` registers begins with two letters that point back to family `i`. */
  lemma FamilyTagged(i: nat)
    requires i < |LoadedSet()|
    ensures forall name :: name in LoadedSet()[i] ==> |name| >= 2 && Owner(name[0], name[1]) == i
  {
    if i < 4 {
      FrontTagged(i);
    } else {
      BackTagged(i);
    }
  }

  /** `FamilyTagged` for the bypass, delay, misc and modulation families. */
  lemma FrontTagged(i: nat)
    requires i < 4
    ensures forall name :: name in LoadedSet()[i] ==> |name| >= 2 && Owner(name[0], name[1]) == i
  {
    forall name | name in LoadedSet()[i]
      ensures |name| >= 2 && Owner(name[0], name[1]) == i
    {
      if i == 0 {
        assert name == "Bypass/Mono";
      } else if i == 1 {
        assert name == "Delay/Basic";
      } else if i == 2 {
        assert name == "Filter/Biquad";
      } else {
        assert name in ModulationEffects();
      }
    }
  }

  /** `FamilyTagged` for the nonlinear, dynamics, vocoder and reverb families. */
  lemma BackTagged(i: nat)
    requires 4 <= i < |LoadedSet()|
    ensures forall name :: name in LoadedSet()[i] ==> |name| >= 2 && Owner(name[0], name[1]) == i
  {
    forall name | name in LoadedSet()[i]
      ensures |name| >= 2 && Owner(name[0], name[1]) == i
    {
      if i == 4 {
        assert name in NonlinearProcessingEffects();
      } else if i == 5 {
        assert name in DynamicsEffects();
      } else if i == 6 {
        assert name in VocoderEffects();
      }
    }
  }

  /** No effect name is registered by two of the loaded families. */
  lemma LoadedNamesDistinct()
    ensures forall i, j, name :: 0 <= i < j < |LoadedSet()| && name in LoadedSet()[i] ==> name !in LoadedSet()[j]
  {
    forall i, j | 0 <= i < j < |LoadedSet()|
      ensures forall name :: name in LoadedSet()[i] ==> name !in LoadedSet()[j]
    {
      FamilyTagged(i);
      FamilyTagged(j);
    }
  }

  /** A built effect: one of the two this model implements, or another known by its constructor and table. */
  datatype EffectUnit =
    | MonoBypassUnit(bypass: MonoBypass)
    | DelayUnit(delay: MonoDelayBasic)
    | Unmodelled(maker: Maker, info: seq<AdvertisedParameter>)
  {
    /** The constructor that built the effect. */
    function Kind(): Maker
    {
      match this
      case MonoBypassUnit(_) => MonoBypassMaker
      case DelayUnit(_) => MonoDelayBasicMaker
      case Unmodelled(m, _) => m
    }
  }

  /** `advertise_parameters` through the effect interface. */
  function Advertised(u: EffectUnit): seq<AdvertisedParameter>
  {
    match u
    case MonoBypassUnit(b) => b.AdvertiseParameters()
    case DelayUnit(d) => d.AdvertiseParameters()
    case Unmodelled(_, info) => info
  }

  /** The objects a built effect owns. */
  function Repr(u: EffectUnit): set<object>
    reads if u.DelayUnit? then {u.delay.delayBuf} else {}
  {
    if u.DelayUnit? then {u.delay, u.delay.delayBuf, u.delay.delayBuf.buf, u.delay.delayBuf.buf.data} else {}
  }

  /** The objects `set_effect_parameter` may change. */
  function Settings(u: EffectUnit): set<object>
  {
    if u.DelayUnit? then {u.delay, u.delay.delayBuf} else {}
  }

  /** What the model tracks of an effect's state: the delay's parameters and its delay setting. */
  datatype UnitState =
    | Stateless
    | DelayState(params: seq<ParamValue>, setting: DelaySetting, capacity: nat, sampleRate: real)

  ghost function State(u: EffectUnit): UnitState
    reads Settings(u)
  {
    if u.DelayUnit? then
      var b := u.delay.delayBuf;
      DelayState(u.delay.params, b.Setting(), b.buf.capacity, b.sampleRate)
    else Stateless
  }

  /** A well-formed effect whose delay taps stay inside its ring. */
  ghost predicate Healthy(u: EffectUnit)
    reads Repr(u)
  {
    u.DelayUnit? ==> u.delay.Valid() && u.delay.Tappable()
  }

  /** What `set_effect_parameter` demands: the delay has three parameters and a ring to clamp into. */
  predicate Fits(s: UnitState, paramIdx: nat, value: ParamValue)
  {
    s.DelayState? ==>
      && paramIdx < |s.params|
      && (paramIdx == PARAM_DELAY_TIME_MS ==> AsFlt(value) < 0.0 || s.capacity >= 1)
  }

  /**
   * The state after `set_effect_parameter`: the delay stores the value at
   * its index, and a delay time is also applied to the line, clamped;
   * other effects keep no state this model tracks.
   */
  function ApplySet(s: UnitState, paramIdx: nat, value: ParamValue): UnitState
    requires Fits(s, paramIdx, value)
  {
    match s
    case Stateless => s
    case DelayState(ps, setting, cap, rate) =>
      DelayState(ps[paramIdx := value],
                 if paramIdx == PARAM_DELAY_TIME_MS then SetDelayTime(cap, rate, setting, AsFlt(value), true) else setting,
                 cap, rate)
  }

  /** The delay taps of a state lie inside its ring. */
  predicate TapsFit(s: UnitState)
  {
    s.DelayState? ==> 0 <= s.setting.whole && s.setting.whole + 2 <= s.capacity
  }

  /**
   * Setting any parameter keeps the taps inside the ring; a ring of two or
   * more samples is all the delay time needs.
   */
  lemma ApplySetKeepsTaps(s: UnitState, paramIdx: nat, value: ParamValue)
    requires TapsFit(s) && (s.DelayState? ==> paramIdx < |s.params|)
    ensures Fits(s, paramIdx, value)
    ensures TapsFit(ApplySet(s, paramIdx, value))
    ensures s.DelayState? ==> |ApplySet(s, paramIdx, value).params| == |s.params|
  {
    if s.DelayState? && paramIdx == PARAM_DELAY_TIME_MS && AsFlt(value) >= 0.0 {
      assert Accepted(s.capacity, s.sampleRate, AsFlt(value), true);
    }
  }

  /** A healthy effect's state has its taps inside the ring. */
  lemma HealthyTaps(u: EffectUnit)
    requires Healthy(u)
    ensures TapsFit(State(u))
    ensures u.DelayUnit? ==> |State(u).params| == |Advertised(u)|
  {
  }

  /**
   * What a freshly built effect looks like: only the basic delay's
   * constructor builds a delay, which is valid, holds its default
   * parameters, has no delay set yet and a ring sized for the configured
   * rate.
   */
  ghost predicate Newborn(u: EffectUnit, ac: AudioConfig)
    reads Repr(u)
  {
    && (u.DelayUnit? <==> u.Kind() == MonoDelayBasicMaker)
    && (u.DelayUnit? ==>
         && u.delay.Valid()
         && u.delay.params == [F(1000.0), F(0.0), F(0.5)]
         && State(u).setting == DelaySetting(0.0, 0, 0.0)
         && State(u).sampleRate == ac.sampleRate
         && State(u).capacity == CapacityFor(ac.sampleRate, MAX_DELAY_MS))
  }

  /**
   * Runs a constructor with the audio configuration: the built effect
   * advertises the table registered beside the constructor, and a basic
   * delay starts with its default parameters and a ring for the configured
   * rate.
   */
  method Construct(m: Maker, foreign: ForeignInfo, ac: AudioConfig) returns (u: EffectUnit)
    ensures u.Kind() == m && Advertised(u) == InfoFor(m, foreign)
    ensures fresh(Repr(u)) && Newborn(u, ac)
  {
    match m
    case MonoBypassMaker =>
      var b := new MonoBypass();
      u := MonoBypassUnit(b);
    case MonoDelayBasicMaker =>
      var d := new MonoDelayBasic(ac);
      u := DelayUnit(d);
    case _ =>
      u := Unmodelled(m, InfoFor(m, foreign));
  }

  /** `set_effect_parameter` through the effect interface. */
  method SetEffectParameter(u: EffectUnit, paramIdx: nat, value: ParamValue)
    requires Healthy(u) && (u.DelayUnit? ==> paramIdx < |u.delay.params|)
    modifies Settings(u)
    ensures Healthy(u) && Repr(u) == old(Repr(u)) && (u.DelayUnit? ==> u.delay.delayBuf.buf == old(u.delay.delayBuf.buf))
    ensures State(u) == ApplySet(old(State(u)), paramIdx, value)
  {
    HealthyTaps(u);
    ApplySetKeepsTaps(State(u), paramIdx, value);
    match u
    case MonoBypassUnit(b) =>
      b.SetEffectParameter(paramIdx, value);
    case DelayUnit(d) =>
      d.SetEffectParameter(paramIdx, value);
    case Unmodelled(_, _) =>
  }

  /** The objects a built effect's processing changes besides the graph: a delay's ring and its storage. */
  function Rings(u: EffectUnit): set<object>
    reads if u.DelayUnit? then {u.delay.delayBuf} else {}
  {
    if u.DelayUnit? then {u.delay.delayBuf.buf, u.delay.delayBuf.buf.data} else {}
  }

  /**
   * Everything one `execute` of `u` on the connection at `connectionIdx`
   * may change: the storage behind the connection's first output, when
   * the connection has one and the effect is modelled, and the effect's
   * own ring. Every other graph buffer and every other effect's line is
   * left as it was.
   */
  function RunFrame(u: EffectUnit, ctx: BoardContext, connectionIdx: nat): set<object>
    requires connectionIdx < |ctx.connections| && ConnectionMapped(ctx.connections[connectionIdx])
    requires |ctx.externalOuts| == MAX_EXTERNAL_OUTS
    reads ctx, if u.DelayUnit? then {u.delay.delayBuf} else {}
  {
    var c := ctx.connections[connectionIdx];
    (if |c.outputIdxs| > 0 && !u.Unmodelled? then ctx.GetBufferForWrite(c.outputIdxs[0]).Footprint() else {})
      + Rings(u)
  }

  /**
   * What one `execute` of an effect on the connection at `connectionIdx`
   * leaves behind. The mono bypass appends the first input's block (or
   * zeros when there is no input) to the first output. The basic delay
   * appends zeros when there is no input, and otherwise appends the echo
   * `DelayRun` computes from its old line, its delay setting and its
   * parameters, its line becoming the one `DelayRun` leaves; without an
   * input or an output its line is kept. An effect the model does not
   * implement is not constrained.
   */
  twostate predicate Ran(u: EffectUnit, ctx: BoardContext, connectionIdx: nat, n: nat)
    requires old(Healthy(u)) && Healthy(u) && old(ctx.Ready(n)) && ctx.Ready(n)
    requires connectionIdx < |ctx.connections| && ConnectionMapped(ctx.connections[connectionIdx])
    reads ctx, ctx.buffers, ctx.WriteSet(), Repr(u), if u.DelayUnit? then {u.delay.delayBuf} else {}
  {
    var c := ctx.connections[connectionIdx];
    match u
    case MonoBypassUnit(_) =>
      |c.outputIdxs| > 0 ==>
        (WriterUsable(ctx, n, c.outputIdxs[0]);
         ctx.GetBufferForWrite(c.outputIdxs[0]).Contents() ==
         old(ctx.GetBufferForWrite(c.outputIdxs[0]).Contents()).PutBlock(
           if |c.inputsIdxs| == 0 then Zeros(n) else old(ctx.GetBufferForRead(c.inputsIdxs[0]).ReadBlock(n))))
    case DelayUnit(d) =>
      && (|c.outputIdxs| > 0 && |c.inputsIdxs| == 0 ==>
            (WriterUsable(ctx, n, c.outputIdxs[0]);
             ctx.GetBufferForWrite(c.outputIdxs[0]).Contents() ==
             old(ctx.GetBufferForWrite(c.outputIdxs[0]).Contents()).PutBlock(Zeros(n))))
      && (|c.outputIdxs| == 0 || |c.inputsIdxs| == 0 ==> d.delayBuf.buf.State() == old(d.delayBuf.buf.State()))
      && (|c.outputIdxs| > 0 && |c.inputsIdxs| > 0 ==>
            var e := DelayRun(old(d.delayBuf.buf.State()), old(d.delayBuf.wholeDelayTimeSamples),
                              old(d.delayBuf.fractDelayTimeSamples),
                              AsFlt(d.params[PARAM_WET_DRY_PCT]), AsFlt(d.params[PARAM_FEEDBACK_PCT]),
                              old(ctx.GetBufferForRead(c.inputsIdxs[0]).ReadBlock(n)));
            (WriterUsable(ctx, n, c.outputIdxs[0]);
             && ctx.GetBufferForWrite(c.outputIdxs[0]).Contents() ==
                old(ctx.GetBufferForWrite(c.outputIdxs[0]).Contents()).PutBlock(e.out)
             && d.delayBuf.buf.State() == e.line))
    case Unmodelled(_, _) => true
  }

  /**
   * `execute` through the effect interface, for the effects this model
   * implements: the mono bypass and the basic delay write through the
   * connection's first output as their own `execute` says, the delay also
   * advancing its line. The processing of the other effects lies outside
   * this model, which lets them write nothing. No effect's parameters or
   * delay setting change.
   */
  method Execute(u: EffectUnit, ctx: BoardContext, connectionIdx: nat, numSamples: nat)
    requires Healthy(u) && ctx.Ready(numSamples) && connectionIdx < |ctx.connections|
    requires ConnectionMapped(ctx.connections[connectionIdx])
    requires u.DelayUnit? ==> u.delay.Apart(ctx)
    modifies RunFrame(u, ctx, connectionIdx)
    ensures ctx.Ready(numSamples) && Healthy(u) && Repr(u) == old(Repr(u)) && State(u) == old(State(u))
    ensures Ran(u, ctx, connectionIdx, numSamples)
  {
    match u
    case MonoBypassUnit(b) =>
      b.Execute(ctx, connectionIdx, numSamples);
    case DelayUnit(d) =>
      ExecuteDelay(d, ctx, connectionIdx, numSamples);
    case Unmodelled(_, _) =>
  }

  /** The basic delay's `execute`, stated for the effect that holds it. */
  method ExecuteDelay(d: MonoDelayBasic, ctx: BoardContext, connectionIdx: nat, numSamples: nat)
    requires Healthy(DelayUnit(d)) && ctx.Ready(numSamples) && connectionIdx < |ctx.connections|
    requires ConnectionMapped(ctx.connections[connectionIdx]) && d.Apart(ctx)
    modifies (var c := ctx.connections[connectionIdx];
      if |c.outputIdxs| > 0 then ctx.GetBufferForWrite(c.outputIdxs[0]).Footprint() else {}),
      d.delayBuf.buf, d.delayBuf.buf.data
    ensures ctx.Ready(numSamples) && Healthy(DelayUnit(d))
    ensures Repr(DelayUnit(d)) == old(Repr(DelayUnit(d))) && State(DelayUnit(d)) == old(State(DelayUnit(d)))
    ensures var c := ctx.connections[connectionIdx];
      && (|c.outputIdxs| > 0 && |c.inputsIdxs| == 0 ==>
            ctx.GetBufferForWrite(c.outputIdxs[0]).Contents() ==
            old(ctx.GetBufferForWrite(c.outputIdxs[0]).Contents()).PutBlock(Zeros(numSamples)))
      && (|c.outputIdxs| == 0 || |c.inputsIdxs| == 0 ==> d.delayBuf.buf.State() == old(d.delayBuf.buf.State()))
      && (|c.outputIdxs| > 0 && |c.inputsIdxs| > 0 ==>
            var e := DelayRun(old(d.delayBuf.buf.State()), old(d.delayBuf.wholeDelayTimeSamples),
                              old(d.delayBuf.fractDelayTimeSamples),
                              AsFlt(d.params[PARAM_WET_DRY_PCT]), AsFlt(d.params[PARAM_FEEDBACK_PCT]),
                              old(ctx.GetBufferForRead(c.inputsIdxs[0]).ReadBlock(numSamples)));
            && ctx.GetBufferForWrite(c.outputIdxs[0]).Contents() ==
               old(ctx.GetBufferForWrite(c.outputIdxs[0]).Contents()).PutBlock(e.out)
            && d.delayBuf.buf.State() == e.line)
  {
    ghost var w := var c := ctx.connections[connectionIdx];
      if |c.outputIdxs| > 0 then ctx.GetBufferForWrite(c.outputIdxs[0]).Footprint() else {};
    assert d !in w && d.delayBuf !in w;
    d.Execute(ctx, connectionIdx, numSamples);
  }
}
