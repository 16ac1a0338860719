# otters-rt graph runtime, modelled in Dafny

otters-rt runs a board of audio effects. A configuration declares named
buffers, effect instances (an effect name, a bind name, initial parameter
values and an enable flag) and connections (an effect reading some buffers
and writing others). `Otters::create` builds every declared effect through
a factory of name-to-constructor tables, builds the buffer graph (internal
buffers are rings, `@SOURCE_k` / `@SINK_k` are host arrays), orders the
effects by ordinal, hands out global parameter indices and applies the
initial configuration. `frolic` then runs one block: it visits the stored
connections in order and runs each connection's effect, or a generic
bypass when that effect is disabled.

This project models that runtime and proves what it promises:

- the buffer primitives (`RingBuf`, `BufRw`, `DelayBuf`): the
  power-of-two collection ring with masked indices, the modulo-`limit`
  write ring, the two-slot history, the clamped delay-length arithmetic;
- the graph (`Context`): name-to-index assignment, storage allocation,
  connection validation with all its error cases, and the dispatch of
  read and write indices to null, internal or host access;
- the effect registry and factory (`Effects`, `Factory`), the parameter
  index registry (`Param`), the reference effects (`Bypass`,
  `BasicDelay`, `EffectsIo`);
- the runtime (`Otters`): `create` from a parsed configuration,
  `set_effect_parameter`, `bind_input` / `bind_output` and `frolic`;
- the small helpers (`Conf`, `MathUtils`, `FastRand`).

Samples are `real`. Integer widths are modelled where they matter: the
WyHash state wraps modulo 2^64, the 128-bit products are shown not to
overflow, `as i32` saturates. Objects the source updates in place are
classes (`SimpleFloatBuffer`, `FFTCollectionBuffer`, `TinyFloatBuffer`,
`DelayBuffer`, `MonoDelayBasic`, `BoardContext`, `ParameterMappingManager`,
`EffectFactory`, `WyHashPRNG`, `Otters`); boxed trait objects
(`Box<dyn AudioEffect>`) become the datatype `Effects.EffectUnit`, with one
variant per modelled effect and one for effects whose processing is not
modelled. Host arrays bound through `bind_input` / `bind_output` are
`Option<array<real>>`, with `None` for a null pointer.

Where the code and its comments disagree, the model follows the code:

- An internal buffer is a ring that ignores the index it is given on
  write and reads `data[(write_idx + idx) % limit]`, so a block written
  and read back lines up only when its length is a multiple of the ring's
  limit (`RingBuf.Realigned`, `RingBuf.BlockReadBack`,
  `RingBuf.ShortBlockMisreads`).
- `bind_source` / `bind_sink` accept indices below 10 but the tables
  have 6 entries; indices 6 to 9 are excluded by a precondition (they
  panic in the source), and `@SOURCE_7` is still accepted at build time.
- `GenericBypass` zeroes the buffer at the raw loop index, not at the
  extra output the comment names (`Bypass.GenericPlanMissesSink`).
- A repeated bind name is not rejected: the later declaration replaces
  the earlier entry and the ordinal counter still advances, so ordinals
  skip, a connection on the first name runs the wrong effect and one on
  the last name is out of range (`Otters.DuplicateBindNameMisroutes`).
  The properties about declaration order are proved for distinct bind
  names.
- A delay line of capacity below two underflows in the clamped set; the
  model requires a capacity of at least two where a basic delay is built.

## Model

| member | source | states |
|---|---|---|
| MathUtils.IsPowerOf2 | src/utils/mathutils.rs:41-51 | zero is not a power of two; a true answer implies v >= 1 |
| MathUtils.IsPowerOf2Iff | src/utils/mathutils.rs:46-50 | `v & (v - 1) == 0` with v nonzero holds exactly when v is 2^k for some k |
| MathUtils.PowerOf2OfPow2 | src/utils/mathutils.rs:46-50 | every 2^k passes the test |
| MathUtils.Pow2OfPowerOf2 | src/utils/mathutils.rs:46-50 | every value that passes the test is 2^k for the k returned |
| MathUtils.BitAndLowMask | src/utils/ringbuf.rs:74-77 | masking with 2^k - 1 is the remainder modulo 2^k, which the index wrap relies on |
| MathUtils.Lerp | src/utils/mathutils.rs:24-27 | t = 0 gives x, t = 1 gives y, equal ends give that end, and for t in [0, 1] the result lies between x and y |
| MathUtils.BipolarLerp | src/utils/mathutils.rs:29-34 | t = -1 gives x, t = 1 gives y, t = 0 gives the midpoint, and it is `lerp` at (t + 1) / 2 |
| Conf.Round | src/conf.rs:20 | `f32::round`: the result is within one half of x and has x's sign |
| Conf.SaturateI32 | src/conf.rs:20 | the `as i32` cast keeps in-range values and saturates the rest at the i32 bounds |
| Conf.AsInt | src/conf.rs:17-22 | `N(x)` gives x; an in-range `F(x)` gives x rounded to within one half |
| Conf.AsFlt | src/conf.rs:24-29 | `F(x)` gives x; `N(x)` gives x converted |
| Conf.AsEnum | src/conf.rs:31-41 | total: a valid discriminant gives that variant, anything else gives the default |
| Conf.AsIntOfAsFlt | src/conf.rs:17-29 | an integer of magnitude at most 2^24, where every integer is an exact 32-bit float, converted to a float and rounded back is unchanged |
| FastRand.ProductFits | src/utils/fast_rand.rs:32-38 | the product of two 64-bit values is below 2^128, so neither 128-bit multiplication overflows |
| FastRand.Fold | src/utils/fast_rand.rs:36-40 | the low 64 bits of `(t >> 64) ^ t` are the xor of t's high and low halves |
| FastRand.StateAfterClosedForm | src/utils/fast_rand.rs:26-31 | after n draws the state is s + n times the increment, modulo 2^64 (release-build wrap) |
| FastRand.StepCases | src/utils/fast_rand.rs:29 | one step adds the increment and subtracts 2^64 exactly when the sum reaches it |
| FastRand.StepInjective | src/utils/fast_rand.rs:29 | different states step to different states |
| FastRand.OutputsClosedForm | src/utils/fast_rand.rs:26-42 | the i-th draw depends only on the state advanced i + 1 times, so equal states give equal sequences |
| FastRand.WyHashPRNG.constructor | src/utils/fast_rand.rs:12-16 | the state is the seed given |
| FastRand.WyHashPRNG.GetState | src/utils/fast_rand.rs:18-20 | returns the state |
| FastRand.WyHashPRNG.SetState | src/utils/fast_rand.rs:22-24 | the state becomes the value given, so a later `get_state` returns it |
| FastRand.WyHashPRNG.Next | src/utils/fast_rand.rs:26-43 | the state advances by one step and the result is the mixing of the new state |
| FastRand.Draw | src/utils/fast_rand.rs:26-43 | n calls of `next` return the first n outputs from the old state and leave the state advanced n times |
| FastRand.Outputs | src/utils/fast_rand.rs:26-43 | exactly n values, the i-th the mixing of the state advanced i + 1 times |
| RingBuf.Zeros | src/utils/ringbuf.rs:129-131 | a block of n zeros |
| RingBuf.Ring.Write | src/utils/ringbuf.rs:153-156 | stores v at the write index, changes no other slot, and the new write index stays below the limit |
| RingBuf.Ring.WriteAll | src/utils/ringbuf.rs:153-156 | successive writes keep the ring well formed with the same limit and size |
| RingBuf.WriteAllPosition | src/utils/ringbuf.rs:155 | after n writes the write index is the old one plus n, modulo the limit |
| RingBuf.WriteAllUntouched | src/utils/ringbuf.rs:153-156 | slots the writes do not reach keep their values |
| RingBuf.WriteAllSlot | src/utils/ringbuf.rs:153-156 | the i-th of at most `limit` writes lands at the write index plus i, modulo the limit |
| RingBuf.History | src/utils/ringbuf.rs:153-169 | reading at `limit - d` after a block of writes returns the d-th most recent sample |
| RingBuf.BlockReadBack | src/utils/ringbuf.rs:153-169 | a block of exactly `limit` writes is read back in order at indices 0 .. limit - 1 |
| RingBuf.Realigned | src/utils/ringbuf.rs:155-168 | the write index returns to where it started exactly when the block length is a multiple of the limit |
| RingBuf.ShortBlockMisreads | src/utils/ringbuf.rs:153-169 | a block of one sample written to a ring of limit two is not read back at index 0 |
| RingBuf.SimpleFloatBuffer.State | src/utils/ringbuf.rs:20-25 | the buffer's data, limit and write index as a ring value |
| RingBuf.SimpleFloatBuffer.WithMaxCapacity | src/utils/ringbuf.rs:125-139 | c zero slots, limit c, write index 0 |
| RingBuf.SimpleFloatBuffer.GetCapacity | src/utils/ringbuf.rs:141-143 | returns the capacity |
| RingBuf.SimpleFloatBuffer.GetLimit | src/utils/ringbuf.rs:145-147 | returns the limit |
| RingBuf.SimpleFloatBuffer.SetLimit | src/utils/ringbuf.rs:149-151 | the limit becomes the smaller of the capacity and the value given; the write index is kept |
| RingBuf.SimpleFloatBuffer.Write | src/utils/ringbuf.rs:153-156 | the buffer becomes the ring after `Ring.Write(v)`; needs a positive limit |
| RingBuf.SimpleFloatBuffer.Clear | src/utils/ringbuf.rs:158-164 | every capacity slot is zero and the write index is 0; the limit is kept |
| RingBuf.SimpleFloatBuffer.Read | src/utils/ringbuf.rs:166-169 | returns `data[(write_idx + idx) % limit]` |
| RingBuf.FFTCollectionBuffer.New | src/utils/ringbuf.rs:33-50 | Some exactly when the length is a power of two, then zero-filled with both indices 0 |
| RingBuf.FFTCollectionBuffer.Init | src/utils/ringbuf.rs:38-47 | zero-filled with both indices 0 |
| RingBuf.FFTCollectionBuffer.GetReadIdx | src/utils/ringbuf.rs:52-54 | returns the read index |
| RingBuf.FFTCollectionBuffer.GetWriteIdx | src/utils/ringbuf.rs:56-58 | returns the write index |
| RingBuf.FFTCollectionBuffer.SetReadIdx | src/utils/ringbuf.rs:60-65 | the read index becomes the value given, clamped to length - 1 |
| RingBuf.FFTCollectionBuffer.SetWriteIdx | src/utils/ringbuf.rs:67-72 | the write index becomes the value given, clamped to length - 1 |
| RingBuf.FFTCollectionBuffer.MaskIsMod | src/utils/ringbuf.rs:40-76 | masking with the stored mask is the remainder modulo the length |
| RingBuf.FFTCollectionBuffer.AdvanceReadIdx | src/utils/ringbuf.rs:74-77 | the read index becomes (idx + 1) mod length |
| RingBuf.FFTCollectionBuffer.AdvanceWriteIdx | src/utils/ringbuf.rs:97-100 | the write index becomes (idx + 1) mod length |
| RingBuf.FFTCollectionBuffer.AdvanceBothIdx | src/utils/ringbuf.rs:102-105 | both indices advance by one modulo the length |
| RingBuf.FFTCollectionBuffer.RewindReadIdx | src/utils/ringbuf.rs:79-86 | the read index becomes (idx - count) mod length, for a count that does not underflow |
| RingBuf.FFTCollectionBuffer.RewindWriteIdx | src/utils/ringbuf.rs:88-95 | the write index becomes (idx - count) mod length, for a count that does not underflow |
| RingBuf.FFTCollectionBuffer.GetAtIdx | src/utils/ringbuf.rs:107-109 | returns the slot |
| RingBuf.FFTCollectionBuffer.SetAtIdx | src/utils/ringbuf.rs:111-113 | changes only that slot, and reading it afterwards returns the value |
| RingBuf.FFTCollectionBuffer.GetAtReadIdx | src/utils/ringbuf.rs:115-117 | returns the slot at the read index |
| RingBuf.FFTCollectionBuffer.SetAtWriteIdx | src/utils/ringbuf.rs:119-121 | changes only the slot at the write index |
| RingBuf.TinyFloatBuffer.constructor | src/utils/ringbuf.rs:173-177 | both history values are zero |
| RingBuf.TinyFloatBuffer.Z2 | src/utils/ringbuf.rs:179-181 | the slot at the next write index, which holds the older of the two samples |
| RingBuf.TinyFloatBuffer.Z1 | src/utils/ringbuf.rs:183-186 | the other slot, which holds the newest sample |
| RingBuf.TinyFloatBuffer.Write | src/utils/ringbuf.rs:188-191 | the newest value becomes v and the older one the previous newest, so `write(a); write(b)` leaves z1 = b, z2 = a |
| BufRw.AudioBufferReader.BufRead | src/utils/buf_rw.rs:22-59 | Null reads 0; Internal reads the ring at idx; External reads 0 through a null pointer and the host array otherwise |
| BufRw.AudioBufferReader.ReadBlock | src/utils/buf_rw.rs:22-28 | the block of the first n reads |
| BufRw.UnsafeBufRead | src/utils/buf_rw.rs:53-59 | a null pointer reads 0, otherwise the array cell |
| BufRw.UnsafeBufWrite | src/utils/buf_rw.rs:61-69 | a null pointer changes nothing, otherwise only the indexed cell changes |
| BufRw.Sink.Put | src/utils/buf_rw.rs:32-38 | one write on what a writer reaches |
| BufRw.Sink.PutBlock | src/utils/buf_rw.rs:32-38 | a block of writes at indices 0 .. |vs| - 1 keeps the sink able to accept every size it accepted |
| BufRw.PutBlockPrefix | src/utils/buf_rw.rs:32-38 | writing the first j + 1 samples is writing the first j and then sample j at index j |
| BufRw.PutBlockRing | src/utils/buf_rw.rs:35 | writing a block through an internal writer is the ring's writes in order, whatever indices are given |
| BufRw.PutBlockHost | src/utils/buf_rw.rs:36-67 | writing a block through a host array puts sample i at cell i |
| BufRw.PutBlockNone | src/utils/buf_rw.rs:34 | a null writer changes nothing |
| BufRw.HostReadBack | src/utils/buf_rw.rs:58-67 | a host write at idx is read back at idx and leaves every other cell alone |
| BufRw.AudioBufferWriter.BufWrite | src/utils/buf_rw.rs:32-38 | what the writer reaches becomes one `Put(idx, value)` of what it reached before |
| BufRw.AudioBufferWriter.Contents | src/utils/buf_rw.rs:14-19 | what the writer reaches: nothing, a ring, or the host array |
| Bypass.CopyBlock | src/effects/bypass.rs:62-94 | the writer's contents become its old contents followed by the block read from the reader |
| Bypass.CopySample | src/effects/bypass.rs:62-65 | one sample copy: the writer gets `Put(j, v)` with v the reader's sample j from before the call, and the reader's block is unchanged |
| Bypass.MonoBypass.AdvertiseParameters | src/effects/bypass.rs:45-47 | advertises no parameters |
| Bypass.MonoBypass.Execute | src/effects/bypass.rs:54-66 | no output: nothing written; output but no input: n zeros to the first output; otherwise the first input's n samples copied to the first output |
| Bypass.MonoBypass.constructor | src/effects/bypass.rs:19-21 | a bypass with no state |
| Bypass.MonoBypass.Info | src/effects/bypass.rs:23-25 | the shared empty table `PARAMS` |
| Bypass.MonoBypass.SetEffectParameter | src/effects/bypass.rs:51-52 | has no effect: the method may change nothing |
| Bypass.MonoBypass.SetAudioParameters | src/effects/bypass.rs:49 | has no effect: the method may change nothing |
| Bypass.GenericPlan | src/effects/bypass.rs:83-111 | output k gets input k for k below both counts; with no more inputs than outputs each further output position k is silenced at the raw index k; extra inputs are ignored |
| Bypass.StepBlock | src/effects/bypass.rs:92-104 | a copy step's block is its input's n samples, a silence step's block is n zeros |
| Bypass.Blocks | src/effects/bypass.rs:88-106 | one block per plan step, each that step's block |
| Bypass.Replay | src/effects/bypass.rs:88-106 | the writes of the plan's steps that address buffer w, in plan order; the result still accepts n samples |
| Bypass.ReplayExtend | src/effects/bypass.rs:88-106 | replaying one more step adds that step's block exactly when it addresses w |
| Bypass.ReplayStart | src/effects/bypass.rs:83-86 | before any step, every writable buffer is in its starting contents |
| Bypass.PlanReadableWhenReady | src/effects/bypass.rs:89 | every input a mapped plan reads can be read for n samples |
| Bypass.CopyKeepingReaders | src/effects/bypass.rs:89-94 | copies one block and leaves the blocks of later copy steps alone unless they read the buffer just written |
| Bypass.CopyStep | src/effects/bypass.rs:88-95 | one copy step moves the replay from step i to step i + 1 |
| Bypass.SilenceStep | src/effects/bypass.rs:100-106 | one silence step moves the replay from step i to step i + 1 |
| Bypass.CopyPhase | src/effects/bypass.rs:87-95 | the copy loop replays the plan's first min(inputs, outputs) steps |
| Bypass.SilencePhase | src/effects/bypass.rs:99-107 | the zeroing loop replays the remaining steps up to the plan's end |
| Bypass.ReplayUntouched | src/effects/bypass.rs:83-111 | a buffer no step writes keeps its contents |
| Bypass.ReplaySingle | src/effects/bypass.rs:88-95 | a buffer written by one step only receives that step's block |
| Bypass.GenericPlanBalanced | src/effects/bypass.rs:87-95 | with as many inputs as distinct outputs, each output receives its own input's block |
| Bypass.GenericPlanMissesSink | src/effects/bypass.rs:97-106 | a connection writing only `@SINK_0` leaves the sink alone and writes zeros to internal buffer 0 instead |
| Bypass.GenericBypass.AdvertiseParameters | src/effects/bypass.rs:70-72 | advertises no parameters |
| Bypass.GenericBypass.Execute | src/effects/bypass.rs:83-111 | every writable buffer ends as its old contents replayed through the plan's steps, with the blocks read before the call |
| Bypass.Bypassed | src/effects/bypass.rs:83-111 | what one run of the generic bypass leaves: each writable buffer is `Replay` of the connection's plan on its old contents, with the blocks read before the run |
| Bypass.GenericBypass.constructor | src/effects/bypass.rs:29-31 | a bypass with no state |
| Bypass.GenericBypass.SetEffectParameter | src/effects/bypass.rs:76-81 | has no effect: the method may change nothing |
| Bypass.GenericBypass.SetAudioParameters | src/effects/bypass.rs:74 | has no effect: the method may change nothing |
| Bypass.VocoderBypass.AdvertiseParameters | src/effects/bypass.rs:115-117 | advertises no parameters |
| Bypass.VocoderBypass.Execute | src/effects/bypass.rs:128-132 | every bin of the input is copied to the output; the rest of the output is unchanged |
| Bypass.VocoderBypass.constructor | src/effects/bypass.rs:35-37 | a bypass with no state |
| Bypass.VocoderBypass.Info | src/effects/bypass.rs:39-41 | the shared empty table `PARAMS` |
| Bypass.VocoderBypass.SetEffectParameter | src/effects/bypass.rs:121-126 | has no effect: the method may change nothing |
| DelayBuf.AsUsize | src/utils/delay_buf.rs:22 | `f32 as usize`: truncation for non-negative values, 0 for negative ones |
| DelayBuf.Trunc | src/utils/delay_buf.rs:58 | the integer part of `vmodf`, rounded toward zero |
| DelayBuf.Fract | src/utils/delay_buf.rs:58 | the fractional part of `vmodf`: integer part plus fraction is the value, and the fraction has its sign and is below one in size |
| DelayBuf.ClampInt | src/utils/delay_buf.rs:61 | `num::clamp`: the result lies in the bounds and is the value when that already does |
| DelayBuf.ClampCount | src/utils/delay_buf.rs:96-101 | a whole part of capacity - 1 becomes capacity - 2 with the fraction just below one; any other setting is kept |
| DelayBuf.SetDelayTime | src/utils/delay_buf.rs:41-64 | a negative delay, or one at or past the capacity without clamping, leaves the setting alone; an accepted one records the delay in ms, keeps the whole part in 0 .. capacity - 2 and the fraction in [0, 1) |
| DelayBuf.SetDelayTimeExact | src/utils/delay_buf.rs:46-63 | a delay more than one sample short of the capacity is kept exactly as whole part plus fraction; a longer clamped one settles at capacity - 2 plus just under one |
| DelayBuf.DelayedReadHistory | src/utils/delay_buf.rs:81-90 | the delayed read interpolates between the samples written `whole + 1` and `whole + 2` writes ago |
| DelayBuf.DelayBuffer.Setting | src/utils/delay_buf.rs:9-11 | the delay in ms with its whole and fractional sample counts |
| DelayBuf.DelayBuffer.WithSampleRateAndMaxDelay | src/utils/delay_buf.rs:19-30 | a zeroed ring of capacity `sample_rate * max_delay_ms / 1000` truncated, and a zero delay |
| DelayBuf.DelayBuffer.WithSampleRate | src/utils/delay_buf.rs:15-17 | the same with the default longest delay |
| DelayBuf.DelayBuffer.ChangeSampleRate | src/utils/delay_buf.rs:32-39 | a fresh zeroed ring for the new rate, and the stored delay in ms set again with clamping |
| DelayBuf.DelayBuffer.SetDelayTimeMs | src/utils/delay_buf.rs:41-64 | the setting becomes `SetDelayTime` of the old one; the ring is kept |
| DelayBuf.DelayBuffer.SetDelaySampleCountDirectly | src/utils/delay_buf.rs:66-71 | the split becomes the values given, with only the capacity - 1 rewrite; the delay in ms is kept |
| DelayBuf.DelayBuffer.GetDelaySampleCount | src/utils/delay_buf.rs:73-75 | whole part plus fraction |
| DelayBuf.DelayBuffer.GetSampleRate | src/utils/delay_buf.rs:77-79 | returns the sample rate |
| DelayBuf.DelayBuffer.ReadDelayedSample | src/utils/delay_buf.rs:81-90 | the ring read at `limit - whole - 1` and `limit - whole - 2`, interpolated by the fraction; the indices need `whole + 2 <= limit` |
| DelayBuf.DelayBuffer.WriteSample | src/utils/delay_buf.rs:92-94 | one ring write |
| DelayBuf.DelayBuffer.ClampDelaySampleCount | src/utils/delay_buf.rs:96-101 | the setting becomes `ClampCount` of the old one |
| Param.SetFltParamValue | src/param.rs:45-50 | the message carries the index and the value tagged `F` |
| Param.SetIntParamValue | src/param.rs:52-57 | the message carries the index and the value tagged `N` |
| Param.ParameterMappingManager.New | src/param.rs:61-67 | no mappings and empty bind-name tables |
| Param.ParameterMappingManager.NewParameter | src/param.rs:69-79 | returns the count before the call, appends the mapping and changes nothing else, so indices run 0, 1, 2, ... and earlier ones keep their pairs |
| Param.ParameterMappingManager.SetGlobalIdxsForBindName | src/param.rs:81-88 | overwrites the name's list, which a later get returns; nothing else changes |
| Param.ParameterMappingManager.SetEffectTypeForBindName | src/param.rs:90-92 | overwrites the name's effect type, which a later get returns; nothing else changes |
| Param.ParameterMappingManager.GetEffectTypeForBindName | src/param.rs:94-96 | the effect type last recorded for the bind name, which must have one |
| Param.ParameterMappingManager.GetGlobIdxsForBindName | src/param.rs:98-103 | the index list last recorded for the bind name, which must have one |
| Param.ParameterMappingManager.EffectAndParamIdx | src/param.rs:105-108 | the effect position and parameter index stored for a handed-out global index |
| Param.ParameterMappingManager.CreateAsyncParamUpdateContext | src/param.rs:111-140 | one session entry per bind name with a recorded effect type, holding that type and the name's index list; every such name must have a list |
| Factory.LookupFirst | src/factory.rs:25-35 | the search finds nothing exactly when no family holds the name, and otherwise finds the constructor of the first family, in list order, that does |
| Factory.LookupFromFirst | src/factory.rs:25-35 | the search from family i finds nothing exactly when no family from i on holds the name, and otherwise the first such family's constructor |
| Factory.LoadedLookup | src/factory.rs:23-36 | over the loaded families every name is listed at most once, and a registered name is found in the one family that registers it |
| Factory.AllNamesSize | src/factory.rs:42-52 | the listed names number the sum of the table sizes |
| Factory.AllNamesMultiplicity | src/factory.rs:42-52 | a name is listed once per family that registers it |
| Factory.AllNamesMembers | src/factory.rs:42-52 | a name is listed exactly when the search finds it |
| Factory.EffectFactory.AssembleFactory | src/factory.rs:13-21 | holds the configuration and the families given |
| Factory.EffectFactory.CreateEffectUnit | src/factory.rs:23-36 | None exactly when no family has the name; otherwise a fresh effect of the first family's constructor, built for the factory's current configuration and advertising that constructor's parameters |
| Factory.EffectFactory.ChangeAudioConfig | src/factory.rs:38-40 | later constructions use the new configuration |
| Factory.EffectFactory.GetLoadedEffectNames | src/factory.rs:42-52 | every key of every family, as a multiset, so a name registered twice appears twice |
| Factory.EffectFactory.GetEffectInfo | src/factory.rs:68-76 | Some exactly when some family has the name, holding the first such family's parameter table |
| Factory.EffectFactory.GetEffectInfos | src/factory.rs:54-59 | one entry per listed name, each the first family's table, so the unwrap over listed names never fails |
| EffectsIo.ZerosSnoc | src/effects/mod.rs:289-293 | writing `i + 1` zeros is writing `i` zeros and then a zero at index `i` |
| EffectsIo.WriteSilence | src/effects/mod.rs:287-293 | the output buffer receives a block of `numSamples` zeros; the context itself is unchanged |
| EffectsIo.BasicSingleInSingleOut | src/effects/mod.rs:275-299 | None and nothing written when the connection has no output; None after writing a block of zeros to the first output when it has no input; otherwise the reader of the first input and the writer of the first output |
| Effects.LoadedSetShape | src/effects/mod.rs:262-273 | eight families are loaded and the last, the reverb family, registers nothing |
| Effects.BypassEffects | src/effects/mod.rs:41-53 | registers "Bypass/Mono" with the mono bypass constructor |
| Effects.DelayEffects | src/effects/mod.rs:55-67 | registers "Delay/Basic" with the basic delay constructor |
| Effects.ModulationEffects | src/effects/mod.rs:69-113 | registers the phaser, flanger, chorus, vibrato and white chorus |
| Effects.NonlinearProcessingEffects | src/effects/mod.rs:115-135 | registers the bit crusher and the wave shaper |
| Effects.MiscEffects | src/effects/mod.rs:137-149 | registers the biquad filter |
| Effects.DynamicsEffects | src/effects/mod.rs:151-187 | registers the compressor, downward expander, limiter and noise gate |
| Effects.VocoderEffects | src/effects/mod.rs:189-253 | registers the pitch shifter, the vocoder bypass, robotize and whisper |
| Effects.ReverbEffects | src/effects/mod.rs:255-259 | registers nothing |
| Effects.LoadedSet | src/effects/mod.rs:262-273 | the eight families in lookup order: bypass, delay, misc, modulation, nonlinear, dynamics, vocoder, reverb |
| Effects.InfoFor | src/effects/mod.rs:44-50 | the information function registered beside each constructor: the bypasses' and the basic delay's own tables, and the others' tables as given |
| Effects.LoadedNamesDistinct | src/effects/mod.rs:262-273 | no name is registered by two of the loaded families |
| Effects.ReferenceEffectsRegistered | src/effects/mod.rs:41-67 | "Bypass/Mono" is registered by the first family with the mono bypass constructor and "Delay/Basic" by the second with the basic delay constructor |
| Effects.ApplySetKeepsTaps | src/effects/delay/basic_delay.rs:68-80 | any parameter write to a delay whose taps lie inside its ring is admissible, keeps the taps inside the ring and keeps the parameter count |
| Effects.HealthyTaps | src/effects/delay/basic_delay.rs:82-119 | a well-formed delay's taps lie inside its ring, and it holds one value per advertised parameter |
| Effects.Construct | src/effects/mod.rs:44-64 | the built effect is of the constructor's kind, advertises the table registered beside it, is fresh, and a basic delay starts with its defaults, no delay and a ring for the configured rate |
| Effects.SetEffectParameter | src/traits.rs:10-14 | the effect's tracked state becomes `ApplySet` of the old one and it stays well formed, owning the same objects and the same ring |
| Effects.Execute | src/traits.rs:15 | dispatches to the built effect: the mono bypass copies its input block (or zeros) to the output; the delay writes zeros without input, leaves its line alone without input or output, and otherwise writes `DelayRun`'s output and its line becomes `DelayRun`'s line; nothing outside `Effects.RunFrame` (the first output's storage and the effect's own ring) changes, and parameters and delay setting never change |
| Effects.ExecuteDelay | src/effects/delay/basic_delay.rs:82-119 | the delay's case of `Execute`, with the same three outcomes |
| Effects.Ran | src/traits.rs:15 | what one `execute` leaves: the mono bypass appends the input block or zeros to the first output; the delay appends zeros without an input, keeps its line without an input or output, and otherwise appends `DelayRun`'s echo and takes `DelayRun`'s line |
| BasicDelay.Feed | src/effects/delay/basic_delay.rs:98 | with no feedback the line receives the input sample itself |
| BasicDelay.Mix | src/effects/delay/basic_delay.rs:102 | a fully dry mix is the input, a fully wet mix the delayed sample, and a mix in between lies between them |
| BasicDelay.DelayRun | src/effects/delay/basic_delay.rs:95-118 | the block loop as a function: one output per input, the line stays a valid ring of the same size |
| BasicDelay.DelayRunPrefix | src/effects/delay/basic_delay.rs:95-118 | the first `j` outputs depend only on the first `j` inputs |
| BasicDelay.DryIsIdentity | src/effects/delay/basic_delay.rs:90-103 | with wetness 0 the output block equals the input block |
| BasicDelay.FeedForwardLine | src/effects/delay/basic_delay.rs:95-101 | with no feedback the line ends as the old line with the input block written into it |
| BasicDelay.LineAdvances | src/effects/delay/basic_delay.rs:100 | the line's write position advances by the block length, modulo the ring size |
| BasicDelay.DelayRunLast | src/effects/delay/basic_delay.rs:96-103 | the last output mixes the last input with the sample the line read before it |
| BasicDelay.PureEcho | src/effects/delay/basic_delay.rs:95-103 | fully wet with no feedback and an integer-and-fraction delay, output `i` interpolates inputs `i - whole - 1` and `i - whole - 2` |
| BasicDelay.DelayRunSnoc | src/effects/delay/basic_delay.rs:95-103 | one more input writes the fed sample into the line and appends the mixed output |
| BasicDelay.EchoStep | src/effects/delay/basic_delay.rs:95-103 | one more input adds exactly one write at index `i` to the output |
| BasicDelay.MonoDelayBasic.Info | src/effects/delay/basic_delay.rs:12-28 | the whole table: delay time in [0, `MAX_DELAY_MS`] defaulting to 1000 ms, feedback in [-1, 1] defaulting to 0, wetness in [0, 1] defaulting to 0.5 |
| BasicDelay.MonoDelayBasic.constructor | src/effects/delay/basic_delay.rs:45-54 | a fresh delay line for the sample rate, the parameters equal to the advertised defaults, no delay set |
| BasicDelay.MonoDelayBasic.AdvertiseParameters | src/effects/delay/basic_delay.rs:58-60 | the effect advertises its static table |
| BasicDelay.MonoDelayBasic.SetAudioParameters | src/effects/delay/basic_delay.rs:62-66 | the line is rebuilt for the new rate and the stored delay time re-applied; parameters unchanged |
| BasicDelay.MonoDelayBasic.SetEffectParameter | src/effects/delay/basic_delay.rs:68-80 | the value is stored at its index; a delay time is also applied to the line, clamped; any other parameter leaves the delay setting alone |
| BasicDelay.MonoDelayBasic.EchoSample | src/effects/delay/basic_delay.rs:96-103 | one loop step: the line receives the fed sample and the output index `j` the mix |
| BasicDelay.MonoDelayBasic.EchoNext | src/effects/delay/basic_delay.rs:95-103 | the step keeps the loop invariant: output and line equal `DelayRun` of the inputs so far |
| BasicDelay.MonoDelayBasic.EchoBlock | src/effects/delay/basic_delay.rs:95-118 | after the loop the output holds `DelayRun`'s outputs and the line `DelayRun`'s line |
| BasicDelay.MonoDelayBasic.Separated | src/effects/delay/basic_delay.rs:94-103 | the delay line, the input buffer and the output buffer do not overlap |
| BasicDelay.MonoDelayBasic.EchoInto | src/effects/delay/basic_delay.rs:88-118 | the block over the board's buffers, with the same result as `EchoBlock` |
| BasicDelay.MonoDelayBasic.EchoConnection | src/effects/delay/basic_delay.rs:83-118 | with an input and an output, the output receives `DelayRun` of the input block at the effect's wetness and feedback |
| BasicDelay.MonoDelayBasic.Execute | src/effects/delay/basic_delay.rs:82-119 | without an output nothing changes; without an input zeros are written and the line is untouched; otherwise as `EchoConnection` |
| Context.ParseUsize | src/context.rs:57 | a parsed value fits a 64-bit `usize`, and the empty string does not parse |
| Context.DigitChar | src/context.rs:57 | the character is the decimal digit of its value |
| Context.ShowNat | src/context.rs:57 | the decimal rendering is non-empty and all digits |
| Context.DigitsOfShow | src/context.rs:57 | reading the decimal rendering back gives the number |
| Context.ParseShow | src/context.rs:57 | parsing the decimal rendering of any `usize` value gives that value |
| Context.LeadingZero | src/context.rs:57 | a leading zero does not change the value read |
| Context.ParseAliases | src/context.rs:57 | a leading `+` or `0` still parses to the same value, so several spellings name the same index |
| Context.ClassifyBufName | src/context.rs:53-83 | an external name maps to an index in the source range 1024..1033 or the sink range 2048..2057; a name without either prefix is internal |
| Context.SourceName | src/context.rs:54-67 | "@SOURCE_k" maps to `1024 + k` for `k` below 10 and is refused from 10 on |
| Context.SinkName | src/context.rs:68-79 | "@SINK_k" maps to `2048 + k` for `k` below 10 and is refused from 10 on |
| Context.NonNumericSuffix | src/context.rs:54-79 | a prefix followed by a suffix that does not start with a digit or `+` is refused |
| Context.SourceAliases | src/context.rs:54-67 | "@SOURCE_3", "@SOURCE_03" and "@SOURCE_+3" all map to 1027 |
| Context.SourceSuffix | src/context.rs:54-67 | any suffix that parses to a value below 10 maps the source name to `1024` plus that value |
| Context.WrappingSub | src/context.rs:81 | the 64-bit wrapping difference equals the difference whenever that is in range |
| Context.NextIdx | src/context.rs:53-83 | the name table is untouched; an external name yields its index and counts one more external buffer; a refused name yields None; an internal name yields the table size minus the external count |
| Context.DeclareSnoc | src/context.rs:228-255 | declaring one more name extends the state, the errors and the allocation count by that name's step |
| Context.CountInternal | src/context.rs:250-254 | at most one buffer per name |
| Context.SnocMembers | src/context.rs:228 | a non-empty list is its prefix plus its last name |
| Context.NoDuplicatesSnoc | src/context.rs:229-231 | a list with one more name has no repeats exactly when the prefix has none and the name is new |
| Context.DeclareKeys | src/context.rs:243-245 | after the loop the table holds exactly the old names and the declared names that are not refused |
| Context.DeclareErrorsIff | src/context.rs:228-261 | declaration reports no error exactly when no name repeats and every name is mappable |
| Context.DeclareExpected | src/context.rs:212-262 | an error-free declaration of at most 1024 names yields the table `ExpectedMap`, one entry per name, counts the external names and allocates one buffer per internal name |
| Context.ExpectedIndices | src/context.rs:53-83 | in the resulting table an external name keeps its fixed index, an internal name gets an index below the internal count, and no two internal names share an index |
| Context.ConstructionState.Snapshot | src/context.rs:47-50 | the construction state as a value |
| Context.ConstructionState.constructor | src/context.rs:205-210 | an empty table and no external buffers |
| Context.ConstructionState.GenerateIdxForBufName | src/context.rs:53-83 | the result and the new state are those of `NextIdx` on the old state |
| Context.DeclareBuffer | src/context.rs:229-254 | one loop step: the state, errors and allocations follow `DeclareOne`, earlier buffers are kept and new ones are fresh and zeroed |
| Context.CreateMemBuffers | src/context.rs:212-262 | more than 1024 names is one error and no change; otherwise the state follows `Declare`, errors are returned exactly when `Declare` has some, and each allocated buffer is fresh, zeroed, sized for the block and distinct from the others |
| Context.IsValidBuffer | src/context.rs:353-365 | no error exactly when the name is declared and not yet used by the connection; an unknown name is reported before a repeated one |
| Context.Resolve | src/context.rs:349 | the index list of declared names, position by position |
| Context.NoDuplicatesConcat | src/context.rs:297-314 | two lists joined have no repeats exactly when neither does and they share nothing |
| Context.FindTargetsSpec | src/context.rs:332-351 | errors only grow; none are added exactly when every name is declared, unused and unrepeated; then the indices are appended in order and the used set grows by the names |
| Context.FindBufferTargets | src/context.rs:332-351 | the loop's result equals `FindTargets` |
| Context.ConnectOneSpec | src/context.rs:273-323 | with no earlier error, one declaration adds no error exactly when it is `Acceptable`, and then appends its `Expected` connection |
| Context.ConnectAllSpec | src/context.rs:264-330 | no error exactly when every declaration is acceptable, and then connection `k` is the expected connection of declaration `k` |
| Context.CreateEffectConnections | src/context.rs:264-330 | the connections of `ConnectAll` when it reports no error, otherwise its errors |
| Context.ResolveConcat | src/context.rs:297-312 | resolving reads and writes together is resolving each and joining the results |
| Context.ResolvedSound | src/context.rs:349 | distinct declared names resolve to distinct internal indices below the number of internal buffers |
| Context.BuiltConnectionsSound | src/context.rs:264-330 | every built connection touches each internal buffer at most once across its reads and writes, and only buffers that exist |
| Context.BoardContext.Make | src/context.rs:126-131 | the context holds the given buffers, connections and host slots |
| Context.BoardContext.InitializeContext | src/context.rs:100-132 | success exactly when the configuration builds cleanly; each failure returns the first failing stage's errors; on success the context is fresh and well formed, holds `ConnectAll`'s connections and one zeroed, block-sized, fresh buffer per internal name, and six unbound host slots each way |
| Context.BoardContext.UnboundSlots | src/context.rs:115-124 | `n` unbound host slots |
| Context.BoardContext.BindSink | src/context.rs:134-140 | an index of 10 or more changes nothing; a slot index stores the host array; sources are untouched |
| Context.BoardContext.BindSource | src/context.rs:142-148 | an index of 10 or more changes nothing; a slot index stores the host array; sinks are untouched |
| Context.BoardContext.GetBufferForRead | src/context.rs:150-169 | an index in the source range gives the host reader when that slot is bound and Null otherwise; an internal index below the buffer count gives that buffer; anything else is Null |
| Context.BoardContext.GetBufferForWrite | src/context.rs:171-190 | an index in the sink range gives the host writer when that slot is bound and Null otherwise; an internal index below the buffer count gives that buffer; anything else is Null |
| Context.BoardContext.GetInputsForConnection | src/context.rs:192-194 | the connection's read indices |
| Context.BoardContext.GetOutputsForConnection | src/context.rs:196-198 | the connection's write indices |
| Context.BoardContext.GetConnections | src/context.rs:200-202 | the connection list |
| Context.ReaderUsable | src/context.rs:150-169 | on a ready context every mapped read index gives a reader that can deliver a block and reads only the context's buffers and bound host arrays |
| Context.WriterUsable | src/context.rs:171-190 | on a ready context every mapped write index gives a writer that can take a block |
| Context.ReaderWriterDisjoint | src/context.rs:150-190 | a reader and a writer of different buffers share no storage |
| Context.ConnectionIndicesDistinct | src/context.rs:297-314 | within one connection no internal buffer is both read and written, and no internal buffer is written twice |
| Context.WritersDisjoint | src/context.rs:171-190 | writers of different buffers share no storage |
| Context.WriteThrough | src/context.rs:171-190 | one write through the board's writer changes that sample and not the context |
| Otters.AssignSpec | src/otters.rs:186-216 | creation fails exactly when some effect name is unknown; when all resolve every declaration takes an ordinal; ordinals handed out are below the counter and no two bind names share one |
| Otters.BindNames | src/otters.rs:194 | the bind names of the declarations, position by position |
| Otters.AssignKeys | src/otters.rs:201-205 | only declared bind names are keys of the result |
| Otters.AssignOrdinals | src/otters.rs:190-209 | with every name found and bind names distinct, declaration `i` is stored under its bind name with ordinal `i`, the first family's constructor for its effect name and its enable flag |
| Otters.AssignFreshName | src/otters.rs:201-205 | a found declaration with a new bind name adds exactly one entry |
| Otters.CreateEffectUnits | src/otters.rs:186-216 | an error list exactly when `Assign` records errors, and that list; otherwise one fresh, newly constructed effect per slot of `Assign`, with the slot's ordinal, kind and flag, sharing no object with the others |
| Otters.CreateOne | src/otters.rs:194-209 | one loop step keeps the loop variables equal to `Assign` of the declarations seen, and anything it allocates is fresh |
| Otters.Build | src/otters.rs:195 | None exactly when no family has the name; otherwise a new effect of that constructor, advertising its table, as built for the factory's configuration, owning nothing the earlier effects own |
| Otters.RecordTracks | src/otters.rs:196-208 | storing a built effect under its bind name, or recording the error, keeps the loop in step with `AssignOne` |
| Otters.DisjointAdd | src/otters.rs:201-205 | adding an effect whose objects are new keeps the effects from sharing objects |
| Otters.BornAdd | src/otters.rs:201-205 | adding a newly constructed effect keeps every effect as its constructor left it |
| Otters.OwnersAdd | src/otters.rs:201-205 | the new map's changeable objects are the old ones plus the added effect's |
| Otters.TracksSkip | src/otters.rs:206-208 | an unknown name appends its message and keeps the loop in step |
| Otters.TracksAdd | src/otters.rs:196-205 | a found name stored with the current ordinal keeps the loop in step and advances the counter |
| Otters.DistinctCounts | src/otters.rs:225-226 | a name list has no repeats exactly when each name occurs at most once in its multiset |
| Otters.DistinctPermutation | src/otters.rs:225-228 | a permutation of a repeat-free list is repeat-free |
| Otters.OrdinalsOf | src/otters.rs:228 | the ordinal of each bind name |
| Otters.InsertByOrdinal | src/otters.rs:227-228 | inserting adds exactly that name to the multiset |
| Otters.InsertSorted | src/otters.rs:227-228 | inserting into a list sorted by ordinal keeps it sorted |
| Otters.SortByOrdinal | src/otters.rs:225-228 | the sort is a permutation of its input |
| Otters.SortSorted | src/otters.rs:225-228 | the sort's result is ordered by ordinal |
| Otters.PositionIsOrdinal | src/otters.rs:225-234 | when ordinals are below the count and strictly increase along the list, each name's position is its ordinal |
| Otters.AtLeastPosition | src/otters.rs:225-234 | with strictly increasing ordinals, the `k`-th name's ordinal is at least `k` |
| Otters.AtMostPosition | src/otters.rs:225-234 | with strictly increasing ordinals below the count, the `k`-th name's ordinal is at most `k` |
| Otters.CollectNames | src/otters.rs:225-226 | each bind name of the map once, and nothing else |
| Otters.OrderByOrdinal | src/otters.rs:225-228 | each bind name once, nothing else, ordered by ordinal |
| Otters.Infos | src/otters.rs:235 | the advertised tables in the given order |
| Otters.EffectMappings | src/otters.rs:238-242 | one mapping per parameter of the effect, naming the effect's position and the parameter's index |
| Otters.GlobList | src/otters.rs:236-242 | each parameter's name paired with the global index `offset + p` |
| Otters.AllMappingsLength | src/otters.rs:230-251 | the global table has one entry per advertised parameter of every effect |
| Otters.AllMappingsAt | src/otters.rs:238-242 | global index `Offset(i) + p` maps to effect `i`, parameter `p` |
| Otters.RegisterParams | src/otters.rs:236-243 | the manager gains one mapping per parameter, numbered from its old count, and returns the names with those indices; the bind-name tables are untouched |
| Otters.Units | src/otters.rs:247-251 | the effects in the given order |
| Otters.Flags | src/otters.rs:247-251 | the enable flags in the given order |
| Otters.GlobTableSpec | src/otters.rs:245 | the bind-name table holds exactly the names registered so far, each with its parameter list at its offset |
| Otters.GlobTableKeys | src/otters.rs:245 | the table's keys are the names registered so far |
| Otters.GlobTableAt | src/otters.rs:245 | the `k`-th name's entry is its parameter list at its offset |
| Otters.EffectMapToVec | src/otters.rs:218-254 | the effects and flags ordered by ordinal, and a fresh manager whose global table lists every effect's parameters in that order, with each bind name's list, and no effect types |
| Otters.RegisterEffect | src/otters.rs:234-248 | one map step: the `i`-th effect and flag, and the manager extended by that effect's parameters and bind-name list |
| Otters.TargetOf | src/otters.rs:261-266 | the last parameter with the name, or None exactly when no parameter has it |
| Otters.NameMapOfGlobList | src/otters.rs:263-267 | the per-declaration name table maps a name exactly when the effect advertises it, to the global index of its last occurrence |
| Otters.NameMapBelow | src/otters.rs:263-267 | name table entries stay below the table bound |
| Otters.EntryWritesNamed | src/otters.rs:269-277 | one declaration's writes are its configured entries whose names the effect advertises, in order, at the advertised index; others are skipped |
| Otters.OffsetMonotone | src/otters.rs:230-251 | later effects' parameters start at larger global indices |
| Otters.PositionOf | src/otters.rs:263 | a position holding the name |
| Otters.EffectIndices | src/otters.rs:230-251 | effect `k`'s parameters occupy the global indices from its offset, each naming effect `k` |
| Otters.GlobTableBelow | src/otters.rs:230-251 | every index in the bind-name table names an entry of the global table |
| Otters.ConfigWritesNamed | src/otters.rs:256-281 | over the manager built from the effects, the initial configuration's writes are each declaration's advertised entries, sent to the effect named by its bind name |
| Otters.NamedByConfig | src/otters.rs:256-281 | the same, for a manager given by its tables |
| Otters.ApplyWrites | src/otters.rs:269-277 | applying writes in order keeps the count of effects, their kinds and their taps inside the ring |
| Otters.ApplyWritesElsewhere | src/otters.rs:276 | an effect no write addresses keeps its state |
| Otters.ApplyWritesAppend | src/otters.rs:262-280 | applying two lists of writes is applying them one after the other |
| Otters.Arity | src/otters.rs:235 | each effect's advertised parameter count |
| Otters.FittedAddressed | src/otters.rs:274-276 | a write inside the advertised ranges addresses an existing parameter |
| Otters.EntryWritesFit | src/otters.rs:274-276 | every write of a declaration names an existing effect and an advertised parameter |
| Otters.ConfigWritesFit | src/otters.rs:262-280 | every write of the whole configuration names an existing effect and an advertised parameter |
| Otters.States | src/otters.rs:33 | each effect's tracked state, by position |
| Otters.HealthyFitted | src/otters.rs:276 | healthy effects accept any write within their advertised parameters |
| Otters.SetAt | src/otters.rs:154 | the `k`-th effect's state becomes `ApplySet` of its old state and no other effect changes |
| Otters.ExecuteAt | src/otters.rs:171 | the `k`-th effect's run writes its output and line as `Effects.Ran` says and changes nothing outside `Effects.RunFrame`, so every other buffer and every other effect's line is kept; every effect keeps its settings |
| Otters.RunUnit | src/otters.rs:171 | one effect's run writes as `Effects.Ran` says, changes nothing outside `Effects.RunFrame`, and keeps its settings and objects |
| Otters.RunApart | src/otters.rs:169-175 | what one effect writes is apart from every other effect's objects |
| Otters.BypassAt | src/otters.rs:173 | the bypass writes every buffer as `Bypass.Bypassed` says (its plan's replay), and every effect keeps its settings |
| Otters.SetInitialConfigOnEffects | src/otters.rs:256-281 | every write the configuration names is admissible, and the effects end in the states the writes produce from their starting states |
| Otters.ConfigureAll | src/otters.rs:262-280 | the loop over declarations keeps the effects well formed and applies all of their writes in order |
| Otters.ConfigWritesSnoc | src/otters.rs:262-280 | one more declaration appends its own writes |
| Otters.ConfigureDeclaration | src/otters.rs:263-279 | one declaration applies exactly its own writes |
| Otters.ConfigureEntries | src/otters.rs:269-277 | the loop over entries applies its entries' writes |
| Otters.EntryWritesSnoc | src/otters.rs:269-277 | one more entry appends its write, if any |
| Otters.ConfigureEntry | src/otters.rs:270-276 | an unknown name is skipped; a known one applies its write |
| Otters.SlotOrdinals | src/otters.rs:203 | each bind name's ordinal |
| Otters.MatchesOrdinals | src/otters.rs:228 | the loaded effects' ordinals are the slots' ordinals |
| Otters.AssignCovers | src/otters.rs:201-205 | with every name found, every declared bind name has an entry |
| Otters.DeclarationOrder | src/otters.rs:186-254 | with every name found and distinct bind names, ordering by ordinal gives the declaration order |
| Otters.AllMappingsFit | src/otters.rs:238-242 | every global mapping names an existing effect and an advertised parameter |
| Otters.AssignMakers | src/otters.rs:195-205 | every stored constructor is the lookup of some declared effect name |
| Otters.NewbornStates | src/otters.rs:195 | each effect's state as its constructor leaves it |
| Otters.Advertisements | src/otters.rs:235 | each effect's advertised table |
| Otters.BornUnits | src/otters.rs:195-254 | newly built effects, ordered, are healthy, share nothing, are in their constructors' states and advertise their tables |
| Otters.LoadedFacts | src/otters.rs:92-99 | after creation every declared bind name has an effect, and a ring large enough for the delay exists whenever a delay was built |
| Otters.ConfigureEffects | src/otters.rs:99 | from newborn states the effects end in the states the declarations' writes produce, each write going to the effect its bind name names |
| Otters.OrderEffects | src/otters.rs:97 | the effects and flags ordered by ordinal, healthy and apart, in their newborn states, with the parameter table built |
| Otters.OrderedFacts | src/otters.rs:97 | the ordered effects keep the facts creation established |
| Otters.SlotFacts | src/otters.rs:97 | the ordered effects are one per slot, of the slot's kind and flag |
| Otters.OrdinalsBelow | src/context.rs:283-291 | every built connection's ordinal is below the number of effects |
| Otters.GraphNotSetting | src/otters.rs:99 | configuring effects does not touch the graph |
| Otters.ManagerNotSetting | src/otters.rs:99 | configuring effects does not touch the parameter manager |
| Otters.BuildGraph | src/otters.rs:95 | the graph builds exactly when the configuration builds cleanly, with the computed connections, no host memory bound, and no storage shared with the effects |
| Otters.LinesOwned | src/otters.rs:33 | delay lines are among the effects' objects |
| Otters.GraphApart | src/otters.rs:95-99 | effects whose objects lie outside the graph are apart from it |
| Otters.ConnectionsRouted | src/otters.rs:92-99 | with every name found and distinct bind names, the effects are in declaration order and every connection runs the effect declared under the bind name it names |
| Otters.RoutedOne | src/context.rs:282 | one connection's ordinal is the position of its declared bind name |
| Otters.DuplicateBindNameMisroutes | src/otters.rs:201-205 | declaring bind name "A" twice and then "B" leaves ordinals A = 1 and B = 2: the connection for "B" is refused as out of range, and ordinal 1, meant for A, is where B sits |
| Otters.NotWritten | src/otters.rs:165-176 | running the graph writes neither the parameter manager nor the graph itself |
| Otters.Otters.Make | src/otters.rs:102-114 | the runtime holds the parts it is given, has no update queue and a fresh bypass, and is well formed, wired, configured and with its parameter table |
| Otters.Otters.Create | src/otters.rs:83-115 | unknown effect names give the factory's errors; otherwise success exactly when the configuration builds cleanly, and a graph error otherwise; a created runtime is fresh, well formed, wired by the computed connections, one effect per slot in ordinal order, configured as declared, with its parameter table and no update queue; with distinct bind names each connection runs its declared effect |
| Otters.Otters.Finish | src/otters.rs:95-115 | after creating the effects: success exactly when the configuration builds cleanly, with the same runtime as `Create` |
| Otters.Otters.Assemble | src/otters.rs:97-115 | from built effects and graph: the runtime as `Create` describes it |
| Otters.Otters.Prepare | src/otters.rs:97-99 | orders, registers and configures the effects, leaving the graph untouched |
| Otters.Otters.Settle | src/otters.rs:99 | configures the ordered effects, leaving the graph untouched |
| Otters.Otters.BindInput | src/otters.rs:157-159 | as `BindSource` on the runtime's graph; the runtime stays well formed |
| Otters.Otters.BindOutput | src/otters.rs:161-163 | as `BindSink` on the runtime's graph; the runtime stays well formed |
| Otters.Otters.Frolic | src/otters.rs:165-176 | runs `RunConnection` for each stored connection in turn; the runtime stays well formed, the graph is unchanged and no effect's settings change |
| Otters.Otters.RunConnection | src/otters.rs:170-174 | an enabled effect writes its connection's first output and its line as `Effects.Ran` says (the copy, zeros or `DelayRun` echo); a disabled one leaves every writable buffer as the generic bypass's plan replayed on it (`Bypass.Bypassed`); nothing outside `VisitFrame` changes, that is the effect's `Effects.RunFrame` when enabled and the graph's writable buffers when disabled, so an enabled effect keeps every other buffer and every other line, and a disabled one keeps every delay line; the graph and settings are unchanged |
| Otters.Otters.VisitWithin | src/otters.rs:165-176 | each visit's frame lies within what `frolic` may change, the graph's writable buffers and the effects' rings |
| Otters.Otters.RunEffect | src/otters.rs:171 | the connection's effect writes as `Effects.Ran` says and changes nothing outside its `Effects.RunFrame`; the effects' settings are unchanged |
| Otters.Otters.RunBypass | src/otters.rs:173 | for a disabled effect, every writable buffer ends as `Bypass.Bypassed` says; the effects' settings are unchanged |
| Otters.Otters.SetEffectParameter | src/otters.rs:148-155 | the global index resolves to an existing effect and an advertised parameter, that effect's state becomes `ApplySet` of its old one and no other effect changes |

## Left out

- `Otters::update_audio_config` (src/otters.rs:117-145) is not modelled: it re-runs effect creation and the graph build on the stored configuration (both modelled, as `Otters.CreateEffectUnits` and `Context.BoardContext.InitializeContext`) but replaces only the effect list and the parameter manager, keeping the old enable flags and skipping the initial configuration; the factory side, `Factory.EffectFactory.ChangeAudioConfig`, is modelled.
- `Otters::setup_async_param_updater` and the update queue: the queue lives in `utils::async_utils`, which is not part of this model, and `frolic` never reads it; the model keeps only whether a queue is attached (`hasUpdateQueue`, false after `create`) and the session table the manager builds (`Param.ParameterMappingManager.CreateAsyncParamUpdateContext`).
- JSON and files: `create_default`, `create_default_from_string`, `get_effect_info_json` and the serialisation of parameter tables and session tables. The model starts from an already parsed `BoardConfig`, so a parse error of `create` does not appear.
- `Otters::get_available_effect_names` (src/otters.rs:47-55) is `Factory.EffectFactory.GetLoadedEffectNames` over `Effects.LoadedSet()` with a placeholder configuration and is not restated.
- The processing of every registered effect other than the mono bypass and the basic delay (filters, dynamics, modulation, nonlinear, pitch and the phase-vocoder effects): these are floating-point DSP and FFT code outside the model. They are the `Unmodelled` variant of `Effects.EffectUnit`, known by constructor and parameter table (`Effects.ForeignInfo`). The vocoder bypass's own frequency-domain step is modelled (`Bypass.VocoderBypass`), the phase vocoder that would run it is not.
- Effects.Execute: for an `Unmodelled` effect the model writes nothing; the real effect writes its output block.
- Effects.SetEffectParameter: for an `Unmodelled` effect no state is tracked, so the contract says nothing about what such an effect stores.
- Floating point: samples and delay times are `real`; IEEE rounding, NaN and infinities are not modelled. The millisecond-to-sample conversion uses exact real arithmetic, with `as usize` as truncation (0 for negative values), and `round` in `as_int` / `as_enum` rounds half away from zero on reals.
- `consts::MAX_DELAY_MS`: `crate::consts` is not part of this model, so `DelayBuf.MAX_DELAY_MS` is a constant of unspecified value.
- `println!` logging, including `debug_print_loaded_effects`, is left out.
- `RefCell` borrow checks are not modelled; instead the model proves that the buffers one connection reads and writes are distinct objects (`Context.ConnectionIndicesDistinct`, `Context.ReaderWriterDisjoint`, `Context.WritersDisjoint`).
- FFI (`src/ffi.rs`), the command-line runner and the build script are not part of this model.
- Context.BoardContext.BindSource, Context.BoardContext.BindSink, Otters.Otters.BindInput and Otters.Otters.BindOutput exclude indices 6 to 9, which pass the source's guard and then index past the six host slots (a panic).
- Context.BoardContext.GetBufferForRead and Context.BoardContext.GetBufferForWrite exclude the same indices (1030 to 1033 and 2054 to 2057), and `Otters.Otters.Frolic` requires every stored connection to avoid them (`Runnable`), since they panic in the source.
- Otters.Otters.BindInput and Otters.Otters.BindOutput require the host array not to be one of the runtime's own objects; aliasing between host arrays and internal storage is not modelled.
- Otters.Otters.Frolic: a block needs `Ready`, that is bound host arrays of at least `numSamples` samples, nonempty rings, and no host array bound twice; the source reads and writes raw pointers without these checks.
- Otters.Otters.Frolic: what each visit writes is stated per connection by `Otters.Otters.RunConnection` (through `Effects.Ran` and `Bypass.Bypassed`); the composition of the visits over the whole block, each reading what earlier visits wrote, is not stated as one postcondition.
- Otters.Otters.Create requires a delay ring of at least two samples when a basic delay is declared: with a smaller ring the clamped delay setting underflows.
- Otters.Otters.Create states declaration order and routing (`InDeclarationOrder`) only for distinct bind names; with repeated bind names it states the ordinal slots, and `Otters.DuplicateBindNameMisroutes` shows how routing then goes wrong.
- The effect interface (`src/traits.rs`) is a datatype with one variant per modelled effect and functions that dispatch on it, rather than an open interface.
- Otters.Otters.SetEffectParameter, Param.ParameterMappingManager.EffectAndParamIdx: a global index at or past the number handed out is excluded by the precondition. The source indexes the mapping table with it (src/param.rs:106) and panics, so a host passing an arbitrary index is not modelled.
- Conf.AsIntOfAsFlt: stated only for integers of magnitude at most 2^24. Above that, `x as f32` rounds in the source (16777217 becomes 16777216.0), and the model's exact reals do not reproduce this.
