/**
 * The delay line: a write ring as long as the longest allowed delay, a delay
 * split into whole samples and a fraction, and an interpolated read of the
 * two samples around the delay.
 */
module DelayBuf {
  import opened MathUtils
  import opened RingBuf

  /** The longest delay a default delay line holds, in milliseconds; its value is set outside this model. */
  const MAX_DELAY_MS: real

  /** The largest single-precision value below one. */
  const JUST_BELOW_ONE: real := 1.0 - 1.0 / 16777216.0

  /** `f32 as usize`: negative values become 0, others are truncated. */
  function AsUsize(x: real): (n: nat)
    ensures x >= 0.0 ==> n as real <= x < n as real + 1.0
    ensures x < 0.0 ==> n == 0
  {
    if x < 0.0 then 0 else x.Floor
  }

  /** Rounding toward zero. */
  function Trunc(x: real): (i: int)
    ensures x >= 0.0 ==> 0 <= i && i as real <= x < i as real + 1.0
    ensures x < 0.0 ==> i <= 0 && i as real - 1.0 < x <= i as real
  {
    if x >= 0.0 then x.Floor else -((-x).Floor)
  }

  /** What remains after truncation; it has the sign of `x`. */
  function Fract(x: real): (f: real)
    ensures Trunc(x) as real + f == x
    ensures x >= 0.0 ==> 0.0 <= f < 1.0
    ensures x < 0.0 ==> -1.0 < f <= 0.0
  {
    x - Trunc(x) as real
  }

  /** `num::clamp`. */
  function ClampInt(v: int, lo: int, hi: int): (r: int)
    requires lo <= hi
    ensures lo <= r <= hi
    ensures lo <= v <= hi ==> r == v
  {
    if v < lo then lo else if v > hi then hi else v
  }

  /** The ring length for a sample rate and a longest delay. */
  function CapacityFor(sampleRate: real, maxDelayMs: real): nat
  {
    AsUsize(sampleRate * maxDelayMs / 1000.0)
  }

  /** The requested delay and its split into whole samples and a fraction. */
  datatype DelaySetting = DelaySetting(delayMs: real, whole: int, fract: real)

  /**
   * `clamp_delay_sample_count`: a whole part of capacity - 1 would read
   * beyond the ring, so it becomes capacity - 2 with a fraction just
   * below one; any other setting is kept.
   */
  function ClampCount(capacity: nat, s: DelaySetting): (r: DelaySetting)
    ensures r.delayMs == s.delayMs
    ensures s.whole != capacity - 1 ==> r == s
    ensures s.whole == capacity - 1 ==> r.whole == capacity - 2 && r.fract == JUST_BELOW_ONE
  {
    if s.whole == capacity - 1 then s.(whole := capacity - 2, fract := JUST_BELOW_ONE) else s
  }

  /**
   * `set_delay_time_ms`: a negative delay is ignored; a delay of capacity
   * samples or more is ignored unless clamping is asked for, when it becomes
   * capacity - 1; an accepted delay is split into whole samples (clamped to
   * the capacity) and a fraction, and then `ClampCount` applies. With
   * clamping and an empty ring, capacity - 1 underflows, so that case is
   * excluded.
   */
  function SetDelayTime(capacity: nat, sampleRate: real, s: DelaySetting, ms: real, clampIfHigh: bool): (r: DelaySetting)
    requires ms < 0.0 || !clampIfHigh || capacity >= 1
    ensures ms < 0.0 ==> r == s
    ensures ms >= 0.0 && AsUsize(ms * sampleRate / 1000.0) >= capacity && !clampIfHigh ==> r == s
    ensures Accepted(capacity, sampleRate, ms, clampIfHigh) ==> r.delayMs == ms
    ensures Accepted(capacity, sampleRate, ms, clampIfHigh) && capacity >= 2 ==> 0 <= r.whole <= capacity - 2
    ensures Accepted(capacity, sampleRate, ms, clampIfHigh) && sampleRate >= 0.0 ==> 0.0 <= r.fract < 1.0
  {
    if ms < 0.0 then s
    else
      var requested := ms * sampleRate / 1000.0;
      if AsUsize(requested) >= capacity && !clampIfHigh then s
      else
        var realDelay := if AsUsize(requested) >= capacity then (capacity - 1) as real else requested;
        MulNonNeg(ms, sampleRate);
        ClampCount(capacity, DelaySetting(ms, ClampInt(Trunc(realDelay), 0, capacity), Fract(realDelay)))
  }

  /** Whether `set_delay_time_ms` changes the setting at all. */
  predicate Accepted(capacity: nat, sampleRate: real, ms: real, clampIfHigh: bool)
  {
    ms >= 0.0 && (AsUsize(ms * sampleRate / 1000.0) < capacity || clampIfHigh)
  }

  /**
   * A delay more than one sample short of the capacity is kept exactly:
   * whole part plus fraction equal the requested delay in samples. A longer
   * delay, when clamped, settles just below capacity - 1 samples.
   */
  lemma SetDelayTimeExact(capacity: nat, sampleRate: real, s: DelaySetting, ms: real, clampIfHigh: bool)
    requires ms >= 0.0 && sampleRate >= 0.0
    requires ms < 0.0 || !clampIfHigh || capacity >= 1
    ensures AsUsize(ms * sampleRate / 1000.0) + 1 < capacity ==>
      var r := SetDelayTime(capacity, sampleRate, s, ms, clampIfHigh);
      r.whole as real + r.fract == ms * sampleRate / 1000.0
    ensures AsUsize(ms * sampleRate / 1000.0) + 1 >= capacity >= 2 && clampIfHigh ==>
      SetDelayTime(capacity, sampleRate, s, ms, clampIfHigh) == DelaySetting(ms, capacity - 2, JUST_BELOW_ONE)
  {
    MulNonNeg(ms, sampleRate);
  }

  /**
   * The delayed sample: the samples written `whole + 1` and `whole + 2`
   * writes ago, interpolated by the fraction.
   */
  function DelayedRead(ring: Ring, whole: int, fract: real): real
    requires ring.Valid() && 0 <= whole && whole + 2 <= ring.limit
  {
    Lerp(ring.Read(ring.limit - whole - 1), ring.Read(ring.limit - whole - 2), fract)
  }

  /**
   * After a run of writes at least `whole + 2` long, the delayed read
   * interpolates between the samples written `whole + 1` and `whole + 2`
   * steps back.
   */
  lemma {:induction false} DelayedReadHistory(ring: Ring, vs: seq<real>, whole: nat, fract: real)
    requires ring.Valid() && ring.writeIdx < ring.limit
    requires whole + 2 <= ring.limit && whole + 2 <= |vs|
    ensures DelayedRead(ring.WriteAll(vs), whole, fract) == Lerp(vs[|vs| - whole - 1], vs[|vs| - whole - 2], fract)
  {
    History(ring, vs, whole + 1);
    History(ring, vs, whole + 2);
  }

  /** A delay line that owns its ring and replaces it when the sample rate changes. */
  class DelayBuffer {
    var buf: SimpleFloatBuffer
    var sampleRate: real
    const maxDelayMs: real
    var delayTimeMs: real
    var wholeDelayTimeSamples: int
    var fractDelayTimeSamples: real

    /** The ring is as long as the longest delay and always writes over its whole length. */
    ghost predicate Valid()
      reads this, buf
    {
      && buf.Valid()
      && buf.limit == buf.capacity
      && buf.capacity == CapacityFor(sampleRate, maxDelayMs)
      && delayTimeMs >= 0.0
    }

    function Setting(): (s: DelaySetting)
      reads this
      ensures s.delayMs == delayTimeMs && s.whole == wholeDelayTimeSamples && s.fract == fractDelayTimeSamples
    {
      DelaySetting(delayTimeMs, wholeDelayTimeSamples, fractDelayTimeSamples)
    }

    /** A zeroed ring for the longest delay and no delay yet. */
    constructor WithSampleRateAndMaxDelay(sr: real, maxMs: real)
      ensures Valid() && fresh(buf) && fresh(buf.data)
      ensures sampleRate == sr && maxDelayMs == maxMs && Setting() == DelaySetting(0.0, 0, 0.0)
      ensures buf.State() == Ring(Zeros(CapacityFor(sr, maxMs)), CapacityFor(sr, maxMs), 0)
    {
      buf := new SimpleFloatBuffer.WithMaxCapacity(CapacityFor(sr, maxMs));
      sampleRate := sr;
      maxDelayMs := maxMs;
      delayTimeMs := 0.0;
      wholeDelayTimeSamples := 0;
      fractDelayTimeSamples := 0.0;
    }

    /** The same with the default longest delay. */
    constructor WithSampleRate(sr: real)
      ensures Valid() && fresh(buf) && fresh(buf.data)
      ensures sampleRate == sr && maxDelayMs == MAX_DELAY_MS && Setting() == DelaySetting(0.0, 0, 0.0)
      ensures buf.State() == Ring(Zeros(CapacityFor(sr, MAX_DELAY_MS)), CapacityFor(sr, MAX_DELAY_MS), 0)
    {
      buf := new SimpleFloatBuffer.WithMaxCapacity(CapacityFor(sr, MAX_DELAY_MS));
      sampleRate := sr;
      maxDelayMs := MAX_DELAY_MS;
      delayTimeMs := 0.0;
      wholeDelayTimeSamples := 0;
      fractDelayTimeSamples := 0.0;
    }

    /**
     * `change_sample_rate`: a fresh zeroed ring for the new rate, then the
     * stored delay in milliseconds is applied again with clamping.
     */
    method ChangeSampleRate(newSampleRate: real)
      requires Valid()
      requires CapacityFor(newSampleRate, maxDelayMs) >= 1
      modifies this
      ensures Valid() && fresh(buf) && fresh(buf.data)
      ensures sampleRate == newSampleRate
      ensures buf.State() ==
        Ring(Zeros(CapacityFor(newSampleRate, maxDelayMs)), CapacityFor(newSampleRate, maxDelayMs), 0)
      ensures Setting() ==
        SetDelayTime(CapacityFor(newSampleRate, maxDelayMs), newSampleRate, old(Setting()), old(delayTimeMs), true)
    {
      sampleRate := newSampleRate;
      buf := new SimpleFloatBuffer.WithMaxCapacity(CapacityFor(sampleRate, maxDelayMs));
      SetDelayTimeMs(delayTimeMs, true);
    }

    /** `set_delay_time_ms`, as `SetDelayTime` describes. */
    method SetDelayTimeMs(delayMs: real, shouldClampIfHigh: bool)
      requires Valid()
      requires delayMs < 0.0 || !shouldClampIfHigh || buf.capacity >= 1
      modifies this
      ensures Valid() && buf == old(buf) && sampleRate == old(sampleRate)
      ensures Setting() == SetDelayTime(buf.capacity, sampleRate, old(Setting()), delayMs, shouldClampIfHigh)
    {
      ghost var s0 := Setting();
      ghost var cap := buf.capacity;
      ghost var spec := SetDelayTime(cap, sampleRate, s0, delayMs, shouldClampIfHigh);
      if delayMs < 0.0 {
        return;
      }
      var realDelayTime := delayMs * sampleRate / 1000.0;
      if AsUsize(realDelayTime) >= buf.GetCapacity() {
        if shouldClampIfHigh {
          realDelayTime := (buf.GetCapacity() - 1) as real;
        } else {
          return;
        }
      }
      assert spec == ClampCount(cap, DelaySetting(delayMs, ClampInt(Trunc(realDelayTime), 0, cap), Fract(realDelayTime)));
      delayTimeMs := delayMs;
      var ipart, fpart := Trunc(realDelayTime), Fract(realDelayTime);
      fractDelayTimeSamples := fpart;
      wholeDelayTimeSamples := ClampInt(ipart, 0, buf.GetCapacity());
      ClampDelaySampleCount();
    }

    /** Sets the split directly; only the capacity - 1 rewrite applies. */
    method SetDelaySampleCountDirectly(wholeDelaySampleCount: int, fractDelaySampleCount: real)
      requires Valid()
      modifies this
      ensures Valid() && buf == old(buf)
      ensures Setting() ==
        ClampCount(buf.capacity, DelaySetting(old(delayTimeMs), wholeDelaySampleCount, fractDelaySampleCount))
    {
      wholeDelayTimeSamples := wholeDelaySampleCount;
      fractDelayTimeSamples := fractDelaySampleCount;
      ClampDelaySampleCount();
    }

    /** The delay in samples, whole part plus fraction. */
    function GetDelaySampleCount(): (r: real)
      reads this
      ensures r - Setting().fract == Setting().whole as real
    {
      wholeDelayTimeSamples as real + fractDelayTimeSamples
    }

    function GetSampleRate(): (r: real)
      reads this
      ensures r == sampleRate
    {
      sampleRate
    }

    /**
     * `read_delayed_sample`; the whole part must leave room for both reads,
     * since the index arithmetic is unsigned.
     */
    function ReadDelayedSample(): (r: real)
      reads this, buf, buf.data
      requires Valid()
      requires 0 <= wholeDelayTimeSamples && wholeDelayTimeSamples + 2 <= buf.limit
      ensures r == DelayedRead(buf.State(), wholeDelayTimeSamples, fractDelayTimeSamples)
    {
      Lerp(buf.Read(buf.GetLimit() - wholeDelayTimeSamples - 1), buf.Read(buf.GetLimit() - wholeDelayTimeSamples - 2),
           fractDelayTimeSamples)
    }

    method WriteSample(sample: real)
      requires Valid() && buf.limit > 0
      modifies buf, buf.data
      ensures Valid()
      ensures buf.State() == old(buf.State()).Write(sample)
    {
      buf.Write(sample);
    }

    method ClampDelaySampleCount()
      modifies this
      ensures buf == old(buf) && sampleRate == old(sampleRate) && delayTimeMs == old(delayTimeMs)
      ensures Setting() == ClampCount(buf.capacity, old(Setting()))
    {
      if wholeDelayTimeSamples == buf.GetCapacity() - 1 {
        wholeDelayTimeSamples := buf.GetCapacity() - 2;
        fractDelayTimeSamples := JUST_BELOW_ONE;
      }
    }
  }
}
