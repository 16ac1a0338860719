/**
 * `MonoDelayBasic`: a single-input, single-output feedback delay. Each
 * sample reads the delayed tap before writing the delay line, feeds the
 * input plus `feedback` times the tap back into the line, and mixes input
 * and tap by the wet/dry ratio.
 */
module BasicDelay {
  import opened Wrappers
  import opened RingBuf
  import opened BufRw
  import opened Conf
  import opened MathUtils
  import opened Context
  import opened EffectsIo
  import opened DelayBuf

  const PARAM_DELAY_TIME_MS: nat := 0
  const PARAM_FEEDBACK_PCT: nat := 1
  const PARAM_WET_DRY_PCT: nat := 2

  /** The advertised parameters, in index order, with their ranges and defaults. */
  const BASIC_PARAMS: seq<AdvertisedParameter> := [
    AdvertisedParameter("delay_time_ms", FRange(0.0, MAX_DELAY_MS), F(1000.0)),
    AdvertisedParameter("feedback_pct", FRange(-1.0, 1.0), F(0.0)),
    AdvertisedParameter("wet_dry_pct", FRange(0.0, 1.0), F(0.5))
  ]

  /** What is written back into the delay line: the input plus the scaled tap. */
  function Feed(x: real, feedback: real, y: real): (d: real)
    ensures feedback == 0.0 ==> d == x
  {
    x + feedback * y
  }

  /** The output sample: input and tap mixed by the wet ratio. */
  function Mix(wet: real, x: real, y: real): (o: real)
    ensures wet == 0.0 ==> o == x
    ensures wet == 1.0 ==> o == y
    ensures 0.0 <= wet <= 1.0 && x <= y ==> x <= o <= y
    ensures 0.0 <= wet <= 1.0 && y <= x ==> y <= o <= x
  {
    MulNonNeg(wet, y - x);
    MulNonNeg(wet, x - y);
    MulNonNeg(1.0 - wet, y - x);
    MulNonNeg(1.0 - wet, x - y);
    assert (1.0 - wet) * x + wet * y == x + wet * (y - x);
    (1.0 - wet) * x + wet * y
  }

  /** The delay line after a block, and the samples the block produced. */
  datatype Echo = Echo(line: Ring, out: seq<real>)

  /**
   * One block of the delay, sample by sample: the tap `y` is read from the
   * line as it stands, `Feed` of input and tap is written to the line, and
   * `Mix` of input and tap is the output.
   */
  function DelayRun(line: Ring, whole: nat, fract: real, wet: real, feedback: real, xs: seq<real>): (e: Echo)
    requires line.Valid() && whole + 2 <= line.limit
    ensures e.line.Valid() && e.line.limit == line.limit && |e.line.data| == |line.data|
    ensures |e.out| == |xs|
    decreases |xs|
  {
    if xs == [] then Echo(line, [])
    else
      var e := DelayRun(line, whole, fract, wet, feedback, xs[..|xs| - 1]);
      var x := xs[|xs| - 1];
      var y := DelayedRead(e.line, whole, fract);
      Echo(e.line.Write(Feed(x, feedback, y)), e.out + [Mix(wet, x, y)])
  }

  /** Running a prefix of the block gives the same line and a prefix of the output. */
  lemma {:induction false} DelayRunPrefix(line: Ring, whole: nat, fract: real, wet: real, feedback: real,
                                          xs: seq<real>, j: nat)
    requires line.Valid() && whole + 2 <= line.limit && j <= |xs|
    ensures DelayRun(line, whole, fract, wet, feedback, xs[..j]).out ==
            DelayRun(line, whole, fract, wet, feedback, xs).out[..j]
    decreases |xs|
  {
    if j < |xs| {
      var init := xs[..|xs| - 1];
      assert init[..j] == xs[..j];
      DelayRunPrefix(line, whole, fract, wet, feedback, init, j);
    } else {
      assert xs[..j] == xs;
    }
  }

  /** With no wet signal the output is exactly the input. */
  lemma {:induction false} DryIsIdentity(line: Ring, whole: nat, fract: real, feedback: real, xs: seq<real>)
    requires line.Valid() && whole + 2 <= line.limit
    ensures DelayRun(line, whole, fract, 0.0, feedback, xs).out == xs
    decreases |xs|
  {
    if xs != [] {
      var init := xs[..|xs| - 1];
      DryIsIdentity(line, whole, fract, feedback, init);
      assert init + [xs[|xs| - 1]] == xs;
    }
  }

  /** Without feedback the line receives the input itself, one write per sample. */
  lemma {:induction false} FeedForwardLine(line: Ring, whole: nat, fract: real, wet: real, xs: seq<real>)
    requires line.Valid() && whole + 2 <= line.limit
    ensures DelayRun(line, whole, fract, wet, 0.0, xs).line == line.WriteAll(xs)
    decreases |xs|
  {
    if xs != [] {
      var init := xs[..|xs| - 1];
      var last := xs[|xs| - 1];
      FeedForwardLine(line, whole, fract, wet, init);
      WriteAllSnoc(line, init, last);
      assert init + [last] == xs;
    }
  }

  /** Whatever the feedback, a block of n samples advances the write position by n. */
  lemma {:induction false} LineAdvances(line: Ring, whole: nat, fract: real, wet: real, feedback: real, xs: seq<real>)
    requires line.Valid() && whole + 2 <= line.limit && line.writeIdx < line.limit
    ensures DelayRun(line, whole, fract, wet, feedback, xs).line.writeIdx == (line.writeIdx + |xs|) % line.limit
    decreases |xs|
  {
    if xs != [] {
      var init := xs[..|xs| - 1];
      LineAdvances(line, whole, fract, wet, feedback, init);
      ModAddLeft(line.writeIdx + |init|, 1, line.limit);
    }
  }

  /** The last output of a block mixes the last input with the tap read before its write. */
  lemma {:induction false} DelayRunLast(line: Ring, whole: nat, fract: real, wet: real, feedback: real, xs: seq<real>)
    requires line.Valid() && whole + 2 <= line.limit && xs != []
    ensures var before := DelayRun(line, whole, fract, wet, feedback, xs[..|xs| - 1]);
      DelayRun(line, whole, fract, wet, feedback, xs).out[|xs| - 1] ==
        Mix(wet, xs[|xs| - 1], DelayedRead(before.line, whole, fract))
  {
  }

  /**
   * A fully wet delay without feedback is an echo: once the block has run
   * past `whole + 2` samples, output i interpolates between the inputs
   * `whole + 1` and `whole + 2` samples earlier.
   */
  lemma {:induction false} PureEcho(line: Ring, whole: nat, fract: real, xs: seq<real>, i: nat)
    requires line.Valid() && whole + 2 <= line.limit && line.writeIdx < line.limit
    requires whole + 2 <= i < |xs|
    ensures DelayRun(line, whole, fract, 1.0, 0.0, xs).out[i] == Lerp(xs[i - whole - 1], xs[i - whole - 2], fract)
  {
    var pre, full := xs[..i], xs[..i + 1];
    assert full[..|full| - 1] == pre && full[|full| - 1] == xs[i];
    DelayRunLast(line, whole, fract, 1.0, 0.0, full);
    DelayRunPrefix(line, whole, fract, 1.0, 0.0, xs, i + 1);
    FeedForwardLine(line, whole, fract, 1.0, pre);
    DelayedReadHistory(line, pre, whole, fract);
  }

  /** Running one more sample extends the line by one write and the output by one sample. */
  lemma DelayRunSnoc(line: Ring, whole: nat, fract: real, wet: real, feedback: real, xs: seq<real>, i: nat)
    requires line.Valid() && whole + 2 <= line.limit && i < |xs|
    ensures var e := DelayRun(line, whole, fract, wet, feedback, xs[..i]);
      var y := DelayedRead(e.line, whole, fract);
      DelayRun(line, whole, fract, wet, feedback, xs[..i + 1]) ==
        Echo(e.line.Write(Feed(xs[i], feedback, y)), e.out + [Mix(wet, xs[i], y)])
  {
    assert xs[..i + 1][..i] == xs[..i];
  }

  /** One more sample of the block, as seen through a sink: the line takes one write and the sink one sample. */
  lemma EchoStep(sink: Sink, line: Ring, whole: nat, fract: real, wet: real, feedback: real, xs: seq<real>, i: nat)
    requires line.Valid() && whole + 2 <= line.limit && i < |xs| && sink.Accepts(|xs|)
    ensures var e := DelayRun(line, whole, fract, wet, feedback, xs[..i]);
      var e' := DelayRun(line, whole, fract, wet, feedback, xs[..i + 1]);
      var y := DelayedRead(e.line, whole, fract);
      && e'.line == e.line.Write(Feed(xs[i], feedback, y))
      && sink.PutBlock(e'.out) == sink.PutBlock(e.out).Put(i, Mix(wet, xs[i], y))
  {
    DelayRunSnoc(line, whole, fract, wet, feedback, xs, i);
    var e := DelayRun(line, whole, fract, wet, feedback, xs[..i]);
    var out := DelayRun(line, whole, fract, wet, feedback, xs[..i + 1]).out;
    assert out[..i] == e.out && out[..i + 1] == out;
    PutBlockPrefix(sink, out, i);
  }

  /** The effect: its parameter values and its delay line. */
  class MonoDelayBasic {
    var params: seq<ParamValue>
    const delayBuf: DelayBuffer

    ghost predicate Valid()
      reads this, delayBuf, delayBuf.buf
    {
      |params| == |BASIC_PARAMS| && delayBuf.Valid()
    }

    /** Both samples around the delay lie inside the ring, so the unsigned index arithmetic cannot underflow. */
    ghost predicate Tappable()
      reads this, delayBuf, delayBuf.buf
    {
      0 <= delayBuf.wholeDelayTimeSamples && delayBuf.wholeDelayTimeSamples + 2 <= delayBuf.buf.limit
    }

    /** The delay line is owned by the effect, so it shares no storage with the graph. */
    ghost predicate Apart(ctx: BoardContext)
      reads delayBuf, ctx
    {
      && delayBuf.buf !in ctx.buffers
      && (forall i :: 0 <= i < |ctx.buffers| ==> ctx.buffers[i].data != delayBuf.buf.data)
      && {delayBuf.buf, delayBuf.buf.data} !! ctx.WriteSet()
      && {delayBuf.buf, delayBuf.buf.data} !! ctx.ReadSet()
    }

    /** The three parameters, in index order. */
    static function Info(): (r: seq<AdvertisedParameter>)
      ensures |r| == 3
      ensures r[PARAM_DELAY_TIME_MS].name == "delay_time_ms" && r[PARAM_DELAY_TIME_MS].range == FRange(0.0, MAX_DELAY_MS)
      ensures r[PARAM_DELAY_TIME_MS].defaultValue == F(1000.0)
      ensures r[PARAM_FEEDBACK_PCT].name == "feedback_pct" && r[PARAM_FEEDBACK_PCT].range == FRange(-1.0, 1.0)
      ensures r[PARAM_FEEDBACK_PCT].defaultValue == F(0.0)
      ensures r[PARAM_WET_DRY_PCT].name == "wet_dry_pct" && r[PARAM_WET_DRY_PCT].range == FRange(0.0, 1.0)
      ensures r[PARAM_WET_DRY_PCT].defaultValue == F(0.5)
    {
      BASIC_PARAMS
    }

    /**
     * `new`: every parameter takes its default, and the delay line is a
     * zeroed ring for the longest delay at the given rate. The default delay
     * time is only recorded; the line itself starts with no delay.
     */
    constructor (ac: AudioConfig)
      ensures Valid() && fresh(delayBuf) && fresh(delayBuf.buf) && fresh(delayBuf.buf.data)
      ensures |params| == |BASIC_PARAMS| && forall k :: 0 <= k < |params| ==> params[k] == BASIC_PARAMS[k].defaultValue
      ensures delayBuf.sampleRate == ac.sampleRate && delayBuf.maxDelayMs == MAX_DELAY_MS
      ensures delayBuf.Setting() == DelaySetting(0.0, 0, 0.0)
    {
      var ps: seq<ParamValue> := [];
      for i := 0 to |BASIC_PARAMS|
        invariant |ps| == i && forall k :: 0 <= k < i ==> ps[k] == BASIC_PARAMS[k].defaultValue
      {
        ps := ps + [BASIC_PARAMS[i].defaultValue];
      }
      params := ps;
      delayBuf := new DelayBuffer.WithSampleRate(ac.sampleRate);
    }

    function AdvertiseParameters(): (r: seq<AdvertisedParameter>)
      ensures r == Info()
    {
      Info()
    }

    /** `set_audio_parameters`: the delay line is rebuilt for the new rate. */
    method SetAudioParameters(config: AudioConfig)
      requires Valid() && CapacityFor(config.sampleRate, delayBuf.maxDelayMs) >= 1
      modifies delayBuf
      ensures Valid() && params == old(params) && fresh(delayBuf.buf) && fresh(delayBuf.buf.data)
      ensures delayBuf.sampleRate == config.sampleRate
      ensures delayBuf.Setting() ==
        SetDelayTime(CapacityFor(config.sampleRate, delayBuf.maxDelayMs), config.sampleRate,
                     old(delayBuf.Setting()), old(delayBuf.delayTimeMs), true)
    {
      delayBuf.ChangeSampleRate(config.sampleRate);
    }

    /**
     * `set_effect_parameter`: the value is stored at its index (an index of
     * 3 or more is out of bounds); a new delay time is also applied to the
     * delay line, clamped to the ring.
     */
    method SetEffectParameter(paramIdx: nat, value: ParamValue)
      requires Valid() && paramIdx < |params|
      requires paramIdx == PARAM_DELAY_TIME_MS ==> AsFlt(value) < 0.0 || delayBuf.buf.capacity >= 1
      modifies this, delayBuf
      ensures Valid() && params == old(params)[paramIdx := value]
      ensures delayBuf.buf == old(delayBuf.buf) && delayBuf.sampleRate == old(delayBuf.sampleRate)
      ensures paramIdx == PARAM_DELAY_TIME_MS ==>
        delayBuf.Setting() == SetDelayTime(delayBuf.buf.capacity, delayBuf.sampleRate, old(delayBuf.Setting()), AsFlt(value), true)
      ensures paramIdx != PARAM_DELAY_TIME_MS ==> delayBuf.Setting() == old(delayBuf.Setting())
    {
      params := params[paramIdx := value];
      if paramIdx == PARAM_DELAY_TIME_MS {
        delayBuf.SetDelayTimeMs(AsFlt(value), true);
      }
    }

    /** The reader and the writer do not overlap, and the delay line shares storage with neither. */
    ghost predicate Isolated(reader: AudioBufferReader, writer: AudioBufferWriter)
      reads this, delayBuf
    {
      && reader.Footprint() !! writer.Footprint()
      && {delayBuf.buf, delayBuf.buf.data} !! reader.Footprint() + writer.Footprint()
    }

    /** One sample: read the input and the tap, feed the line, write the mix. */
    method EchoSample(reader: AudioBufferReader, writer: AudioBufferWriter, n: nat, j: nat, wet: real, feedback: real)
      requires Valid() && Tappable() && Isolated(reader, writer)
      requires reader.Readable(n) && writer.Writable(n) && j < n
      modifies writer.Footprint(), delayBuf.buf, delayBuf.buf.data
      ensures Valid() && Tappable() && unchanged(this, delayBuf) && writer.Writable(n)
      ensures reader.Readable(n) && reader.ReadBlock(n) == old(reader.ReadBlock(n))
      ensures var x := old(reader.ReadBlock(n))[j];
        var y := old(DelayedRead(delayBuf.buf.State(), delayBuf.wholeDelayTimeSamples, delayBuf.fractDelayTimeSamples));
        && delayBuf.buf.State() == old(delayBuf.buf.State()).Write(Feed(x, feedback, y))
        && writer.Contents() == old(writer.Contents()).Put(j, Mix(wet, x, y))
    {
      var xn := reader.BufRead(j);
      var yn := delayBuf.ReadDelayedSample();
      delayBuf.WriteSample(Feed(xn, feedback, yn));
      writer.BufWrite(j, Mix(wet, xn, yn));
    }

    /** Sample `i` of a block: the run so far is extended by one sample. */
    method EchoNext(reader: AudioBufferReader, writer: AudioBufferWriter, n: nat, wet: real, feedback: real, i: nat,
                    ghost block: seq<real>, ghost before: Sink, ghost line: Ring, ghost whole: nat, ghost fract: real)
      requires Valid() && Tappable() && Isolated(reader, writer)
      requires reader.Readable(n) && writer.Writable(n) && i < n
      requires line.Valid() && whole + 2 <= line.limit && |block| == n && before.Accepts(n)
      requires delayBuf.wholeDelayTimeSamples == whole && delayBuf.fractDelayTimeSamples == fract
      requires reader.ReadBlock(n) == block
      requires var e := DelayRun(line, whole, fract, wet, feedback, block[..i]);
        writer.Contents() == before.PutBlock(e.out) && delayBuf.buf.State() == e.line
      modifies writer.Footprint(), delayBuf.buf, delayBuf.buf.data
      ensures Valid() && Tappable() && unchanged(this, delayBuf) && writer.Writable(n)
      ensures reader.Readable(n) && reader.ReadBlock(n) == block
      ensures var e := DelayRun(line, whole, fract, wet, feedback, block[..i + 1]);
        writer.Contents() == before.PutBlock(e.out) && delayBuf.buf.State() == e.line
    {
      EchoStep(before, line, whole, fract, wet, feedback, block, i);
      EchoSample(reader, writer, n, i, wet, feedback);
    }

    /** Runs one block from `reader` through the delay line to `writer`. */
    method EchoBlock(reader: AudioBufferReader, writer: AudioBufferWriter, n: nat, wet: real, feedback: real,
                     ghost block: seq<real>, ghost before: Sink, ghost line: Ring, ghost whole: nat, ghost fract: real)
      requires Valid() && Tappable() && Isolated(reader, writer)
      requires reader.Readable(n) && writer.Writable(n)
      requires block == reader.ReadBlock(n) && before == writer.Contents() && line == delayBuf.buf.State()
      requires whole == delayBuf.wholeDelayTimeSamples && fract == delayBuf.fractDelayTimeSamples
      modifies writer.Footprint(), delayBuf.buf, delayBuf.buf.data
      ensures Valid() && Tappable() && unchanged(this, delayBuf) && writer.Writable(n)
      ensures line.Valid() && whole + 2 <= line.limit && before.Accepts(n)
      ensures var e := DelayRun(line, whole, fract, wet, feedback, block);
        writer.Contents() == before.PutBlock(e.out) && delayBuf.buf.State() == e.line
    {
      for i := 0 to n
        invariant Valid() && Tappable() && unchanged(this, delayBuf) && writer.Writable(n)
        invariant reader.Readable(n) && reader.ReadBlock(n) == block
        invariant var e := DelayRun(line, whole, fract, wet, feedback, block[..i]);
          writer.Contents() == before.PutBlock(e.out) && delayBuf.buf.State() == e.line
      {
        EchoNext(reader, writer, n, wet, feedback, i, block, before, line, whole, fract);
      }
      assert block[..n] == block;
    }

    /** The reader and writer of a connection and the graph itself lie outside the delay line. */
    lemma Separated(ctx: BoardContext, n: nat, ridx: nat, widx: nat)
      requires Apart(ctx) && ctx.Ready(n) && ReadMapped(ridx) && WriteMapped(widx)
      requires ridx < FIRST_INPUT_IDX ==> ridx != widx
      ensures ctx.GetBufferForRead(ridx).Readable(n) && ctx.GetBufferForWrite(widx).Writable(n)
      ensures Isolated(ctx.GetBufferForRead(ridx), ctx.GetBufferForWrite(widx))
      ensures ctx !in ctx.GetBufferForWrite(widx).Footprint() + {delayBuf.buf, delayBuf.buf.data}
      ensures var w := ctx.GetBufferForWrite(widx);
        forall i :: 0 <= i < |ctx.buffers| && !(w.InternalWriter? && w.buf == ctx.buffers[i]) ==>
          ctx.buffers[i] !in w.Footprint() + {delayBuf.buf, delayBuf.buf.data}
    {
      ReaderUsable(ctx, n, ridx);
      WriterUsable(ctx, n, widx);
      ReaderWriterDisjoint(ctx, n, ridx, widx);
    }

    /**
     * Runs one block from graph index `ridx` through the delay line to graph
     * index `widx`; `line`, `block` and `before` name the starting state.
     */
    method EchoInto(ctx: BoardContext, n: nat, ridx: nat, widx: nat, wet: real, feedback: real,
                    ghost line: Ring, ghost block: seq<real>, ghost before: Sink)
      requires Valid() && Tappable() && Apart(ctx)
      requires ctx.Ready(n) && ReadMapped(ridx) && WriteMapped(widx)
      requires ridx < FIRST_INPUT_IDX ==> ridx != widx
      requires line == delayBuf.buf.State()
      requires ctx.GetBufferForRead(ridx).Readable(n) && block == ctx.GetBufferForRead(ridx).ReadBlock(n)
      requires before == ctx.GetBufferForWrite(widx).Contents()
      modifies ctx.GetBufferForWrite(widx).Footprint(), delayBuf.buf, delayBuf.buf.data
      ensures ctx.Ready(n) && Valid() && Tappable() && unchanged(this, delayBuf)
      ensures line.Valid() && delayBuf.wholeDelayTimeSamples + 2 <= line.limit
      ensures var e := DelayRun(line, delayBuf.wholeDelayTimeSamples, delayBuf.fractDelayTimeSamples, wet, feedback, block);
        && ctx.GetBufferForWrite(widx).Contents() == before.PutBlock(e.out)
        && delayBuf.buf.State() == e.line
    {
      var writer := ctx.GetBufferForWrite(widx);
      Separated(ctx, n, ridx, widx);
      EchoBlock(ctx.GetBufferForRead(ridx), writer, n, wet, feedback, block, before, line,
                delayBuf.wholeDelayTimeSamples, delayBuf.fractDelayTimeSamples);
      assert unchanged(ctx);
      forall i | 0 <= i < |ctx.buffers|
        ensures ctx.buffers[i].Valid() && ctx.buffers[i].limit > 0
      {
        if !(writer.InternalWriter? && writer.buf == ctx.buffers[i]) {
          assert unchanged(ctx.buffers[i]);
        }
      }
    }

    /** `execute` for a connection with both an input and an output. */
    method EchoConnection(ctx: BoardContext, connectionIdx: nat, numSamples: nat)
      requires Valid() && Tappable() && Apart(ctx)
      requires ctx.Ready(numSamples) && connectionIdx < |ctx.connections|
      requires ConnectionMapped(ctx.connections[connectionIdx])
      requires |ctx.connections[connectionIdx].outputIdxs| > 0 && |ctx.connections[connectionIdx].inputsIdxs| > 0
      modifies ctx.GetBufferForWrite(ctx.connections[connectionIdx].outputIdxs[0]).Footprint(),
        delayBuf.buf, delayBuf.buf.data
      ensures ctx.Ready(numSamples) && Valid() && Tappable()
      ensures var c := ctx.connections[connectionIdx];
        var e := DelayRun(old(delayBuf.buf.State()), old(delayBuf.wholeDelayTimeSamples), old(delayBuf.fractDelayTimeSamples),
                          AsFlt(params[PARAM_WET_DRY_PCT]), AsFlt(params[PARAM_FEEDBACK_PCT]),
                          old(ctx.GetBufferForRead(c.inputsIdxs[0]).ReadBlock(numSamples)));
        && ctx.GetBufferForWrite(c.outputIdxs[0]).Contents() ==
           old(ctx.GetBufferForWrite(c.outputIdxs[0]).Contents()).PutBlock(e.out)
        && delayBuf.buf.State() == e.line
    {
      var c := ctx.connections[connectionIdx];
      var ridx, widx := c.inputsIdxs[0], c.outputIdxs[0];
      ReaderUsable(ctx, numSamples, ridx);
      ghost var line := delayBuf.buf.State();
      ghost var block := ctx.GetBufferForRead(ridx).ReadBlock(numSamples);
      ghost var before := ctx.GetBufferForWrite(widx).Contents();
      var maybeBufs := BasicSingleInSingleOut(ctx, connectionIdx, numSamples);
      ConnectionIndicesDistinct(ctx, connectionIdx);
      var wetness := AsFlt(params[PARAM_WET_DRY_PCT]);
      var feedback := AsFlt(params[PARAM_FEEDBACK_PCT]);
      EchoInto(ctx, numSamples, ridx, widx, wetness, feedback, line, block, before);
    }

    /**
     * `execute`: with no output nothing is written; with an output but no
     * input the output gets silence; otherwise the block runs through the
     * delay line as `DelayRun` describes, with the stored wet/dry and
     * feedback values, and its output goes to the first output.
     */
    method Execute(ctx: BoardContext, connectionIdx: nat, numSamples: nat)
      requires Valid() && Tappable() && Apart(ctx)
      requires ctx.Ready(numSamples) && connectionIdx < |ctx.connections|
      requires ConnectionMapped(ctx.connections[connectionIdx])
      modifies (var c := ctx.connections[connectionIdx];
        if |c.outputIdxs| > 0 then ctx.GetBufferForWrite(c.outputIdxs[0]).Footprint() else {}),
        delayBuf.buf, delayBuf.buf.data
      ensures ctx.Ready(numSamples) && Valid() && Tappable()
      ensures var c := ctx.connections[connectionIdx];
        |c.outputIdxs| == 0 || |c.inputsIdxs| == 0 ==> delayBuf.buf.State() == old(delayBuf.buf.State())
      ensures var c := ctx.connections[connectionIdx];
        |c.outputIdxs| > 0 && |c.inputsIdxs| == 0 ==>
          ctx.GetBufferForWrite(c.outputIdxs[0]).Contents() ==
          old(ctx.GetBufferForWrite(c.outputIdxs[0]).Contents()).PutBlock(Zeros(numSamples))
      ensures var c := ctx.connections[connectionIdx];
        |c.outputIdxs| > 0 && |c.inputsIdxs| > 0 ==>
          var e := DelayRun(old(delayBuf.buf.State()), old(delayBuf.wholeDelayTimeSamples), old(delayBuf.fractDelayTimeSamples),
                            AsFlt(params[PARAM_WET_DRY_PCT]), AsFlt(params[PARAM_FEEDBACK_PCT]),
                            old(ctx.GetBufferForRead(c.inputsIdxs[0]).ReadBlock(numSamples)));
          && ctx.GetBufferForWrite(c.outputIdxs[0]).Contents() ==
             old(ctx.GetBufferForWrite(c.outputIdxs[0]).Contents()).PutBlock(e.out)
          && delayBuf.buf.State() == e.line
    {
      var c := ctx.connections[connectionIdx];
      if |c.outputIdxs| == 0 || |c.inputsIdxs| == 0 {
        var none := BasicSingleInSingleOut(ctx, connectionIdx, numSamples);
        return;
      }
      EchoConnection(ctx, connectionIdx, numSamples);
    }
  }
}
