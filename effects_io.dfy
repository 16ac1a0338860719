/**
 * The input/output plumbing shared by single-input, single-output effects.
 */
module EffectsIo {
  import opened Wrappers
  import opened RingBuf
  import opened BufRw
  import opened Context

  /** The reader and the writer an effect processes between. */
  datatype Io = Io(reader: AudioBufferReader, writer: AudioBufferWriter)

  /** Writing the first `i + 1` zeros is writing the first `i` and then one more. */
  lemma ZerosSnoc(s: Sink, i: nat)
    requires s.Accepts(i + 1)
    ensures s.PutBlock(Zeros(i + 1)) == s.PutBlock(Zeros(i)).Put(i, 0.0)
  {
    assert Zeros(i + 1)[..i] == Zeros(i);
  }

  /**
   * Writes `numSamples` zeros through the writer for index `idx`, leaving
   * the rest of the graph's writable memory alone.
   */
  method WriteSilence(ctx: BoardContext, idx: nat, numSamples: nat)
    requires ctx.Ready(numSamples) && WriteMapped(idx)
    modifies ctx.GetBufferForWrite(idx).Footprint()
    ensures unchanged(ctx) && ctx.Ready(numSamples)
    ensures ctx.GetBufferForWrite(idx).Contents() ==
      old(ctx.GetBufferForWrite(idx).Contents()).PutBlock(Zeros(numSamples))
  {
    WriterUsable(ctx, numSamples, idx);
    ghost var before := ctx.GetBufferForWrite(idx).Contents();
    for i := 0 to numSamples
      invariant unchanged(ctx) && ctx.Ready(numSamples)
      invariant ctx.GetBufferForWrite(idx).Contents() == before.PutBlock(Zeros(i))
    {
      ZerosSnoc(before, i);
      WriteThrough(ctx, numSamples, idx, i, 0.0);
    }
  }

  /**
   * `basic_single_in_single_out`: with no output there is nothing to do;
   * with an output but no input the output receives a block of silence and
   * there is nothing more to do; otherwise the first input and the first
   * output are handed back and nothing is written yet.
   */
  method BasicSingleInSingleOut(ctx: BoardContext, connectionIdx: nat, numSamples: nat)
    returns (r: Option<Io>)
    requires ctx.Ready(numSamples) && connectionIdx < |ctx.connections|
    requires ConnectionMapped(ctx.connections[connectionIdx])
    modifies var c := ctx.connections[connectionIdx];
      if |c.outputIdxs| > 0 && |c.inputsIdxs| == 0 then ctx.GetBufferForWrite(c.outputIdxs[0]).Footprint() else {}
    ensures unchanged(ctx) && ctx.Ready(numSamples)
    ensures var c := ctx.connections[connectionIdx];
      |c.outputIdxs| == 0 ==> r == None
    ensures var c := ctx.connections[connectionIdx];
      |c.outputIdxs| > 0 && |c.inputsIdxs| == 0 ==>
        && r == None
        && ctx.GetBufferForWrite(c.outputIdxs[0]).Contents() ==
           old(ctx.GetBufferForWrite(c.outputIdxs[0]).Contents()).PutBlock(Zeros(numSamples))
    ensures var c := ctx.connections[connectionIdx];
      |c.outputIdxs| > 0 && |c.inputsIdxs| > 0 ==>
        r == Some(Io(ctx.GetBufferForRead(c.inputsIdxs[0]), ctx.GetBufferForWrite(c.outputIdxs[0])))
  {
    var inputs := ctx.GetInputsForConnection(connectionIdx);
    var outputs := ctx.GetOutputsForConnection(connectionIdx);
    if |outputs| < 1 {
      return None;
    }
    WriterUsable(ctx, numSamples, outputs[0]);
    if |inputs| < 1 {
      WriteSilence(ctx, outputs[0], numSamples);
      return None;
    }
    var writeBuf := ctx.GetBufferForWrite(outputs[0]);
    var readBuf := ctx.GetBufferForRead(inputs[0]);
    return Some(Io(readBuf, writeBuf));
  }
}
