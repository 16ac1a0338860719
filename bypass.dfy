/**
 * The bypass effects: a single-channel copy, the multi-channel bypass the
 * executor substitutes for disabled effects, and the frequency-domain
 * identity used by the vocoder.
 */
module Bypass {
  import opened Wrappers
  import opened RingBuf
  import opened BufRw
  import opened Conf
  import opened Context
  import opened EffectsIo

  /**
   * Copies sample `j` from the reader at `ridx` to the writer at `widx`;
   * the reader's block is unaffected.
   */
  method CopySample(ctx: BoardContext, n: nat, ridx: nat, widx: nat, j: nat)
    requires ctx.Ready(n) && ReadMapped(ridx) && WriteMapped(widx) && j < n
    requires ridx < FIRST_INPUT_IDX ==> ridx != widx
    modifies ctx.GetBufferForWrite(widx).Footprint()
    ensures unchanged(ctx) && ctx.Ready(n) && ctx.GetBufferForRead(ridx).Readable(n)
    ensures ctx.GetBufferForRead(ridx).ReadBlock(n) == old(ctx.GetBufferForRead(ridx).ReadBlock(n))
    ensures ctx.GetBufferForWrite(widx).Contents() ==
      old(ctx.GetBufferForWrite(widx).Contents()).Put(j, old(ctx.GetBufferForRead(ridx).ReadBlock(n))[j])
  {
    ReaderUsable(ctx, n, ridx);
    ReaderWriterDisjoint(ctx, n, ridx, widx);
    var v := ctx.GetBufferForRead(ridx).BufRead(j);
    WriteThrough(ctx, n, widx, j, v);
    ReaderUsable(ctx, n, ridx);
  }

  /** Copies one block from the reader at `ridx` to the writer at `widx`. */
  method CopyBlock(ctx: BoardContext, n: nat, ridx: nat, widx: nat)
    requires ctx.Ready(n) && ReadMapped(ridx) && WriteMapped(widx)
    requires ridx < FIRST_INPUT_IDX ==> ridx != widx
    modifies ctx.GetBufferForWrite(widx).Footprint()
    ensures unchanged(ctx) && ctx.Ready(n)
    ensures ctx.GetBufferForWrite(widx).Contents() ==
      old(ctx.GetBufferForWrite(widx).Contents()).PutBlock(old(ctx.GetBufferForRead(ridx).ReadBlock(n)))
  {
    ReaderUsable(ctx, n, ridx);
    WriterUsable(ctx, n, widx);
    ghost var reader := ctx.GetBufferForRead(ridx);
    ghost var writer := ctx.GetBufferForWrite(widx);
    ghost var block := reader.ReadBlock(n);
    ghost var before := writer.Contents();
    for j := 0 to n
      invariant unchanged(ctx) && ctx.Ready(n) && reader.Readable(n)
      invariant reader.ReadBlock(n) == block
      invariant writer.Contents() == before.PutBlock(block[..j])
    {
      PutBlockPrefix(before, block, j);
      CopySample(ctx, n, ridx, widx, j);
    }
    assert block[..n] == block;
  }

  /** The parameter table shared by the bypasses: empty. */
  const PARAMS: seq<AdvertisedParameter> := []

  /** `MonoBypass`: a stateless single-input, single-output copy. */
  class MonoBypass {
    constructor ()
    {
    }

    /** The table registered beside the constructor. */
    static function Info(): seq<AdvertisedParameter>
    {
      PARAMS
    }

    /** The bypass advertises no parameters, the table registered for it. */
    function AdvertiseParameters(): (r: seq<AdvertisedParameter>)
      ensures |r| == 0 && r == Info()
    {
      PARAMS
    }

    /** Setting a parameter or the audio configuration has no effect. */
    method SetEffectParameter(paramIdx: nat, value: ParamValue)
    {
    }

    method SetAudioParameters(config: AudioConfig)
    {
    }

    /**
     * One block: with no output nothing is written; with an output but no
     * input the output gets silence; otherwise the first input's block is
     * written through the first output, sample by sample.
     */
    method Execute(ctx: BoardContext, connectionIdx: nat, numSamples: nat)
      requires ctx.Ready(numSamples) && connectionIdx < |ctx.connections|
      requires ConnectionMapped(ctx.connections[connectionIdx])
      modifies var c := ctx.connections[connectionIdx];
        if |c.outputIdxs| > 0 then ctx.GetBufferForWrite(c.outputIdxs[0]).Footprint() else {}
      ensures ctx.Ready(numSamples)
      ensures var c := ctx.connections[connectionIdx];
        |c.outputIdxs| > 0 && |c.inputsIdxs| == 0 ==>
          ctx.GetBufferForWrite(c.outputIdxs[0]).Contents() ==
          old(ctx.GetBufferForWrite(c.outputIdxs[0]).Contents()).PutBlock(Zeros(numSamples))
      ensures var c := ctx.connections[connectionIdx];
        |c.outputIdxs| > 0 && |c.inputsIdxs| > 0 ==>
          ctx.GetBufferForWrite(c.outputIdxs[0]).Contents() ==
          old(ctx.GetBufferForWrite(c.outputIdxs[0]).Contents()).PutBlock(
            old(ctx.GetBufferForRead(c.inputsIdxs[0]).ReadBlock(numSamples)))
    {
      var c := ctx.connections[connectionIdx];
      if |c.inputsIdxs| > 0 {
        ReaderUsable(ctx, numSamples, c.inputsIdxs[0]);
      }
      if |c.outputIdxs| > 0 {
        WriterUsable(ctx, numSamples, c.outputIdxs[0]);
      }
      var maybeBufs := BasicSingleInSingleOut(ctx, connectionIdx, numSamples);
      if maybeBufs.None? {
        return;
      }
      ghost var block := ctx.GetBufferForRead(c.inputsIdxs[0]).ReadBlock(numSamples);
      assert block == old(ctx.GetBufferForRead(c.inputsIdxs[0]).ReadBlock(numSamples));
      ghost var before := ctx.GetBufferForWrite(c.outputIdxs[0]).Contents();
      assert before == old(ctx.GetBufferForWrite(c.outputIdxs[0]).Contents());
      ConnectionIndicesDistinct(ctx, connectionIdx);
      CopyBlock(ctx, numSamples, c.inputsIdxs[0], c.outputIdxs[0]);
    }
  }

  /** What the multi-channel bypass writes at one step: a copy of an input, or silence. */
  datatype Fill = Copy(readIdx: nat) | Silence

  /** One step of the multi-channel bypass: a block written to the writer at `writeIdx`. */
  datatype Step = Step(writeIdx: nat, fill: Fill)

  function Min(a: nat, b: nat): nat
  {
    if a <= b then a else b
  }

  /**
   * The steps `GenericBypass::execute` takes, in order: input k is copied to
   * output k for every k below the shorter list's length; then, when the
   * outputs outnumber the inputs, silence goes to the raw index k (not
   * `outputs[k]`) for every remaining k.
   */
  function GenericPlan(ins: seq<nat>, outs: seq<nat>): (p: seq<Step>)
    ensures |p| == |outs|
    ensures forall k :: 0 <= k < Min(|ins|, |outs|) ==> p[k] == Step(outs[k], Copy(ins[k]))
    ensures forall k :: Min(|ins|, |outs|) <= k < |outs| ==> p[k] == Step(k, Silence)
  {
    var m := Min(|ins|, |outs|);
    seq(m, k requires 0 <= k < m => Step(outs[k], Copy(ins[k])))
    + seq(|outs| - m, k requires 0 <= k < |outs| - m => Step(m + k, Silence))
  }

  /** Every step's indices can be dispatched. */
  predicate PlanMapped(plan: seq<Step>)
  {
    forall k :: 0 <= k < |plan| ==>
      WriteMapped(plan[k].writeIdx) && (plan[k].fill.Copy? ==> ReadMapped(plan[k].fill.readIdx))
  }

  /** The block a step writes, read from the graph as it stands. */
  ghost function StepBlock(ctx: BoardContext, s: Step, n: nat): (b: seq<real>)
    requires s.fill.Copy? ==> ctx.CanRead(n, s.fill.readIdx)
    reads ctx, ctx.ReadSet()
    ensures |b| == n
  {
    match s.fill
    case Silence => Zeros(n)
    case Copy(r) => ctx.GetBufferForRead(r).ReadBlock(n)
  }

  /** Every copy step of the plan reads a block the graph can deliver. */
  ghost predicate PlanReadable(ctx: BoardContext, plan: seq<Step>, n: nat)
    reads ctx, ctx.ReadSet()
  {
    forall k :: 0 <= k < |plan| && plan[k].fill.Copy? ==> ctx.CanRead(n, plan[k].fill.readIdx)
  }

  /** The blocks of all steps of a plan, all read from the same graph state. */
  ghost function Blocks(ctx: BoardContext, plan: seq<Step>, n: nat): (bs: seq<seq<real>>)
    requires PlanReadable(ctx, plan, n)
    reads ctx, ctx.ReadSet()
    ensures |bs| == |plan|
    ensures forall k :: 0 <= k < |plan| ==> bs[k] == StepBlock(ctx, plan[k], n)
  {
    seq(|plan|, k requires 0 <= k < |plan| && PlanReadable(ctx, plan, n) reads ctx, ctx.ReadSet() =>
      StepBlock(ctx, plan[k], n))
  }

  /**
   * What the writer at index `w` ends with: starting from `s`, every step
   * that targets `w` writes its block, in plan order.
   */
  function Replay(s: Sink, plan: seq<Step>, blocks: seq<seq<real>>, n: nat, w: nat): (r: Sink)
    requires |blocks| == |plan| && s.Accepts(n)
    requires forall k :: 0 <= k < |blocks| ==> |blocks[k]| == n
    ensures r.Accepts(n)
    decreases |plan|
  {
    if plan == [] then s
    else
      var prev := Replay(s, plan[..|plan| - 1], blocks[..|blocks| - 1], n, w);
      if plan[|plan| - 1].writeIdx == w then prev.PutBlock(blocks[|blocks| - 1]) else prev
  }

  /** Replaying one more step writes its block if, and only if, it targets `w`. */
  lemma ReplayExtend(s: Sink, plan: seq<Step>, blocks: seq<seq<real>>, n: nat, w: nat, i: nat)
    requires |blocks| == |plan| && s.Accepts(n) && i < |plan|
    requires forall k :: 0 <= k < |blocks| ==> |blocks[k]| == n
    ensures Replay(s, plan[..i + 1], blocks[..i + 1], n, w) ==
      if plan[i].writeIdx == w then Replay(s, plan[..i], blocks[..i], n, w).PutBlock(blocks[i])
      else Replay(s, plan[..i], blocks[..i], n, w)
  {
    assert plan[..i + 1][..i] == plan[..i] && blocks[..i + 1][..i] == blocks[..i];
  }

  /** A writer that no step targets keeps its contents. */
  lemma {:induction false} ReplayUntouched(s: Sink, plan: seq<Step>, blocks: seq<seq<real>>, n: nat, w: nat)
    requires |blocks| == |plan| && s.Accepts(n)
    requires forall k :: 0 <= k < |blocks| ==> |blocks[k]| == n
    requires forall k :: 0 <= k < |plan| ==> plan[k].writeIdx != w
    ensures Replay(s, plan, blocks, n, w) == s
    decreases |plan|
  {
    if plan != [] {
      ReplayUntouched(s, plan[..|plan| - 1], blocks[..|blocks| - 1], n, w);
    }
  }

  /** A writer exactly one step targets receives exactly that step's block. */
  lemma {:induction false} ReplaySingle(s: Sink, plan: seq<Step>, blocks: seq<seq<real>>, n: nat, k: nat)
    requires |blocks| == |plan| && s.Accepts(n)
    requires forall j :: 0 <= j < |blocks| ==> |blocks[j]| == n
    requires k < |plan|
    requires forall j :: 0 <= j < |plan| && j != k ==> plan[j].writeIdx != plan[k].writeIdx
    ensures Replay(s, plan, blocks, n, plan[k].writeIdx) == s.PutBlock(blocks[k])
    decreases |plan|
  {
    var w := plan[k].writeIdx;
    var last := |plan| - 1;
    if k == last {
      ReplayUntouched(s, plan[..last], blocks[..last], n, w);
    } else {
      ReplaySingle(s, plan[..last], blocks[..last], n, k);
    }
  }

  /**
   * With as many inputs as outputs and no write index repeated, output k
   * receives exactly input k's block.
   */
  lemma GenericPlanBalanced(ins: seq<nat>, outs: seq<nat>, blocks: seq<seq<real>>, s: Sink, n: nat, k: nat)
    requires |ins| == |outs| && k < |outs|
    requires forall i, j :: 0 <= i < j < |outs| ==> outs[i] != outs[j]
    requires |blocks| == |outs| && s.Accepts(n)
    requires forall j :: 0 <= j < |blocks| ==> |blocks[j]| == n
    ensures Replay(s, GenericPlan(ins, outs), blocks, n, outs[k]) == s.PutBlock(blocks[k])
  {
    var plan := GenericPlan(ins, outs);
    assert plan[k].writeIdx == outs[k];
    ReplaySingle(s, plan, blocks, n, k);
  }

  /**
   * With one sink output and no input, the silence step targets raw index 0,
   * so the sink is left as it was and internal buffer 0 is silenced instead.
   */
  lemma GenericPlanMissesSink(blocks: seq<seq<real>>, s: Sink, n: nat)
    requires |blocks| == 1 && |blocks[0]| == n && s.Accepts(n)
    ensures GenericPlan([], [FIRST_OUTPUT_IDX]) == [Step(0, Silence)]
    ensures Replay(s, GenericPlan([], [FIRST_OUTPUT_IDX]), blocks, n, FIRST_OUTPUT_IDX) == s
    ensures Replay(s, GenericPlan([], [FIRST_OUTPUT_IDX]), blocks, n, 0) == s.PutBlock(blocks[0])
  {
    var plan := GenericPlan([], [FIRST_OUTPUT_IDX]);
    assert plan[0] == Step(0, Silence);
    assert plan == [Step(0, Silence)];
    ReplayUntouched(s, plan, blocks, n, FIRST_OUTPUT_IDX);
    ReplaySingle(s, plan, blocks, n, 0);
  }

  /** In a ready graph every copy step of a mapped plan can be read. */
  lemma PlanReadableWhenReady(ctx: BoardContext, plan: seq<Step>, n: nat)
    requires ctx.Ready(n) && PlanMapped(plan)
    ensures PlanReadable(ctx, plan, n)
  {
    forall k | 0 <= k < |plan| && plan[k].fill.Copy?
      ensures ctx.CanRead(n, plan[k].fill.readIdx)
    {
      ReaderUsable(ctx, n, plan[k].fill.readIdx);
    }
  }

  /**
   * Every writer holds what replaying the first `i` steps over its starting
   * contents `start[w]` gives.
   */
  ghost predicate Replayed(ctx: BoardContext, n: nat, start: imap<nat, Sink>, plan: seq<Step>, blocks: seq<seq<real>>, i: nat)
    reads ctx, ctx.WriteSet()
  {
    && |ctx.externalOuts| == MAX_EXTERNAL_OUTS
    && |blocks| == |plan| && i <= |plan|
    && (forall k :: 0 <= k < |blocks| ==> |blocks[k]| == n)
    && forall w :: WriteMapped(w) ==>
         && w in start && start[w].Accepts(n)
         && ctx.GetBufferForWrite(w).Footprint() <= ctx.WriteSet()
         && ctx.GetBufferForWrite(w).Contents() == Replay(start[w], plan[..i], blocks[..i], n, w)
  }

  /**
   * Copies the block for step `i` and leaves every later step that reads
   * neither the written ring nor an alias of it with the block it had.
   */
  method CopyKeepingReaders(ctx: BoardContext, n: nat, ridx: nat, widx: nat, ghost plan: seq<Step>, ghost i: nat)
    requires ctx.Ready(n) && PlanMapped(plan) && PlanReadable(ctx, plan, n)
    requires ReadMapped(ridx) && WriteMapped(widx) && (ridx < FIRST_INPUT_IDX ==> ridx != widx)
    modifies ctx.GetBufferForWrite(widx).Footprint()
    ensures unchanged(ctx) && ctx.Ready(n) && PlanReadable(ctx, plan, n)
    ensures ctx.GetBufferForWrite(widx).Contents() ==
      old(ctx.GetBufferForWrite(widx).Contents()).PutBlock(old(ctx.GetBufferForRead(ridx).ReadBlock(n)))
    ensures forall k ::
      (i < k < |plan| && plan[k].fill.Copy? &&
       (plan[k].fill.readIdx < FIRST_INPUT_IDX ==> plan[k].fill.readIdx != widx)) ==>
        StepBlock(ctx, plan[k], n) == old(StepBlock(ctx, plan[k], n))
  {
    forall k | i < k < |plan| && plan[k].fill.Copy? &&
      (plan[k].fill.readIdx < FIRST_INPUT_IDX ==> plan[k].fill.readIdx != widx)
      ensures ctx.GetBufferForRead(plan[k].fill.readIdx).Footprint() !! ctx.GetBufferForWrite(widx).Footprint()
    {
      ReaderWriterDisjoint(ctx, n, plan[k].fill.readIdx, widx);
    }
    CopyBlock(ctx, n, ridx, widx);
    PlanReadableWhenReady(ctx, plan, n);
    forall k | i < k < |plan| && plan[k].fill.Copy? &&
      (plan[k].fill.readIdx < FIRST_INPUT_IDX ==> plan[k].fill.readIdx != widx)
      ensures StepBlock(ctx, plan[k], n) == old(StepBlock(ctx, plan[k], n))
    {
      var r := plan[k].fill.readIdx;
      assert ctx.GetBufferForRead(r).ReadBlock(n) == old(ctx.GetBufferForRead(r).ReadBlock(n));
    }
  }

  /** One copy step of the plan, extending the replay by that step. */
  method CopyStep(ctx: BoardContext, n: nat, ridx: nat, widx: nat,
                  ghost start: imap<nat, Sink>, ghost plan: seq<Step>, ghost blocks: seq<seq<real>>, ghost i: nat)
    requires ctx.Ready(n) && PlanMapped(plan) && PlanReadable(ctx, plan, n)
    requires Replayed(ctx, n, start, plan, blocks, i) && i < |plan|
    requires plan[i] == Step(widx, Copy(ridx)) && StepBlock(ctx, plan[i], n) == blocks[i]
    requires ridx < FIRST_INPUT_IDX ==> ridx != widx
    modifies ctx.GetBufferForWrite(widx).Footprint()
    ensures unchanged(ctx) && ctx.Ready(n) && PlanReadable(ctx, plan, n)
    ensures Replayed(ctx, n, start, plan, blocks, i + 1)
    ensures forall k ::
      (i < k < |plan| && plan[k].fill.Copy? &&
       (plan[k].fill.readIdx < FIRST_INPUT_IDX ==> plan[k].fill.readIdx != widx)) ==>
        StepBlock(ctx, plan[k], n) == old(StepBlock(ctx, plan[k], n))
  {
    forall w | WriteMapped(w) && w != widx
      ensures ctx.GetBufferForWrite(w).Footprint() !! ctx.GetBufferForWrite(widx).Footprint()
    {
      WritersDisjoint(ctx, n, w, widx);
    }
    assert PlanMapped(plan) && 0 <= i < |plan|;
    CopyKeepingReaders(ctx, n, ridx, widx, plan, i);
    forall w | WriteMapped(w)
      ensures ctx.GetBufferForWrite(w).Contents() == Replay(start[w], plan[..i + 1], blocks[..i + 1], n, w)
    {
      ReplayExtend(start[w], plan, blocks, n, w, i);
      if w != widx {
        assert ctx.GetBufferForWrite(w).Contents() == old(ctx.GetBufferForWrite(w).Contents());
      }
    }
    WriterUsable(ctx, n, widx);
  }

  /** One silence step of the plan, extending the replay by that step. */
  method SilenceStep(ctx: BoardContext, n: nat, widx: nat,
                     ghost start: imap<nat, Sink>, ghost plan: seq<Step>, ghost blocks: seq<seq<real>>, ghost i: nat)
    requires ctx.Ready(n) && PlanMapped(plan)
    requires Replayed(ctx, n, start, plan, blocks, i) && i < |plan|
    requires plan[i] == Step(widx, Silence) && blocks[i] == Zeros(n)
    modifies ctx.GetBufferForWrite(widx).Footprint()
    ensures unchanged(ctx) && ctx.Ready(n)
    ensures Replayed(ctx, n, start, plan, blocks, i + 1)
  {
    forall w | WriteMapped(w) && w != widx
      ensures ctx.GetBufferForWrite(w).Footprint() !! ctx.GetBufferForWrite(widx).Footprint()
    {
      WritersDisjoint(ctx, n, w, widx);
    }
    WriteSilence(ctx, widx, n);
    forall w | WriteMapped(w)
      ensures ctx.GetBufferForWrite(w).Contents() == Replay(start[w], plan[..i + 1], blocks[..i + 1], n, w)
    {
      ReplayExtend(start[w], plan, blocks, n, w, i);
      if w != widx {
        assert ctx.GetBufferForWrite(w).Contents() == old(ctx.GetBufferForWrite(w).Contents());
      }
    }
    WriterUsable(ctx, n, widx);
  }

  /** Before any step, every writer holds its starting contents. */
  lemma ReplayStart(ctx: BoardContext, n: nat, plan: seq<Step>, blocks: seq<seq<real>>) returns (start: imap<nat, Sink>)
    requires ctx.Ready(n) && |blocks| == |plan|
    requires forall k :: 0 <= k < |blocks| ==> |blocks[k]| == n
    ensures Replayed(ctx, n, start, plan, blocks, 0)
    ensures forall w :: WriteMapped(w) ==> w in start && start[w] == ctx.GetBufferForWrite(w).Contents()
  {
    start := imap w | WriteMapped(w) :: ctx.GetBufferForWrite(w).Contents();
    forall w | WriteMapped(w)
      ensures ctx.GetBufferForWrite(w).Writable(n)
      ensures ctx.GetBufferForWrite(w).Footprint() <= ctx.WriteSet()
    {
      WriterUsable(ctx, n, w);
    }
  }

  /** The copy loop of the multi-channel bypass: steps 0 .. min(#inputs, #outputs) - 1. */
  method CopyPhase(ctx: BoardContext, n: nat, inputs: seq<nat>, outputs: seq<nat>,
                   ghost start: imap<nat, Sink>, ghost plan: seq<Step>, ghost blocks: seq<seq<real>>)
    requires ctx.Ready(n) && plan == GenericPlan(inputs, outputs)
    requires PlanMapped(plan) && PlanReadable(ctx, plan, n)
    requires Replayed(ctx, n, start, plan, blocks, 0)
    requires forall k :: 0 <= k < Min(|inputs|, |outputs|) ==> StepBlock(ctx, plan[k], n) == blocks[k]
    requires forall i, j :: 0 <= i < |inputs| && 0 <= j < |outputs| && inputs[i] < FIRST_INPUT_IDX ==>
      inputs[i] != outputs[j]
    modifies ctx.WriteSet()
    ensures unchanged(ctx) && ctx.Ready(n)
    ensures Replayed(ctx, n, start, plan, blocks, Min(|inputs|, |outputs|))
  {
    for i := 0 to Min(|inputs|, |outputs|)
      invariant unchanged(ctx)
      invariant ctx.Ready(n) && PlanReadable(ctx, plan, n)
      invariant Replayed(ctx, n, start, plan, blocks, i)
      invariant forall k :: i <= k < Min(|inputs|, |outputs|) ==> StepBlock(ctx, plan[k], n) == blocks[k]
    {
      assert ctx.WriteSet() == old(ctx.WriteSet());
      CopyStep(ctx, n, inputs[i], outputs[i], start, plan, blocks, i);
    }
  }

  /** The silence loop of the multi-channel bypass: steps `from` .. `to` - 1, at raw indices. */
  method SilencePhase(ctx: BoardContext, n: nat, from: nat, to: nat,
                      ghost start: imap<nat, Sink>, ghost plan: seq<Step>, ghost blocks: seq<seq<real>>)
    requires ctx.Ready(n) && PlanMapped(plan) && from <= to == |plan|
    requires Replayed(ctx, n, start, plan, blocks, from)
    requires forall k :: from <= k < to ==> plan[k] == Step(k, Silence) && blocks[k] == Zeros(n)
    modifies ctx.WriteSet()
    ensures unchanged(ctx) && ctx.Ready(n)
    ensures Replayed(ctx, n, start, plan, blocks, to)
  {
    for i := from to to
      invariant unchanged(ctx) && ctx.Ready(n)
      invariant Replayed(ctx, n, start, plan, blocks, i)
    {
      assert plan[i].writeIdx == i;
      WriterUsable(ctx, n, i);
      SilenceStep(ctx, n, i, start, plan, blocks, i);
    }
  }

  /**
   * What one run of the generic bypass on the connection at
   * `connectionIdx` leaves behind: every writer ends as `Replay` of the
   * connection's plan on its old contents, with every copied block read as
   * the graph stood before the run.
   */
  twostate predicate Bypassed(ctx: BoardContext, connectionIdx: nat, n: nat)
    requires old(ctx.Ready(n)) && ctx.Ready(n) && connectionIdx < |ctx.connections|
    reads ctx, ctx.buffers, ctx.WriteSet()
  {
    var c := ctx.connections[connectionIdx];
    var plan := GenericPlan(c.inputsIdxs, c.outputIdxs);
    && old(PlanReadable(ctx, plan, n))
    && forall w :: WriteMapped(w) ==>
         && old(ctx.GetBufferForWrite(w).Contents()).Accepts(n)
         && (WriterUsable(ctx, n, w);
             ctx.GetBufferForWrite(w).Contents() ==
             Replay(old(ctx.GetBufferForWrite(w).Contents()), plan, old(Blocks(ctx, plan, n)), n, w))
  }

  /** `GenericBypass`: the bypass the executor runs for a disabled effect. */
  class GenericBypass {
    constructor ()
    {
    }

    function AdvertiseParameters(): (r: seq<AdvertisedParameter>)
      ensures |r| == 0
    {
      PARAMS
    }

    method SetEffectParameter(paramIdx: nat, value: ParamValue)
    {
    }

    method SetAudioParameters(config: AudioConfig)
    {
    }

    /**
     * One block: every writer ends as `Replay` of the plan says, with every
     * copied block read as the graph stood before the call.
     */
    method Execute(ctx: BoardContext, connectionIdx: nat, numSamples: nat)
      requires ctx.Ready(numSamples) && connectionIdx < |ctx.connections|
      requires ConnectionMapped(ctx.connections[connectionIdx])
      requires PlanMapped(GenericPlan(ctx.connections[connectionIdx].inputsIdxs, ctx.connections[connectionIdx].outputIdxs))
      modifies ctx.WriteSet()
      ensures ctx.Ready(numSamples) && Bypassed(ctx, connectionIdx, numSamples)
    {
      var inputs := ctx.GetInputsForConnection(connectionIdx);
      var outputs := ctx.GetOutputsForConnection(connectionIdx);
      ghost var plan := GenericPlan(inputs, outputs);
      PlanReadableWhenReady(ctx, plan, numSamples);
      ghost var blocks := Blocks(ctx, plan, numSamples);
      assert plan[..|outputs|] == plan && blocks[..|outputs|] == blocks;
      var minEnd := Min(|inputs|, |outputs|);
      assert forall k :: minEnd <= k < |plan| ==> blocks[k] == Zeros(numSamples);
      ghost var start := ReplayStart(ctx, numSamples, plan, blocks);
      ConnectionIndicesDistinct(ctx, connectionIdx);
      CopyPhase(ctx, numSamples, inputs, outputs, start, plan, blocks);
      if |inputs| == minEnd {
        SilencePhase(ctx, numSamples, minEnd, |outputs|, start, plan, blocks);
      }
    }
  }

  /** A complex frequency bin; the model keeps its two parts. */
  datatype Bin = Bin(re: real, im: real)

  /** `VocoderBypass`: the frequency-domain identity. */
  class VocoderBypass {
    constructor ()
    {
    }

    static function Info(): seq<AdvertisedParameter>
    {
      PARAMS
    }

    function AdvertiseParameters(): (r: seq<AdvertisedParameter>)
      ensures |r| == 0 && r == Info()
    {
      PARAMS
    }

    method SetEffectParameter(paramIdx: nat, value: ParamValue)
    {
    }

    /** Copies every bin of `fft` into `output`; bins past the input's length stay. */
    method Execute(fft: array<Bin>, output: array<Bin>)
      requires fft.Length <= output.Length && fft != output
      modifies output
      ensures output[..fft.Length] == fft[..]
      ensures output[fft.Length..] == old(output[fft.Length..])
    {
      for i := 0 to fft.Length
        invariant output[..i] == fft[..i]
        invariant output[fft.Length..] == old(output[fft.Length..])
      {
        output[i] := fft[i];
      }
    }
  }
}
