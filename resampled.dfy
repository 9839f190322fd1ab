/** The resampled source: pulls fixed-size blocks from an inner source into an
    input window, runs a resampling kernel from the input window into an
    output window, and copies the output window into the caller's buffer. */
module Resampled {
  import opened Common

  /** The inner source's `write` into the whole input buffer: for the `k`-th
      call with a buffer of `n` samples, the samples it produced. */
  type Producer = (nat, nat) -> seq<real>

  /** The resampler kernel's `process` on the `k`-th call, given the unread
      input samples: how many of them it consumed and the samples it wrote. */
  datatype Processed = Processed(consumed: nat, samples: seq<real>)
  type Kernel = (nat, seq<real>) -> Processed

  /** The inner source writes at most the buffer it is given. */
  ghost predicate SourceOk(source: Producer) {
    forall k: nat, n: nat :: |source(k, n)| <= n
  }

  /** The kernel consumes at most its input and writes at most the output
      buffer. It makes progress: a full input block yields output, and any
      non-empty input is consumed or yields output. */
  ghost predicate KernelOk(kernel: Kernel, inLen: nat, outLen: nat) {
    forall k: nat, s: seq<real> ::
      var r := kernel(k, s);
      r.consumed <= |s| && |r.samples| <= outLen
      && (|s| == inLen ==> |r.samples| > 0)
      && (|s| > 0 ==> r.consumed > 0 || |r.samples| > 0)
  }

  // ---------------------------------------------------------------------------
  // The buffers

  /** A buffer with a window `[start, end)` of samples not yet used. */
  datatype ResampleBuffer = ResampleBuffer(buffer: seq<real>, start: nat, end: nat) {
    ghost predicate Valid() {
      start <= end <= |buffer|
    }

    /** `get`: the samples of the window, in order. */
    function Get(): (r: seq<real>)
      requires Valid()
      ensures |r| == end - start
      ensures forall i :: 0 <= i < |r| ==> r[i] == buffer[start + i]
    {
      buffer[start..end]
    }

    /** `len`: the number of samples in the window. */
    function Len(): (r: nat)
      requires Valid()
      ensures r == |Get()|
    {
      end - start
    }

    /** `is_empty`: the window holds no sample. */
    predicate IsEmpty()
      requires Valid()
      ensures IsEmpty() <==> Get() == []
    {
      start >= end
    }
  }

  // ---------------------------------------------------------------------------
  // The `write` loop on values

  /** The two buffers and the call counters of the oracles. */
  datatype PumpState = PumpState(input: ResampleBuffer, output: ResampleBuffer, sourceCalls: nat, kernelCalls: nat)

  /** Both windows lie inside non-empty buffers; the input window, once
      filled, reaches the buffer end. */
  ghost predicate PumpValid(st: PumpState) {
    st.input.Valid() && st.output.Valid() && |st.input.buffer| > 0 && |st.output.buffer| > 0
    && (st.input.end == 0 || st.input.end == |st.input.buffer|)
  }

  /** Refilling the empty input window: the source's samples, zero-padded to
      the buffer length, form the new window over the whole buffer. */
  function RefillStep(st: PumpState, source: Producer): (r: PumpState)
    requires PumpValid(st) && SourceOk(source)
    ensures PumpValid(r) && |r.input.buffer| == |st.input.buffer| && r.output == st.output
    ensures r.input.start == 0 && r.input.end == |r.input.buffer|
    ensures var s := source(st.sourceCalls, |st.input.buffer|);
      r.input.buffer[..|s|] == s && forall k :: |s| <= k < |r.input.buffer| ==> r.input.buffer[k] == 0.0
  {
    var len := |st.input.buffer|;
    var samples := source(st.sourceCalls, len);
    st.(input := ResampleBuffer(samples + Zeros(len - |samples|), 0, len), sourceCalls := st.sourceCalls + 1)
  }

  /** One kernel call on the unread input: the input window advances by the
      consumed count and the output window becomes the written samples. */
  function ProcessStep(st: PumpState, kernel: Kernel): (r: PumpState)
    requires PumpValid(st) && KernelOk(kernel, |st.input.buffer|, |st.output.buffer|)
    requires st.input.end == |st.input.buffer|
    ensures PumpValid(r) && r.input.buffer == st.input.buffer && |r.output.buffer| == |st.output.buffer|
    ensures var res := kernel(st.kernelCalls, st.input.Get());
      r.input.start == st.input.start + res.consumed && r.output.Get() == res.samples
  {
    var res := kernel(st.kernelCalls, st.input.buffer[st.input.start..]);
    assert st.input.Get() == st.input.buffer[st.input.start..];
    assert CopyAt(st.output.buffer, 0, res.samples)[0..|res.samples|] == res.samples;
    st.(input := st.input.(start := st.input.start + res.consumed),
        output := ResampleBuffer(CopyAt(st.output.buffer, 0, res.samples), 0, |res.samples|),
        kernelCalls := st.kernelCalls + 1)
  }

  /** The state after the refill-and-process part of one turn of the loop. */
  function Prepare(st: PumpState, source: Producer, kernel: Kernel): (r: PumpState)
    requires PumpValid(st) && SourceOk(source) && KernelOk(kernel, |st.input.buffer|, |st.output.buffer|)
    ensures PumpValid(r) && |r.input.buffer| == |st.input.buffer| && |r.output.buffer| == |st.output.buffer|
  {
    if !st.output.IsEmpty() then st
    else if !st.input.IsEmpty() then ProcessStep(st, kernel)
    else ProcessStep(RefillStep(st, source), kernel)
  }

  /** Unread input left when the output window is empty; what a kernel call
      that writes nothing must eat into. */
  function Pending(st: PumpState): nat {
    if st.output.start < st.output.end || st.input.end <= st.input.start then 0
    else st.input.end - st.input.start
  }

  /** A turn of the loop either leaves samples to copy or eats unread input. */
  lemma PrepareProgress(st: PumpState, source: Producer, kernel: Kernel)
    requires PumpValid(st) && SourceOk(source) && KernelOk(kernel, |st.input.buffer|, |st.output.buffer|)
    ensures var r := Prepare(st, source, kernel);
      r.output.start < r.output.end || Pending(r) < Pending(st)
  {
    if st.output.IsEmpty() {
      if !st.input.IsEmpty() {
        var res := kernel(st.kernelCalls, st.input.buffer[st.input.start..]);
        assert |st.input.buffer[st.input.start..]| > 0;
      } else {
        var st' := RefillStep(st, source);
        var res := kernel(st'.kernelCalls, st'.input.buffer[st'.input.start..]);
        assert |st'.input.buffer[st'.input.start..]| == |st.input.buffer|;
      }
    }
  }

  /** The buffers, the caller's buffer and the samples written so far, between two turns of the loop. */
  datatype Turned = Turned(state: PumpState, out: seq<real>, tw: nat)

  /** One turn of the `write` loop at sample `tw`: refill and process if the
      output window is empty, then copy as much of it as fits. Every turn
      writes something or eats unread input. */
  function TurnStep(st: PumpState, source: Producer, kernel: Kernel, out: seq<real>, tw: nat): (t: Turned)
    requires PumpValid(st) && SourceOk(source) && KernelOk(kernel, |st.input.buffer|, |st.output.buffer|)
    requires tw < |out|
    ensures PumpValid(t.state) && |t.state.input.buffer| == |st.input.buffer|
    ensures |t.state.output.buffer| == |st.output.buffer| && |t.out| == |out|
    ensures tw <= t.tw <= |out| && (t.tw > tw || Pending(t.state) < Pending(st))
  {
    var st1 := Prepare(st, source, kernel);
    PrepareProgress(st, source, kernel);
    var w := Min(st1.output.Len(), |out| - tw);
    Turned(st1.(output := st1.output.(start := st1.output.start + w)), CopyAt(out, tw, st1.output.Get()[..w]), tw + w)
  }

  /** The `write` loop from sample `tw` of the caller's buffer `out` on: the
      final buffers and caller's buffer. */
  function Pump(st: PumpState, source: Producer, kernel: Kernel, out: seq<real>, tw: nat): (r: Turned)
    requires PumpValid(st) && SourceOk(source) && KernelOk(kernel, |st.input.buffer|, |st.output.buffer|)
    requires tw <= |out|
    ensures PumpValid(r.state) && |r.state.input.buffer| == |st.input.buffer|
    ensures |r.state.output.buffer| == |st.output.buffer| && |r.out| == |out|
    decreases |out| - tw, Pending(st)
  {
    if tw == |out| then Turned(st, out, tw)
    else
      var t := TurnStep(st, source, kernel, out, tw);
      Pump(t.state, source, kernel, t.out, t.tw)
  }

  // ---------------------------------------------------------------------------
  // The source

  class ResampledSource {
    var inputBuffer: ResampleBuffer
    var outputBuffer: ResampleBuffer
    const outputSampleRate: nat
    /** The inner source's channel count, which `channel_count` forwards. */
    const channelCount: nat
    /** Calls made so far to the inner source and to the kernel; they stand for
        the state those collaborators keep between calls. */
    var sourceCalls: nat
    var kernelCalls: nat

    function State(): PumpState
      reads this
    {
      PumpState(inputBuffer, outputBuffer, sourceCalls, kernelCalls)
    }

    ghost predicate Valid()
      reads this
    {
      PumpValid(State())
    }

    /** `new_with_speed`, with the resampler's block sizes `inLen` and `outLen`. */
    constructor (inLen: nat, outLen: nat, outputSampleRate: nat, channelCount: nat)
      requires inLen > 0 && outLen > 0
      ensures Valid() && |inputBuffer.buffer| == inLen && |outputBuffer.buffer| == outLen
      ensures inputBuffer.IsEmpty() && outputBuffer.IsEmpty()
      ensures this.outputSampleRate == outputSampleRate && this.channelCount == channelCount
    {
      inputBuffer := ResampleBuffer(Zeros(inLen), 0, 0);
      outputBuffer := ResampleBuffer(Zeros(outLen), 0, 0);
      this.outputSampleRate := outputSampleRate;
      this.channelCount := channelCount;
      sourceCalls, kernelCalls := 0, 0;
    }

    /** `is_exhausted`: the inner source is exhausted and no input sample is left unread. */
    predicate IsExhausted(sourceExhausted: bool)
      reads this
      requires inputBuffer.Valid()
      ensures IsExhausted(sourceExhausted) <==> sourceExhausted && inputBuffer.Get() == []
    {
      sourceExhausted && inputBuffer.IsEmpty()
    }

    /** Refills the input buffer from the inner source, zero-padding what it did not write. */
    method RefillInput(source: Producer)
      requires Valid() && SourceOk(source)
      modifies this
      ensures Valid() && State() == RefillStep(old(State()), source)
    {
      var len := |inputBuffer.buffer|;
      var samples := source(sourceCalls, len);
      var n := |samples|;
      inputBuffer := inputBuffer.(buffer := samples + Zeros(len - n));
      inputBuffer := inputBuffer.(start := 0);
      inputBuffer := inputBuffer.(end := len);
      sourceCalls := sourceCalls + 1;
    }

    /** Runs the kernel on the unread input into the output buffer. */
    method ProcessInput(kernel: Kernel)
      requires Valid() && KernelOk(kernel, |inputBuffer.buffer|, |outputBuffer.buffer|)
      requires inputBuffer.end == |inputBuffer.buffer|
      modifies this
      ensures Valid() && State() == ProcessStep(old(State()), kernel)
    {
      var res := kernel(kernelCalls, inputBuffer.buffer[inputBuffer.start..]);
      outputBuffer := outputBuffer.(buffer := CopyAt(outputBuffer.buffer, 0, res.samples));
      inputBuffer := inputBuffer.(start := inputBuffer.start + res.consumed);
      outputBuffer := outputBuffer.(start := 0);
      outputBuffer := outputBuffer.(end := |res.samples|);
      kernelCalls := kernelCalls + 1;
    }

    /** The refill-and-process part of one turn of the `write` loop. */
    method PrepareOutput(source: Producer, kernel: Kernel)
      requires Valid() && SourceOk(source)
      requires KernelOk(kernel, |inputBuffer.buffer|, |outputBuffer.buffer|)
      modifies this
      ensures Valid() && State() == Prepare(old(State()), source, kernel)
    {
      if outputBuffer.IsEmpty() {
        if inputBuffer.IsEmpty() {
          RefillInput(source);
        }
        ProcessInput(kernel);
      }
    }

    /** `write`: fills `output` completely, refilling and processing whenever
        the output window runs dry. */
    method Write(output: array<real>, source: Producer, kernel: Kernel) returns (totalWritten: nat)
      requires Valid() && SourceOk(source)
      requires KernelOk(kernel, |inputBuffer.buffer|, |outputBuffer.buffer|)
      modifies this, output
      ensures Valid() && totalWritten == output.Length
      ensures var r := Pump(old(State()), source, kernel, old(output[..]), 0);
        State() == r.state && output[..] == r.out
    {
      totalWritten := 0;
      while totalWritten < output.Length
        invariant Valid() && totalWritten <= output.Length
        invariant |inputBuffer.buffer| == |old(inputBuffer.buffer)| && |outputBuffer.buffer| == |old(outputBuffer.buffer)|
        invariant Pump(old(State()), source, kernel, old(output[..]), 0)
          == Pump(State(), source, kernel, output[..], totalWritten)
        decreases output.Length - totalWritten, Pending(State())
      {
        var written := Turn(output, totalWritten, source, kernel);
        totalWritten := totalWritten + written;
      }
    }

    /** One turn of the `write` loop: refill and process if the output window
        is empty, then copy what fits into `output` from `tw` on. */
    method Turn(output: array<real>, tw: nat, source: Producer, kernel: Kernel) returns (written: nat)
      requires Valid() && SourceOk(source) && tw < output.Length
      requires KernelOk(kernel, |inputBuffer.buffer|, |outputBuffer.buffer|)
      modifies this, output
      ensures var t := TurnStep(old(State()), source, kernel, old(output[..]), tw);
        State() == t.state && output[..] == t.out && tw + written == t.tw
    {
      PrepareOutput(source, kernel);
      var src := outputBuffer.Get();
      written := Min(outputBuffer.Len(), output.Length - tw);
      CopyInto(output, tw, src[..written]);
      outputBuffer := outputBuffer.(start := outputBuffer.start + written);
    }
  }

  // ---------------------------------------------------------------------------
  // Properties

  /** The loop never touches the samples before its starting offset. */
  lemma {:induction false} PumpKeepsBefore(st: PumpState, source: Producer, kernel: Kernel, out: seq<real>, tw: nat, j: nat)
    requires PumpValid(st) && SourceOk(source) && KernelOk(kernel, |st.input.buffer|, |st.output.buffer|)
    requires j < tw <= |out|
    ensures Pump(st, source, kernel, out, tw).out[j] == out[j]
    decreases |out| - tw, Pending(st)
  {
    if tw < |out| {
      var t := TurnStep(st, source, kernel, out, tw);
      PumpKeepsBefore(t.state, source, kernel, t.out, t.tw, j);
    }
  }

  /** Samples left in the output window by the previous `write` come out first,
      in order, before anything new is read or processed. */
  lemma PumpStartsWithLeftover(st: PumpState, source: Producer, kernel: Kernel, out: seq<real>, j: nat)
    requires PumpValid(st) && SourceOk(source) && KernelOk(kernel, |st.input.buffer|, |st.output.buffer|)
    requires j < st.output.Len() && j < |out|
    ensures Pump(st, source, kernel, out, 0).out[j] == st.output.Get()[j]
  {
    var t := TurnStep(st, source, kernel, out, 0);
    assert t.out[j] == st.output.Get()[j];
    PumpKeepsBefore(t.state, source, kernel, t.out, t.tw, j);
  }
}
