/** The channel mapper: converts the interleaved output of an inner source
    from its channel layout to another one, frame by frame. */
module Mapped {
  import opened Common

  /** Size of the mapper's intermediate buffer, in samples. */
  const BUFFER_SIZE: nat := 16 * 1024

  /** The inner source's `write`: given the number of samples asked for, the
      samples it produced. */
  type Producer = nat -> seq<real>

  /** An inner source never writes more samples than it was asked for. */
  ghost predicate WritesAtMost(source: Producer) {
    forall n: nat :: |source(n)| <= n
  }

  /** Number of samples asked of the inner source for an output of `outLen` samples. */
  function InputRequest(outLen: nat, inCh: nat, outCh: nat): (n: nat)
    requires outCh > 0
    ensures n <= BUFFER_SIZE && n <= (outLen / outCh) * inCh
    ensures n == BUFFER_SIZE || n == (outLen / outCh) * inCh
  {
    Min((outLen / outCh) * inCh, BUFFER_SIZE)
  }

  /** One frame of the mapping: the input frame at `ii` written into the output
      frame at `oi`. Channel 0 takes input channel 0; channel 1, when the output
      has one, takes input channel 1, or channel 0 for a mono input. */
  function MapFrame(input: seq<real>, inCh: nat, outCh: nat, out: seq<real>, ii: nat, oi: nat): (r: seq<real>)
    requires 0 < inCh && 0 < outCh && ii + inCh <= |input| && oi + outCh <= |out|
    ensures |r| == |out|
  {
    var o := out[oi := input[ii]];
    if outCh == 1 then o else o[oi + 1 := if inCh == 1 then input[ii] else input[ii + 1]]
  }

  /** The frame loop from input offset `ii` and output offset `oi`: it walks the
      complete input and output frames in step and stops when either runs out. */
  function MapFrom(input: seq<real>, inCh: nat, outCh: nat, out: seq<real>, ii: nat, oi: nat): (r: seq<real>)
    requires 0 < inCh && 0 < outCh && ii <= |input| && oi <= |out|
    ensures |r| == |out|
    decreases |out| - oi
  {
    if ii + inCh > |input| || oi + outCh > |out| then out
    else MapFrom(input, inCh, outCh, MapFrame(input, inCh, outCh, out, ii, oi), ii + inCh, oi + outCh)
  }

  /** `out` after the input frames of `input` have been mapped onto it. */
  function Mapped(input: seq<real>, inCh: nat, outCh: nat, out: seq<real>): (r: seq<real>)
    requires 0 < inCh && 0 < outCh
    ensures |r| == |out|
  {
    MapFrom(input, inCh, outCh, out, 0, 0)
  }

  /** Number of frames the loop maps: complete input frames paired with
      complete output frames. */
  function FrameCount(inLen: nat, outLen: nat, inCh: nat, outCh: nat): nat
    requires 0 < inCh && 0 < outCh
    decreases outLen
  {
    if inLen < inCh || outLen < outCh then 0
    else 1 + FrameCount(inLen - inCh, outLen - outCh, inCh, outCh)
  }

  /** What the mapping leaves at channel `c` of an output frame whose input frame
      starts at `ii` and whose previous content at that channel is `prev`. */
  function FrameSample(input: seq<real>, inCh: nat, ii: nat, c: nat, prev: real): real
    requires 0 < inCh && ii + inCh <= |input|
  {
    if c == 0 then input[ii]
    else if c == 1 then (if inCh == 1 then input[ii] else input[ii + 1])
    else prev
  }

  class ChannelMappedSource {
    const inputChannels: nat
    const outputChannels: nat
    /** The inner source's sample rate, which `sample_rate` forwards. */
    const innerSampleRate: nat
    /** The intermediate buffer the inner source writes into. */
    const buffer: array<real>

    ghost predicate Valid()
      reads this
    {
      inputChannels > 0 && outputChannels > 0 && buffer.Length == BUFFER_SIZE
    }

    constructor (inputChannels: nat, outputChannels: nat, innerSampleRate: nat)
      requires inputChannels > 0 && outputChannels > 0
      ensures Valid() && fresh(buffer)
      ensures this.inputChannels == inputChannels && this.outputChannels == outputChannels
      ensures this.innerSampleRate == innerSampleRate
    {
      this.inputChannels := inputChannels;
      this.outputChannels := outputChannels;
      this.innerSampleRate := innerSampleRate;
      buffer := new real[BUFFER_SIZE](_ => 0.0);
    }

    /** `write`: asks the inner source for as many samples as fit the output
        frames and the buffer, maps the frames it got, and reports the whole
        output as written. */
    method Write(output: array<real>, source: Producer) returns (written: nat)
      requires Valid() && WritesAtMost(source) && output != buffer
      modifies output, buffer
      ensures written == output.Length
      ensures var input := source(InputRequest(output.Length, inputChannels, outputChannels));
        buffer[..|input|] == input
        && output[..] == Mapped(input, inputChannels, outputChannels, old(output[..]))
    {
      var bufferMax := InputRequest(output.Length, inputChannels, outputChannels);
      var input := source(bufferMax);
      CopyInto(buffer, 0, input);
      assert buffer[..|input|] == input by {
        assert buffer[..] == old(buffer[..])[..0] + input + old(buffer[..])[|input|..];
      }
      MapFrames(output, |input|);
      written := output.Length;
    }

    /** The frame loops of `write`, over the first `n` samples of the buffer. */
    method MapFrames(output: array<real>, n: nat)
      requires Valid() && output != buffer && n <= buffer.Length
      modifies output
      ensures output[..] == Mapped(buffer[..n], inputChannels, outputChannels, old(output[..]))
    {
      ghost var input := buffer[..n];
      var ii: nat, oi: nat := 0, 0;
      while ii + inputChannels <= n && oi + outputChannels <= output.Length
        invariant ii <= n && oi <= output.Length
        invariant Mapped(input, inputChannels, outputChannels, old(output[..]))
          == MapFrom(input, inputChannels, outputChannels, output[..], ii, oi)
        decreases output.Length - oi
      {
        ghost var prev := output[..];
        // channel 0 always takes input channel 0; channel 1 takes input
        // channel 1, or channel 0 when the input is mono
        output[oi] := buffer[ii];
        if outputChannels != 1 {
          if inputChannels == 1 {
            output[oi + 1] := buffer[ii];
          } else {
            output[oi + 1] := buffer[ii + 1];
          }
        }
        assert output[..] == MapFrame(input, inputChannels, outputChannels, prev, ii, oi);
        MapFromStep(input, inputChannels, outputChannels, prev, output[..], ii, oi);
        assert Mapped(input, inputChannels, outputChannels, old(output[..]))
          == MapFrom(input, inputChannels, outputChannels, output[..], ii + inputChannels, oi + outputChannels);
        ii, oi := ii + inputChannels, oi + outputChannels;
      }
    }
  }

  // ---------------------------------------------------------------------------
  // Properties

  /** One turn of the frame loop. */
  lemma MapFromStep(input: seq<real>, inCh: nat, outCh: nat, out: seq<real>, out': seq<real>, ii: nat, oi: nat)
    requires 0 < inCh && 0 < outCh && ii + inCh <= |input| && oi + outCh <= |out|
    requires out' == MapFrame(input, inCh, outCh, out, ii, oi)
    ensures MapFrom(input, inCh, outCh, out, ii, oi) == MapFrom(input, inCh, outCh, out', ii + inCh, oi + outCh)
  {
  }

  /** The frame loop never touches the samples before its output offset. */
  lemma {:induction false} MapFromKeepsBefore(input: seq<real>, inCh: nat, outCh: nat, out: seq<real>, ii: nat, oi: nat, j: nat)
    requires 0 < inCh && 0 < outCh && ii <= |input| && oi <= |out| && j < oi
    ensures MapFrom(input, inCh, outCh, out, ii, oi)[j] == out[j]
    decreases |out| - oi
  {
    if ii + inCh <= |input| && oi + outCh <= |out| {
      MapFromKeepsBefore(input, inCh, outCh, MapFrame(input, inCh, outCh, out, ii, oi), ii + inCh, oi + outCh, j);
    }
  }

  /** The offset of frame `f` in a stream of `ch` channels, counted frame by frame. */
  function Off(f: nat, ch: nat): nat {
    if f == 0 then 0 else Off(f - 1, ch) + ch
  }

  /** Counting frame by frame gives the product. */
  lemma {:induction false} OffIsProduct(f: nat, ch: nat)
    ensures Off(f, ch) == f * ch
  {
    if f > 0 {
      OffIsProduct(f - 1, ch);
      assert (f - 1) * ch + ch == f * ch;
    }
  }

  /** Mapping one frame leaves the samples after it alone. */
  lemma MapFrameKeepsLater(input: seq<real>, inCh: nat, outCh: nat, out: seq<real>, ii: nat, oi: nat, k: nat)
    requires 0 < inCh && 0 < outCh && ii + inCh <= |input| && oi + outCh <= k < |out|
    ensures MapFrame(input, inCh, outCh, out, ii, oi)[k] == out[k]
  {
  }

  /** The first frame the loop maps, channel `c`, holds the mapped input sample. */
  lemma MapFromFirstFrame(input: seq<real>, inCh: nat, outCh: nat, out: seq<real>, ii: nat, oi: nat, c: nat)
    requires 0 < inCh && 0 < outCh && ii + inCh <= |input| && oi + outCh <= |out| && c < outCh
    ensures MapFrom(input, inCh, outCh, out, ii, oi)[oi + c] == FrameSample(input, inCh, ii, c, out[oi + c])
  {
    var out' := MapFrame(input, inCh, outCh, out, ii, oi);
    MapFromStep(input, inCh, outCh, out, out', ii, oi);
    MapFromKeepsBefore(input, inCh, outCh, out', ii + inCh, oi + outCh, oi + c);
  }

  /** `MapFromFrame` with the frame offsets counted frame by frame. */
  lemma {:induction false} MapFromFrameOff(input: seq<real>, inCh: nat, outCh: nat, out: seq<real>, ii: nat, oi: nat, f: nat, c: nat)
    requires 0 < inCh && 0 < outCh && ii <= |input| && oi <= |out|
    requires f < FrameCount(|input| - ii, |out| - oi, inCh, outCh) && c < outCh
    ensures ii + Off(f, inCh) + inCh <= |input| && oi + Off(f, outCh) + c < |out|
    ensures MapFrom(input, inCh, outCh, out, ii, oi)[oi + Off(f, outCh) + c]
      == FrameSample(input, inCh, ii + Off(f, inCh), c, out[oi + Off(f, outCh) + c])
    decreases f
  {
    var out' := MapFrame(input, inCh, outCh, out, ii, oi);
    if f == 0 {
      MapFromFirstFrame(input, inCh, outCh, out, ii, oi, c);
    } else {
      MapFromFrameOff(input, inCh, outCh, out', ii + inCh, oi + outCh, f - 1, c);
      var i, k := ii + Off(f, inCh), oi + Off(f, outCh) + c;
      assert i == ii + inCh + Off(f - 1, inCh) && k == oi + outCh + Off(f - 1, outCh) + c;
      MapFromStep(input, inCh, outCh, out, out', ii, oi);
      MapFrameKeepsLater(input, inCh, outCh, out, ii, oi, k);
      calc {
        MapFrom(input, inCh, outCh, out, ii, oi)[k];
        MapFrom(input, inCh, outCh, out', ii + inCh, oi + outCh)[k];
        FrameSample(input, inCh, i, c, out'[k]);
        FrameSample(input, inCh, i, c, out[k]);
      }
    }
  }

  /** Frame `f` of the loop's output, channel `c`, holds the mapped input sample. */
  lemma MapFromFrame(input: seq<real>, inCh: nat, outCh: nat, out: seq<real>, ii: nat, oi: nat, f: nat, c: nat)
    requires 0 < inCh && 0 < outCh && ii <= |input| && oi <= |out|
    requires f < FrameCount(|input| - ii, |out| - oi, inCh, outCh) && c < outCh
    ensures ii + f * inCh + inCh <= |input| && oi + f * outCh + c < |out|
    ensures MapFrom(input, inCh, outCh, out, ii, oi)[oi + f * outCh + c]
      == FrameSample(input, inCh, ii + f * inCh, c, out[oi + f * outCh + c])
  {
    MapFromFrameOff(input, inCh, outCh, out, ii, oi, f, c);
    OffIsProduct(f, inCh);
    OffIsProduct(f, outCh);
  }

  /** The frame loop leaves every sample after its last complete frame alone. */
  lemma {:induction false} MapFromKeepsAfter(input: seq<real>, inCh: nat, outCh: nat, out: seq<real>, ii: nat, oi: nat, j: nat)
    requires 0 < inCh && 0 < outCh && ii <= |input| && oi <= |out|
    requires oi + FrameCount(|input| - ii, |out| - oi, inCh, outCh) * outCh <= j < |out|
    ensures MapFrom(input, inCh, outCh, out, ii, oi)[j] == out[j]
    decreases |out| - oi
  {
    if ii + inCh <= |input| && oi + outCh <= |out| {
      var k := FrameCount(|input| - ii - inCh, |out| - oi - outCh, inCh, outCh);
      assert (1 + k) * outCh == outCh + k * outCh;
      MapFromKeepsAfter(input, inCh, outCh, MapFrame(input, inCh, outCh, out, ii, oi), ii + inCh, oi + outCh, j);
    }
  }

  /** The loop maps `min(input frames, output frames)` frames. */
  lemma {:induction false} FrameCountIsMin(inLen: nat, outLen: nat, inCh: nat, outCh: nat)
    requires 0 < inCh && 0 < outCh
    ensures FrameCount(inLen, outLen, inCh, outCh) == Min(inLen / inCh, outLen / outCh)
    decreases outLen
  {
    if inLen >= inCh && outLen >= outCh {
      FrameCountIsMin(inLen - inCh, outLen - outCh, inCh, outCh);
      DivStep(inLen, inCh);
      DivStep(outLen, outCh);
    } else if inLen < inCh {
      DivUnique(inLen, inCh, 0, inLen);
    } else {
      DivUnique(outLen, outCh, 0, outLen);
    }
  }

  /** In each of the `min(input frames, output frames)` mapped frames, channel 0
      takes input channel 0, channel 1 takes input channel 1 (channel 0 for a
      mono input), and every further channel keeps what the output held. */
  lemma MappedFrame(input: seq<real>, inCh: nat, outCh: nat, out: seq<real>, f: nat, c: nat)
    requires 0 < inCh && 0 < outCh && c < outCh
    requires f < Min(|input| / inCh, |out| / outCh)
    ensures f * inCh + inCh <= |input| && f * outCh + c < |out|
    ensures var r := Mapped(input, inCh, outCh, out)[f * outCh + c];
      (c == 0 ==> r == input[f * inCh])
      && (c == 1 && inCh == 1 ==> r == input[f * inCh])
      && (c == 1 && inCh > 1 ==> r == input[f * inCh + 1])
      && (c >= 2 ==> r == out[f * outCh + c])
  {
    FrameCountIsMin(|input|, |out|, inCh, outCh);
    MapFromFrame(input, inCh, outCh, out, 0, 0, f, c);
  }

  /** Output samples past the mapped frames keep what the output held. */
  lemma MappedKeepsTail(input: seq<real>, inCh: nat, outCh: nat, out: seq<real>, j: nat)
    requires 0 < inCh && 0 < outCh
    requires Min(|input| / inCh, |out| / outCh) * outCh <= j < |out|
    ensures Mapped(input, inCh, outCh, out)[j] == out[j]
  {
    FrameCountIsMin(|input|, |out|, inCh, outCh);
    MapFromKeepsAfter(input, inCh, outCh, out, 0, 0, j);
  }
}
