/** The preloaded file source: plays a fully decoded, immutable sample buffer
    from a cursor, through a resampler, a volume and a fader, looping it a
    given number of times. */
module Preloaded {
  import opened Common
  import File

  /** A playback control message. `Seek` carries the sample index the seek
      position converts to (seconds times sample rate times channels,
      truncated); `Read` only matters to streamed sources. */
  datatype Message = Seek(target: nat) | Read | Stop

  /** The resampler's `process` on the `k`-th call, given the unread buffer
      samples and the room left in the output: how many samples it consumed
      and the samples it wrote. */
  datatype Processed = Processed(consumed: nat, samples: seq<real>)
  type Resampler = (nat, seq<real>, nat) -> Processed

  /** The resampler consumes at most its input and writes at most the room
      it is given, and given input and room it writes something. */
  ghost predicate ResamplerOk(resampler: Resampler) {
    forall k: nat, s: seq<real>, room: nat ::
      var r := resampler(k, s, room);
      r.consumed <= |s| && |r.samples| <= room && (|s| > 0 && room > 0 ==> |r.samples| > 0)
  }

  /** The fields of the source that `write` changes. `fadingOut` records that
      a fade-out was started (the fader's target volume is zero); the call
      and reset counters stand for the state of the resampler and fader. */
  datatype Playback = Playback(
    pos: nat, repeat: Usize, finished: bool, fadingOut: bool,
    resets: nat, resamplerCalls: nat, faderCalls: nat, events: seq<StatusEvent>)

  // ---------------------------------------------------------------------------
  // Control messages

  /** The effect of one control message, for a buffer of `len` samples and
      the source's fade-out duration (a zero duration means no fade). */
  function OnMessage(p: Playback, len: nat, fadeOut: Option<File.Duration>, m: Message): (r: Playback)
    ensures m.Seek? ==> r.pos <= len && (r.pos == m.target || (m.target > len && r.pos == len))
    ensures m.Seek? ==> r.resets == p.resets + 1 && r == p.(pos := r.pos, resets := r.resets)
    ensures m.Stop? ==> (r.finished <==> p.finished || fadeOut == None || fadeOut == Some(0))
    ensures m.Stop? ==> (r.fadingOut <==> p.fadingOut || (fadeOut.Some? && fadeOut.value > 0))
    ensures m.Stop? ==> r == p.(finished := r.finished, fadingOut := r.fadingOut)
    ensures m.Read? ==> r == p
  {
    match m
    case Seek(target) => p.(pos := Min(target, len), resets := p.resets + 1)
    case Read => p
    case Stop =>
      if fadeOut.Some? && fadeOut.value != 0 then p.(fadingOut := true)
      else p.(finished := true)
  }

  /** The messages drained at the start of `write`, in arrival order. */
  function OnMessages(p: Playback, len: nat, fadeOut: Option<File.Duration>, msgs: seq<Message>): (r: Playback)
    ensures p.pos <= len ==> r.pos <= len
    decreases |msgs|
  {
    if msgs == [] then p else OnMessages(OnMessage(p, len, fadeOut, msgs[0]), len, fadeOut, msgs[1..])
  }

  /** Draining messages never clears the finished flag, and leaves the loop
      state alone. */
  lemma {:induction false} OnMessagesKeeps(p: Playback, len: nat, fadeOut: Option<File.Duration>, msgs: seq<Message>)
    ensures var r := OnMessages(p, len, fadeOut, msgs);
      (p.finished ==> r.finished) && (p.fadingOut ==> r.fadingOut)
      && r.repeat == p.repeat && r.events == p.events && r.resamplerCalls == p.resamplerCalls
    decreases |msgs|
  {
    if msgs != [] {
      OnMessagesKeeps(OnMessage(p, len, fadeOut, msgs[0]), len, fadeOut, msgs[1..]);
    }
  }

  /** A Stop among the drained messages finishes playback when no fade-out is
      configured or the configured one is zero. */
  lemma {:induction false} StopWithoutFadeFinishes(p: Playback, len: nat, fadeOut: Option<File.Duration>, msgs: seq<Message>, i: nat)
    requires i < |msgs| && msgs[i] == Stop
    requires fadeOut == None || fadeOut == Some(0)
    ensures OnMessages(p, len, fadeOut, msgs).finished
    decreases |msgs|
  {
    if i == 0 {
      OnMessagesKeeps(OnMessage(p, len, fadeOut, msgs[0]), len, fadeOut, msgs[1..]);
    } else {
      StopWithoutFadeFinishes(OnMessage(p, len, fadeOut, msgs[0]), len, fadeOut, msgs[1..], i - 1);
    }
  }

  // ---------------------------------------------------------------------------
  // The `write` loop on values

  /** What the loop works with and never changes: the decoded buffer, the
      volume, and the resampler and fader. */
  datatype Env = Env(buffer: seq<real>, volume: real, resampler: Resampler, fader: Fader)

  ghost predicate EnvOk(e: Env) {
    |e.buffer| > 0 && ResamplerOk(e.resampler) && FaderOk(e.fader)
  }

  /** The state, the caller's buffer, the samples written so far, whether the
      loop broke off at the end of the file, and how many times it wrapped
      around to the start of the buffer. */
  datatype Turned = Turned(p: Playback, out: seq<real>, tw: nat, done: bool, wraps: nat)

  /** The samples a turn writes: the resampled `samples`, scaled by the
      volume when it applies, then passed through the fader's `k`-th call. */
  function Rendered(samples: seq<real>, volume: real, fader: Fader, k: nat): (r: seq<real>)
    requires FaderOk(fader)
    ensures |r| == |samples|
  {
    fader(k, if VolumeApplies(volume) then Scale(samples, volume) else samples)
  }

  /** The output after one turn has written the resampled `samples` at `tw`:
      the rendered samples in their place, and every sample after them
      scaled by the volume when it applies, since the volume is applied to
      the whole rest of the output. */
  function Render(out: seq<real>, tw: nat, samples: seq<real>, volume: real, fader: Fader, k: nat): (o: seq<real>)
    requires FaderOk(fader) && tw + |samples| <= |out|
    ensures |o| == |out|
  {
    var r := Rendered(samples, volume, fader, k);
    seq(|out|, j requires 0 <= j < |out| =>
      if j < tw then out[j]
      else if j < tw + |r| then r[j - tw]
      else if VolumeApplies(volume) then out[j] * volume else out[j])
  }

  datatype Advanced = Advanced(p: Playback, done: bool, wraps: nat)

  /** The cursor after the resampler consumed `consumed` samples of a buffer
      of `len`: at the end of the buffer, wrap around to its start spending
      one repeat (none when repeating forever), or, with no repeat left,
      break off. The state, whether it broke off and whether it wrapped. */
  function Advance(p: Playback, consumed: nat, len: nat): (a: Advanced)
    requires p.pos + consumed <= len
    ensures a.p.pos <= len
    ensures p.pos + consumed == len ==> a.done || a.p.pos == 0
  {
    var p1 := p.(pos := p.pos + consumed, resamplerCalls := p.resamplerCalls + 1, faderCalls := p.faderCalls + 1);
    if p1.pos >= len then
      if p.repeat > 0 then
        Advanced(p1.(pos := 0, repeat := if p.repeat != USIZE_MAX then p.repeat - 1 else p.repeat), false, 1)
      else
        Advanced(p1, true, 0)
    else
      Advanced(p1, false, 0)
  }

  /** Advancing moves the cursor by what was consumed and counts one call of
      the resampler and the fader; it breaks off exactly at the end of the
      buffer with no repeat left, and wraps around exactly at the end of the
      buffer with a repeat left, spending it unless repeating forever. */
  lemma AdvanceSpec(p: Playback, consumed: nat, len: nat)
    requires p.pos + consumed <= len
    ensures var a := Advance(p, consumed, len);
      && a.wraps <= 1
      && a.p == p.(pos := a.p.pos, repeat := a.p.repeat, resamplerCalls := p.resamplerCalls + 1, faderCalls := p.faderCalls + 1)
      && (a.done <==> p.pos + consumed == len && p.repeat == 0)
      && (a.done ==> a.p.pos == len && a.wraps == 0)
      && (a.wraps == 1 <==> p.pos + consumed == len && p.repeat > 0)
      && (a.wraps == 1 ==> a.p.pos == 0 && a.p.repeat == (if p.repeat == USIZE_MAX then USIZE_MAX else p.repeat - 1))
      && (a.wraps == 0 ==> a.p.repeat == p.repeat)
      && (!a.done && a.wraps == 0 ==> a.p.pos == p.pos + consumed < len)
  {
  }

  /** The loop state with the cursor in the buffer and the written count in
      the output. */
  ghost predicate InRange(e: Env, c: Turned) {
    c.p.pos <= |e.buffer| && c.tw <= |c.out|
  }

  /** One turn of the `write` loop: resample the unread buffer into the rest
      of the output and render it, advance the cursor, and at the end of the
      buffer either wrap around (spending one repeat unless repeating
      forever) or break off. */
  function Step(e: Env, c: Turned): (n: Turned)
    requires EnvOk(e) && InRange(e, c) && c.tw < |c.out|
    ensures InRange(e, n) && |n.out| == |c.out| && c.tw <= n.tw
    ensures n.done || n.tw > c.tw || (c.p.pos == |e.buffer| && n.p.pos < |e.buffer|)
  {
    var res := e.resampler(c.p.resamplerCalls, e.buffer[c.p.pos..], |c.out| - c.tw);
    var a := Advance(c.p, res.consumed, |e.buffer|);
    Turned(a.p, Render(c.out, c.tw, res.samples, e.volume, e.fader, c.p.faderCalls),
           c.tw + |res.samples|, a.done, c.wraps + a.wraps)
  }

  /** The `write` loop from state `c` on: turn until the output is full or
      the loop has broken off. */
  function Play(e: Env, c: Turned): (r: Turned)
    requires EnvOk(e) && InRange(e, c)
    ensures InRange(e, r) && |r.out| == |c.out| && c.tw <= r.tw
    decreases |c.out| - c.tw, if c.done then 0 else if c.p.pos < |e.buffer| then 1 else 2
  {
    if c.tw == |c.out| || c.done then c else Play(e, Step(e, c))
  }

  /** A turn leaves the rest of the loop to do. */
  lemma PlayUnfold(e: Env, c: Turned)
    requires EnvOk(e) && InRange(e, c) && c.tw < |c.out| && !c.done
    ensures Play(e, c) == Play(e, Step(e, c))
  {
  }

  /** After the loop: report the position when asked to, and once the cursor
      is at the end of the buffer or a fade-out has completed, report
      Stopped (exhausted when at the end) and finish. */
  function Finish(p: Playback, len: nat, hasStatusSender: bool, reportPos: bool, faderFinished: bool): (r: Playback)
    ensures r.finished <==> p.finished || p.pos >= len || (p.fadingOut && faderFinished)
    ensures r == p.(finished := r.finished, events := r.events)
    ensures !hasStatusSender ==> r.events == p.events
    ensures hasStatusSender && p.pos >= len ==> |r.events| > 0 && r.events[|r.events| - 1] == Stopped(true)
    ensures var ends := p.pos >= len || (p.fadingOut && faderFinished);
      |r.events| == |p.events| + (if hasStatusSender && reportPos then 1 else 0) + (if hasStatusSender && ends then 1 else 0)
    ensures r.events[..|p.events|] == p.events
    ensures hasStatusSender && reportPos ==> r.events[|p.events|] == Position(p.pos)
    ensures hasStatusSender && (p.pos >= len || (p.fadingOut && faderFinished)) ==>
      r.events[|r.events| - 1] == Stopped(p.pos >= len)
  {
    var reported := if hasStatusSender && reportPos then p.events + [Position(p.pos)] else p.events;
    if p.pos >= len || (p.fadingOut && faderFinished) then
      p.(events := if hasStatusSender then reported + [Stopped(p.pos >= len)] else reported, finished := true)
    else
      p.(events := reported)
  }

  // ---------------------------------------------------------------------------
  // Properties of the loop

  /** The loop fills the whole output, unless it broke off at the end of the
      buffer with no repeat left; a forever-repeating source never breaks
      off; and every wrap spends exactly one repeat of a finite count, so a
      count of k gives k + 1 passes over the buffer. */
  lemma {:induction false} PlayOutcome(e: Env, c: Turned)
    requires EnvOk(e) && InRange(e, c)
    requires c.done ==> c.p.pos == |e.buffer| && c.p.repeat == 0
    ensures var r := Play(e, c);
      (r.tw == |c.out| || r.done)
      && (r.done ==> r.p.pos == |e.buffer| && r.p.repeat == 0)
      && (c.p.repeat == USIZE_MAX ==> r.p.repeat == USIZE_MAX && r.done == c.done)
      && (c.p.repeat != USIZE_MAX ==> r.p.repeat + r.wraps == c.p.repeat + c.wraps)
    decreases |c.out| - c.tw, if c.done then 0 else if c.p.pos < |e.buffer| then 1 else 2
  {
    if c.tw < |c.out| && !c.done {
      var res := e.resampler(c.p.resamplerCalls, e.buffer[c.p.pos..], |c.out| - c.tw);
      AdvanceSpec(c.p, res.consumed, |e.buffer|);
      PlayOutcome(e, Step(e, c));
    }
  }

  /** The loop never touches the samples before its starting offset. */
  lemma {:induction false} PlayKeepsBefore(e: Env, c: Turned, j: nat)
    requires EnvOk(e) && InRange(e, c) && j < c.tw
    ensures Play(e, c).out[j] == c.out[j]
    decreases |c.out| - c.tw, if c.done then 0 else if c.p.pos < |e.buffer| then 1 else 2
  {
    if c.tw < |c.out| && !c.done {
      PlayKeepsBefore(e, Step(e, c), j);
    }
  }

  // ---------------------------------------------------------------------------
  // The source

  class PreloadedFileSource {
    /** The decoded file, interleaved; shared and never changed. */
    const buffer: seq<real>
    const channelCount: nat
    const bufferSampleRate: nat
    const outputSampleRate: nat
    /** Fade-out duration of a Stop. */
    const fadeOut: Option<File.Duration>
    /** Whether a status channel was given. */
    const hasStatusSender: bool
    const volume: real
    var bufferPos: nat
    var repeat: Usize
    var playbackFinished: bool
    var fadingOut: bool
    var resamplerResets: nat
    var resamplerCalls: nat
    var faderCalls: nat
    /** The events sent to the status channel so far. */
    var events: seq<StatusEvent>

    function State(): Playback
      reads this
    {
      Playback(bufferPos, repeat, playbackFinished, fadingOut, resamplerResets, resamplerCalls, faderCalls, events)
    }

    ghost predicate Valid()
      reads this
    {
      |buffer| > 0 && channelCount > 0 && bufferPos <= |buffer|
    }

    /** `with_buffer`: a source at the start of the buffer, not finished. */
    constructor (buffer: seq<real>, channelCount: nat, bufferSampleRate: nat, outputSampleRate: nat,
                 volume: real, fadeOut: Option<File.Duration>, repeat: Usize, hasStatusSender: bool)
      requires |buffer| > 0 && channelCount > 0
      ensures Valid() && this.buffer == buffer && this.channelCount == channelCount
      ensures this.bufferSampleRate == bufferSampleRate && this.outputSampleRate == outputSampleRate
      ensures this.volume == volume && this.fadeOut == fadeOut && this.hasStatusSender == hasStatusSender
      ensures State() == Playback(0, repeat, false, false, 0, 0, 0, [])
    {
      this.buffer := buffer;
      this.channelCount := channelCount;
      this.bufferSampleRate := bufferSampleRate;
      this.outputSampleRate := outputSampleRate;
      this.volume := volume;
      this.fadeOut := fadeOut;
      this.hasStatusSender := hasStatusSender;
      this.repeat := repeat;
      bufferPos, playbackFinished, fadingOut := 0, false, false;
      resamplerResets, resamplerCalls, faderCalls := 0, 0, 0;
      events := [];
    }

    /** `total_frames`: the whole frames in the buffer. */
    function TotalFrames(): (r: Option<nat>)
      reads this
      requires Valid()
      ensures r.Some? && r.value * channelCount <= |buffer| < (r.value + 1) * channelCount
    {
      Some(|buffer| / channelCount)
    }

    /** `current_frame_position`: the frame the cursor is in. */
    function CurrentFramePosition(): (r: nat)
      reads this
      requires Valid()
      ensures r * channelCount <= bufferPos < (r + 1) * channelCount
      ensures r <= TotalFrames().value
    {
      DivMonotone(bufferPos, |buffer|, channelCount);
      bufferPos / channelCount
    }

    /** `end_of_track` and `is_exhausted`: playback has finished. */
    predicate IsExhausted()
      reads this
      ensures IsExhausted() == State().finished
    {
      playbackFinished
    }

    /** Applies one control message. */
    method HandleMessage(m: Message)
      requires Valid()
      modifies this
      ensures Valid() && State() == OnMessage(old(State()), |buffer|, fadeOut, m)
    {
      match m {
        case Seek(target) =>
          bufferPos := Min(target, |buffer|);
          resamplerResets := resamplerResets + 1;
        case Read =>
        case Stop =>
          if fadeOut.Some? && fadeOut.value != 0 {
            fadingOut := true;
          } else {
            playbackFinished := true;
          }
      }
    }

    /** One turn of the `write` loop from sample `tw` of `output`. */
    method Turn(output: array<real>, tw: nat, resampler: Resampler, fader: Fader, ghost wraps: nat)
      returns (tw': nat, done: bool, ghost wraps': nat)
      requires Valid() && ResamplerOk(resampler) && FaderOk(fader) && tw < output.Length
      modifies this, output
      ensures Valid()
      ensures Turned(State(), output[..], tw', done, wraps')
        == Step(Env(buffer, volume, resampler, fader), Turned(old(State()), old(output[..]), tw, false, wraps))
    {
      var res := resampler(resamplerCalls, buffer[bufferPos..], output.Length - tw);
      tw' := tw + |res.samples|;
      RenderInto(output, tw, res.samples, volume, fader, faderCalls);
      var wrapped;
      done, wrapped := AdvanceBy(res.consumed);
      wraps' := wraps + wrapped;
    }

    /** Advances the cursor past the consumed samples, wrapping around or
        breaking off at the end of the buffer. */
    method AdvanceBy(consumed: nat) returns (done: bool, wrapped: nat)
      requires Valid() && bufferPos + consumed <= |buffer|
      modifies this
      ensures Valid()
      ensures var a := Advance(old(State()), consumed, |buffer|);
        State() == a.p && done == a.done && wrapped == a.wraps
    {
      bufferPos := bufferPos + consumed;
      resamplerCalls := resamplerCalls + 1;
      faderCalls := faderCalls + 1;
      done, wrapped := false, 0;
      if bufferPos >= |buffer| {
        if repeat > 0 {
          if repeat != USIZE_MAX {
            repeat := repeat - 1;
          }
          bufferPos, wrapped := 0, 1;
        } else {
          done := true;
        }
      }
    }

    /** `write`: drains the control messages, then, unless finished, plays
        the buffer into `output` (looping as often as the repeat count
        allows) and finishes at the end of the buffer or of a fade-out.
        `reportPos` is the wall-clock decision to report the position and
        `faderFinished` whether the fader has reached its target. */
    method Write(output: array<real>, msgs: seq<Message>, resampler: Resampler, fader: Fader,
                 reportPos: bool, faderFinished: bool) returns (written: nat)
      requires Valid() && ResamplerOk(resampler) && FaderOk(fader)
      modifies this, output
      ensures Valid() && written <= output.Length
      ensures var c := OnMessages(old(State()), |buffer|, fadeOut, msgs);
        if c.finished then written == 0 && output[..] == old(output[..]) && State() == c
        else
          var r := Play(Env(buffer, volume, resampler, fader), Turned(c, old(output[..]), 0, false, 0));
          output[..] == r.out && written == r.tw
          && State() == Finish(r.p, |buffer|, hasStatusSender, reportPos, faderFinished)
    {
      Drain(msgs);
      if playbackFinished {
        return 0;
      }
      written := Loop(output, resampler, fader);
      Conclude(reportPos, faderFinished);
    }

    /** Applies the pending control messages in arrival order. */
    method Drain(msgs: seq<Message>)
      requires Valid()
      modifies this
      ensures Valid() && State() == OnMessages(old(State()), |buffer|, fadeOut, msgs)
    {
      var i := 0;
      while i < |msgs|
        invariant Valid() && i <= |msgs|
        invariant OnMessages(old(State()), |buffer|, fadeOut, msgs) == OnMessages(State(), |buffer|, fadeOut, msgs[i..])
      {
        HandleMessage(msgs[i]);
        assert msgs[i..][1..] == msgs[i + 1..];
        i := i + 1;
      }
    }

    /** The repeat loop of `write`. */
    method Loop(output: array<real>, resampler: Resampler, fader: Fader) returns (totalWritten: nat)
      requires Valid() && ResamplerOk(resampler) && FaderOk(fader)
      modifies this, output
      ensures Valid()
      ensures var r := Play(Env(buffer, volume, resampler, fader), Turned(old(State()), old(output[..]), 0, false, 0));
        output[..] == r.out && totalWritten == r.tw && State() == r.p
    {
      ghost var e := Env(buffer, volume, resampler, fader);
      totalWritten := 0;
      var done := false;
      ghost var wraps: nat := 0;
      ghost var goal := Play(e, Turned(State(), output[..], 0, false, 0));
      while totalWritten < output.Length && !done
        invariant Valid() && totalWritten <= output.Length
        invariant goal == Play(e, Turned(State(), output[..], totalWritten, done, wraps))
        decreases output.Length - totalWritten, if done then 0 else if bufferPos < |buffer| then 1 else 2
      {
        PlayUnfold(e, Turned(State(), output[..], totalWritten, false, wraps));
        totalWritten, done, wraps := Turn(output, totalWritten, resampler, fader, wraps);
      }
    }

    /** The position report and finish check after the loop. */
    method Conclude(reportPos: bool, faderFinished: bool)
      requires Valid()
      modifies this
      ensures Valid() && State() == Finish(old(State()), |buffer|, hasStatusSender, reportPos, faderFinished)
    {
      if hasStatusSender && reportPos {
        events := events + [Position(bufferPos)];
      }
      if bufferPos >= |buffer| || (fadingOut && faderFinished) {
        if hasStatusSender {
          events := events + [Stopped(bufferPos >= |buffer|)];
        }
        playbackFinished := true;
      }
    }
  }

  /** Renders one turn's resampled samples into `output`, as `Render` describes. */
  method RenderInto(output: array<real>, tw: nat, samples: seq<real>, volume: real, fader: Fader, k: nat)
    requires FaderOk(fader) && tw + |samples| <= output.Length
    modifies output
    ensures output[..] == Render(old(output[..]), tw, samples, volume, fader, k)
  {
    RenderSteps(output[..], tw, samples, volume, fader, k);
    CopyInto(output, tw, samples);
    if VolumeApplies(volume) {
      ScaleRange(output, tw, output.Length, volume);
    }
    var faded := fader(k, output[tw..tw + |samples|]);
    CopyInto(output, tw, faded);
  }

  /** Writing the samples, scaling the rest of the output and fading the
      written part, one after the other, renders the turn. */
  lemma RenderSteps(out: seq<real>, tw: nat, samples: seq<real>, volume: real, fader: Fader, k: nat)
    requires FaderOk(fader) && tw + |samples| <= |out|
    ensures var o1 := CopyAt(out, tw, samples);
      var o2 := if VolumeApplies(volume) then o1[..tw] + Scale(o1[tw..|o1|], volume) + o1[|o1|..] else o1;
      |o2| == |out| && CopyAt(o2, tw, fader(k, o2[tw..tw + |samples|])) == Render(out, tw, samples, volume, fader, k)
  {
    var o1 := CopyAt(out, tw, samples);
    var o2 := if VolumeApplies(volume) then o1[..tw] + Scale(o1[tw..|o1|], volume) + o1[|o1|..] else o1;
    ScaledStage(out, tw, samples, volume);
    var n := |samples|;
    var g := if VolumeApplies(volume) then Scale(samples, volume) else samples;
    assert o2[tw..tw + n] == g by {
      forall i | 0 <= i < n ensures o2[tw..tw + n][i] == g[i] {
        assert o2[tw..tw + n][i] == o2[tw + i];
      }
    }
    FadedStage(out, o2, tw, samples, volume, fader, k);
  }

  /** Writing the samples and scaling the rest of the output. */
  lemma ScaledStage(out: seq<real>, tw: nat, samples: seq<real>, volume: real)
    requires tw + |samples| <= |out|
    ensures var o1 := CopyAt(out, tw, samples);
      var o2 := if VolumeApplies(volume) then o1[..tw] + Scale(o1[tw..|o1|], volume) + o1[|o1|..] else o1;
      |o2| == |out| &&
      forall j :: 0 <= j < |out| ==> o2[j] == if j < tw then out[j]
        else if j < tw + |samples| then (if VolumeApplies(volume) then samples[j - tw] * volume else samples[j - tw])
        else if VolumeApplies(volume) then out[j] * volume else out[j]
  {
    var o1 := CopyAt(out, tw, samples);
    forall j | 0 <= j < |out|
      ensures o1[j] == if j < tw then out[j] else if j < tw + |samples| then samples[j - tw] else out[j]
    {
    }
  }

  /** Fading the written part of the staged output renders the turn. */
  lemma FadedStage(out: seq<real>, o2: seq<real>, tw: nat, samples: seq<real>, volume: real, fader: Fader, k: nat)
    requires FaderOk(fader) && tw + |samples| <= |out| == |o2|
    requires o2[tw..tw + |samples|] == if VolumeApplies(volume) then Scale(samples, volume) else samples
    requires forall j :: 0 <= j < |out| && !(tw <= j < tw + |samples|) ==>
      o2[j] == if j < tw then out[j] else if VolumeApplies(volume) then out[j] * volume else out[j]
    ensures CopyAt(o2, tw, fader(k, o2[tw..tw + |samples|])) == Render(out, tw, samples, volume, fader, k)
  {
    var f := Rendered(samples, volume, fader, k);
    var c := CopyAt(o2, tw, f);
    var r := Render(out, tw, samples, volume, fader, k);
    forall j | 0 <= j < |out| ensures c[j] == r[j] {
      if j < tw {
        assert c[j] == o2[j];
      } else if j < tw + |samples| {
        assert c[j] == f[j - tw];
      } else {
        assert c[j] == o2[j];
      }
    }
  }

  /** `new`: decoding must yield at least one sample; an empty decode is an error. */
  method New(decoded: seq<real>, channelCount: nat, bufferSampleRate: nat, outputSampleRate: nat,
             volume: real, fadeOut: Option<File.Duration>, repeat: Usize, hasStatusSender: bool)
    returns (r: Option<PreloadedFileSource>)
    requires channelCount > 0
    ensures r.None? <==> decoded == []
    ensures r.Some? ==> fresh(r.value) && r.value.Valid() && r.value.buffer == decoded
    ensures r.Some? ==> r.value.State() == Playback(0, repeat, false, false, 0, 0, 0, [])
  {
    if decoded == [] {
      return None;
    }
    var s := new PreloadedFileSource(decoded, channelCount, bufferSampleRate, outputSampleRate,
                                     volume, fadeOut, repeat, hasStatusSender);
    return Some(s);
  }
}
