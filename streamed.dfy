/** The streamed file source: a decoding worker pushes decoded samples into a
    ring buffer, and the source pulls them from there into the output. The
    two share a handful of flags and counters (atomics in the source), here
    one record that each side updates in turn. The ring buffer, the decoder
    and the fader are abstract: each call's result is an input. */
module Streamed {
  import opened Common
  import opened File

  // ---------------------------------------------------------------------------
  // Shared state

  /** The play-head position in samples, the total sample count (`U64_MAX`
      until known), whether the worker still plays, whether it reached the
      end of the file, and the fade-out a Stop asked for. */
  datatype Shared = Shared(position: nat, totalSamples: nat, isPlaying: bool, endOfFile: bool,
                           isFadingOut: bool, fadeOutMs: nat)

  class SharedFileWorkerState {
    var position: nat
    var totalSamples: nat
    var isPlaying: bool
    var endOfFile: bool
    var isFadingOut: bool
    var fadeOutMs: nat

    function Get(): Shared
      reads this
    {
      Shared(position, totalSamples, isPlaying, endOfFile, isFadingOut, fadeOutMs)
    }

    /** At the start: position 0, total unknown, playing. */
    constructor ()
      ensures Get() == Shared(0, U64_MAX, true, false, false, 0)
    {
      position, totalSamples := 0, U64_MAX;
      isPlaying, endOfFile, isFadingOut := true, false, false;
      fadeOutMs := 0;
    }
  }

  /** `total_samples`: the shared total, unknown while it holds the sentinel. */
  function KnownTotal(sh: Shared): (r: Option<nat>)
    ensures r.None? <==> sh.totalSamples == U64_MAX
    ensures r.Some? ==> r.value == sh.totalSamples
  {
    if sh.totalSamples == U64_MAX then None else Some(sh.totalSamples)
  }

  // ---------------------------------------------------------------------------
  // The source side

  /** `should_report_pos`: report the first position, any move backwards,
      and any move forwards by at least `precision` samples. */
  function ShouldReportPos(reported: Option<nat>, pos: nat, precision: nat): (r: bool)
    ensures r <==> reported.None? || pos < reported.value || pos >= reported.value + precision
  {
    match reported
    case None => true
    case Some(last) => last > pos || pos - last >= precision
  }

  /** The source's own state: the last reported position, whether playback
      finished, the fade-out (in milliseconds) the stop fader was started
      with, the fader calls so far, and the events sent. */
  datatype Consumer = Consumer(reportedPos: Option<nat>, finished: bool, fadeStarted: Option<nat>,
                               faderCalls: nat, events: seq<StatusEvent>)

  /** The source, the shared state and the output after a `write`, and the
      samples it wrote. */
  datatype Wrote = Wrote(c: Consumer, sh: Shared, out: seq<real>, written: nat)

  /** The first part of a write: deliver the samples read, move the shared
      position on by them and, during a fade-out, start the stop fader if it
      is still stopped, and count its call. */
  function Take(c: Consumer, sh: Shared, volume: real, out: seq<real>, read: seq<real>, fader: Fader): (r: Wrote)
    requires FaderOk(fader) && |read| <= |out|
    ensures |r.out| == |out|
  {
    var stopping := sh.isFadingOut;
    Wrote(c.(fadeStarted := if stopping && c.fadeStarted.None? then Some(sh.fadeOutMs) else c.fadeStarted,
             faderCalls := if stopping then c.faderCalls + 1 else c.faderCalls),
          sh.(position := sh.position + |read|),
          Delivered(read, volume, stopping, fader, c.faderCalls) + out[|read|..],
          |read|)
  }

  /** Reports the position `pos` when there is a status channel and the
      position moved enough since the last report. */
  function Report(c: Consumer, pos: nat, hasStatusSender: bool, precision: nat): (r: Consumer)
    ensures r == c.(reportedPos := r.reportedPos, events := r.events)
    ensures |r.events| > |c.events| <==> hasStatusSender && ShouldReportPos(c.reportedPos, pos, precision)
    ensures r.events == c.events || (r.events == c.events + [Position(pos)] && r.reportedPos == Some(pos))
    ensures r.events == c.events ==> r == c
  {
    if hasStatusSender && ShouldReportPos(c.reportedPos, pos, precision) then
      c.(reportedPos := Some(pos), events := c.events + [Position(pos)])
    else c
  }

  /** The source and the shared state together. */
  datatype Sides = Sides(c: Consumer, sh: Shared)

  /** A write ends playback: the worker stopped, nothing was read at the end
      of the file, or the fade-out completed. */
  predicate Finishing(sh: Shared, written: nat, stopping: bool, faderFinished: bool) {
    !sh.isPlaying || (written == 0 && sh.endOfFile) || (stopping && faderFinished)
  }

  /** The end of a write: once the worker stopped, nothing was read at the
      end of the file, or the fade-out completed, report Stopped, stop the
      worker and finish. */
  function Settle(c: Consumer, sh: Shared, written: nat, stopping: bool, faderFinished: bool,
                  hasStatusSender: bool): (r: Sides)
    ensures r.c == c.(finished := r.c.finished, events := r.c.events)
    ensures r.sh == sh.(isPlaying := r.sh.isPlaying)
    ensures r.c.finished <==> c.finished || Finishing(sh, written, stopping, faderFinished)
    ensures Finishing(sh, written, stopping, faderFinished) ==> !r.sh.isPlaying
    ensures !Finishing(sh, written, stopping, faderFinished) ==> r == Sides(c, sh)
    ensures hasStatusSender && Finishing(sh, written, stopping, faderFinished) ==>
      r.c.events == c.events + [Stopped(written == 0 && sh.endOfFile)]
    ensures !hasStatusSender ==> r.c.events == c.events
  {
    var exhausted := written == 0 && sh.endOfFile;
    if Finishing(sh, written, stopping, faderFinished) then
      Sides(c.(events := if hasStatusSender then c.events + [Stopped(exhausted)] else c.events, finished := true),
            sh.(isPlaying := false))
    else Sides(c, sh)
  }

  /** `write`, given the samples `read` from the ring buffer and whether
      the fader has `faderFinished` its fade after processing them. */
  function WriteStep(c: Consumer, sh: Shared, volume: real, hasStatusSender: bool, precision: nat,
                     out: seq<real>, read: seq<real>, fader: Fader, faderFinished: bool): (r: Wrote)
    requires FaderOk(fader) && |read| <= |out|
    ensures |r.out| == |out|
  {
    if c.finished then Wrote(c, sh, out, 0)
    else
      var t := Take(c, sh, volume, out, read, fader);
      var s := Settle(Report(t.c, t.sh.position, hasStatusSender, precision), t.sh, t.written,
                      sh.isFadingOut, faderFinished, hasStatusSender);
      Wrote(s.c, s.sh, t.out, t.written)
  }

  /** A finished source writes nothing and changes nothing. Otherwise a
      write takes all samples read, moves the shared position on by them,
      leaves the rest of the output alone, and finishes exactly when the
      worker stopped, when nothing was read at the end of the file, or when
      a fade-out completed; finishing stops the worker too. */
  lemma WriteOutcome(c: Consumer, sh: Shared, volume: real, hasStatusSender: bool, precision: nat,
                     out: seq<real>, read: seq<real>, fader: Fader, faderFinished: bool)
    requires FaderOk(fader) && |read| <= |out|
    ensures var r := WriteStep(c, sh, volume, hasStatusSender, precision, out, read, fader, faderFinished);
      && (c.finished ==> r == Wrote(c, sh, out, 0))
      && (!c.finished ==> r.written == |read| && r.sh.position == sh.position + |read|)
      && r.out[r.written..] == out[r.written..]
      && r.sh == sh.(position := r.sh.position, isPlaying := r.sh.isPlaying)
      && (!c.finished ==>
            (r.c.finished <==> !sh.isPlaying || (|read| == 0 && sh.endOfFile) || (sh.isFadingOut && faderFinished)))
      && (r.c.finished ==> c.finished || !r.sh.isPlaying)
  {
  }

  /** `end_of_track`: playback finished with the worker at the end of the file. */
  predicate TrackEnded(c: Consumer, sh: Shared) {
    c.finished && sh.endOfFile
  }

  /** A write reports its position when there is a status channel and the
      position moved enough, and its Stopped event says `exhausted` exactly
      when nothing was read with the worker at the end of the file. */
  lemma WriteEvents(c: Consumer, sh: Shared, volume: real, hasStatusSender: bool, precision: nat,
                    out: seq<real>, read: seq<real>, fader: Fader, faderFinished: bool)
    requires FaderOk(fader) && |read| <= |out| && !c.finished
    ensures var r := WriteStep(c, sh, volume, hasStatusSender, precision, out, read, fader, faderFinished);
      var pos := sh.position + |read|;
      var reported := hasStatusSender && ShouldReportPos(c.reportedPos, pos, precision);
      && (reported ==> r.c.reportedPos == Some(pos) && c.events + [Position(pos)] <= r.c.events)
      && (!reported ==> r.c.reportedPos == c.reportedPos && c.events <= r.c.events)
      && (!hasStatusSender ==> r.c.events == c.events)
      && (hasStatusSender && r.c.finished ==> r.c.events[|r.c.events| - 1] == Stopped(|read| == 0 && sh.endOfFile))
      && (hasStatusSender && !r.c.finished ==> r.c.events == (if reported then c.events + [Position(pos)] else c.events))
  {
  }

  /** The samples a write delivers: those read, scaled by the volume when it
      applies, and faded once a fade-out was asked for; a fade-out starts the
      stop fader once, with the duration the Stop asked for. */
  lemma WriteSamples(c: Consumer, sh: Shared, volume: real, hasStatusSender: bool, precision: nat,
                     out: seq<real>, read: seq<real>, fader: Fader, faderFinished: bool)
    requires FaderOk(fader) && |read| <= |out| && !c.finished
    ensures var r := WriteStep(c, sh, volume, hasStatusSender, precision, out, read, fader, faderFinished);
      && r.out[..|read|] == Delivered(read, volume, sh.isFadingOut, fader, c.faderCalls)
      && (!sh.isFadingOut ==> r.c.fadeStarted == c.fadeStarted && r.c.faderCalls == c.faderCalls)
      && (sh.isFadingOut ==> r.c.fadeStarted == (if c.fadeStarted.None? then Some(sh.fadeOutMs) else c.fadeStarted))
  {
    var r := WriteStep(c, sh, volume, hasStatusSender, precision, out, read, fader, faderFinished);
    var samples := Delivered(read, volume, sh.isFadingOut, fader, c.faderCalls);
    assert r.out[..|read|] == (samples + out[|read|..])[..|read|];
  }

  /** Once the track has ended it stays ended: later writes write nothing
      and change nothing. */
  lemma EndOfTrackStays(c: Consumer, sh: Shared, volume: real, hasStatusSender: bool, precision: nat,
                        out: seq<real>, read: seq<real>, fader: Fader, faderFinished: bool)
    requires FaderOk(fader) && |read| <= |out| && TrackEnded(c, sh)
    ensures var r := WriteStep(c, sh, volume, hasStatusSender, precision, out, read, fader, faderFinished);
      TrackEnded(r.c, r.sh) && r.written == 0 && r.out == out
  {
  }

  /** The streamed file source. */
  class StreamedFileSource {
    const shared: SharedFileWorkerState
    const volume: real
    /** Whether a status channel was given. */
    const hasStatusSender: bool
    /** Half a second of samples: the least forward move worth reporting. */
    const reportPrecision: nat
    var reportedPos: Option<nat>
    var playbackFinished: bool
    var fadeStarted: Option<nat>
    var faderCalls: nat
    var events: seq<StatusEvent>

    function State(): Consumer
      reads this
    {
      Consumer(reportedPos, playbackFinished, fadeStarted, faderCalls, events)
    }

    /** `new`, once the decoder is open and the worker runs. */
    constructor (shared: SharedFileWorkerState, volume: real, hasStatusSender: bool, reportPrecision: nat)
      ensures this.shared == shared && this.volume == volume && this.hasStatusSender == hasStatusSender
      ensures this.reportPrecision == reportPrecision
      ensures State() == Consumer(None, false, None, 0, [])
    {
      this.shared := shared;
      this.volume := volume;
      this.hasStatusSender := hasStatusSender;
      this.reportPrecision := reportPrecision;
      reportedPos, playbackFinished, fadeStarted := None, false, None;
      faderCalls, events := 0, [];
    }

    /** `written_samples`: moves the shared position on by `n` and returns it. */
    method WrittenSamples(n: nat) returns (position: nat)
      modifies shared
      ensures position == old(shared.position) + n
      ensures shared.Get() == old(shared.Get()).(position := position)
    {
      shared.position := shared.position + n;
      position := shared.position;
    }

    function TotalSamples(): (r: Option<nat>)
      reads shared
      ensures r == KnownTotal(shared.Get())
    {
      if shared.totalSamples == U64_MAX then None else Some(shared.totalSamples)
    }

    predicate EndOfTrack()
      reads this, shared
      ensures EndOfTrack() == TrackEnded(State(), shared.Get())
    {
      playbackFinished && shared.endOfFile
    }

    predicate IsExhausted()
      reads this
      ensures IsExhausted() == State().finished
    {
      playbackFinished
    }

    /** `write`: `read` are the samples the ring buffer hands over (none when
        it is empty), and `faderFinished` the stop fader's state after it
        processed them. */
    method Write(output: array<real>, read: seq<real>, fader: Fader, faderFinished: bool) returns (written: nat)
      requires FaderOk(fader) && |read| <= output.Length
      modifies this, shared, output
      ensures Wrote(State(), shared.Get(), output[..], written)
        == WriteStep(old(State()), old(shared.Get()), volume, hasStatusSender, reportPrecision,
                     old(output[..]), read, fader, faderFinished)
    {
      if playbackFinished {
        return 0;
      }
      var position, isStopping;
      written, position, isStopping := Receive(output, read, fader);
      ReportPosition(position);
      Conclude(written, isStopping, faderFinished);
    }

    /** Delivers the samples read and moves the shared position on. */
    method Receive(output: array<real>, read: seq<real>, fader: Fader)
      returns (written: nat, position: nat, isStopping: bool)
      requires FaderOk(fader) && |read| <= output.Length
      modifies this, shared, output
      ensures Wrote(State(), shared.Get(), output[..], written)
        == Take(old(State()), old(shared.Get()), volume, old(output[..]), read, fader)
      ensures position == shared.position && isStopping == shared.isFadingOut
    {
      written := |read|;
      isStopping := shared.isFadingOut;
      DeliverInto(output, read, volume, isStopping, fader, faderCalls);
      position := WrittenSamples(written);
      if isStopping {
        if fadeStarted.None? {
          fadeStarted := Some(shared.fadeOutMs);
        }
        faderCalls := faderCalls + 1;
      }
    }

    method ReportPosition(position: nat)
      modifies this
      ensures State() == Report(old(State()), position, hasStatusSender, reportPrecision)
    {
      if hasStatusSender && ShouldReportPos(reportedPos, position, reportPrecision) {
        reportedPos := Some(position);
        events := events + [Position(position)];
      }
    }

    /** The finish check at the end of a write. */
    method Conclude(written: nat, isStopping: bool, faderFinished: bool)
      modifies this, shared
      ensures Sides(State(), shared.Get())
        == Settle(old(State()), old(shared.Get()), written, isStopping, faderFinished, hasStatusSender)
    {
      var isExhausted := written == 0 && shared.endOfFile;
      if !shared.isPlaying || isExhausted || (isStopping && faderFinished) {
        if hasStatusSender {
          events := events + [Stopped(isExhausted)];
        }
        shared.isPlaying := false;
        playbackFinished := true;
      }
    }
  }

  // ---------------------------------------------------------------------------
  // The worker side

  /** What the worker does after a message: wait for the next one, shut
      down, or wait at most `timeoutMs` and then handle `timeoutMsg`. */
  datatype Act = Continue | Shutdown | WaitOr(timeoutMs: nat, timeoutMsg: FilePlaybackMessage)

  /** A handler's result; `Err` when the decoder failed to rewind. */
  datatype Outcome = Ok(act: Act) | Err

  /** The worker's state: the samples of the last decoded packet, the range
      of them still to push into the ring buffer, the samples pushed since
      the last seek, whether the read loop runs, the repeats left, and
      counters for the Read messages it sent itself and the ring buffer
      clears. */
  datatype Worker = Worker(packet: seq<real>, start: nat, end: nat, samplesWritten: nat, isReading: bool,
                           repeat: Usize, readsSent: nat, clears: nat)

  /** The pending range lies within the packet. */
  ghost predicate WorkerOk(w: Worker) {
    w.start <= w.end <= |w.packet|
  }

  datatype Handled = Handled(w: Worker, sh: Shared, outcome: Outcome)

  /** `on_stop`: without a fade-out stop at once and shut down; with one,
      leave the fade-out to the source and keep running. */
  function StopStep(w: Worker, sh: Shared, fadeOut: Duration): (h: Handled)
    ensures fadeOut == 0 <==> h.outcome == Ok(Shutdown)
    ensures fadeOut == 0 ==> h.w == w.(isReading := false) && h.sh == sh.(isPlaying := false)
    ensures fadeOut != 0 ==> h.outcome == Ok(Continue) && h.w == w
    ensures fadeOut != 0 ==> h.sh == sh.(isFadingOut := true, fadeOutMs := AsMillis(fadeOut))
  {
    if fadeOut == 0 then Handled(w.(isReading := false), sh.(isPlaying := false), Ok(Shutdown))
    else Handled(w, sh.(fadeOutMs := AsMillis(fadeOut), isFadingOut := true), Ok(Continue))
  }

  /** `on_seek`, given the frame the decoder landed on (`None` when the seek
      failed): move both positions there and clear the ring buffer; drop
      the pending range if the read loop runs, and restart it otherwise. */
  function SeekStep(w: Worker, sh: Shared, channels: nat, landed: Option<nat>): (h: Handled)
    ensures h.outcome == Ok(Continue)
    ensures landed.None? ==> h.w == w && h.sh == sh
    ensures landed.Some? ==> h.w.samplesWritten == h.sh.position == landed.value * channels
    ensures landed.Some? ==> h.sh == sh.(position := h.sh.position) && h.w.clears == w.clears + 1
    ensures landed.Some? && w.isReading ==> h.w.start == h.w.end == 0 && h.w.readsSent == w.readsSent
    ensures landed.Some? && !w.isReading ==>
      h.w.start == w.start && h.w.end == w.end && h.w.readsSent == w.readsSent + 1
    ensures h.w == w.(start := h.w.start, end := h.w.end, samplesWritten := h.w.samplesWritten,
                      readsSent := h.w.readsSent, clears := h.w.clears)
  {
    match landed
    case None => Handled(w, sh, Ok(Continue))
    case Some(frame) =>
      var w1 := if w.isReading then w.(start := 0, end := 0) else w.(readsSent := w.readsSent + 1);
      var position := frame * channels;
      Handled(w1.(samplesWritten := position, clears := w.clears + 1), sh.(position := position), Ok(Continue))
  }

  /** `on_read`, given how many of the pending samples the ring buffer took
      (`None` when it was full), the next packet the decoder read (`None` at
      the end of the file), and whether rewinding the decoder worked. */
  function ReadStep(w: Worker, sh: Shared, pushed: Option<nat>, packet: Option<seq<real>>, rewound: bool): (h: Handled)
    requires WorkerOk(w)
    requires w.start < w.end && pushed.Some? ==> pushed.value <= w.end - w.start
    ensures WorkerOk(h.w)
    ensures !sh.isPlaying ==> h == Handled(w, sh, Ok(Shutdown))
  {
    if !sh.isPlaying then Handled(w, sh, Ok(Shutdown))
    else if w.start < w.end then
      match pushed
      case Some(n) =>
        Handled(w.(samplesWritten := w.samplesWritten + n, start := w.start + n, isReading := true,
                   readsSent := w.readsSent + 1), sh, Ok(Continue))
      case None => Handled(w.(isReading := false), sh, Ok(WaitOr(500, Read)))
    else
      match packet
      case Some(samples) =>
        Handled(w.(packet := samples, start := 0, end := |samples|, isReading := true,
                   readsSent := w.readsSent + 1), sh, Ok(Continue))
      case None =>
        if w.repeat > 0 then
          var w1 := w.(repeat := if w.repeat != USIZE_MAX then w.repeat - 1 else w.repeat);
          if !rewound then Handled(w1, sh, Err)
          else
            Handled(w1.(samplesWritten := 0, start := 0, end := 0, isReading := true, readsSent := w.readsSent + 1),
                    sh.(position := 0), Ok(Continue))
        else
          Handled(w.(isReading := false), sh.(endOfFile := true, totalSamples := w.samplesWritten), Ok(Continue))
  }

  /** While samples are pending, a Read pushes what the ring buffer takes,
      counting them as written, and keeps the loop going; when the ring
      buffer is full it stops the loop and retries after half a second. */
  lemma ReadPending(w: Worker, sh: Shared, pushed: Option<nat>, packet: Option<seq<real>>, rewound: bool)
    requires WorkerOk(w) && sh.isPlaying && w.start < w.end
    requires pushed.Some? ==> pushed.value <= w.end - w.start
    ensures var h := ReadStep(w, sh, pushed, packet, rewound);
      && h.sh == sh && h.w.packet == w.packet && h.w.end == w.end
      && (pushed.Some? ==>
            h.outcome == Ok(Continue) && h.w.isReading
            && h.w.start - w.start == h.w.samplesWritten - w.samplesWritten == pushed.value)
      && (pushed.None? ==> h == Handled(w.(isReading := false), sh, Ok(WaitOr(500, Read))))
  {
  }

  /** With nothing pending, a Read decodes the next packet and makes all of
      it pending. */
  lemma ReadPacket(w: Worker, sh: Shared, pushed: Option<nat>, samples: seq<real>, rewound: bool)
    requires WorkerOk(w) && sh.isPlaying && w.start >= w.end
    ensures var h := ReadStep(w, sh, pushed, Some(samples), rewound);
      h.outcome == Ok(Continue) && h.sh == sh && h.w.packet == samples
      && h.w.start == 0 && h.w.end == |samples| && h.w.isReading && h.w.samplesWritten == w.samplesWritten
  {
  }

  /** At the end of the file with repeats left, a Read spends one (none when
      repeating for ever) and rewinds to position 0; with none left it marks
      the end of the file and publishes the samples written as the total. */
  lemma ReadEndOfFile(w: Worker, sh: Shared, pushed: Option<nat>, rewound: bool)
    requires WorkerOk(w) && sh.isPlaying && w.start >= w.end
    ensures var h := ReadStep(w, sh, pushed, None, rewound);
      && (w.repeat > 0 ==> h.w.repeat == (if w.repeat == USIZE_MAX then USIZE_MAX else w.repeat - 1))
      && (w.repeat > 0 && rewound ==>
            h.outcome == Ok(Continue) && h.w.samplesWritten == h.sh.position == 0 && h.sh == sh.(position := 0)
            && !h.sh.endOfFile == !sh.endOfFile)
      && (w.repeat > 0 && !rewound ==> h.outcome == Err && h.sh == sh)
      && (w.repeat == 0 ==>
            h.outcome == Ok(Continue) && h.sh.endOfFile && !h.w.isReading
            && h.sh == sh.(endOfFile := true, totalSamples := w.samplesWritten)
            && (w.samplesWritten != U64_MAX ==> KnownTotal(h.sh) == Some(w.samplesWritten)))
  {
  }

  /** `handle`: dispatches a message to its handler. */
  function HandleStep(w: Worker, sh: Shared, channels: nat, msg: FilePlaybackMessage,
                      landed: Option<nat>, pushed: Option<nat>, packet: Option<seq<real>>, rewound: bool): (h: Handled)
    requires WorkerOk(w)
    requires w.start < w.end && pushed.Some? ==> pushed.value <= w.end - w.start
    ensures WorkerOk(h.w)
    ensures msg.Seek? ==> h == SeekStep(w, sh, channels, landed)
    ensures msg.Read? ==> h == ReadStep(w, sh, pushed, packet, rewound)
    ensures msg.Stop? ==> h == StopStep(w, sh, msg.fadeOut)
  {
    match msg
    case Seek(_) => SeekStep(w, sh, channels, landed)
    case Read => ReadStep(w, sh, pushed, packet, rewound)
    case Stop(fadeOut) => StopStep(w, sh, fadeOut)
  }

  // ---------------------------------------------------------------------------
  // The two sides together

  /** Once the worker has hit the end of the file with no repeat left, the
      next write that finds the ring buffer empty finishes playback, reports
      Stopped as exhausted, and the track has ended. */
  lemma DrainedFileEnds(w: Worker, sh: Shared, pushed: Option<nat>, rewound: bool,
                        c: Consumer, volume: real, precision: nat, out: seq<real>, fader: Fader, faderFinished: bool)
    requires WorkerOk(w) && sh.isPlaying && w.start >= w.end && w.repeat == 0
    requires FaderOk(fader) && !c.finished
    ensures var h := ReadStep(w, sh, pushed, None, rewound);
      var r := WriteStep(c, h.sh, volume, true, precision, out, [], fader, faderFinished);
      r.c.finished && r.c.events[|r.c.events| - 1] == Stopped(true) && TrackEnded(r.c, r.sh) && !r.sh.isPlaying
  {
  }

  /** A Stop without fade-out ends both sides: the worker shuts down, the
      source's next write finishes playback, and a later Read finds the
      worker stopped. */
  lemma StopEndsBoth(w: Worker, sh: Shared, c: Consumer, volume: real, hasStatusSender: bool, precision: nat,
                     out: seq<real>, read: seq<real>, fader: Fader, faderFinished: bool,
                     pushed: Option<nat>, packet: Option<seq<real>>, rewound: bool)
    requires WorkerOk(w) && FaderOk(fader) && |read| <= |out| && !c.finished
    requires w.start < w.end && pushed.Some? ==> pushed.value <= w.end - w.start
    ensures var h := StopStep(w, sh, 0);
      var r := WriteStep(c, h.sh, volume, hasStatusSender, precision, out, read, fader, faderFinished);
      h.outcome == Ok(Shutdown) && r.c.finished && r.written == |read|
      && ReadStep(h.w, r.sh, pushed, packet, rewound).outcome == Ok(Shutdown)
  {
  }

  /** The streamed file worker. */
  class StreamedFileWorker {
    const shared: SharedFileWorkerState
    /** Channels of the decoded signal. */
    const channels: nat
    var packet: seq<real>
    var start: nat
    var end: nat
    var samplesWritten: nat
    var isReading: bool
    var repeat: Usize
    var readsSent: nat
    var clears: nat

    function State(): Worker
      reads this
    {
      Worker(packet, start, end, samplesWritten, isReading, repeat, readsSent, clears)
    }

    ghost predicate Valid()
      reads this
    {
      WorkerOk(State())
    }

    /** `new`: nothing decoded or pending yet. */
    constructor (shared: SharedFileWorkerState, channels: nat, repeat: Usize)
      ensures Valid() && this.shared == shared && this.channels == channels
      ensures State() == Worker([], 0, 0, 0, false, repeat, 0, 0)
    {
      this.shared := shared;
      this.channels := channels;
      this.repeat := repeat;
      packet, start, end, samplesWritten := [], 0, 0, 0;
      isReading, readsSent, clears := false, 0, 0;
    }

    method OnStop(fadeOut: Duration) returns (r: Outcome)
      requires Valid()
      modifies this, shared
      ensures Valid() && Handled(State(), shared.Get(), r) == StopStep(old(State()), old(shared.Get()), fadeOut)
    {
      if fadeOut == 0 {
        isReading := false;
        shared.isPlaying := false;
        r := Ok(Shutdown);
      } else {
        shared.fadeOutMs := AsMillis(fadeOut);
        shared.isFadingOut := true;
        r := Ok(Continue);
      }
    }

    method OnSeek(landed: Option<nat>) returns (r: Outcome)
      requires Valid()
      modifies this, shared
      ensures Valid() && Handled(State(), shared.Get(), r) == SeekStep(old(State()), old(shared.Get()), channels, landed)
    {
      if landed.Some? {
        if isReading {
          start, end := 0, 0;
        } else {
          readsSent := readsSent + 1;
        }
        var position := landed.value * channels;
        samplesWritten := position;
        shared.position := position;
        clears := clears + 1;
      }
      r := Ok(Continue);
    }

    method OnRead(pushed: Option<nat>, packetRead: Option<seq<real>>, rewound: bool) returns (r: Outcome)
      requires Valid()
      requires start < end && pushed.Some? ==> pushed.value <= end - start
      modifies this, shared
      ensures Valid()
      ensures Handled(State(), shared.Get(), r) == ReadStep(old(State()), old(shared.Get()), pushed, packetRead, rewound)
    {
      if !shared.isPlaying {
        return Ok(Shutdown);
      }
      if start < end {
        if pushed.Some? {
          samplesWritten := samplesWritten + pushed.value;
          start := start + pushed.value;
          isReading := true;
          readsSent := readsSent + 1;
          r := Ok(Continue);
        } else {
          isReading := false;
          r := Ok(WaitOr(500, Read));
        }
      } else {
        if packetRead.Some? {
          packet := packetRead.value;
          start, end := 0, |packet|;
          isReading := true;
          readsSent := readsSent + 1;
        } else if repeat > 0 {
          if repeat != USIZE_MAX {
            repeat := repeat - 1;
          }
          if !rewound {
            return Err;
          }
          samplesWritten := 0;
          start, end := 0, 0;
          shared.position := 0;
          isReading := true;
          readsSent := readsSent + 1;
        } else {
          isReading := false;
          shared.endOfFile := true;
          shared.totalSamples := samplesWritten;
        }
        r := Ok(Continue);
      }
    }

    /** `handle`: the decoder's and the ring buffer's answers are inputs, as
        for the handlers. */
    method Handle(msg: FilePlaybackMessage, landed: Option<nat>, pushed: Option<nat>,
                  packetRead: Option<seq<real>>, rewound: bool) returns (r: Outcome)
      requires Valid()
      requires start < end && pushed.Some? ==> pushed.value <= end - start
      modifies this, shared
      ensures Valid()
      ensures Handled(State(), shared.Get(), r)
        == HandleStep(old(State()), old(shared.Get()), channels, msg, landed, pushed, packetRead, rewound)
    {
      match msg {
        case Seek(_) => r := OnSeek(landed);
        case Read => r := OnRead(pushed, packetRead, rewound);
        case Stop(fadeOut) => r := OnStop(fadeOut);
      }
    }
  }
}
