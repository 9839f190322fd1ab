/** The decoded file source: an older form of the streamed source. A
    decoding worker pushes decoded samples into a ring buffer and the source
    pulls them into the output, reports its position, and ends the track once
    its position reaches the total the worker published at the end of the
    file. The shared position and total (atomics in the source) are one
    record that each side updates in turn; the ring buffer and the decoder are
    abstract: each call's result is an input. */
module Decoded {
  import opened Common
  import File

  /** The status messages of a decoded file source. */
  datatype DecodedStatus = PositionAt(position: nat) | EndOfFile

  /** The control messages of the decoding worker. */
  datatype DecodedFileMsg = Seek(time: File.Duration) | Read | Stop

  // ---------------------------------------------------------------------------
  // Shared state

  /** The play-head position in samples and the total sample count,
      `U64_MAX` until the worker reached the end of the file. */
  datatype Shared = Shared(position: nat, totalSamples: nat)

  class SharedCounters {
    var position: nat
    var totalSamples: nat

    function Get(): Shared
      reads this
    {
      Shared(position, totalSamples)
    }

    constructor ()
      ensures Get() == Shared(0, U64_MAX)
    {
      position, totalSamples := 0, U64_MAX;
    }
  }

  // ---------------------------------------------------------------------------
  // The source side

  /** `should_report`: report any move backwards from the last reported
      position and any move forwards by at least `precision`. */
  function ShouldReport(reported: nat, pos: nat, precision: nat): (r: bool)
    ensures r <==> pos < reported || pos >= reported + precision
  {
    reported > pos || pos - reported >= precision
  }

  /** Before anything was reported the last reported position is `U64_MAX`,
      so the first position below it is always reported. */
  lemma FirstPositionReported(pos: nat, precision: nat)
    requires pos < U64_MAX
    ensures ShouldReport(U64_MAX, pos, precision)
  {
  }

  /** The source's own state: the last reported position, whether the track
      ended, and the status messages sent. */
  datatype Source = Source(reported: nat, endOfTrack: bool, events: seq<DecodedStatus>)

  /** The source, the shared state and the output after a `write`, and the
      samples it wrote. */
  datatype Wrote = Wrote(s: Source, sh: Shared, out: seq<real>, written: nat)

  /** `write`, given the samples `read` from the ring buffer (none when it
      is empty). */
  function WriteStep(s: Source, sh: Shared, hasStatusSender: bool, precision: nat,
                     out: seq<real>, read: seq<real>): (r: Wrote)
    requires |read| <= |out|
    ensures |r.out| == |out|
  {
    if s.endOfTrack then Wrote(s, sh, out, 0)
    else
      var pos := sh.position + |read|;
      var report := hasStatusSender && ShouldReport(s.reported, pos, precision);
      var s1 := if report then s.(reported := pos, events := s.events + [PositionAt(pos)]) else s;
      var s2 := if pos >= sh.totalSamples then
                  s1.(endOfTrack := true, events := if hasStatusSender then s1.events + [EndOfFile] else s1.events)
                else s1;
      Wrote(s2, sh.(position := pos), read + out[|read|..], |read|)
  }

  /** An ended track writes nothing and changes nothing. Otherwise a write
      copies every sample read to the front of the output, leaves the rest
      alone, moves the shared position on by them, and ends the track
      exactly when the new position reaches the total, announcing it last. */
  lemma WriteOutcome(s: Source, sh: Shared, hasStatusSender: bool, precision: nat, out: seq<real>, read: seq<real>)
    requires |read| <= |out|
    ensures var r := WriteStep(s, sh, hasStatusSender, precision, out, read);
      && (s.endOfTrack ==> r == Wrote(s, sh, out, 0))
      && (!s.endOfTrack ==>
            r.written == |read| && r.out[..|read|] == read && r.out[|read|..] == out[|read|..]
            && r.sh == Shared(sh.position + |read|, sh.totalSamples)
            && (r.s.endOfTrack <==> sh.position + |read| >= sh.totalSamples)
            && (r.s.endOfTrack && hasStatusSender ==> r.s.events[|r.s.events| - 1] == EndOfFile)
            && (!hasStatusSender ==> r.s.events == s.events && r.s.reported == s.reported))
  {
    var r := WriteStep(s, sh, hasStatusSender, precision, out, read);
    if !s.endOfTrack {
      assert r.out == read + out[|read|..];
    }
  }

  /** With a status channel, a write that does not find the track ended
      sends the new position exactly when `should_report` says so (and then
      remembers it as reported), followed by the end of the file exactly when
      the track ends. */
  lemma WriteReports(s: Source, sh: Shared, precision: nat, out: seq<real>, read: seq<real>)
    requires |read| <= |out| && !s.endOfTrack
    ensures var r := WriteStep(s, sh, true, precision, out, read);
      var pos := sh.position + |read|;
      var report := ShouldReport(s.reported, pos, precision);
      && r.s.reported == (if report then pos else s.reported)
      && r.s.events == s.events + (if report then [PositionAt(pos)] else [])
                                + (if pos >= sh.totalSamples then [EndOfFile] else [])
  {
  }

  /** While the total is unknown and the position stays below `U64_MAX`,
      the track does not end. */
  lemma UnknownTotalKeepsPlaying(s: Source, sh: Shared, hasStatusSender: bool, precision: nat,
                                 out: seq<real>, read: seq<real>)
    requires |read| <= |out| && !s.endOfTrack && sh.totalSamples == U64_MAX && sh.position + |read| < U64_MAX
    ensures !WriteStep(s, sh, hasStatusSender, precision, out, read).s.endOfTrack
  {
  }

  /** The decoded file source. */
  class DecodedFileSource {
    const shared: SharedCounters
    /** Whether a status channel was given. */
    const hasStatusSender: bool
    /** 0.9 seconds of samples: the least forward move worth reporting. */
    const precision: nat
    var reported: nat
    var endOfTrack: bool
    var events: seq<DecodedStatus>

    function State(): Source
      reads this
    {
      Source(reported, endOfTrack, events)
    }

    /** `new`, once the decoder is open and the worker runs: nothing
        reported yet. */
    constructor (shared: SharedCounters, hasStatusSender: bool, precision: nat)
      ensures this.shared == shared && this.hasStatusSender == hasStatusSender && this.precision == precision
      ensures State() == Source(U64_MAX, false, [])
    {
      this.shared := shared;
      this.hasStatusSender := hasStatusSender;
      this.precision := precision;
      reported, endOfTrack, events := U64_MAX, false, [];
    }

    /** `written_samples`: moves the shared position on by `n` and returns it. */
    method WrittenSamples(n: nat) returns (position: nat)
      modifies shared
      ensures position == old(shared.position) + n
      ensures shared.Get() == old(shared.Get()).(position := position)
    {
      shared.position := shared.position + n;
      position := shared.position;
    }

    method Write(output: array<real>, read: seq<real>) returns (written: nat)
      requires |read| <= output.Length
      modifies this, shared, output
      ensures Wrote(State(), shared.Get(), output[..], written)
        == WriteStep(old(State()), old(shared.Get()), hasStatusSender, precision, old(output[..]), read)
    {
      if endOfTrack {
        return 0;
      }
      CopyInto(output, 0, read);
      CopyAtFront(old(output[..]), read);
      written := |read|;
      var position := WrittenSamples(written);
      if hasStatusSender && ShouldReport(reported, position, precision) {
        reported := position;
        events := events + [PositionAt(position)];
      }
      if position >= shared.totalSamples {
        if hasStatusSender {
          events := events + [EndOfFile];
        }
        endOfTrack := true;
      }
    }
  }

  // ---------------------------------------------------------------------------
  // The worker side

  /** What the worker does after a message: wait for the next one, shut
      down, or wait at most `timeoutMs` and then handle `timeoutMsg`. */
  datatype Act = Continue | Shutdown | WaitOr(timeoutMs: nat, timeoutMsg: DecodedFileMsg)

  /** The worker's state: the samples of the last decoded packet, the range
      of them still to push into the ring buffer, the samples pushed since
      the last seek, whether the read loop runs, and counters for the Read
      messages it sent itself and the ring buffer clears. */
  datatype Worker = Worker(packet: seq<real>, start: nat, end: nat, samplesWritten: nat, isReading: bool,
                           readsSent: nat, clears: nat)

  /** The pending range lies within the packet. */
  ghost predicate WorkerOk(w: Worker) {
    w.start <= w.end <= |w.packet|
  }

  datatype Handled = Handled(w: Worker, sh: Shared, act: Act)

  /** `on_seek`, given the frame the decoder landed on (`None` when the seek
      failed): move both positions there and clear the ring buffer; drop the
      pending range if the read loop runs, and restart it otherwise. */
  function SeekStep(w: Worker, sh: Shared, channels: nat, landed: Option<nat>): (h: Handled)
    ensures h.act == Continue
    ensures landed.None? ==> h.w == w && h.sh == sh
    ensures landed.Some? ==>
      h.w.samplesWritten == h.sh.position == landed.value * channels
      && h.sh.totalSamples == sh.totalSamples && h.w.clears == w.clears + 1
    ensures landed.Some? && w.isReading ==> h.w.start == h.w.end == 0 && h.w.readsSent == w.readsSent
    ensures landed.Some? && !w.isReading ==>
      h.w.start == w.start && h.w.end == w.end && h.w.readsSent == w.readsSent + 1
    ensures h.w == w.(start := h.w.start, end := h.w.end, samplesWritten := h.w.samplesWritten,
                      readsSent := h.w.readsSent, clears := h.w.clears)
  {
    match landed
    case None => Handled(w, sh, Continue)
    case Some(frame) =>
      var w1 := if w.isReading then w.(start := 0, end := 0) else w.(readsSent := w.readsSent + 1);
      var position := frame * channels;
      Handled(w1.(samplesWritten := position, clears := w.clears + 1), sh.(position := position), Continue)
  }

  /** `on_read`, given how many of the pending samples the ring buffer took
      (`None` when it was full) and the next packet the decoder read (`None`
      at the end of the file). */
  function ReadStep(w: Worker, sh: Shared, pushed: Option<nat>, packet: Option<seq<real>>): (h: Handled)
    requires WorkerOk(w)
    requires w.start < w.end && pushed.Some? ==> pushed.value <= w.end - w.start
    ensures WorkerOk(h.w)
    ensures h.sh.position == sh.position
  {
    if w.start < w.end then
      match pushed
      case Some(n) =>
        Handled(w.(samplesWritten := w.samplesWritten + n, start := w.start + n, isReading := true,
                   readsSent := w.readsSent + 1), sh, Continue)
      case None => Handled(w.(isReading := false), sh, WaitOr(500, Read))
    else
      match packet
      case Some(samples) =>
        Handled(w.(packet := samples, start := 0, end := |samples|, isReading := true,
                   readsSent := w.readsSent + 1), sh, Continue)
      case None => Handled(w.(isReading := false), sh.(totalSamples := w.samplesWritten), Continue)
  }

  /** While samples are pending, a Read pushes what the ring buffer takes
      and counts them as written; when the ring buffer is full it stops the
      loop and retries after half a second. With nothing pending it decodes
      the next packet and makes all of it pending, or, at the end of the
      file, stops the loop and publishes the samples written as the total. */
  lemma ReadOutcome(w: Worker, sh: Shared, pushed: Option<nat>, packet: Option<seq<real>>)
    requires WorkerOk(w)
    requires w.start < w.end && pushed.Some? ==> pushed.value <= w.end - w.start
    ensures var h := ReadStep(w, sh, pushed, packet);
      && (w.start < w.end && pushed.Some? ==>
            h.act == Continue && h.sh == sh && h.w.isReading
            && h.w.start - w.start == h.w.samplesWritten - w.samplesWritten == pushed.value)
      && (w.start < w.end && pushed.None? ==> h == Handled(w.(isReading := false), sh, WaitOr(500, Read)))
      && (w.start >= w.end && packet.Some? ==>
            h.act == Continue && h.sh == sh && h.w.packet == packet.value
            && h.w.start == 0 && h.w.end == |packet.value| && h.w.samplesWritten == w.samplesWritten)
      && (w.start >= w.end && packet.None? ==>
            h.act == Continue && !h.w.isReading && h.sh == Shared(sh.position, w.samplesWritten))
  {
  }

  /** `handle`: Stop shuts the worker down and changes nothing else. */
  function HandleStep(w: Worker, sh: Shared, channels: nat, msg: DecodedFileMsg,
                      landed: Option<nat>, pushed: Option<nat>, packet: Option<seq<real>>): (h: Handled)
    requires WorkerOk(w)
    requires w.start < w.end && pushed.Some? ==> pushed.value <= w.end - w.start
    ensures WorkerOk(h.w)
    ensures msg.Seek? ==> h == SeekStep(w, sh, channels, landed)
    ensures msg.Read? ==> h == ReadStep(w, sh, pushed, packet)
    ensures msg.Stop? ==> h == Handled(w, sh, Shutdown)
  {
    match msg
    case Seek(_) => SeekStep(w, sh, channels, landed)
    case Read => ReadStep(w, sh, pushed, packet)
    case Stop => Handled(w, sh, Shutdown)
  }

  /** Once the worker published the total at the end of the file, the first
      write whose position reaches it ends the track. */
  lemma TotalEndsTrack(w: Worker, sh: Shared, pushed: Option<nat>,
                       s: Source, hasStatusSender: bool, precision: nat, out: seq<real>, read: seq<real>)
    requires WorkerOk(w) && w.start >= w.end && |read| <= |out| && !s.endOfTrack
    requires sh.position + |read| >= w.samplesWritten
    ensures var h := ReadStep(w, sh, pushed, None);
      var r := WriteStep(s, h.sh, hasStatusSender, precision, out, read);
      r.s.endOfTrack && r.written == |read|
  {
  }

  /** The decoded file worker. */
  class DecodedFileWorker {
    const shared: SharedCounters
    /** Channels of the decoded signal. */
    const channels: nat
    var packet: seq<real>
    var start: nat
    var end: nat
    var samplesWritten: nat
    var isReading: bool
    var readsSent: nat
    var clears: nat

    function State(): Worker
      reads this
    {
      Worker(packet, start, end, samplesWritten, isReading, readsSent, clears)
    }

    ghost predicate Valid()
      reads this
    {
      WorkerOk(State())
    }

    /** `new`: nothing decoded or pending yet. */
    constructor (shared: SharedCounters, channels: nat)
      ensures Valid() && this.shared == shared && this.channels == channels
      ensures State() == Worker([], 0, 0, 0, false, 0, 0)
    {
      this.shared := shared;
      this.channels := channels;
      packet, start, end, samplesWritten := [], 0, 0, 0;
      isReading, readsSent, clears := false, 0, 0;
    }

    method OnSeek(landed: Option<nat>) returns (act: Act)
      requires Valid()
      modifies this, shared
      ensures Valid() && Handled(State(), shared.Get(), act) == SeekStep(old(State()), old(shared.Get()), channels, landed)
    {
      if landed.Some? {
        if isReading {
          start, end := 0, 0;
        } else {
          readsSent := readsSent + 1;
        }
        var position := landed.value * channels;
        samplesWritten := position;
        shared.position := position;
        clears := clears + 1;
      }
      act := Continue;
    }

    method OnRead(pushed: Option<nat>, packetRead: Option<seq<real>>) returns (act: Act)
      requires Valid()
      requires start < end && pushed.Some? ==> pushed.value <= end - start
      modifies this, shared
      ensures Valid()
      ensures Handled(State(), shared.Get(), act) == ReadStep(old(State()), old(shared.Get()), pushed, packetRead)
    {
      if start < end {
        if pushed.Some? {
          samplesWritten := samplesWritten + pushed.value;
          start := start + pushed.value;
          isReading := true;
          readsSent := readsSent + 1;
          act := Continue;
        } else {
          isReading := false;
          act := WaitOr(500, Read);
        }
      } else {
        if packetRead.Some? {
          packet := packetRead.value;
          start, end := 0, |packet|;
          isReading := true;
          readsSent := readsSent + 1;
        } else {
          isReading := false;
          shared.totalSamples := samplesWritten;
        }
        act := Continue;
      }
    }

    method Handle(msg: DecodedFileMsg, landed: Option<nat>, pushed: Option<nat>, packetRead: Option<seq<real>>)
      returns (act: Act)
      requires Valid()
      requires start < end && pushed.Some? ==> pushed.value <= end - start
      modifies this, shared
      ensures Valid()
      ensures Handled(State(), shared.Get(), act)
        == HandleStep(old(State()), old(shared.Get()), channels, msg, landed, pushed, packetRead)
    {
      match msg {
        case Seek(_) => act := OnSeek(landed);
        case Read => act := OnRead(pushed, packetRead);
        case Stop => act := Shutdown;
      }
    }
  }
}
