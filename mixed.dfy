/** The mixer (`MixedSource`): a registry of playing sources that is updated
    from a message queue at the start of each period, then polled source by
    source into one interleaved output buffer. */
module Mixed {
  import opened Common

  type PlaybackId = nat

  /** Length of the mixer's temporary per-source buffer (`temp_out`). */
  const TEMP_OUT_LEN: nat := 8 * 1024

  /** One registry entry (`MixedPlayingSource`); the source object and its
      message queue are identified by `playbackId`. */
  datatype PlayingSource = PlayingSource(
    isActive: bool,
    playbackId: PlaybackId,
    startTime: nat,
    stopTime: Option<nat>)

  /** Messages from the player to the mixer (`MixedSourceMsg`). */
  datatype MixedSourceMsg =
    | AddSource(playbackId: PlaybackId, sampleTime: nat)
    | StopSource(playbackId: PlaybackId, sampleTime: nat)
    | RemoveAllSources
    | RemoveAllPendingSources

  /** What a source answers when polled: the samples it wrote into the
      temporary buffer, and whether it reported exhaustion afterwards. */
  datatype PollResult = PollResult(samples: seq<real>, exhausted: bool)

  /** The playing sources, seen from the mixer: source `id` polled at frame
      time `t` for at most `n` samples. */
  type Poll = (PlaybackId, nat, nat) -> PollResult

  /** A source writes at most what it was asked for. */
  ghost predicate WellBehaved(poll: Poll) {
    forall id, t, n :: |poll(id, t, n).samples| <= n
  }

  // ---------------------------------------------------------------------------
  // Registry updates

  function Ids(s: seq<PlayingSource>): (r: seq<PlaybackId>)
    ensures |r| == |s|
    ensures forall k :: 0 <= k < |s| ==> r[k] == s[k].playbackId
  {
    if s == [] then [] else [s[0].playbackId] + Ids(s[1..])
  }

  /** The entries `retain` keeps: those `matches` does not select, in order. */
  function Retain(s: seq<PlayingSource>, matches: PlayingSource -> bool): (r: seq<PlayingSource>)
    ensures |r| <= |s|
  {
    if s == [] then []
    else if matches(s[0]) then Retain(s[1..], matches)
    else [s[0]] + Retain(s[1..], matches)
  }

  /** The ids of the entries `retain` drops, in order. */
  function MatchingIds(s: seq<PlayingSource>, matches: PlayingSource -> bool): (r: seq<PlaybackId>)
    ensures |r| + |Retain(s, matches)| == |s|
  {
    if s == [] then []
    else if matches(s[0]) then [s[0].playbackId] + MatchingIds(s[1..], matches)
    else MatchingIds(s[1..], matches)
  }

  /** Sets the stop time of the first entry with id `id`. */
  function StopFirst(s: seq<PlayingSource>, id: PlaybackId, t: nat): (r: seq<PlayingSource>)
    ensures |r| == |s|
  {
    if s == [] then []
    else if s[0].playbackId == id then [s[0].(stopTime := Some(t))] + s[1..]
    else [s[0]] + StopFirst(s[1..], id, t)
  }

  function IsPending(pos: nat): PlayingSource -> bool {
    (p: PlayingSource) => p.startTime > pos
  }

  function IsInactive(): PlayingSource -> bool {
    (p: PlayingSource) => !p.isActive
  }

  ghost predicate SortedByStart(s: seq<PlayingSource>) {
    forall i, j :: 0 <= i < j < |s| ==> s[i].startTime <= s[j].startTime
  }

  /** Places `x` before the first entry that does not start earlier. */
  function InsertByStart(x: PlayingSource, s: seq<PlayingSource>): (r: seq<PlayingSource>)
    ensures |r| == |s| + 1
  {
    if s == [] || x.startTime <= s[0].startTime then [x] + s
    else [s[0]] + InsertByStart(x, s[1..])
  }

  /** The stable sort by start time done by `sort_by`. */
  function SortByStart(s: seq<PlayingSource>): (r: seq<PlayingSource>)
    ensures |r| == |s|
  {
    if s == [] then [] else InsertByStart(s[0], SortByStart(s[1..]))
  }

  /** Registry state while the message queue is drained. */
  datatype DrainState = DrainState(
    sources: seq<PlayingSource>,
    dropped: seq<PlaybackId>,
    gotNewSources: bool)

  /** One message applied to the registry; `dropped` collects the ids sent to
      the player for deallocation. No entry is lost: each one is kept or
      dropped, and only AddSource adds one. */
  function ApplyMsg(d: DrainState, msg: MixedSourceMsg, pos: nat): (r: DrainState)
    ensures |r.sources| + |r.dropped| == |d.sources| + |d.dropped| + (if msg.AddSource? then 1 else 0)
    ensures |d.dropped| <= |r.dropped| && r.dropped[..|d.dropped|] == d.dropped
    ensures r.gotNewSources <==> d.gotNewSources || msg.AddSource?
  {
    match msg
    case AddSource(id, t) =>
      DrainState(d.sources + [PlayingSource(true, id, t, None)], d.dropped, true)
    case StopSource(id, t) =>
      d.(sources := StopFirst(d.sources, id, t))
    case RemoveAllPendingSources =>
      d.(sources := Retain(d.sources, IsPending(pos)),
         dropped := d.dropped + MatchingIds(d.sources, IsPending(pos)))
    case RemoveAllSources =>
      d.(sources := [], dropped := d.dropped + Ids(d.sources))
  }

  /** The messages applied in arrival order. Dropped ids are only appended,
      and no entry is lost. */
  function ApplyMsgs(d: DrainState, msgs: seq<MixedSourceMsg>, pos: nat): (r: DrainState)
    ensures |d.sources| + |d.dropped| <= |r.sources| + |r.dropped| <= |d.sources| + |d.dropped| + |msgs|
    ensures |d.dropped| <= |r.dropped| && r.dropped[..|d.dropped|] == d.dropped
    ensures r.gotNewSources <==> d.gotNewSources || exists i :: 0 <= i < |msgs| && msgs[i].AddSource?
    decreases |msgs|
  {
    if msgs == [] then d
    else
      var r := ApplyMsgs(ApplyMsg(d, msgs[0], pos), msgs[1..], pos);
      assert forall i :: 0 < i < |msgs| ==> msgs[i] == msgs[1..][i - 1];
      r
  }

  /** The registry after the whole queue was drained, sorted when sources
      were added: the same entries as the messages leave, in start order. */
  function Drained(sources: seq<PlayingSource>, dropped: seq<PlaybackId>, msgs: seq<MixedSourceMsg>, pos: nat): (r: DrainState)
    ensures var d := ApplyMsgs(DrainState(sources, dropped, false), msgs, pos);
      multiset(r.sources) == multiset(d.sources) && r.dropped == d.dropped && r.gotNewSources == d.gotNewSources
      && (r.gotNewSources ==> SortedByStart(r.sources))
      && (!r.gotNewSources ==> r.sources == d.sources)
  {
    var d := ApplyMsgs(DrainState(sources, dropped, false), msgs, pos);
    SortByStartCorrect(d.sources);
    if d.gotNewSources then d.(sources := SortByStart(d.sources)) else d
  }

  // ---------------------------------------------------------------------------
  // Scheduling and mixing, as functions

  /** Offset in samples at which `p` starts inside the period of `len` samples
      beginning at frame `pos`; None when it starts at or after the period's
      last frame (the source and all later ones are not polled). */
  function StartOffset(p: PlayingSource, pos: nat, ch: nat, len: nat): (r: Option<nat>)
    requires ch > 0
    ensures r.Some? ==> r.value <= len
  {
    if p.startTime > pos then
      var framesUntilStart := p.startTime - pos;
      if framesUntilStart >= len / ch then None
      else BelowFrameCount(framesUntilStart, ch, len); Some(framesUntilStart * ch)
    else Some(0)
  }

  /** `f` frames of `ch` samples are exactly `f` frames long. */
  lemma WholeFrames(f: nat, ch: nat)
    ensures ch > 0 ==> (f * ch) % ch == 0 && (f * ch) / ch == f
  {
    if ch > 0 {
      DivUnique(f * ch, ch, f, 0);
    }
  }

  /** `samples_until_stop` at frame `t`; None stands for `u64::MAX` (no stop
      ahead). The distance is a whole number of frames, and it is zero exactly
      at the stop frame. */
  function StopDistance(p: PlayingSource, t: nat, ch: nat): (r: Option<nat>)
    ensures r.Some? <==> p.stopTime.Some? && t <= p.stopTime.value
    ensures ch > 0 ==> (r == Some(0) <==> p.stopTime == Some(t))
    ensures ch > 0 && r.Some? ==> r.value % ch == 0 && r.value / ch == p.stopTime.value - t
  {
    match p.stopTime
    case Some(stop) =>
      if stop >= t then
        WholeFrames(stop - t, ch);
        Some((stop - t) * ch)
      else None
    case None => None
  }

  /** Number of samples requested from a source in one poll. */
  function RequestSize(limit: Option<nat>, len: nat, tw: nat): (n: nat)
    requires tw < len
    requires limit != Some(0)
    ensures 0 < n <= len - tw && n <= TEMP_OUT_LEN
    ensures limit.Some? ==> n <= limit.value
    ensures n == len - tw || n == TEMP_OUT_LEN || limit == Some(n)
  {
    var remaining := if limit.Some? then Min(len - tw, limit.value) else len - tw;
    Min(remaining, TEMP_OUT_LEN)
  }

  /** The request of one poll at sample offset `tw`: the source time `t` in
      frames, whether a stop request is due first, and the sample count `n`. */
  datatype Request = Request(t: nat, stop: bool, n: nat)

  function NextRequest(p: PlayingSource, pos: nat, ch: nat, len: nat, tw: nat): (rq: Request)
    requires ch > 0 && tw < len
    ensures 0 < rq.n <= len - tw
  {
    var t := pos + FrameOf(tw, ch);
    var samplesUntilStop := StopDistance(p, t, ch);
    var stop := samplesUntilStop == Some(0);
    Request(t, stop, RequestSize(if stop then None else samplesUntilStop, len, tw))
  }

  /** The state of the `'source` loop when it ends: the output buffer, whether
      the source reported exhaustion, and the stop requests sent so far. */
  datatype SourceRun = SourceRun(output: seq<real>, exhausted: bool, stops: nat)

  /** The inner `'source: while` loop of `write`, from sample offset `tw` of
      the buffer `out` with `stops` stop requests already sent, as corrected:
      a poll that writes nothing without exhausting the source ends the loop
      for this period, where the source's loop would poll again with the same
      request (`EmptyWriteSpinsAsWritten`). */
  function Run(p: PlayingSource, pos: nat, ch: nat, poll: Poll, out: seq<real>, tw: nat, stops: nat): (r: SourceRun)
    requires ch > 0 && WellBehaved(poll) && tw <= |out|
    ensures |r.output| == |out|
    decreases |out| - tw
  {
    if tw == |out| then SourceRun(out, false, stops)
    else
      var rq := NextRequest(p, pos, ch, |out|, tw);
      var sent := if rq.stop then stops + 1 else stops;
      var res := poll(p.playbackId, rq.t, rq.n);
      if res.exhausted then SourceRun(out, true, sent)
      else if res.samples == [] then SourceRun(out, false, sent)
      else Run(p, pos, ch, poll, AddAt(out, tw, res.samples), tw + |res.samples|, sent)
  }

  /** The state the `'source` loop carries from one pass to the next. */
  datatype LoopState = LoopState(out: seq<real>, tw: nat, stops: nat)

  /** One pass of the `'source` loop body as the source writes it: the state
      after it, or `None` when the source reported exhaustion. */
  function PassAsWritten(p: PlayingSource, pos: nat, ch: nat, poll: Poll, st: LoopState): (r: Option<LoopState>)
    requires ch > 0 && WellBehaved(poll) && st.tw < |st.out|
    ensures r.Some? ==> |r.value.out| == |st.out| && st.tw <= r.value.tw <= |st.out|
    ensures r.Some? ==> st.stops <= r.value.stops <= st.stops + 1
  {
    var rq := NextRequest(p, pos, ch, |st.out|, st.tw);
    var res := poll(p.playbackId, rq.t, rq.n);
    if res.exhausted then None
    else Some(LoopState(AddAt(st.out, st.tw, res.samples), st.tw + |res.samples|,
                        if rq.stop then st.stops + 1 else st.stops))
  }

  /** `k` passes of the loop as written, or fewer when it ends first: on
      `tw == len`, or with `None` when the source reported exhaustion. */
  function PassesAsWritten(p: PlayingSource, pos: nat, ch: nat, poll: Poll, st: LoopState, k: nat): (r: Option<LoopState>)
    requires ch > 0 && WellBehaved(poll) && st.tw <= |st.out|
    ensures r.Some? ==> r.value.tw <= |r.value.out| == |st.out|
    decreases k
  {
    if k == 0 || st.tw == |st.out| then Some(st)
    else match PassAsWritten(p, pos, ch, poll, st)
      case None => None
      case Some(next) => PassesAsWritten(p, pos, ch, poll, next, k - 1)
  }

  /** As written, a source that answers every poll with no samples and is not
      exhausted (a streamed source whose ring buffer ran dry) holds the loop:
      after any number of passes the buffer and the offset are unchanged, so
      `tw < len` still holds and the next pass repeats the same request. */
  lemma {:induction false} EmptyWriteSpinsAsWritten(p: PlayingSource, pos: nat, ch: nat, poll: Poll, st: LoopState, k: nat)
    requires ch > 0 && WellBehaved(poll) && st.tw < |st.out|
    requires forall t, n :: poll(p.playbackId, t, n) == PollResult([], false)
    ensures var r := PassesAsWritten(p, pos, ch, poll, st, k);
      r.Some? && r.value.out == st.out && r.value.tw == st.tw < |st.out|
    decreases k
  {
    if k > 0 {
      var rq := NextRequest(p, pos, ch, |st.out|, st.tw);
      assert poll(p.playbackId, rq.t, rq.n) == PollResult([], false);
      var next := PassAsWritten(p, pos, ch, poll, st).value;
      assert next.out == st.out;
      EmptyWriteSpinsAsWritten(p, pos, ch, poll, next, k - 1);
    }
  }

  /** The corrected loop takes the passes of the loop as written, and ends
      with the buffer as it is on the first pass that writes nothing. */
  lemma RunFollowsPasses(p: PlayingSource, pos: nat, ch: nat, poll: Poll, out: seq<real>, tw: nat, stops: nat)
    requires ch > 0 && WellBehaved(poll) && tw < |out|
    ensures var r := Run(p, pos, ch, poll, out, tw, stops);
      match PassAsWritten(p, pos, ch, poll, LoopState(out, tw, stops))
      case None => r.exhausted && r.output == out
      case Some(next) =>
        if next.tw == tw then r == SourceRun(out, false, next.stops)
        else r == Run(p, pos, ch, poll, next.out, next.tw, next.stops)
  {
    var rq := NextRequest(p, pos, ch, |out|, tw);
    var res := poll(p.playbackId, rq.t, rq.n);
    var sent := if rq.stop then stops + 1 else stops;
    if res.exhausted {
      assert PassAsWritten(p, pos, ch, poll, LoopState(out, tw, stops)).None?;
    } else {
      assert PassAsWritten(p, pos, ch, poll, LoopState(out, tw, stops))
        == Some(LoopState(AddAt(out, tw, res.samples), tw + |res.samples|, sent));
    }
  }

  /** Corrected, the same source ends the loop at once: the buffer is left
      alone, the source stays active and at most one stop request is sent. */
  lemma EmptyWriteEndsRun(p: PlayingSource, pos: nat, ch: nat, poll: Poll, out: seq<real>, tw: nat, stops: nat)
    requires ch > 0 && WellBehaved(poll) && tw <= |out|
    requires forall t, n :: poll(p.playbackId, t, n) == PollResult([], false)
    ensures var r := Run(p, pos, ch, poll, out, tw, stops);
      r.output == out && !r.exhausted && r.stops <= stops + 1
  {
    if tw < |out| {
      var rq := NextRequest(p, pos, ch, |out|, tw);
      assert poll(p.playbackId, rq.t, rq.n) == PollResult([], false);
    }
  }

  function Repeat(id: PlaybackId, n: nat): (r: seq<PlaybackId>)
    ensures |r| == n && forall k :: 0 <= k < n ==> r[k] == id
  {
    if n == 0 then [] else [id] + Repeat(id, n - 1)
  }

  /** Result of the `'all_sources` loop: the accumulated output, the entries
      with their `isActive` flags, and the ids the stop requests went to. */
  datatype MixResult = MixResult(output: seq<real>, sources: seq<PlayingSource>, stops: seq<PlaybackId>)

  /** The `'all_sources` loop from entry `i` on, with the buffer `out` and the
      stop requests `stops` sent so far. It ends at the first entry that starts
      after the period. */
  function Mix(srcs: seq<PlayingSource>, i: nat, pos: nat, ch: nat, poll: Poll, out: seq<real>, stops: seq<PlaybackId>): (r: MixResult)
    requires ch > 0 && WellBehaved(poll) && i <= |srcs|
    ensures |r.output| == |out| && |r.sources| == |srcs|
    decreases |srcs| - i
  {
    if i == |srcs| then MixResult(out, srcs, stops)
    else match StartOffset(srcs[i], pos, ch, |out|)
      case None => MixResult(out, srcs, stops)
      case Some(tw0) =>
        var run := Run(srcs[i], pos, ch, poll, out, tw0, 0);
        var p := if run.exhausted then srcs[i].(isActive := false) else srcs[i];
        Mix(srcs[i := p], i + 1, pos, ch, poll, run.output, stops + Repeat(srcs[i].playbackId, run.stops))
  }

  // ---------------------------------------------------------------------------
  // The mixer object

  class MixedSource {
    var playingSources: seq<PlayingSource>
    /** Messages pushed by the player, oldest first. */
    var eventQueue: seq<MixedSourceMsg>
    /** Ids of removed sources, as sent to the player's drop channel. */
    var dropped: seq<PlaybackId>
    /** Ids of sources whose message queue got a stop request from the mixer. */
    var stopRequests: seq<PlaybackId>
    const channelCount: nat
    const sampleRate: nat

    ghost predicate Valid()
      reads this
    {
      channelCount > 0
    }

    constructor (channelCount: nat, sampleRate: nat)
      requires channelCount > 0
      ensures Valid()
      ensures this.channelCount == channelCount && this.sampleRate == sampleRate
      ensures playingSources == [] && eventQueue == [] && dropped == [] && stopRequests == []
    {
      this.channelCount := channelCount;
      this.sampleRate := sampleRate;
      playingSources := [];
      eventQueue := [];
      dropped := [];
      stopRequests := [];
    }

    /** `remove_matching_sources`: drops the selected entries, keeping the others in order. */
    method RemoveMatchingSources(matches: PlayingSource -> bool)
      modifies this
      ensures playingSources == Retain(old(playingSources), matches)
      ensures dropped == old(dropped) + MatchingIds(old(playingSources), matches)
      ensures eventQueue == old(eventQueue) && stopRequests == old(stopRequests)
    {
      var kept: seq<PlayingSource> := [];
      var removed: seq<PlaybackId> := [];
      var i := 0;
      while i < |playingSources|
        invariant 0 <= i <= |playingSources|
        invariant playingSources == old(playingSources) && dropped == old(dropped)
        invariant eventQueue == old(eventQueue) && stopRequests == old(stopRequests)
        invariant kept + Retain(playingSources[i..], matches) == Retain(playingSources, matches)
        invariant removed + MatchingIds(playingSources[i..], matches) == MatchingIds(playingSources, matches)
      {
        var p := playingSources[i];
        assert playingSources[i..][1..] == playingSources[i + 1..];
        if matches(p) {
          removed := removed + [p.playbackId];
        } else {
          kept := kept + [p];
        }
        i := i + 1;
      }
      playingSources := kept;
      dropped := dropped + removed;
    }

    /** `remove_all_sources`: drops every entry. */
    method RemoveAllSources()
      modifies this
      ensures playingSources == []
      ensures dropped == old(dropped) + Ids(old(playingSources))
      ensures eventQueue == old(eventQueue) && stopRequests == old(stopRequests)
    {
      dropped := dropped + Ids(playingSources);
      playingSources := [];
    }

    /** The event-processing part of `write`. */
    method DrainEvents(pos: nat)
      modifies this
      ensures var d := Drained(old(playingSources), old(dropped), old(eventQueue), pos);
        playingSources == d.sources && dropped == d.dropped
      ensures eventQueue == [] && stopRequests == old(stopRequests)
    {
      var gotNewSources := false;
      ghost var msgs := eventQueue;
      while eventQueue != []
        invariant stopRequests == old(stopRequests)
        invariant ApplyMsgs(DrainState(old(playingSources), old(dropped), false), msgs, pos)
          == ApplyMsgs(DrainState(playingSources, dropped, gotNewSources), eventQueue, pos)
        decreases |eventQueue|
      {
        var msg := eventQueue[0];
        eventQueue := eventQueue[1..];
        match msg {
          case AddSource(id, t) =>
            gotNewSources := true;
            playingSources := playingSources + [PlayingSource(true, id, t, None)];
          case StopSource(id, t) =>
            playingSources := StopFirst(playingSources, id, t);
          case RemoveAllPendingSources =>
            RemoveMatchingSources(IsPending(pos));
          case RemoveAllSources =>
            RemoveAllSources();
        }
      }
      if gotNewSources {
        playingSources := SortByStart(playingSources);
      }
    }

    /** The `'source` loop for one entry, starting at sample offset `tw0`. */
    method RunSource(output: array<real>, p: PlayingSource, pos: nat, tw0: nat, poll: Poll)
      returns (exhausted: bool, stops: nat)
      requires Valid() && WellBehaved(poll) && tw0 <= output.Length
      modifies output
      ensures var r := Run(p, pos, channelCount, poll, old(output[..]), tw0, 0);
        output[..] == r.output && exhausted == r.exhausted && stops == r.stops
    {
      var len := output.Length;
      var totalWritten := tw0;
      exhausted, stops := false, 0;
      while totalWritten < len
        invariant tw0 <= totalWritten <= len
        invariant Run(p, pos, channelCount, poll, old(output[..]), tw0, 0)
          == Run(p, pos, channelCount, poll, output[..], totalWritten, stops)
        decreases len - totalWritten
      {
        var t := pos + FrameOf(totalWritten, channelCount);
        var samplesUntilStop := StopDistance(p, t, channelCount);
        if samplesUntilStop == Some(0) {
          // the stop request goes to the source's message queue
          stops := stops + 1;
          samplesUntilStop := None;
        }
        var n := RequestSize(samplesUntilStop, len, totalWritten);
        var res := poll(p.playbackId, t, n);
        if res.exhausted {
          exhausted := true;
          return;
        }
        if res.samples == [] {
          return;
        }
        AccumulateAt(output, totalWritten, res.samples);
        totalWritten := totalWritten + |res.samples|;
      }
    }

    /** The `'all_sources` loop: polls the entries in registry order until one
        starts after the period. */
    method MixSources(output: array<real>, pos: nat, poll: Poll)
      requires Valid() && WellBehaved(poll)
      modifies this, output
      ensures var m := Mix(old(playingSources), 0, pos, channelCount, poll, old(output[..]), old(stopRequests));
        output[..] == m.output && playingSources == m.sources && stopRequests == m.stops
      ensures eventQueue == old(eventQueue) && dropped == old(dropped)
    {
      var i := 0;
      while i < |playingSources|
        invariant i <= |playingSources| == |old(playingSources)|
        invariant eventQueue == old(eventQueue) && dropped == old(dropped)
        invariant Mix(old(playingSources), 0, pos, channelCount, poll, old(output[..]), old(stopRequests))
          == Mix(playingSources, i, pos, channelCount, poll, output[..], stopRequests)
        decreases |playingSources| - i
      {
        var p := playingSources[i];
        var offset := StartOffset(p, pos, channelCount, output.Length);
        if offset.None? {
          return;
        }
        ghost var srcs, out, sent := playingSources, output[..], stopRequests;
        var exhausted, n := RunSource(output, p, pos, offset.value, poll);
        ghost var run := Run(p, pos, channelCount, poll, out, offset.value, 0);
        assert output[..] == run.output && exhausted == run.exhausted && n == run.stops;
        var q := if exhausted then p.(isActive := false) else p;
        assert Mix(srcs, i, pos, channelCount, poll, out, sent)
          == Mix(srcs[i := q], i + 1, pos, channelCount, poll, output[..], sent + Repeat(p.playbackId, n));
        stopRequests := stopRequests + Repeat(p.playbackId, n);
        playingSources := playingSources[i := q];
        i := i + 1;
      }
    }

    /** `write`: drains the message queue, mixes all sources into `output` and
        removes the exhausted ones. Returns the number of samples written. */
    method Write(output: array<real>, pos: nat, poll: Poll) returns (written: nat)
      requires Valid() && WellBehaved(poll)
      modifies this, output
      ensures Valid() && eventQueue == []
      ensures var d := Drained(old(playingSources), old(dropped), old(eventQueue), pos);
        if d.sources == [] then
          written == 0 && output[..] == old(output[..]) && playingSources == []
          && dropped == d.dropped && stopRequests == old(stopRequests)
        else
          var m := Mix(d.sources, 0, pos, channelCount, poll, Zeros(output.Length), old(stopRequests));
          written == output.Length && output[..] == m.output
          && playingSources == Retain(m.sources, IsInactive())
          && dropped == d.dropped + MatchingIds(m.sources, IsInactive())
          && stopRequests == m.stops
    {
      DrainEvents(pos);
      if playingSources == [] {
        return 0;
      }
      forall k | 0 <= k < output.Length {
        output[k] := 0.0;
      }
      assert output[..] == Zeros(output.Length);
      MixSources(output, pos, poll);
      RemoveMatchingSources(IsInactive());
      written := output.Length;
    }
  }

  // ---------------------------------------------------------------------------
  // Properties

  /** AddSource appends one active entry that starts at the message's time and has no stop. */
  lemma AddSourceAppends(d: DrainState, id: PlaybackId, t: nat, pos: nat)
    ensures ApplyMsg(d, AddSource(id, t), pos).sources
      == d.sources + [PlayingSource(true, id, t, None)]
    ensures ApplyMsg(d, AddSource(id, t), pos).gotNewSources
  {
  }

  /** StopSource with an id no entry carries leaves the registry unchanged. */
  lemma {:induction false} StopFirstUnknownId(s: seq<PlayingSource>, id: PlaybackId, t: nat)
    requires forall j :: 0 <= j < |s| ==> s[j].playbackId != id
    ensures StopFirst(s, id, t) == s
  {
    if s != [] {
      StopFirstUnknownId(s[1..], id, t);
    }
  }

  /** StopSource sets the stop time of the first entry carrying the id, and of no other entry. */
  lemma {:induction false} StopFirstSetsFirstMatch(s: seq<PlayingSource>, id: PlaybackId, t: nat, k: nat)
    requires k < |s| && s[k].playbackId == id
    requires forall j :: 0 <= j < k ==> s[j].playbackId != id
    ensures StopFirst(s, id, t) == s[k := s[k].(stopTime := Some(t))]
  {
    if k > 0 {
      StopFirstSetsFirstMatch(s[1..], id, t, k - 1);
      assert [s[0]] + s[1..][k - 1 := s[k].(stopTime := Some(t))] == s[k := s[k].(stopTime := Some(t))];
    }
  }

  /** `retain` keeps exactly the entries that do not match, and drops exactly those that do. */
  lemma {:induction false} RetainExact(s: seq<PlayingSource>, f: PlayingSource -> bool)
    ensures forall x :: x in Retain(s, f) <==> x in s && !f(x)
    ensures forall k :: 0 <= k < |s| && f(s[k]) ==> s[k].playbackId in MatchingIds(s, f)
    ensures multiset(Retain(s, f)) <= multiset(s)
  {
    if s != [] {
      RetainExact(s[1..], f);
      assert s == [s[0]] + s[1..];
      forall k | 0 <= k < |s| && f(s[k]) ensures s[k].playbackId in MatchingIds(s, f) {
        if k > 0 { assert s[1..][k - 1] == s[k]; }
      }
    }
  }

  /** `retain` keeps the relative order, so a sorted registry stays sorted. */
  lemma {:induction false} RetainKeepsSorted(s: seq<PlayingSource>, f: PlayingSource -> bool)
    requires SortedByStart(s)
    ensures SortedByStart(Retain(s, f))
    ensures forall x :: x in Retain(s, f) ==> s != [] && s[0].startTime <= x.startTime
  {
    if s != [] {
      RetainKeepsSorted(s[1..], f);
      RetainExact(s[1..], f);
      RetainExact(s, f);
    }
  }

  /** Every entry of `s` starts at `t` or later. */
  ghost predicate StartsNotBefore(s: seq<PlayingSource>, t: nat) {
    forall i :: 0 <= i < |s| ==> t <= s[i].startTime
  }

  lemma {:induction false} InsertByStartBound(x: PlayingSource, s: seq<PlayingSource>, t: nat)
    requires t <= x.startTime && StartsNotBefore(s, t)
    ensures StartsNotBefore(InsertByStart(x, s), t)
  {
    if s != [] && x.startTime > s[0].startTime {
      InsertByStartBound(x, s[1..], t);
    }
  }

  /** An entry that starts no later than every entry of a sorted registry
      can go in front of it. */
  lemma SortedCons(a: PlayingSource, r: seq<PlayingSource>)
    requires SortedByStart(r) && StartsNotBefore(r, a.startTime)
    ensures SortedByStart([a] + r)
  {
    var q := [a] + r;
    forall i, j | 0 <= i < j < |q| ensures q[i].startTime <= q[j].startTime {
      assert q[j] == r[j - 1];
      if i > 0 {
        assert q[i] == r[i - 1];
      }
    }
  }

  /** Inserting into a sorted registry keeps it sorted. */
  lemma {:induction false} InsertByStartSorted(x: PlayingSource, s: seq<PlayingSource>)
    requires SortedByStart(s)
    ensures SortedByStart(InsertByStart(x, s))
  {
    if s == [] || x.startTime <= s[0].startTime {
      assert StartsNotBefore(s, x.startTime) by {
        forall i | 0 <= i < |s| ensures x.startTime <= s[i].startTime {
          if i > 0 {
            assert s[0].startTime <= s[i].startTime;
          }
        }
      }
      SortedCons(x, s);
    } else {
      assert SortedByStart(s[1..]) && StartsNotBefore(s[1..], s[0].startTime);
      InsertByStartSorted(x, s[1..]);
      InsertByStartBound(x, s[1..], s[0].startTime);
      SortedCons(s[0], InsertByStart(x, s[1..]));
    }
  }

  /** Inserting adds exactly that entry. */
  lemma {:induction false} InsertByStartPerm(x: PlayingSource, s: seq<PlayingSource>)
    ensures multiset(InsertByStart(x, s)) == multiset(s) + multiset{x}
  {
    if s != [] && x.startTime > s[0].startTime {
      InsertByStartPerm(x, s[1..]);
      assert s == [s[0]] + s[1..];
    }
  }

  /** The registry sort yields an ordering by start time that is a permutation of the entries. */
  lemma {:induction false} SortByStartCorrect(s: seq<PlayingSource>)
    ensures SortedByStart(SortByStart(s))
    ensures multiset(SortByStart(s)) == multiset(s)
  {
    if s != [] {
      SortByStartCorrect(s[1..]);
      InsertByStartSorted(s[0], SortByStart(s[1..]));
      InsertByStartPerm(s[0], SortByStart(s[1..]));
      assert s == [s[0]] + s[1..];
    }
  }

  /** After a drain that added sources, the registry is sorted by start time. */
  lemma DrainedSortedWhenAdded(sources: seq<PlayingSource>, dropped: seq<PlaybackId>, msgs: seq<MixedSourceMsg>, pos: nat)
    ensures var d := Drained(sources, dropped, msgs, pos);
      d.gotNewSources ==> SortedByStart(d.sources)
  {
    var d := ApplyMsgs(DrainState(sources, dropped, false), msgs, pos);
    SortByStartCorrect(d.sources);
  }

  /** RemoveAllPendingSources keeps exactly the entries that already started, in order;
      RemoveAllSources empties the registry and drops every entry. */
  lemma RemoveMessagesExact(d: DrainState, pos: nat)
    ensures var r := ApplyMsg(d, RemoveAllPendingSources, pos);
      (forall x :: x in r.sources <==> x in d.sources && x.startTime <= pos)
      && r.dropped == d.dropped + MatchingIds(d.sources, IsPending(pos))
    ensures var r := ApplyMsg(d, RemoveAllSources, pos);
      r.sources == [] && r.dropped == d.dropped + Ids(d.sources)
  {
    RetainExact(d.sources, IsPending(pos));
  }

  /** A source starting now or in the past is polled from the period's start;
      one starting `f` frames ahead, within the period, from sample `f * ch`. */
  lemma StartOffsetPlacement(p: PlayingSource, pos: nat, ch: nat, len: nat)
    requires ch > 0
    ensures p.startTime <= pos ==> StartOffset(p, pos, ch, len) == Some(0)
    ensures pos < p.startTime ==>
      (StartOffset(p, pos, ch, len).None? <==> p.startTime - pos >= len / ch)
    ensures pos < p.startTime && StartOffset(p, pos, ch, len).Some? ==>
      StartOffset(p, pos, ch, len).value == (p.startTime - pos) * ch
      && StartOffset(p, pos, ch, len).value < len
  {
    if pos < p.startTime && p.startTime - pos < len / ch {
      BelowFrameCount(p.startTime - pos, ch, len);
    }
  }

  /** A frame index below the frame count `len / ch` starts a sample below `len`. */
  lemma BelowFrameCount(f: nat, ch: nat, len: nat)
    requires ch > 0 && f < len / ch
    ensures f * ch < len
  {
    var q := len / ch;
    assert q * ch <= len;
    MulMonotone(f + 1, q, ch);
  }

  /** In a sorted registry, once a source starts beyond the period so do all later ones:
      breaking out of the loop skips no source that would have been polled. */
  lemma LaterSourcesNotDue(s: seq<PlayingSource>, pos: nat, ch: nat, len: nat, k: nat)
    requires ch > 0 && SortedByStart(s) && k < |s|
    requires StartOffset(s[k], pos, ch, len).None?
    ensures forall j :: k <= j < |s| ==> StartOffset(s[j], pos, ch, len).None?
  {
  }

  /** The mixing loop only changes `isActive`, only from true to false, and
      only for the entries from `i` on. */
  lemma {:induction false} MixOnlyDeactivates(s: seq<PlayingSource>, i: nat, pos: nat, ch: nat, poll: Poll, out: seq<real>, stops: seq<PlaybackId>)
    requires ch > 0 && WellBehaved(poll) && i <= |s|
    ensures var r := Mix(s, i, pos, ch, poll, out, stops).sources;
      (forall k :: 0 <= k < |s| ==> r[k].(isActive := s[k].isActive) == s[k] && (r[k].isActive ==> s[k].isActive))
      && forall k :: 0 <= k < i ==> r[k] == s[k]
    decreases |s| - i
  {
    if i < |s| {
      match StartOffset(s[i], pos, ch, |out|)
      case None =>
      case Some(tw0) =>
        var run := Run(s[i], pos, ch, poll, out, tw0, 0);
        var p := if run.exhausted then s[i].(isActive := false) else s[i];
        MixOnlyDeactivates(s[i := p], i + 1, pos, ch, poll, run.output, stops + Repeat(s[i].playbackId, run.stops));
    }
  }

  /** A polled source that reports exhaustion is marked inactive, so `write`
      removes it in the same call; one that does not stays as it was. */
  lemma ExhaustedMarkedInactive(s: seq<PlayingSource>, i: nat, pos: nat, ch: nat, poll: Poll, out: seq<real>, stops: seq<PlaybackId>)
    requires ch > 0 && WellBehaved(poll) && i < |s|
    requires StartOffset(s[i], pos, ch, |out|).Some?
    ensures var r := Mix(s, i, pos, ch, poll, out, stops).sources;
      var run := Run(s[i], pos, ch, poll, out, StartOffset(s[i], pos, ch, |out|).value, 0);
      (run.exhausted ==> !r[i].isActive && r[i] !in Retain(r, IsInactive()))
      && (!run.exhausted ==> r[i] == s[i])
  {
    var run := Run(s[i], pos, ch, poll, out, StartOffset(s[i], pos, ch, |out|).value, 0);
    var p := if run.exhausted then s[i].(isActive := false) else s[i];
    MixOnlyDeactivates(s[i := p], i + 1, pos, ch, poll, run.output, stops + Repeat(s[i].playbackId, run.stops));
    RetainExact(Mix(s, i, pos, ch, poll, out, stops).sources, IsInactive());
  }

  /** A stop time that already lies before the frame a source is polled at is never
      delivered: no stop request is sent to that source in this period. */
  lemma {:induction false} PastStopNeverSent(p: PlayingSource, pos: nat, ch: nat, poll: Poll, out: seq<real>, tw: nat, stops: nat)
    requires ch > 0 && WellBehaved(poll) && tw <= |out|
    requires p.stopTime.Some? && p.stopTime.value < pos + FrameOf(tw, ch)
    ensures Run(p, pos, ch, poll, out, tw, stops).stops == stops
    decreases |out| - tw
  {
    if tw < |out| {
      var rq := NextRequest(p, pos, ch, |out|, tw);
      var res := poll(p.playbackId, rq.t, rq.n);
      if !res.exhausted && res.samples != [] {
        var tw' := tw + |res.samples|;
        DivMonotone(tw, tw', ch);
        PastStopNeverSent(p, pos, ch, poll, AddAt(out, tw, res.samples), tw', stops);
      }
    }
  }

  /** What the source loop does does not depend on what the buffer already
      holds: it polls the same requests, and adds the same samples on top. */
  lemma {:induction false} RunAdditive(p: PlayingSource, pos: nat, ch: nat, poll: Poll, a: seq<real>, b: seq<real>, tw: nat, stops: nat)
    requires ch > 0 && WellBehaved(poll) && tw <= |a| == |b|
    ensures var ra := Run(p, pos, ch, poll, a, tw, stops);
      var rb := Run(p, pos, ch, poll, b, tw, stops);
      ra.exhausted == rb.exhausted && ra.stops == rb.stops
      && forall k :: 0 <= k < |a| ==> ra.output[k] - a[k] == rb.output[k] - b[k]
    decreases |a| - tw
  {
    if tw < |a| {
      var rq := NextRequest(p, pos, ch, |a|, tw);
      var sent := if rq.stop then stops + 1 else stops;
      var res := poll(p.playbackId, rq.t, rq.n);
      if !res.exhausted && res.samples != [] {
        var a', b' := AddAt(a, tw, res.samples), AddAt(b, tw, res.samples);
        RunAdditive(p, pos, ch, poll, a', b', tw + |res.samples|, sent);
      }
    }
  }

  /** The source loop leaves the samples before its starting offset alone. */
  lemma {:induction false} RunKeepsPrefix(p: PlayingSource, pos: nat, ch: nat, poll: Poll, out: seq<real>, tw: nat, stops: nat)
    requires ch > 0 && WellBehaved(poll) && tw <= |out|
    ensures forall k :: 0 <= k < tw ==> Run(p, pos, ch, poll, out, tw, stops).output[k] == out[k]
    decreases |out| - tw
  {
    if tw < |out| {
      var rq := NextRequest(p, pos, ch, |out|, tw);
      var sent := if rq.stop then stops + 1 else stops;
      var res := poll(p.playbackId, rq.t, rq.n);
      if !res.exhausted && res.samples != [] {
        RunKeepsPrefix(p, pos, ch, poll, AddAt(out, tw, res.samples), tw + |res.samples|, sent);
      }
    }
  }

  /** What source `p` alone puts at sample `k` of a silent period of `len`
      samples: nothing when it is not polled or `k` lies before its start. */
  function Contribution(p: PlayingSource, pos: nat, ch: nat, poll: Poll, len: nat, k: nat): (r: real)
    requires ch > 0 && WellBehaved(poll) && k < len
    ensures StartOffset(p, pos, ch, len).None? || k < StartOffset(p, pos, ch, len).value ==> r == 0.0
  {
    match StartOffset(p, pos, ch, len)
    case None => 0.0
    case Some(tw0) =>
      RunKeepsPrefix(p, pos, ch, poll, Zeros(len), tw0, 0);
      Run(p, pos, ch, poll, Zeros(len), tw0, 0).output[k]
  }

  /** Source `p` is not polled in the period, or starts after sample `k`. */
  predicate Silent(p: PlayingSource, pos: nat, ch: nat, len: nat, k: nat)
    requires ch > 0
  {
    StartOffset(p, pos, ch, len).None? || k < StartOffset(p, pos, ch, len).value
  }

  /** The sum at sample `k` of the contributions of the sources the mixing loop
      reaches: those before the first one that starts after the period. */
  function SumOfContributions(srcs: seq<PlayingSource>, pos: nat, ch: nat, poll: Poll, len: nat, k: nat): (r: real)
    requires ch > 0 && WellBehaved(poll) && k < len
    ensures (forall j :: 0 <= j < |srcs| ==> Silent(srcs[j], pos, ch, len, k)) ==> r == 0.0
    decreases |srcs|
  {
    if srcs == [] || StartOffset(srcs[0], pos, ch, len).None? then 0.0
    else Contribution(srcs[0], pos, ch, poll, len, k) + SumOfContributions(srcs[1..], pos, ch, poll, len, k)
  }

  /** Mixing is exact summation: each output sample is what was there before plus
      what every reached source contributes on its own. */
  lemma {:induction false} MixIsSum(srcs: seq<PlayingSource>, i: nat, pos: nat, ch: nat, poll: Poll, out: seq<real>, stops: seq<PlaybackId>, k: nat)
    requires ch > 0 && WellBehaved(poll) && i <= |srcs| && k < |out|
    ensures Mix(srcs, i, pos, ch, poll, out, stops).output[k]
      == out[k] + SumOfContributions(srcs[i..], pos, ch, poll, |out|, k)
    decreases |srcs| - i
  {
    if i < |srcs| {
      match StartOffset(srcs[i], pos, ch, |out|)
      case None =>
      case Some(tw0) =>
        var run := Run(srcs[i], pos, ch, poll, out, tw0, 0);
        var p := if run.exhausted then srcs[i].(isActive := false) else srcs[i];
        RunAdditive(srcs[i], pos, ch, poll, out, Zeros(|out|), tw0, 0);
        MixIsSum(srcs[i := p], i + 1, pos, ch, poll, run.output, stops + Repeat(srcs[i].playbackId, run.stops), k);
        assert srcs[i := p][i + 1..] == srcs[i..][1..];
    }
  }

  /** A source due later in the period adds nothing before its start frame. */
  lemma ContributionStartsAtOffset(p: PlayingSource, pos: nat, ch: nat, poll: Poll, len: nat, k: nat)
    requires ch > 0 && WellBehaved(poll) && k < len
    requires pos < p.startTime && k < (p.startTime - pos) * ch
    ensures Contribution(p, pos, ch, poll, len, k) == 0.0
  {
    match StartOffset(p, pos, ch, len)
    case None =>
    case Some(tw0) =>
      StartOffsetPlacement(p, pos, ch, len);
      RunKeepsPrefix(p, pos, ch, poll, Zeros(len), tw0, 0);
  }
}
