/** The synth source: runs a sample generator until it is exhausted, scaled
    by its volume, and stops on request, at once or through a fade-out.
    The generator is a function from the sample index to the next sample, or
    `None` once it is exhausted; the wall-clock check that decides whether a
    position report is due and the fader's "finished" state are inputs of
    each write. */
module Dasp {
  import opened Common
  import File

  /** The generator: the sample at each index, `None` when exhausted. */
  type Signal = nat -> Option<real>

  // ---------------------------------------------------------------------------
  // The generator loop

  /** The generator still produces a sample at index `k`. */
  predicate Produces(signal: Signal, k: nat) {
    signal(k).Some?
  }

  /** How many samples the generator produces from index `from` before it is
      exhausted or `limit` samples were taken. */
  function Run(signal: Signal, from: nat, limit: nat): (n: nat)
    ensures n <= limit
    ensures forall k :: from <= k < from + n ==> Produces(signal, k)
    ensures n < limit ==> !Produces(signal, from + n)
    decreases limit
  {
    if limit == 0 || signal(from).None? then 0 else 1 + Run(signal, from + 1, limit - 1)
  }

  /** The three properties of `Run` single it out: any count that has them is `Run`. */
  lemma RunUnique(signal: Signal, from: nat, limit: nat, m: nat)
    requires m <= limit
    requires forall k :: from <= k < from + m ==> Produces(signal, k)
    requires m < limit ==> !Produces(signal, from + m)
    ensures m == Run(signal, from, limit)
  {
  }

  /** The `n` samples the generator produces from index `from`. */
  function Generated(signal: Signal, from: nat, n: nat): (r: seq<real>)
    ensures |r| == n
  {
    seq(n, i requires 0 <= i < n => if signal(from + i).Some? then signal(from + i).value else 0.0)
  }

  /** Runs the generator into `output` until it is exhausted or `output` is full. */
  method Fill(output: array<real>, signal: Signal, from: nat) returns (n: nat)
    modifies output
    ensures n == Run(signal, from, output.Length)
    ensures output[..] == Generated(signal, from, n) + old(output[..])[n..]
  {
    n := 0;
    while n < output.Length && signal(from + n).Some?
      invariant n <= output.Length
      invariant forall k :: from <= k < from + n ==> Produces(signal, k)
      invariant forall i :: 0 <= i < n ==> output[i] == Generated(signal, from, n)[i]
      invariant forall i :: n <= i < output.Length ==> output[i] == old(output[i])
    {
      output[n] := signal(from + n).value;
      n := n + 1;
    }
    RunUnique(signal, from, output.Length, n);
    assert output[..] == Generated(signal, from, n) + old(output[..])[n..] by {
      var g := Generated(signal, from, n) + old(output[..])[n..];
      forall i | 0 <= i < output.Length ensures output[i] == g[i] {
        if i >= n {
          assert g[i] == old(output[..])[n..][i - n];
        }
      }
    }
  }

  // ---------------------------------------------------------------------------
  // The write step

  /** The source's state: the Stop messages waiting in its channel (their
      fade-out durations), the samples played, whether playback finished,
      the fade-out the stop fader was last started with, the fader calls so
      far, and the events sent. */
  datatype Synth = Synth(inbox: seq<File.Duration>, pos: nat, finished: bool,
                         fadeStarted: Option<File.Duration>, faderCalls: nat, events: seq<StatusEvent>)

  /** What does not change while the source plays. */
  datatype Env = Env(signal: Signal, volume: real, fader: Fader, hasEventSender: bool)

  datatype Received = Received(s: Synth, stopPlaying: bool)

  datatype Wrote = Wrote(s: Synth, out: seq<real>, written: nat)

  /** The first part of a write: take at most one message off the channel.
      A Stop without fade-out stops playing; any other Stop starts the fader. */
  function Receive(s: Synth): (r: Received)
    ensures r.s.inbox == if s.inbox == [] then [] else s.inbox[1..]
    ensures r.stopPlaying <==> s.inbox != [] && s.inbox[0] == 0
    ensures r.s.fadeStarted == if s.inbox != [] && s.inbox[0] != 0 then Some(s.inbox[0]) else s.fadeStarted
    ensures r.s == s.(inbox := r.s.inbox, fadeStarted := r.s.fadeStarted)
  {
    if s.inbox == [] then Received(s, false)
    else if s.inbox[0] == 0 then Received(s.(inbox := s.inbox[1..]), true)
    else Received(s.(inbox := s.inbox[1..], fadeStarted := Some(s.inbox[0])), false)
  }

  /** The Stopped event a finishing write that produced `written` samples
      was meant to send: its `exhausted` field says whether the generator
      ran out, as in the other sources. */
  function StoppedEvent(written: nat): (ev: StatusEvent)
    ensures ev.Stopped? && (ev.exhausted <==> written == 0)
  {
    Stopped(written == 0)
  }

  /** The Stopped event as the source builds it: after `playback_finished`
      was set, and from that flag, so whatever `written` is it claims the
      generator ran out. */
  function StoppedEventAsWritten(written: nat): (ev: StatusEvent)
    ensures ev.Stopped? && ev.exhausted
  {
    var playbackFinished := true;
    Stopped(playbackFinished)
  }

  /** The middle of a write that finds playback running: run the
      generator into the output, scale and fade what it produced, move the
      position on by it and count the fader's call. */
  function Render(e: Env, s: Synth, out: seq<real>): (r: Wrote)
    requires FaderOk(e.fader)
    ensures |r.out| == |out|
  {
    var n := Run(e.signal, s.pos, |out|);
    var samples := Delivered(Generated(e.signal, s.pos, n), e.volume, true, e.fader, s.faderCalls);
    Wrote(s.(pos := s.pos + n, faderCalls := s.faderCalls + 1), samples + out[n..], n)
  }

  /** The end of such a write: report the position when a report is due,
      and finish on a Stop without fade-out, an exhausted generator or a
      finished fade-out, announcing it with the event `stopped`. */
  function Settle(e: Env, s: Synth, written: nat, stopPlaying: bool, reportDue: bool, faderFinished: bool,
                  stopped: StatusEvent): (r: Synth)
    ensures r == s.(finished := r.finished, events := r.events)
    ensures r.finished <==> s.finished || stopPlaying || written == 0 || faderFinished
    ensures |r.events| == |s.events| + (if e.hasEventSender && reportDue then 1 else 0)
      + (if e.hasEventSender && (stopPlaying || written == 0 || faderFinished) then 1 else 0)
    ensures r.events[..|s.events|] == s.events
    ensures e.hasEventSender && reportDue ==> r.events[|s.events|] == Position(s.pos)
    ensures e.hasEventSender && (stopPlaying || written == 0 || faderFinished) ==>
      r.events[|r.events| - 1] == stopped
    ensures !e.hasEventSender ==> r.events == s.events
  {
    var s1 := if e.hasEventSender && reportDue then s.(events := s.events + [Position(s.pos)]) else s;
    if stopPlaying || written == 0 || faderFinished
    then s1.(finished := true, events := if e.hasEventSender then s1.events + [stopped] else s1.events)
    else s1
  }

  /** `write` as the source does it, given whether a position report is due
      and whether the stop fader has finished. */
  function WriteStep(e: Env, s: Synth, out: seq<real>, reportDue: bool, faderFinished: bool): (r: Wrote)
    requires FaderOk(e.fader)
    ensures |r.out| == |out|
  {
    var rc := Receive(s);
    if rc.s.finished then Wrote(rc.s, out, 0)
    else
      var rd := Render(e, rc.s, out);
      rd.(s := Settle(e, rd.s, rd.written, rc.stopPlaying, reportDue, faderFinished, StoppedEventAsWritten(rd.written)))
  }

  /** `write` as evidently intended: the same, except that the Stopped event
      is `StoppedEvent`, which says whether the generator ran out. */
  function WriteStepIntended(e: Env, s: Synth, out: seq<real>, reportDue: bool, faderFinished: bool): (r: Wrote)
    requires FaderOk(e.fader)
    ensures |r.out| == |out|
  {
    var rc := Receive(s);
    if rc.s.finished then Wrote(rc.s, out, 0)
    else
      var rd := Render(e, rc.s, out);
      rd.(s := Settle(e, rd.s, rd.written, rc.stopPlaying, reportDue, faderFinished, StoppedEvent(rd.written)))
  }

  /** Every write takes at most one message off the channel, even once
      playback finished. */
  lemma AtMostOneMessage(e: Env, s: Synth, out: seq<real>, reportDue: bool, faderFinished: bool)
    requires FaderOk(e.fader)
    ensures var r := WriteStep(e, s, out, reportDue, faderFinished);
      r.s.inbox == if s.inbox == [] then [] else s.inbox[1..]
  {
  }

  /** Once playback finished, a write returns 0 and leaves the output, the
      position and the events alone. */
  lemma FinishedWritesNothing(e: Env, s: Synth, out: seq<real>, reportDue: bool, faderFinished: bool)
    requires FaderOk(e.fader) && s.finished
    ensures var r := WriteStep(e, s, out, reportDue, faderFinished);
      r.written == 0 && r.out == out && r.s.pos == s.pos && r.s.finished && r.s.events == s.events
  {
  }

  /** A write that finds playback running writes as many samples as the
      generator produces before it is exhausted or the output is full (see
      `Run`), and moves the position on by exactly that many. */
  lemma PlayingCounts(e: Env, s: Synth, out: seq<real>, reportDue: bool, faderFinished: bool)
    requires FaderOk(e.fader) && !s.finished
    ensures var r := WriteStep(e, s, out, reportDue, faderFinished);
      r.written == Run(e.signal, s.pos, |out|) <= |out| && r.s.pos == s.pos + r.written
  {
  }

  /** The samples such a write produces land, scaled and faded, in front of
      the untouched rest of the output. */
  lemma PlayingOutput(e: Env, s: Synth, out: seq<real>, reportDue: bool, faderFinished: bool)
    requires FaderOk(e.fader) && !s.finished
    ensures var r := WriteStep(e, s, out, reportDue, faderFinished);
      var n := r.written;
      && r.out[..n] == Delivered(Generated(e.signal, s.pos, n), e.volume, true, e.fader, s.faderCalls)
      && r.out[n..] == out[n..]
  {
    var r := WriteStep(e, s, out, reportDue, faderFinished);
    var samples := Delivered(Generated(e.signal, s.pos, r.written), e.volume, true, e.fader, s.faderCalls);
    assert r.out == samples + out[r.written..];
    SplitFront(samples, out[r.written..]);
  }

  /** A write that finds playback running finishes it exactly when it got a
      Stop without fade-out, the generator produced nothing, or the fader
      finished; then its last event is the one Stopped event, and it says
      `exhausted = true` whatever the generator did. */
  lemma WhenFinished(e: Env, s: Synth, out: seq<real>, reportDue: bool, faderFinished: bool)
    requires FaderOk(e.fader) && !s.finished
    ensures var r := WriteStep(e, s, out, reportDue, faderFinished);
      && (r.s.finished <==> (s.inbox != [] && s.inbox[0] == 0) || r.written == 0 || faderFinished)
      && (r.s.finished && e.hasEventSender ==>
            r.s.events[|r.s.events| - 1] == Stopped(true) && |r.s.events| > |s.events|)
      && (!r.s.finished ==> forall i :: |s.events| <= i < |r.s.events| ==> r.s.events[i].Position?)
      && (!e.hasEventSender ==> r.s.events == s.events)
  {
  }

  /** The source's probe: a Stop with zero fade-out arrives while the
      generator still produces. As written, the write fills all four samples
      and still reports Stopped with `exhausted = true`; the intended write
      reports `exhausted = false`. */
  lemma WriteMisreportsStop(volume: real, fader: Fader, s: Synth)
    requires FaderOk(fader) && !s.finished && s.inbox == [0]
    ensures var e := Env(k => Some(1.0), volume, fader, true);
      var r := WriteStep(e, s, [0.0, 0.0, 0.0, 0.0], false, false);
      var q := WriteStepIntended(e, s, [0.0, 0.0, 0.0, 0.0], false, false);
      && r.written == 4 && r.s.finished && r.s.events == s.events + [Stopped(true)]
      && q.written == 4 && q.s.finished && q.s.events == s.events + [Stopped(false)]
  {
    var e := Env(k => Some(1.0), volume, fader, true);
    assert Produces(e.signal, s.pos + 4);
  }

  /** The intended write differs from the source's only in the `exhausted`
      field of the Stopped event: same output, count and state otherwise. */
  lemma IntendedDiffersInStoppedOnly(e: Env, s: Synth, out: seq<real>, reportDue: bool, faderFinished: bool)
    requires FaderOk(e.fader)
    ensures var r := WriteStep(e, s, out, reportDue, faderFinished);
      var q := WriteStepIntended(e, s, out, reportDue, faderFinished);
      && r.out == q.out && r.written == q.written
      && r.s.(events := []) == q.s.(events := []) && |r.s.events| == |q.s.events|
      && (s.finished || !r.s.finished || !e.hasEventSender ==> r == q)
      && (!s.finished && r.s.finished && e.hasEventSender ==>
            r.s.events[..|r.s.events| - 1] == q.s.events[..|q.s.events| - 1]
            && q.s.events[|q.s.events| - 1] == Stopped(r.written == 0))
  {
  }

  /** In the intended write, with a non-empty output, the Stopped event says
      the generator ran out exactly when it did. */
  lemma StoppedMeansExhausted(e: Env, s: Synth, out: seq<real>, reportDue: bool, faderFinished: bool)
    requires FaderOk(e.fader) && !s.finished && |out| > 0 && e.hasEventSender
    ensures var r := WriteStepIntended(e, s, out, reportDue, faderFinished);
      r.s.finished ==> (r.s.events[|r.s.events| - 1].exhausted <==> e.signal(s.pos).None?)
  {
    var r := WriteStepIntended(e, s, out, reportDue, faderFinished);
    assert r.written == 0 <==> e.signal(s.pos).None? by {
      if e.signal(s.pos).Some? {
        assert r.written != 0;
      }
    }
  }

  /** The synth source. */
  class DaspSynthSource {
    const env: Env
    var inbox: seq<File.Duration>
    var playbackPos: nat
    var playbackFinished: bool
    var fadeStarted: Option<File.Duration>
    var faderCalls: nat
    var events: seq<StatusEvent>

    function State(): Synth
      reads this
    {
      Synth(inbox, playbackPos, playbackFinished, fadeStarted, faderCalls, events)
    }

    ghost predicate Valid()
      reads this
    {
      FaderOk(env.fader)
    }

    /** `new`: nothing played, nothing queued, the fader stopped. */
    constructor (signal: Signal, volume: real, fader: Fader, hasEventSender: bool)
      requires FaderOk(fader)
      ensures Valid() && env == Env(signal, volume, fader, hasEventSender)
      ensures State() == Synth([], 0, false, None, 0, [])
    {
      env := Env(signal, volume, fader, hasEventSender);
      inbox, playbackPos, playbackFinished := [], 0, false;
      fadeStarted, faderCalls, events := None, 0, [];
    }

    /** A Stop message sent through the playback message sender. */
    method Send(fadeOut: File.Duration)
      modifies this
      ensures State() == old(State()).(inbox := old(inbox) + [fadeOut])
    {
      inbox := inbox + [fadeOut];
    }

    /** The synth source always plays one channel. */
    function ChannelCount(): (n: nat)
      ensures n == 1
    {
      1
    }

    /** `is_exhausted`: whether playback finished; see `FinishedWritesNothing`. */
    function IsExhausted(): (b: bool)
      reads this
      ensures b <==> State().finished
    {
      playbackFinished
    }

    method ReceiveMessage() returns (stopPlaying: bool)
      modifies this
      ensures Received(State(), stopPlaying) == Receive(old(State()))
    {
      stopPlaying := false;
      if inbox != [] {
        var fadeOut := inbox[0];
        inbox := inbox[1..];
        if fadeOut == 0 {
          stopPlaying := true;
        } else {
          fadeStarted := Some(fadeOut);
        }
      }
    }

    method RenderInto(output: array<real>) returns (written: nat)
      requires Valid()
      modifies this, output
      ensures Valid()
      ensures Wrote(State(), output[..], written) == Render(env, old(State()), old(output[..]))
    {
      ghost var before := output[..];
      written := Fill(output, env.signal, playbackPos);
      ghost var generated := Generated(env.signal, playbackPos, written);
      SplitFront(generated, before[written..]);
      DeliverInto(output, output[..written], env.volume, true, env.fader, faderCalls);
      faderCalls := faderCalls + 1;
      playbackPos := playbackPos + written;
    }

    method SettleWrite(written: nat, stopPlaying: bool, reportDue: bool, faderFinished: bool)
      modifies this
      ensures State() == Settle(env, old(State()), written, stopPlaying, reportDue, faderFinished, StoppedEventAsWritten(written))
    {
      if env.hasEventSender && reportDue {
        events := events + [Position(playbackPos)];
      }
      if stopPlaying || written == 0 || faderFinished {
        playbackFinished := true;
        if env.hasEventSender {
          events := events + [Stopped(playbackFinished)];
        }
      }
    }

    method Write(output: array<real>, reportDue: bool, faderFinished: bool) returns (written: nat)
      requires Valid()
      modifies this, output
      ensures Valid()
      ensures Wrote(State(), output[..], written) == WriteStep(env, old(State()), old(output[..]), reportDue, faderFinished)
    {
      var stopPlaying := ReceiveMessage();
      if playbackFinished {
        return 0;
      }
      written := RenderInto(output);
      SettleWrite(written, stopPlaying, reportDue, faderFinished);
    }
  }
}
