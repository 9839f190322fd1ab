/** File playback options and the control messages of file sources. */
module File {
  import opened Common

  /** A `Duration`, in nanoseconds. */
  type Duration = nat

  /** `Duration::as_millis`: whole milliseconds, truncated. */
  function AsMillis(d: Duration): (ms: nat)
    ensures ms * 1_000_000 <= d < (ms + 1) * 1_000_000
  {
    d / 1_000_000
  }

  /** A control message of a file source: seek to a time, keep a streaming
      worker reading, or stop with a fade-out duration. */
  datatype FilePlaybackMessage = Seek(time: Duration) | Read | Stop(fadeOut: Duration)

  /** How to play a file: streamed or preloaded, at which volume and speed,
      and how many extra passes (`USIZE_MAX` for ever). */
  datatype FilePlaybackOptions = FilePlaybackOptions(stream: bool, volume: real, speed: real, repeat: Usize)

  /** The defaults: preloaded, unit volume and speed, played once. */
  function Default(): (o: FilePlaybackOptions)
    ensures !o.stream && o.volume == 1.0 && o.speed == 1.0 && o.repeat == 0
    ensures !VolumeApplies(o.volume)
  {
    FilePlaybackOptions(false, 1.0, 1.0, 0)
  }

  function Preloaded(o: FilePlaybackOptions): (r: FilePlaybackOptions)
    ensures !r.stream && r.volume == o.volume && r.speed == o.speed && r.repeat == o.repeat
  {
    o.(stream := false)
  }

  function Streamed(o: FilePlaybackOptions): (r: FilePlaybackOptions)
    ensures r.stream && r.volume == o.volume && r.speed == o.speed && r.repeat == o.repeat
  {
    o.(stream := true)
  }

  function WithVolume(o: FilePlaybackOptions, volume: real): (r: FilePlaybackOptions)
    ensures r.volume == volume && r.stream == o.stream && r.speed == o.speed && r.repeat == o.repeat
  {
    o.(volume := volume)
  }

  function WithSpeed(o: FilePlaybackOptions, speed: real): (r: FilePlaybackOptions)
    ensures r.speed == speed && r.stream == o.stream && r.volume == o.volume && r.repeat == o.repeat
  {
    o.(speed := speed)
  }

  function Repeat(o: FilePlaybackOptions, count: Usize): (r: FilePlaybackOptions)
    ensures r.repeat == count && r.stream == o.stream && r.volume == o.volume && r.speed == o.speed
  {
    o.(repeat := count)
  }

  /** Repeating for ever is repeating `USIZE_MAX` times. */
  function RepeatForever(o: FilePlaybackOptions): (r: FilePlaybackOptions)
    ensures r == Repeat(o, USIZE_MAX)
  {
    o.(repeat := USIZE_MAX)
  }

  /** Each builder is idempotent, and the last of two calls to the same
      builder wins. */
  lemma BuildersIdempotent(o: FilePlaybackOptions, v1: real, v2: real, s1: real, s2: real, n1: Usize, n2: Usize)
    ensures Preloaded(Preloaded(o)) == Preloaded(o) && Streamed(Streamed(o)) == Streamed(o)
    ensures Preloaded(Streamed(o)) == Preloaded(o) && Streamed(Preloaded(o)) == Streamed(o)
    ensures WithVolume(WithVolume(o, v1), v2) == WithVolume(o, v2)
    ensures WithSpeed(WithSpeed(o, s1), s2) == WithSpeed(o, s2)
    ensures Repeat(Repeat(o, n1), n2) == Repeat(o, n2)
    ensures RepeatForever(RepeatForever(o)) == RepeatForever(o)
  {
  }

  /** Builders of different fields commute, so the order of a chain of
      builder calls only matters per field. */
  lemma BuildersCommute(o: FilePlaybackOptions, v: real, s: real, n: Usize)
    ensures WithVolume(WithSpeed(o, s), v) == WithSpeed(WithVolume(o, v), s)
    ensures WithVolume(Repeat(o, n), v) == Repeat(WithVolume(o, v), n)
    ensures WithSpeed(Repeat(o, n), s) == Repeat(WithSpeed(o, s), n)
    ensures Streamed(WithVolume(o, v)) == WithVolume(Streamed(o), v)
    ensures Streamed(WithSpeed(o, s)) == WithSpeed(Streamed(o), s)
    ensures Streamed(Repeat(o, n)) == Repeat(Streamed(o), n)
  {
  }
}
