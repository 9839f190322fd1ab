/** The player: registries of the playing file and synth sources, keyed by
    their ids and holding the sending ends of their message channels, and the
    mixer that plays them. A channel is identified by a number; a send on it
    fails once its receiving source was dropped. The sink, the source
    conversion and the mixer itself are outside this model: adding a source
    to the mixer is recorded as the id sent to it. */
module Player {
  import File

  /** The sending end of a source's message channel. */
  type Chan = nat

  /** The playback messages of the player's API generation: file sources
      take Seek and Stop, synth sources only Stop. */
  datatype FilePlaybackMsg = Seek(position: File.Duration) | Stop
  datatype SynthPlaybackMsg = SynthStop

  /** A message sent on a channel. */
  datatype Sent<M> = Sent(chan: Chan, msg: M)

  datatype Error = SendError | MediaFileNotFound

  /** The result of a player call that returns nothing or an error. */
  datatype Status = Ok | Err(error: Error)

  /** The result of a player call that returns an id or an error. */
  datatype Played = Playing(id: nat) | Failed(error: Error)

  /** Every channel a registry holds is still open. */
  ghost predicate AllOpen(registry: map<nat, Chan>, closed: set<Chan>) {
    forall id :: id in registry ==> registry[id] !in closed
  }

  /** The ids of a registry in the order its key iterator yields them,
      which the model leaves open: each registered id once. */
  method KeyOrder(registry: map<nat, Chan>) returns (order: seq<nat>)
    ensures |order| == |registry|
    ensures forall i :: 0 <= i < |order| ==> order[i] in registry
    ensures forall id :: id in registry ==> id in order
  {
    var remaining := registry.Keys;
    order := [];
    while remaining != {}
      invariant remaining <= registry.Keys
      invariant forall i :: 0 <= i < |order| ==> order[i] in registry && order[i] !in remaining
      invariant forall id :: id in registry ==> id in remaining || id in order
      invariant |order| + |remaining| == |registry.Keys|
      decreases remaining
    {
      var id :| id in remaining;
      order := order + [id];
      remaining := remaining - {id};
    }
  }

  class AudioFilePlayer {
    var playingFiles: map<nat, Chan>
    var playingSynths: map<nat, Chan>
    /** Channels whose receiving source was dropped. */
    var closed: set<Chan>
    /** Whether the mixer's own channel still takes messages. */
    var mixerOpen: bool
    /** The ids of the sources added to the mixer, in order. */
    var mixerAdded: seq<nat>
    /** The messages sent to file and synth sources, in order. */
    var fileSent: seq<Sent<FilePlaybackMsg>>
    var synthSent: seq<Sent<SynthPlaybackMsg>>

    /** `new`: empty registries, the mixer playing. */
    constructor ()
      ensures playingFiles == map[] && playingSynths == map[] && closed == {} && mixerOpen
      ensures mixerAdded == [] && fileSent == [] && synthSent == []
    {
      playingFiles, playingSynths, closed := map[], map[], {};
      mixerOpen, mixerAdded, fileSent, synthSent := true, [], [], [];
    }

    /** The source behind `chan` was dropped: sends on it fail from now on. */
    method Drop(chan: Chan)
      modifies this
      ensures closed == old(closed) + {chan}
      ensures playingFiles == old(playingFiles) && playingSynths == old(playingSynths)
      ensures mixerOpen == old(mixerOpen) && mixerAdded == old(mixerAdded)
      ensures fileSent == old(fileSent) && synthSent == old(synthSent)
    {
      closed := closed + {chan};
    }

    /** `play_file` with a source whose id is `id` and whose channel is
        `chan`: registers it, then adds it to the mixer. When the mixer is
        gone the call fails, and the registration stays. */
    method PlayFile(id: nat, chan: Chan) returns (r: Played)
      modifies this
      ensures playingFiles == old(playingFiles)[id := chan]
      ensures r == if old(mixerOpen) then Playing(id) else Failed(SendError)
      ensures mixerAdded == old(mixerAdded) + (if old(mixerOpen) then [id] else [])
      ensures playingSynths == old(playingSynths) && closed == old(closed) && mixerOpen == old(mixerOpen)
      ensures fileSent == old(fileSent) && synthSent == old(synthSent)
    {
      playingFiles := playingFiles[id := chan];
      if !mixerOpen {
        return Failed(SendError);
      }
      mixerAdded := mixerAdded + [id];
      r := Playing(id);
    }

    /** `play_synth`, as `play_file` for synth sources. */
    method PlaySynth(id: nat, chan: Chan) returns (r: Played)
      modifies this
      ensures playingSynths == old(playingSynths)[id := chan]
      ensures r == if old(mixerOpen) then Playing(id) else Failed(SendError)
      ensures mixerAdded == old(mixerAdded) + (if old(mixerOpen) then [id] else [])
      ensures playingFiles == old(playingFiles) && closed == old(closed) && mixerOpen == old(mixerOpen)
      ensures fileSent == old(fileSent) && synthSent == old(synthSent)
    {
      playingSynths := playingSynths[id := chan];
      if !mixerOpen {
        return Failed(SendError);
      }
      mixerAdded := mixerAdded + [id];
      r := Playing(id);
    }

    /** Sends `msg` to the file source registered as `id`. */
    method SendToFile(id: nat, msg: FilePlaybackMsg) returns (r: Status)
      modifies this
      ensures id !in playingFiles ==> r == Err(MediaFileNotFound) && fileSent == old(fileSent)
      ensures id in playingFiles && playingFiles[id] in closed ==> r == Err(SendError) && fileSent == old(fileSent)
      ensures id in playingFiles && playingFiles[id] !in closed ==>
        r == Ok && fileSent == old(fileSent) + [Sent(playingFiles[id], msg)]
      ensures playingFiles == old(playingFiles) && playingSynths == old(playingSynths) && closed == old(closed)
      ensures mixerOpen == old(mixerOpen) && mixerAdded == old(mixerAdded) && synthSent == old(synthSent)
    {
      if id in playingFiles {
        var chan := playingFiles[id];
        if chan in closed {
          return Err(SendError);
        }
        fileSent := fileSent + [Sent(chan, msg)];
        return Ok;
      }
      r := Err(MediaFileNotFound);
    }

    /** `seek_file`: a Seek to the file source registered as `id`, if any. */
    method SeekFile(id: nat, position: File.Duration) returns (r: Status)
      modifies this
      ensures id !in playingFiles ==> r == Err(MediaFileNotFound) && fileSent == old(fileSent)
      ensures id in playingFiles && playingFiles[id] in closed ==> r == Err(SendError) && fileSent == old(fileSent)
      ensures id in playingFiles && playingFiles[id] !in closed ==>
        r == Ok && fileSent == old(fileSent) + [Sent(playingFiles[id], Seek(position))]
      ensures playingFiles == old(playingFiles) && playingSynths == old(playingSynths) && closed == old(closed)
      ensures mixerOpen == old(mixerOpen) && mixerAdded == old(mixerAdded) && synthSent == old(synthSent)
    {
      r := SendToFile(id, Seek(position));
    }

    /** `stop_file`: a Stop to the file source registered as `id`, if any. */
    method StopFile(id: nat) returns (r: Status)
      modifies this
      ensures id !in playingFiles ==> r == Err(MediaFileNotFound) && fileSent == old(fileSent)
      ensures id in playingFiles && playingFiles[id] in closed ==> r == Err(SendError) && fileSent == old(fileSent)
      ensures id in playingFiles && playingFiles[id] !in closed ==>
        r == Ok && fileSent == old(fileSent) + [Sent(playingFiles[id], Stop)]
      ensures playingFiles == old(playingFiles) && playingSynths == old(playingSynths) && closed == old(closed)
      ensures mixerOpen == old(mixerOpen) && mixerAdded == old(mixerAdded) && synthSent == old(synthSent)
    {
      r := SendToFile(id, Stop);
    }

    /** `stop_synth`: a Stop to the synth source registered as `id`, if any. */
    method StopSynth(id: nat) returns (r: Status)
      modifies this
      ensures id !in playingSynths ==> r == Err(MediaFileNotFound) && synthSent == old(synthSent)
      ensures id in playingSynths && playingSynths[id] in closed ==> r == Err(SendError) && synthSent == old(synthSent)
      ensures id in playingSynths && playingSynths[id] !in closed ==>
        r == Ok && synthSent == old(synthSent) + [Sent(playingSynths[id], SynthStop)]
      ensures playingFiles == old(playingFiles) && playingSynths == old(playingSynths) && closed == old(closed)
      ensures mixerOpen == old(mixerOpen) && mixerAdded == old(mixerAdded) && fileSent == old(fileSent)
    {
      if id in playingSynths {
        var chan := playingSynths[id];
        if chan in closed {
          return Err(SendError);
        }
        synthSent := synthSent + [Sent(chan, SynthStop)];
        return Ok;
      }
      r := Err(MediaFileNotFound);
    }

    /** `stop_all_files`: a Stop to every registered file source, in the
        registry's (unspecified) order, aborting at the first channel that is
        gone. It succeeds exactly when every registered channel is open, and
        then every registered source got exactly one Stop. */
    method StopAllFiles() returns (r: Status)
      modifies this
      ensures r.Ok? <==> AllOpen(playingFiles, closed)
      ensures r.Err? ==> r.error == SendError && |fileSent| < |old(fileSent)| + |playingFiles|
      ensures |old(fileSent)| <= |fileSent| && fileSent[..|old(fileSent)|] == old(fileSent)
      ensures forall i :: |old(fileSent)| <= i < |fileSent| ==>
        fileSent[i].msg == Stop && fileSent[i].chan !in closed
      ensures r.Ok? ==> |fileSent| == |old(fileSent)| + |playingFiles|
      ensures r.Ok? ==> forall id :: id in playingFiles ==> Sent(playingFiles[id], Stop) in fileSent[|old(fileSent)|..]
      ensures playingFiles == old(playingFiles) && playingSynths == old(playingSynths) && closed == old(closed)
      ensures mixerOpen == old(mixerOpen) && mixerAdded == old(mixerAdded) && synthSent == old(synthSent)
    {
      var order := KeyOrder(playingFiles);
      ghost var stops: seq<Sent<FilePlaybackMsg>> := [];
      for i := 0 to |order|
        invariant playingFiles == old(playingFiles) && playingSynths == old(playingSynths) && closed == old(closed)
        invariant mixerOpen == old(mixerOpen) && mixerAdded == old(mixerAdded) && synthSent == old(synthSent)
        invariant fileSent == old(fileSent) + stops && |stops| == i
        invariant forall j :: 0 <= j < i ==> stops[j] == Sent(playingFiles[order[j]], Stop) && playingFiles[order[j]] !in closed
      {
        r := StopFile(order[i]);
        if r.Err? {
          return;
        }
        stops := stops + [Sent(playingFiles[order[i]], Stop)];
      }
      forall id | id in playingFiles
        ensures playingFiles[id] !in closed && Sent(playingFiles[id], Stop) in stops
      {
        var j :| 0 <= j < |order| && order[j] == id;
        assert stops[j] == Sent(playingFiles[id], Stop);
      }
      r := Ok;
    }

    /** `stop_all_synths`, as `stop_all_files` for the synth sources. */
    method StopAllSynths() returns (r: Status)
      modifies this
      ensures r.Ok? <==> AllOpen(playingSynths, closed)
      ensures r.Err? ==> r.error == SendError && |synthSent| < |old(synthSent)| + |playingSynths|
      ensures |old(synthSent)| <= |synthSent| && synthSent[..|old(synthSent)|] == old(synthSent)
      ensures forall i :: |old(synthSent)| <= i < |synthSent| ==>
        synthSent[i].msg == SynthStop && synthSent[i].chan !in closed
      ensures r.Ok? ==> |synthSent| == |old(synthSent)| + |playingSynths|
      ensures r.Ok? ==> forall id :: id in playingSynths ==> Sent(playingSynths[id], SynthStop) in synthSent[|old(synthSent)|..]
      ensures playingFiles == old(playingFiles) && playingSynths == old(playingSynths) && closed == old(closed)
      ensures mixerOpen == old(mixerOpen) && mixerAdded == old(mixerAdded) && fileSent == old(fileSent)
    {
      var order := KeyOrder(playingSynths);
      ghost var stops: seq<Sent<SynthPlaybackMsg>> := [];
      for i := 0 to |order|
        invariant playingFiles == old(playingFiles) && playingSynths == old(playingSynths) && closed == old(closed)
        invariant mixerOpen == old(mixerOpen) && mixerAdded == old(mixerAdded) && fileSent == old(fileSent)
        invariant synthSent == old(synthSent) + stops && |stops| == i
        invariant forall j :: 0 <= j < i ==> stops[j] == Sent(playingSynths[order[j]], SynthStop) && playingSynths[order[j]] !in closed
      {
        r := StopSynth(order[i]);
        if r.Err? {
          return;
        }
        stops := stops + [Sent(playingSynths[order[i]], SynthStop)];
      }
      forall id | id in playingSynths
        ensures playingSynths[id] !in closed && Sent(playingSynths[id], SynthStop) in stops
      {
        var j :| 0 <= j < |order| && order[j] == id;
        assert stops[j] == Sent(playingSynths[id], SynthStop);
      }
      r := Ok;
    }

    /** `stop_all_sources`: the file sources, then, only if that succeeded,
        the synth sources. */
    method StopAllSources() returns (r: Status)
      modifies this
      ensures r.Ok? <==> AllOpen(playingFiles, closed) && AllOpen(playingSynths, closed)
      ensures !AllOpen(playingFiles, closed) ==> synthSent == old(synthSent)
      ensures r.Err? ==> r.error == SendError
      ensures r.Ok? ==> |fileSent| == |old(fileSent)| + |playingFiles| && |synthSent| == |old(synthSent)| + |playingSynths|
      ensures playingFiles == old(playingFiles) && playingSynths == old(playingSynths) && closed == old(closed)
      ensures mixerOpen == old(mixerOpen) && mixerAdded == old(mixerAdded)
    {
      r := StopAllFiles();
      if r.Err? {
        return;
      }
      r := StopAllSynths();
    }
  }
}
