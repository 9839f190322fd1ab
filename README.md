# afplay audio sources, modelled in Dafny

This project models the per-period logic of afplay's audio sources and its
player. Each audio period, the output stream asks a source to `write` into
a sample buffer. The project covers:

- the **mixer** (`MixedSource`). It drains a queue of add, stop and remove
  messages into a registry of playing sources and keeps the registry sorted
  by start time. It places every source at its frame offset inside the
  period, delivers scheduled stops, sums the sources into the output and
  removes exhausted ones.
- the **channel mapper** (`ChannelMappedSource`). It maps interleaved
  frames between channel layouts.
- the **resampled source** (`ResampledSource`). It keeps two windowed
  buffers between its inner source and the resampler kernel.
- the **preloaded file source**. It has a cursor over a decoded buffer, a
  clamped seek, a repeat count and a finished flag.
- the **streamed and decoded file sources and their decoding workers**.
  These are actor state machines that share a few atomic counters and flags
  with the source. The model holds those shared fields in one record that
  both sides update in turn.
- the **dasp synth source**. It is a stop, fade and exhaustion state
  machine around a sample generator.
- the **file playback options builder** and the **player's registries** of
  playing files and synths.

Samples are `real`, so scaling and summation are exact. Collaborators the
sources call but that are not modelled are parameters of the operations:

- the decoder's packets and seek results;
- the ring buffer's read and push results;
- the resampler kernel;
- the volume fader, as an oracle indexed by the number of the call;
- the inner sources;
- the dasp signal;
- the wall clock's "a position report is due" decision.

Each stateful source is a `class` whose methods are proved equal to a
specification function. That function's properties are proved as lemmas.

## Model

| member | source | states |
|---|---|---|
| Common.VolumeApplies | src/source/file/preloaded.rs:291 | The volume is applied exactly when it lies outside the band from 0.9999 to 1.0001, the `(1.0 - volume).abs() > 0.0001` test shared by dasp.rs:126 and streamed.rs:184. |
| Common.AddAt | src/source/mixed.rs:239-242 | Every output sample is its old value plus the source sample that lands on it from the offset on, and silence elsewhere; the length is kept. |
| Common.AccumulateAt | src/source/mixed.rs:239-242 | The in-place `*o += *i` loop leaves the array equal to `Common.AddAt` of its old contents. |
| Common.ScaleRange | src/source/file/preloaded.rs:291-295 | The in-place loop multiplies exactly the samples in the given range by the gain and leaves the others unchanged. |
| Common.Delivered | src/source/synth/dasp.rs:125-132 | The delivered samples are as many as were read. Outside a fade-out each is the read sample times the volume when the volume applies, and the read sample itself otherwise. |
| Common.DeliverInto | src/source/file/streamed.rs:183-202 | The in-place copy, volume and fade leave `Common.Delivered` in front of the untouched rest of the output. |
| File.AsMillis | src/source/file/streamed.rs:376-379 | The milliseconds stored for a fade-out are the whole milliseconds of the duration, truncated. |
| File.Default | src/source/file.rs:31-40 | By default a file is preloaded and played once at unit volume and speed, so no volume scaling applies. |
| File.Preloaded | src/source/file.rs:43-46 | `preloaded` clears the stream flag and keeps volume, speed and repeat. |
| File.Streamed | src/source/file.rs:47-50 | `streamed` sets the stream flag and keeps volume, speed and repeat. |
| File.WithVolume | src/source/file.rs:52-55 | Sets the volume and no other field. |
| File.WithSpeed | src/source/file.rs:61-64 | Sets the speed and no other field. |
| File.Repeat | src/source/file.rs:66-69 | Sets the repeat count and no other field. |
| File.RepeatForever | src/source/file.rs:70-73 | Repeating forever is the repeat count `usize::MAX`, with no other field changed. |
| File.BuildersIdempotent | src/source/file.rs:43-73 | Each builder is idempotent, and of two calls to the same builder the last one wins. |
| File.BuildersCommute | src/source/file.rs:43-73 | Builders of different fields commute. |
| Mixed.Retain | src/source/mixed.rs:88-104 | `retain` keeps at most the entries it was given. |
| Mixed.MatchingIds | src/source/mixed.rs:88-104 | Every entry is either kept or has its id handed back for deallocation. |
| Mixed.StopFirst | src/source/mixed.rs:151-161 | Setting a stop time keeps the number of entries. |
| Mixed.InsertByStart | src/source/mixed.rs:172-175 | Inserting into the sorted registry adds exactly one entry. |
| Mixed.SortByStart | src/source/mixed.rs:172-175 | The sort keeps the number of entries. |
| Mixed.ApplyMsg | src/source/mixed.rs:123-168 | One queued message loses no entry: each entry is kept or has its id dropped, and only AddSource adds one. Dropped ids are only appended. The "new sources" flag is set exactly by AddSource. |
| Mixed.ApplyMsgs | src/source/mixed.rs:123-169 | Draining the messages in order loses no entry and adds at most one per message. Dropped ids are only appended. The flag is set exactly when some message is AddSource. |
| Mixed.Drained | src/source/mixed.rs:123-175 | The drained registry has the entries the messages leave. It is sorted by start time when a source was added, and otherwise in the order the messages left it. |
| Mixed.StartOffset | src/source/mixed.rs:192-204 | The sample offset of a polled source lies inside the period. |
| Mixed.StopDistance | src/source/mixed.rs:213-220 | A stop distance exists exactly when a stop time lies at or after the polled frame. It is a whole number of frames, the frames until the stop, and it is zero exactly at the stop frame. |
| Mixed.RequestSize | src/source/mixed.rs:214-231 | A poll asks for at least one sample. It asks for no more than the rest of the period, the temporary buffer or the samples until the stop, and for exactly one of these three. |
| Mixed.NextRequest | src/source/mixed.rs:210-231 | A poll never asks for more than the rest of the period. |
| Mixed.Run | src/source/mixed.rs:210-244 | The source loop, with the correction of the Findings, keeps the length of the output buffer. |
| Mixed.PassAsWritten | src/source/mixed.rs:210-244 | One pass of the source loop as written keeps the buffer length and never moves the offset back. It sends at most one stop request. |
| Mixed.PassesAsWritten | src/source/mixed.rs:210-244 | Passes of the loop as written keep the buffer length and the offset within it. |
| Mixed.EmptyWriteSpinsAsWritten | src/source/mixed.rs:210-244 | As written, a source that answers every poll with no samples without being exhausted leaves the buffer and the offset unchanged after any number of passes, so the loop condition still holds. |
| Mixed.RunFollowsPasses | src/source/mixed.rs:210-244 | The corrected loop takes the passes of the loop as written, and ends on exhaustion or on the first pass that writes nothing. |
| Mixed.EmptyWriteEndsRun | src/source/mixed.rs:210-244 | Corrected, such a source ends the loop at once: the buffer is unchanged, the source stays active and at most one stop request is sent. |
| Mixed.Mix | src/source/mixed.rs:188-246 | The mixing loop keeps the length of the output and of the registry. |
| Mixed.MixedSource.constructor | src/source/mixed.rs:58-79 | A new mixer has an empty registry and queue and the given channel count and sample rate. |
| Mixed.MixedSource.RemoveMatchingSources | src/source/mixed.rs:88-104 | Drops the selected entries, keeps the others in order, and hands the dropped ids over for deallocation. |
| Mixed.MixedSource.RemoveAllSources | src/source/mixed.rs:107-116 | Empties the registry and hands every id over for deallocation. |
| Mixed.MixedSource.DrainEvents | src/source/mixed.rs:123-175 | Drains the whole queue into the registry, in arrival order, and sorts the registry when a source was added. |
| Mixed.MixedSource.RunSource | src/source/mixed.rs:210-244 | The source loop for one entry computes what `Mixed.Run` specifies: output, exhaustion and stop requests. |
| Mixed.MixedSource.MixSources | src/source/mixed.rs:188-246 | The all-sources loop computes what `Mixed.Mix` specifies and changes nothing else. |
| Mixed.MixedSource.Write | src/source/mixed.rs:120-251 | After the drain, an empty registry returns 0 and leaves the output alone. Otherwise the mixer mixes into a zeroed output, returns the output length and removes exactly the sources that became inactive. |
| Mixed.AddSourceAppends | src/source/mixed.rs:125-150 | AddSource appends one active entry that starts at the given time and has no stop time. |
| Mixed.StopFirstUnknownId | src/source/mixed.rs:151-161 | StopSource with an unknown id changes nothing. |
| Mixed.StopFirstSetsFirstMatch | src/source/mixed.rs:151-161 | StopSource sets the stop time of the first matching entry and of no other entry. |
| Mixed.RetainExact | src/source/mixed.rs:88-104 | `retain` keeps exactly the entries that do not match and drops the id of every match. |
| Mixed.RetainKeepsSorted | src/source/mixed.rs:88-104 | `retain` keeps the order, so a sorted registry stays sorted. |
| Mixed.InsertByStartBound | src/source/mixed.rs:172-175 | Inserting an entry that starts no earlier than a bound into entries that all do keeps every entry at or after the bound. |
| Mixed.SortedCons | src/source/mixed.rs:172-175 | An entry that starts no later than every entry of a sorted registry can go in front of it. |
| Mixed.InsertByStartSorted | src/source/mixed.rs:172-175 | Inserting into a sorted registry keeps it sorted. |
| Mixed.InsertByStartPerm | src/source/mixed.rs:172-175 | Inserting adds exactly that entry and loses none. |
| Mixed.SortByStartCorrect | src/source/mixed.rs:172-175 | The sort is ordered by start time and is a permutation of the registry. |
| Mixed.DrainedSortedWhenAdded | src/source/mixed.rs:170-175 | After a drain that added sources, the registry is sorted by start time. |
| Mixed.RemoveMessagesExact | src/source/mixed.rs:162-168 | RemoveAllPendingSources keeps exactly the entries that already started. RemoveAllSources empties the registry and drops every id. |
| Mixed.StartOffsetPlacement | src/source/mixed.rs:192-204 | A source that already started is polled from sample 0. One starting `f` frames ahead is polled from sample `f * channels` when `f` is below the period's frame count, and not polled at all otherwise. |
| Mixed.LaterSourcesNotDue | src/source/mixed.rs:192-204 | In a sorted registry, every source after one that starts beyond the period also starts beyond it, so breaking out of the loop skips no source that was due. |
| Mixed.MixOnlyDeactivates | src/source/mixed.rs:232-236 | Mixing changes only `is_active`, only from true to false, and only for entries it reached. |
| Mixed.ExhaustedMarkedInactive | src/source/mixed.rs:232-236 | A source that reports exhaustion is marked inactive, so the same write removes it. A source that does not report exhaustion stays unchanged. |
| Mixed.PastStopNeverSent | src/source/mixed.rs:213-227 | A stop time that already lies before the frame at which the source is polled never produces a stop request. |
| Mixed.RunAdditive | src/source/mixed.rs:237-243 | A source's contribution and its stop requests do not depend on what the output already holds. |
| Mixed.RunKeepsPrefix | src/source/mixed.rs:210-244 | The source loop leaves the samples before its start offset alone. |
| Mixed.Contribution | src/source/mixed.rs:188-244 | A source adds nothing to a silent period when it is not polled, or at samples before its start offset. |
| Mixed.SumOfContributions | src/source/mixed.rs:188-244 | The summed contributions are zero at a sample before the start of every reached source. |
| Mixed.MixIsSum | src/source/mixed.rs:183-246 | Each output sample is its previous value plus the sum of the contributions of every source the loop reaches. |
| Mixed.ContributionStartsAtOffset | src/source/mixed.rs:192-204 | A source due later in the period contributes nothing before its start frame. |
| Mapped.InputRequest | src/source/mapped.rs:34-36 | The inner source is asked for `min((len / out_ch) * in_ch, buffer length)` samples. |
| Mapped.MapFrame | src/source/mapped.rs:43-70 | Mapping one frame keeps the output length. |
| Mapped.MapFrom | src/source/mapped.rs:37-72 | The frame loop keeps the output length. |
| Mapped.MapFromKeepsBefore | src/source/mapped.rs:37-72 | The frame loop never changes samples before its output offset. |
| Mapped.MapFrameKeepsLater | src/source/mapped.rs:43-70 | Mapping one frame leaves the samples after that frame alone. |
| Mapped.MapFromFirstFrame | src/source/mapped.rs:37-72 | The first frame the loop maps holds, at each channel, the mapped input sample. |
| Mapped.OffIsProduct | src/source/mapped.rs:37-72 | Counting frame offsets frame by frame gives `f * channels`. |
| Mapped.MapFromFrameOff | src/source/mapped.rs:37-72 | Frame `f` of the loop's output holds the mapped input sample, with offsets counted frame by frame. |
| Mapped.MapFromFrame | src/source/mapped.rs:37-72 | Frame `f` of the loop's output, channel `c`, lies in range and holds the sample mapped from input frame `f`. |
| Mapped.MapFromKeepsAfter | src/source/mapped.rs:37-72 | The frame loop leaves every sample after its last complete frame alone. |
| Mapped.Mapped | src/source/mapped.rs:37-72 | The mapped output keeps its length. |
| Mapped.ChannelMappedSource.constructor | src/source/mapped.rs:17-26 | `new` records the channel counts and allocates a fresh buffer of 16 * 1024 samples. `channel_count` (mapped.rs:77-79) is the recorded output channel count and `sample_rate` (mapped.rs:81-83) the inner source's rate. |
| Mapped.ChannelMappedSource.Write | src/source/mapped.rs:33-75 | Asks the inner source for `Mapped.InputRequest` samples, maps the frames it wrote into the output and returns the whole output length. |
| Mapped.ChannelMappedSource.MapFrames | src/source/mapped.rs:37-72 | The in-place frame loops compute `Mapped.Mapped` of the buffer's samples. |
| Mapped.FrameCountIsMin | src/source/mapped.rs:37-39 | The loop maps `min(input frames, output frames)` frames. |
| Mapped.MappedFrame | src/source/mapped.rs:43-70 | In each mapped frame, channel 0 takes input channel 0. Channel 1 takes input channel 1, or input channel 0 for a mono input. Every further output channel is left untouched. |
| Mapped.MappedKeepsTail | src/source/mapped.rs:37-39 | Output samples past the mapped frames keep their previous value. |
| Resampled.ResampleBuffer.Get | src/source/resampled.rs:121-123 | `get` is the window `[start, end)` of the buffer, in order. |
| Resampled.ResampleBuffer.Len | src/source/resampled.rs:125-127 | `len` is the number of samples `get` returns. |
| Resampled.ResampleBuffer.IsEmpty | src/source/resampled.rs:129-131 | `is_empty` holds exactly when `get` is empty. |
| Resampled.RefillStep | src/source/resampled.rs:70-77 | A refill puts the source's samples at the front, zero-pads the rest of the input buffer and opens the window over the whole buffer. |
| Resampled.ProcessStep | src/source/resampled.rs:78-87 | A kernel call advances the input window by the consumed count, and the output window becomes exactly the samples written. |
| Resampled.Prepare | src/source/resampled.rs:70-87 | Refill and process keep both buffers' lengths and the window invariants. |
| Resampled.PrepareProgress | src/source/resampled.rs:70-87 | After refill and process, samples are ready to copy or less unread input is left. |
| Resampled.TurnStep | src/source/resampled.rs:68-95 | A turn of the loop writes something or eats unread input, and never writes past the output. |
| Resampled.Pump | src/source/resampled.rs:66-97 | The loop keeps both buffers' lengths and the window invariants. |
| Resampled.ResampledSource.constructor | src/source/resampled.rs:30-62 | A new source has empty windows over buffers of the kernel's block sizes. It records the output sample rate, which `sample_rate` (resampled.rs:103-105) returns. |
| Resampled.ResampledSource.IsExhausted | src/source/resampled.rs:107-109 | Exhausted exactly when the inner source is exhausted and no input sample is unread. |
| Resampled.ResampledSource.RefillInput | src/source/resampled.rs:70-77 | Computes `Resampled.RefillStep` in place. |
| Resampled.ResampledSource.ProcessInput | src/source/resampled.rs:78-87 | Computes `Resampled.ProcessStep` in place. |
| Resampled.ResampledSource.PrepareOutput | src/source/resampled.rs:70-87 | Computes `Resampled.Prepare` in place. |
| Resampled.ResampledSource.Write | src/source/resampled.rs:66-97 | Fills the whole output and returns its length. The new state and output are those of `Resampled.Pump`. |
| Resampled.ResampledSource.Turn | src/source/resampled.rs:68-95 | One turn of the loop computes `Resampled.TurnStep`. |
| Resampled.PumpKeepsBefore | src/source/resampled.rs:89-94 | The loop never touches the output before its current offset. |
| Resampled.PumpStartsWithLeftover | src/source/resampled.rs:68-94 | Samples left in the output window by the previous write come out first, in order. |
| Preloaded.OnMessage | src/source/file/preloaded.rs:249-268 | Seek clamps the cursor to the buffer length and resets the resampler. Stop finishes playback without a fade-out or with a zero one, and otherwise starts a fade-out. Read changes nothing. |
| Preloaded.OnMessages | src/source/file/preloaded.rs:248-270 | Draining the messages keeps the cursor inside the buffer. |
| Preloaded.OnMessagesKeeps | src/source/file/preloaded.rs:248-270 | Draining never clears the finished or fading flags and leaves the repeat count and events alone. |
| Preloaded.StopWithoutFadeFinishes | src/source/file/preloaded.rs:258-268 | A Stop among the drained messages finishes playback when no fade-out is configured or the configured duration is zero. |
| Preloaded.Rendered | src/source/file/preloaded.rs:290-299 | Volume and fader keep the number of resampled samples. |
| Preloaded.Render | src/source/file/preloaded.rs:284-299 | Rendering a turn keeps the output length. |
| Preloaded.Advance | src/source/file/preloaded.rs:301-316 | Advancing keeps the cursor inside the buffer. At the end of the buffer it breaks off or wraps to 0. |
| Preloaded.AdvanceSpec | src/source/file/preloaded.rs:301-316 | The cursor moves by what was consumed. At the end of the buffer it breaks off exactly when no repeat is left. Otherwise it wraps to 0 and spends one repeat, unless the count is `usize::MAX`. |
| Preloaded.Step | src/source/file/preloaded.rs:279-317 | A turn keeps the cursor and the written count in range, and progresses, breaks off or wraps. |
| Preloaded.Play | src/source/file/preloaded.rs:278-317 | The loop never writes past the output and keeps the cursor inside the buffer. |
| Preloaded.PlayUnfold | src/source/file/preloaded.rs:279-317 | While room is left and the loop has not broken off, it takes one more turn. |
| Preloaded.Finish | src/source/file/preloaded.rs:319-350 | Playback finishes exactly at the end of the buffer or when a fade-out completed. With a status channel, the earlier events are kept, then Position(pos) follows when a report is due, then, when playback ends, a Stopped event is last, with `exhausted` exactly when the cursor is at the end of the buffer (so a fade-out completed earlier sends Stopped(false)). The event count is exact. Without a status channel nothing is sent. |
| Preloaded.PlayOutcome | src/source/file/preloaded.rs:279-317 | The loop fills the output unless it broke off at the end with no repeat left. A forever-repeating source never breaks off. Every wrap spends one repeat of a finite count, so a count of k gives k + 1 passes. |
| Preloaded.PlayKeepsBefore | src/source/file/preloaded.rs:279-303 | The loop never touches output samples before its starting offset. |
| Preloaded.PreloadedFileSource.constructor | src/source/file/preloaded.rs:104-126 | `with_buffer` starts at the beginning of the buffer, unfinished, with the configured repeat count. |
| Preloaded.PreloadedFileSource.TotalFrames | src/source/file/preloaded.rs:232-234 | `total_frames` is the number of whole frames in the buffer. |
| Preloaded.PreloadedFileSource.CurrentFramePosition | src/source/file/preloaded.rs:236-238 | `current_frame_position` is the frame the cursor is in, never beyond `total_frames`. |
| Preloaded.PreloadedFileSource.IsExhausted | src/source/file/preloaded.rs:240-242 | `end_of_track` and `is_exhausted` are the finished flag. |
| Preloaded.PreloadedFileSource.HandleMessage | src/source/file/preloaded.rs:249-268 | Applies one message as `Preloaded.OnMessage` says. |
| Preloaded.PreloadedFileSource.Turn | src/source/file/preloaded.rs:279-317 | One turn of the loop computes `Preloaded.Step`. |
| Preloaded.PreloadedFileSource.AdvanceBy | src/source/file/preloaded.rs:301-316 | Moves the cursor as `Preloaded.Advance` says. |
| Preloaded.PreloadedFileSource.Write | src/source/file/preloaded.rs:246-353 | Drains the messages. A finished source then returns 0 and leaves the output alone. Otherwise it plays as `Preloaded.Play` says, returns the samples written and finishes as `Preloaded.Finish` says. |
| Preloaded.PreloadedFileSource.Drain | src/source/file/preloaded.rs:248-270 | Applies the queued messages in arrival order. |
| Preloaded.PreloadedFileSource.Loop | src/source/file/preloaded.rs:278-317 | The repeat loop computes `Preloaded.Play`. |
| Preloaded.PreloadedFileSource.Conclude | src/source/file/preloaded.rs:319-350 | The report and finish check compute `Preloaded.Finish`. |
| Preloaded.RenderInto | src/source/file/preloaded.rs:284-299 | Writes, scales and fades one turn in place, as `Preloaded.Render` says. |
| Preloaded.RenderSteps | src/source/file/preloaded.rs:290-299 | Copy, then volume over the rest of the output, then fader over the written part, is `Preloaded.Render`. |
| Preloaded.ScaledStage | src/source/file/preloaded.rs:290-295 | The volume scales every sample from the write offset to the end of the output, not only the samples just written. |
| Preloaded.FadedStage | src/source/file/preloaded.rs:297-299 | The fader touches only the samples written in this turn. |
| Preloaded.New | src/source/file/preloaded.rs:85-101 | Loading fails exactly when the decoded buffer is empty. Otherwise the source starts at the beginning of the buffer. |
| Streamed.SharedFileWorkerState.constructor | src/source/file/streamed.rs:105-122 | The shared state starts at position 0, with the total unknown (`u64::MAX`), playing, not at the end and not fading. |
| Streamed.KnownTotal | src/source/file/streamed.rs:52-59 | `total_samples` is None exactly when the stored value is the `u64::MAX` sentinel, and otherwise that value. |
| Streamed.ShouldReportPos | src/source/file/streamed.rs:68-74 | A position is reported when nothing was reported yet, when it moved backwards, or when it moved forwards by at least the precision. |
| Streamed.Take | src/source/file/streamed.rs:179-202 | Delivering the read samples keeps the output length. |
| Streamed.Report | src/source/file/streamed.rs:204-217 | A position report is appended exactly when there is a status channel and `should_report_pos` says so. It records the position as reported. Otherwise nothing changes. |
| Streamed.Settle | src/source/file/streamed.rs:219-238 | The finish check finishes playback exactly when the worker stopped, nothing was read at the end of the file, or the fade-out completed. Finishing clears `is_playing` and, with a status channel, sends Stopped(exhausted = nothing read at the end of the file). Otherwise nothing changes. |
| Streamed.WriteStep | src/source/file/streamed.rs:174-242 | A write keeps the output length. |
| Streamed.WriteOutcome | src/source/file/streamed.rs:174-242 | A finished source writes and changes nothing. Otherwise a write returns every sample read and moves the shared position by that many. It finishes exactly when the worker stopped, when nothing was read at the end of the file, or when the fade-out completed. Finishing clears `is_playing`. |
| Streamed.WriteEvents | src/source/file/streamed.rs:204-233 | The position is reported exactly when `should_report_pos` says so and there is a status channel. A finishing write ends with Stopped, whose `exhausted` is "nothing read and at the end of the file". |
| Streamed.WriteSamples | src/source/file/streamed.rs:183-202 | The samples returned are those read, scaled when the volume applies and faded during a fade-out. The stop fader is started once, with the requested duration. |
| Streamed.EndOfTrackStays | src/source/file/streamed.rs:168-178 | Once the track has ended, later writes return 0 and change nothing. |
| Streamed.StreamedFileSource.constructor | src/source/file/streamed.rs:84-149 | A new source has reported nothing, is not finished and has sent no event. |
| Streamed.StreamedFileSource.WrittenSamples | src/source/file/streamed.rs:61-66 | Adds `n` to the shared position and returns the new value. Nothing else changes. |
| Streamed.StreamedFileSource.TotalSamples | src/source/file/streamed.rs:52-59 | Reads the total as `Streamed.KnownTotal` says. |
| Streamed.StreamedFileSource.EndOfTrack | src/source/file/streamed.rs:168-170 | `end_of_track` is "finished and at the end of the file". |
| Streamed.StreamedFileSource.IsExhausted | src/source/file/streamed.rs:252-254 | `is_exhausted` is the finished flag. |
| Streamed.StreamedFileSource.Write | src/source/file/streamed.rs:174-242 | The source and the shared state change as `Streamed.WriteStep` says. |
| Streamed.StreamedFileSource.Receive | src/source/file/streamed.rs:179-202 | Delivers the read samples and moves the shared position, as `Streamed.Take` says. |
| Streamed.StreamedFileSource.ReportPosition | src/source/file/streamed.rs:204-217 | Reports the position when one is due. |
| Streamed.StreamedFileSource.Conclude | src/source/file/streamed.rs:219-238 | The finish check stops the worker and finishes playback, as the write specification says. |
| Streamed.StopStep | src/source/file/streamed.rs:369-386 | `on_stop(0)` clears `is_reading` and `is_playing` and shuts down. A non-zero fade stores its milliseconds, sets `is_fading_out` and continues. |
| Streamed.SeekStep | src/source/file/streamed.rs:388-408 | A failed seek changes nothing. A successful one sets the written count and the position to `timestamp * channels` and clears the ring buffer. It empties the pending range when reading, and otherwise restarts the read loop. |
| Streamed.ReadStep | src/source/file/streamed.rs:410-469 | A stopped worker shuts down and changes nothing. The pending range always stays inside the packet. |
| Streamed.ReadPending | src/source/file/streamed.rs:416-434 | A push advances the range start and the written count by the samples pushed. A full ring buffer clears `is_reading` and retries after 500 ms. |
| Streamed.ReadPacket | src/source/file/streamed.rs:437-443 | A new packet becomes the whole pending range and keeps the loop reading. |
| Streamed.ReadEndOfFile | src/source/file/streamed.rs:444-464 | At the end of the file with repeats left, one repeat is spent (none when repeating forever) and both counters restart at 0. With no repeat left, the worker marks the end of the file and publishes the written count as the total. |
| Streamed.HandleStep | src/source/file/streamed.rs:359-365 | Dispatches Seek, Read and Stop to their handlers. |
| Streamed.DrainedFileEnds | src/source/file/streamed.rs:221-238 | After the worker's end of file with no repeat left, the next write that reads nothing finishes with Stopped(exhausted) and ends the track. |
| Streamed.StopEndsBoth | src/source/file/streamed.rs:369-374 | Stop(0) shuts the worker down, the next write finishes playback, and a later Read finds the worker stopped. |
| Streamed.StreamedFileWorker.constructor | src/source/file/streamed.rs:315-352 | A new worker has nothing pending or written, is not reading and has the given repeat count. |
| Streamed.StreamedFileWorker.OnStop | src/source/file/streamed.rs:369-386 | Computes `Streamed.StopStep`. |
| Streamed.StreamedFileWorker.OnSeek | src/source/file/streamed.rs:388-408 | Computes `Streamed.SeekStep`. |
| Streamed.StreamedFileWorker.OnRead | src/source/file/streamed.rs:410-469 | Computes `Streamed.ReadStep`. |
| Streamed.StreamedFileWorker.Handle | src/source/file/streamed.rs:359-365 | Computes `Streamed.HandleStep`. |
| Decoded.SharedCounters.constructor | src/source/decoded.rs:89-97 | The shared position starts at 0 and the total at the `u64::MAX` sentinel. |
| Decoded.ShouldReport | src/source/decoded.rs:137-139 | A position is reported exactly when it moved backwards, or forwards by at least the precision. |
| Decoded.FirstPositionReported | src/source/decoded.rs:121 | Because the last report starts at `u64::MAX`, the first position below it is always reported. |
| Decoded.WriteStep | src/source/decoded.rs:149-188 | A write keeps the output length. |
| Decoded.WriteOutcome | src/source/decoded.rs:149-188 | An ended track writes and changes nothing. Otherwise a write copies every sample read to the front of the output and moves the shared position by that many. It ends the track exactly when the position reaches the total. |
| Decoded.WriteReports | src/source/decoded.rs:156-185 | With a status channel, a write sends the position exactly when `should_report` says so, then EndOfFile exactly when the track ends. |
| Decoded.UnknownTotalKeepsPlaying | src/source/decoded.rs:172-185 | While the total is unknown and the position stays below `u64::MAX`, the track does not end. |
| Decoded.DecodedFileSource.constructor | src/source/decoded.rs:68-123 | A new source has reported nothing (`u64::MAX`), has not ended and has sent no event. |
| Decoded.DecodedFileSource.WrittenSamples | src/source/decoded.rs:133-135 | Adds `n` to the shared position and returns the new value. |
| Decoded.DecodedFileSource.Write | src/source/decoded.rs:149-188 | The source and the shared counters change as `Decoded.WriteStep` says. |
| Decoded.SeekStep | src/source/decoded.rs:299-317 | A failed seek changes nothing. A successful one sets the written count and the position to `timestamp * channels`. It empties the pending range when reading, and otherwise restarts reading. |
| Decoded.ReadStep | src/source/decoded.rs:319-353 | The pending range always stays inside the packet. |
| Decoded.ReadOutcome | src/source/decoded.rs:320-353 | A push advances the range start and the written count. A full ring buffer retries after 500 ms. A new packet becomes the pending range. The end of the file stops reading and publishes the written count as the total. |
| Decoded.HandleStep | src/source/decoded.rs:289-295 | Stop shuts the worker down and changes nothing else. Seek and Read go to their handlers. |
| Decoded.TotalEndsTrack | src/source/decoded.rs:345-349 | Once the worker has published the total at the end of the file, the first write whose position reaches it ends the track. |
| Decoded.DecodedFileWorker.constructor | src/source/decoded.rs:247-282 | A new worker has nothing pending or written and is not reading. |
| Decoded.DecodedFileWorker.OnSeek | src/source/decoded.rs:299-317 | Computes `Decoded.SeekStep`. |
| Decoded.DecodedFileWorker.OnRead | src/source/decoded.rs:319-353 | Computes `Decoded.ReadStep`. |
| Decoded.DecodedFileWorker.Handle | src/source/decoded.rs:289-295 | Computes `Decoded.HandleStep`. |
| Dasp.Run | src/source/synth/dasp.rs:118-123 | The fill loop takes samples until the generator stops producing or the output is full. Every sample taken was produced, and a short count means the next sample was not produced. |
| Dasp.RunUnique | src/source/synth/dasp.rs:118-123 | Any count with the three properties of `Dasp.Run` is that count. |
| Dasp.Generated | src/source/synth/dasp.rs:118-123 | The generated samples are as many as asked for. |
| Dasp.Fill | src/source/synth/dasp.rs:118-123 | The in-place loop writes exactly the `Dasp.Run` count of generated samples in front of the untouched rest of the output. |
| Dasp.Receive | src/source/synth/dasp.rs:99-111 | A write takes at most one message. Stop(0) sets `stop_playing`, and a non-zero Stop starts the fader with its duration. |
| Dasp.StoppedEvent | src/source/synth/dasp.rs:152-166 | The intended Stopped event says `exhausted` exactly when the generator produced nothing. |
| Dasp.StoppedEventAsWritten | src/source/synth/dasp.rs:156-161 | The Stopped event as built says `exhausted = true`, whatever the write produced. |
| Dasp.Render | src/source/synth/dasp.rs:118-135 | Rendering keeps the output length. |
| Dasp.Settle | src/source/synth/dasp.rs:137-166 | The end of a write changes only the finished flag and the events. Playback finishes on Stop(0), an empty run or a finished fade. With a sender, a due report appends Position(pos) and a finish appends the given Stopped event last. Without a sender no event is sent. |
| Dasp.WriteStep | src/source/synth/dasp.rs:98-169 | A write keeps the output length. |
| Dasp.WriteStepIntended | src/source/synth/dasp.rs:98-169 | The intended write keeps the output length. |
| Dasp.AtMostOneMessage | src/source/synth/dasp.rs:99-111 | Every write takes at most one message off the channel, even once playback has finished. |
| Dasp.FinishedWritesNothing | src/source/synth/dasp.rs:113-116 | Once playback has finished, a write returns 0 and leaves the output, the position and the events alone. |
| Dasp.PlayingCounts | src/source/synth/dasp.rs:118-135 | A playing write returns the `Dasp.Run` count, at most the output length, and moves the position by exactly that many. |
| Dasp.PlayingOutput | src/source/synth/dasp.rs:118-132 | The samples produced land scaled and faded in front of the untouched rest of the output. |
| Dasp.WhenFinished | src/source/synth/dasp.rs:152-166 | A playing write finishes exactly on Stop(0), on an empty run or on a finished fade. Its last event is then the one Stopped event, and that event says `exhausted = true`. |
| Dasp.WriteMisreportsStop | src/source/synth/dasp.rs:152-166 | With Stop(0) queued, a producing generator and a 4-sample output, the write fills all 4 samples and sends Stopped(exhausted = true). The intended write sends Stopped(exhausted = false). |
| Dasp.IntendedDiffersInStoppedOnly | src/source/synth/dasp.rs:152-166 | The intended write has the same output, count and state as the source's write. Only the last event differs, and only when the write finishes with a sender: there it is Stopped(written == 0). |
| Dasp.StoppedMeansExhausted | src/source/synth/dasp.rs:152-166 | In the intended write with a non-empty output, the Stopped event says `exhausted` exactly when the generator ran out. |
| Dasp.DaspSynthSource.constructor | src/source/synth/dasp.rs:39-64 | A new synth has played nothing, has nothing queued and has not started its fader. |
| Dasp.DaspSynthSource.Send | src/source/synth.rs:49-51 | A Stop sent to the synth is queued behind the earlier ones. |
| Dasp.DaspSynthSource.ChannelCount | src/source/synth/dasp.rs:171-173 | The synth always plays one channel. |
| Dasp.DaspSynthSource.IsExhausted | src/source/synth/dasp.rs:179-181 | `is_exhausted` is the finished flag. |
| Dasp.DaspSynthSource.ReceiveMessage | src/source/synth/dasp.rs:99-111 | Computes `Dasp.Receive`. |
| Dasp.DaspSynthSource.RenderInto | src/source/synth/dasp.rs:118-135 | Computes `Dasp.Render` in place. |
| Dasp.DaspSynthSource.SettleWrite | src/source/synth/dasp.rs:137-166 | Computes `Dasp.Settle` with the Stopped event built from `playback_finished`, as the source does. |
| Dasp.DaspSynthSource.Write | src/source/synth/dasp.rs:98-169 | The synth and the output change as `Dasp.WriteStep` says. |
| Player.KeyOrder | src/player.rs:127-132 | The registry's iteration order lists each registered id exactly once. |
| Player.AudioFilePlayer.constructor | src/player.rs:38-55 | A new player has empty registries and an open mixer channel. |
| Player.AudioFilePlayer.PlayFile | src/player.rs:84-103 | Registers the id with its channel before adding it to the mixer. When the mixer is gone the call returns SendError and the registration stays. |
| Player.AudioFilePlayer.PlaySynth | src/player.rs:148-166 | As `PlayFile`, for the synth registry. |
| Player.AudioFilePlayer.SendToFile | src/player.rs:105-125 | An unknown id gives MediaFileNotFound. A closed channel gives SendError. Otherwise exactly one message goes to that id's channel. The registries never change. |
| Player.AudioFilePlayer.SeekFile | src/player.rs:105-114 | As `SendToFile`, with a Seek to the position. |
| Player.AudioFilePlayer.StopFile | src/player.rs:116-125 | As `SendToFile`, with a Stop. |
| Player.AudioFilePlayer.StopSynth | src/player.rs:168-177 | An unknown id gives MediaFileNotFound. A closed channel gives SendError. Otherwise exactly one Stop goes to that id's channel. The registries never change. |
| Player.AudioFilePlayer.StopAllFiles | src/player.rs:127-132 | Succeeds exactly when every registered channel is open, and then every registered file got exactly one Stop. On failure it returns SendError after fewer sends. The registries never change. |
| Player.AudioFilePlayer.StopAllSynths | src/player.rs:179-184 | As `StopAllFiles`, for the synth registry. |
| Player.AudioFilePlayer.StopAllSources | src/player.rs:68-72 | Stops the files, then the synths only if the files succeeded. Succeeds exactly when all channels are open. |

## Left out

- Audio I/O, the output sink, `pause`/`resume` and the player's `start`/`stop` (src/output.rs, src/player.rs:58-66) are device I/O and are not modelled.
- The decoder, the ring buffer, the actor runtime, the crossbeam channels, the volume fader and the resampler kernels are foreign code. Their results are inputs: packets and seek results are `Option`s, ring buffer reads are the samples read and pushes are a count or "full". The fader is an oracle indexed by call that keeps lengths, and whether it finished is a flag. The kernel returns `(consumed, samples)` within stated bounds.
- The atomics of streamed.rs and decoded.rs are one shared record, updated by one side at a time. Memory ordering and the interleaving of the two threads are not modelled.
- Positions are in samples. `samples_to_duration`, `TimeBase` and the float conversion of a Seek target are not modelled. The preloaded seek takes its target as a sample index.
- The `Instant`-based emit-rate check of preloaded.rs and dasp.rs is the input flag `reportPos`/`reportDue`.
- `f32` rounding is not modelled. Samples are `real`, and the 0.0001 volume threshold is exact.
- Positions and counters are unbounded. The `u64` wrap-around of `fetch_add` and of the sample counters is not modelled. `Decoded.UnknownTotalKeepsPlaying` therefore needs the position to stay below `u64::MAX`.
- Status events record every attempted send. A `try_send` that fails on a full channel is not distinguished.
- The worker's self-sent `Read` messages and the errors of the `?` on its own channel are not modelled. A re-sent Read is counted in `readsSent`. A failed rewind with `rewound = false` in the streamed worker becomes an error outcome.
- The ring buffer's `clear` on a seek is recorded as a counter, not as emptied contents.
- `FilePlaybackOptions::validate`, `with_volume_db` (a dB conversion) and `fade_in_duration` are not modelled. The preloaded fade-in only makes the fader oracle's first calls differ.
- `unique_usize_id` is an id parameter of `PlayFile`/`PlaySynth`. The `HashMap` iteration order of `stop_all_*` is left open: `Player.KeyOrder` returns any order that lists each id once.
- The mixer hands dropped ids to the player as a list (`dropped`). The deallocation itself is not modelled.
- `current_frame_position` and `total_frames` of the streamed source are not modelled. They are the shared position and `Streamed.KnownTotal` divided by the channel count.
- The mixer's `is_exhausted` is constantly false and is not modelled.
- The channel and sample-rate getters of the mapped, resampled and mixed sources are the constant fields their constructors record.
- `Preloaded.PreloadedFileSource.constructor`, `Preloaded.New` and `Mapped.ChannelMappedSource.constructor` need at least one channel, which the decoder always reports.
- `Preloaded.PreloadedFileSource.constructor` also needs a non-empty buffer. `with_buffer` (preloaded.rs:104-126) is public and does not check this. With an empty buffer and `repeat_forever`, every pass of the write loop (preloaded.rs:279-317) is at the end of the file and rewinds without spending a repeat, so that write never returns. `Preloaded.New` rejects an empty buffer, as `new` does.
- `Mixed.MixedSource.constructor` needs at least one channel. With zero channels the source's `write` panics on the division at mixed.rs:177. That panic is not modelled.
- `Resampled.KernelOk` assumes the resampler kernel makes progress: a full input block yields output, and any non-empty input is consumed or yields output. The first part leaves out a kernel that swallows a full block without writing, for example while it fills its delay line. The source's loop (resampled.rs:66-97) copes with that by refilling the input. The model's termination measure needs the assumption. The second part is real: a kernel that neither consumes nor writes would make the source's loop spin. `Resampled.ProcessStep`, `Resampled.Prepare`, `Resampled.TurnStep`, `Resampled.Pump` and the class methods that use them assume it.
- `Preloaded.ResamplerOk` assumes the resampler writes something whenever it gets input and room. That leaves out a call that consumes input without writing. The source's loop (preloaded.rs:279-317) tolerates such a call, because `buffer_pos` still advances. The model's loop measure counts written samples, so it needs the assumption. `Preloaded.Step`, `Preloaded.Play` and the class methods that use them assume it.
- `Mixed.Run`, `Mixed.Mix`, `Mixed.MixedSource.RunSource`, `Mixed.MixedSource.MixSources` and `Mixed.MixedSource.Write` model the corrected source loop of the Findings: a poll that writes nothing without exhausting the source ends that source's turn for the period. The source's loop polls again instead (`Mixed.EmptyWriteSpinsAsWritten`). They also assume a source writes at most what it was asked for (`Mixed.WellBehaved`), as the `AudioSource::write` contract says. The sources are a function of the id, the frame time and the request, so a ring buffer refilled between two polls is not modelled.
- The files come from different generations of the API. src/player.rs sends `Stop` without a fade-out duration, while src/source/file.rs has `Stop(Duration)`. Its synth Stop carries no duration, while dasp.rs's `SynthPlaybackMessage::Stop` has one. Each file is modelled as written. The one exception is the mixer's source loop, which is modelled with the correction of the Findings. The dasp.rs Stopped event is modelled as written. Its intended form is the separate `Dasp.WriteStepIntended`.
- `Dasp.PlayingCounts` states only the count and the position. The samples are in `Dasp.PlayingOutput` and the events in `Dasp.WhenFinished`.
- `Mixed.Run`, `Mixed.Mix`, `Preloaded.Render`, `Streamed.WriteStep`, `Decoded.WriteStep` and `Dasp.WriteStep` state only lengths in their own contracts. What they compute is stated by the lemmas listed beside them above.

## Findings

| source | as written | input that shows it | evidently intended | confidence | as-written member | corrected member |
|---|---|---|---|---|---|---|
| src/source/synth/dasp.rs:156-161 | `playback_finished` is set to true before the Stopped event is built, and `exhausted` is read from it, so every Stopped event says `exhausted = true` | a Stop with zero fade-out while the generator still produces, with a 4-sample output: the write fills 4 samples and finishes with Stopped(exhausted = true) | `exhausted` should say whether the generator ran out (`written == 0`), as the streamed and preloaded sources do | not executed | Dasp.WriteMisreportsStop | Dasp.StoppedMeansExhausted |
| src/source/mixed.rs:210-244 | a poll that writes 0 samples without exhausting the source leaves `total_written` unchanged, so the `'source` loop repeats the same request for as long as the source writes nothing | a streamed source whose ring buffer ran dry while its worker still plays (streamed.rs:180 reads 0 and the source is not finished): the audio callback busy-waits until the worker refills the buffer, and forever if it never does | a source that writes nothing ends its turn for this period, leaving the rest of the period silent | not executed; medium: the busy-wait may be tolerated by the authors | Mixed.EmptyWriteSpinsAsWritten | Mixed.EmptyWriteEndsRun |
