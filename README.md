# Screen recorder core, modelled in Dafny

This project models the recording core of a desktop screen-recording utility: the
`ScreenRecorder` class. A recorder thread runs a frame loop that grabs the screen (or a
region of it) and hands each frame to a video writer. When the microphone is enabled, a
second thread runs an audio loop that records 100 ms blocks, scales them by the microphone
volume, optionally attenuates them with a placeholder noise filter, and appends them to an
ordered chunk list. When the recording stops, the chunks are concatenated and written to a
companion file. Its name comes from the video filename with `str.replace(".avi", "_audio.wav")`.
The window calls pause, resume and stop, which change the `is_recording` and `is_paused`
flags, and two live setters for the microphone volume and the noise-reduction switch. Both
loops test `is_recording`; only the frame loop looks at `is_paused`.

Files:

- `options.dfy` (`Options`): the `Option` type, for Python's `None`.
- `filenames.dfy` (`Filenames`): Python's left-to-right, non-overlapping `str.replace` for a
  non-empty pattern, and the audio filename derived from it.
- `audio.dfy` (`Audio`): per-chunk volume scaling and noise filter, concatenation of the chunk
  list, and `save_audio`.
- `recorder.dfy` (`Recorder`): `_get_screen_size`, the two flags and the functions for the
  control methods on them, a trace model (`Event`, `Apply`, `Replay`) for runs of several
  calls, and the class `ScreenRecorder`. The class has one step method per loop iteration and
  one method per control call, and each of these is proved to follow `Apply`. The
  constructor and `FinishRun` (the end of `run`) are specified directly. The class keeps the
  invariant that every stored chunk is a full block of 4410 samples.

The model follows the code, which differs from an idealised recorder in these ways:

- the volume is stored without clamping;
- there is no terminal "stopped" state, and stopping leaves `is_paused` as it was;
- pausing suspends only the frame loop, and the audio loop keeps appending chunks;
- no configuration error is raised.

Every ".avi" in the path is replaced, not only the extension: `FirstOccurrenceReplaced`
shows that a directory named `clips.avi.d` also changes. The window builds the path by
joining a folder the user picks (src/ui.py:105-107) with a name ending in ".avi"
(src/ui.py:142-144). If that folder's path holds ".avi", the derived audio path points into
a renamed directory, which usually does not exist. Writing the audio then fails after the
video has already been saved, and the audio is lost. A name without ".avi" maps to itself
(`AudioFilename`), so the audio would go to the video's own path; the window never makes
such a name.

## Model

| member | source | states |
|---|---|---|
| `Recorder.GetScreenSize` | src/recorder.py:34-39 | with a region the size is the region's width and height, whatever its x and y; without one it is the display size |
| `Recorder.Pause` | src/recorder.py:137-140 | pausing never changes the recording flag; afterwards paused iff it was paused or recording; the flags change exactly when recording and not paused |
| `Recorder.Resume` | src/recorder.py:142-145 | resuming never changes the recording flag; afterwards paused iff it was paused and not recording; the flags change exactly when recording and paused |
| `Recorder.Stop` | src/recorder.py:147-150 | afterwards not recording; the pause flag is kept; the flags change exactly when recording |
| `Recorder.PauseThenResume` | src/recorder.py:137-145 | pause then resume on a running recording restores the original flags |
| `Recorder.ResumeThenPause` | src/recorder.py:137-145 | resume then pause on a paused recording restores the original flags |
| `Recorder.StopIdempotent` | src/recorder.py:147-150 | stopping twice equals stopping once |
| `Recorder.ControlsInertWhenNotRecording` | src/recorder.py:137-150 | once not recording, pause, resume and stop change nothing, so a stopped-while-paused recorder stays paused |
| `Recorder.Apply` | src/recorder.py:52-108 | apart from the start of a run, one call or loop iteration keeps earlier frames and chunks and appends at most one of each |
| `Recorder.Replay` | src/recorder.py:45-108 | the state after a trace of calls and loop iterations, applied in order; the microphone setting never changes, and without a run start earlier frames and chunks are kept as a prefix |
| `Recorder.Processed` | src/recorder.py:97-108 | the chunks a trace's audio iterations produce, one per iteration, each with the volume and filter setting in force at that point |
| `Recorder.NothingWrittenAfterStop` | src/recorder.py:58-108 | once the recording flag is down, and unless a run starts, no later call or loop iteration writes a frame or a chunk or raises the flag again |
| `Recorder.ApplyControl` | src/recorder.py:52-150 | the flags after one event depend only on the flags before it: a run start raises the recording flag, the control calls act as `Pause`, `Resume` and `Stop`, and loop iterations and setters leave them alone |
| `Recorder.ApplyWritten` | src/recorder.py:59-68 | apart from a run start, one event hands the writer exactly the frame it grabs: a frame-loop iteration's frame when recording and not paused, nothing otherwise |
| `Recorder.WrittenFramesAreLiveFrames` | src/recorder.py:59-68 | within a run, the written frames grow by exactly the frames the loop grabs (`LiveFrames`: the iterations that find the recording running and not paused, with the flags following each control call), in order |
| `Recorder.StopBeforeRunIsLost` | src/recorder.py:147-150 | a stop that comes before the run raises its flag (line 58) changes nothing, and the run then records: the trace stop, run start, frame iteration ends recording with that frame written |
| `Recorder.PausedWritesNoFrames` | src/recorder.py:59-62 | while paused and not resumed, the written frames stay the same whatever the frame loop does |
| `Recorder.LiveRecordingWritesEveryFrame` | src/recorder.py:59-68 | while recording and not paused, the written frames grow by exactly the frames offered to the frame-loop iterations, in trace order |
| `Recorder.FramesWrittenInCaptureOrder` | src/recorder.py:59-68 | during a run, earlier frames are kept and the newly written frames are a subsequence, in order, of the frames offered to the frame-loop iterations |
| `Recorder.AudioIgnoresPause` | src/recorder.py:97-108 | until stopped, the earlier chunks are kept and the chunk list grows by exactly the processed blocks, one per audio-loop iteration, in capture order, whether paused or not |
| `Recorder.ChunksKeepBlockSize` | src/recorder.py:94-108 | when every recorded block has 4410 samples, every stored chunk has 4410 samples and the chunks hold 4410 times their count |
| `Recorder.ScreenRecorder.constructor` | src/recorder.py:14-32 | the settings are stored, the frame size is fixed from the region or display, both flags are down and nothing is recorded; the chunk invariant holds |
| `Recorder.ScreenRecorder.BeginRun` | src/recorder.py:45-58 | a fresh writer with no frames; the chunk list is emptied when the microphone is on; the recording flag is raised and the pause flag kept; the chunk invariant is kept |
| `Recorder.ScreenRecorder.FrameLoopStep` | src/recorder.py:59-68 | the loop continues iff recording; one frame is appended when recording and not paused, none otherwise |
| `Recorder.ScreenRecorder.AudioLoopStep` | src/recorder.py:94-108 | the loop continues iff recording; while recording, exactly one processed chunk goes at the end, paused or not; given a 4410-sample block, the chunk invariant is kept |
| `Recorder.ScreenRecorder.FinishRun` | src/recorder.py:59-77 | reached only once the recording flag is down; the video is finalised; with the microphone on, the audio output is what `save_audio` produces, with 4410 samples per stored chunk |
| `Recorder.ScreenRecorder.PauseRecording` | src/recorder.py:137-140 | the flags become `Pause` of the old flags |
| `Recorder.ScreenRecorder.ResumeRecording` | src/recorder.py:142-145 | the flags become `Resume` of the old flags |
| `Recorder.ScreenRecorder.StopRecording` | src/recorder.py:147-150 | the flags become `Stop` of the old flags |
| `Recorder.ScreenRecorder.SetMicVolume` | src/recorder.py:152-157 | the volume becomes the argument, unclamped |
| `Recorder.ScreenRecorder.SetNoiseReduction` | src/recorder.py:159-164 | the noise-reduction flag becomes the argument |
| `Audio.Scale` | src/recorder.py:102 | same length, every sample multiplied by the factor |
| `Audio.ApplyDummyNoiseReduction` | src/recorder.py:112-116 | same length, every sample multiplied by 0.8 |
| `Audio.ProcessChunk` | src/recorder.py:101-106 | same length; each sample times the volume, and times 0.8 when noise reduction is on |
| `Audio.NoiseReductionIsAttenuation` | src/recorder.py:104-116 | the chunk with noise reduction on is the chunk with it off, scaled by 0.8 |
| `Audio.VolumeIsLinear` | src/recorder.py:101-106 | the chunk at volume v is v times the chunk at volume 1 |
| `Audio.Concat` | src/recorder.py:127 | the concatenation's length is the sum of the chunk lengths |
| `Audio.ConcatAppend` | src/recorder.py:108 | appending a chunk to the list appends its samples to the end of the concatenation |
| `Audio.ConcatSampleAt` | src/recorder.py:127 | sample j of chunk k sits right after all samples of the earlier chunks |
| `Audio.UniformChunksTotal` | src/recorder.py:94-98 | chunks of 4410 samples add up to 4410 times their count |
| `Audio.SaveAudio` | src/recorder.py:118-129 | no file iff no chunks; otherwise the derived name, rate 44100, and the in-order concatenation, with length the sum of the chunk lengths |
| `Filenames.ReplaceWithoutOccurrence` | src/recorder.py:126 | a string without the pattern is returned unchanged |
| `Filenames.Replace` | src/recorder.py:126 | Python's `str.replace` for a non-empty pattern; with a replacement no shorter than the pattern, the result is no shorter than the input |
| `Filenames.ReplaceLengthensOccurrence` | src/recorder.py:126 | with a longer replacement, a string holding the pattern gets longer, so it changes |
| `Filenames.ReplaceKeepsPrefix` | src/recorder.py:126 | a prefix in which no occurrence starts is copied through, and the scan continues after it |
| `Filenames.ReplaceChangesIffOccurrence` | src/recorder.py:126 | with a longer replacement, the result equals the input iff the pattern does not occur |
| `Filenames.AudioFilename` | src/recorder.py:126 | the audio name is never shorter than the video name, and equals it iff the video name holds no ".avi" |
| `Filenames.FirstOccurrenceReplaced` | src/recorder.py:126 | after a prefix without ".avi", the first ".avi" becomes "_audio.wav" and replacing continues on the rest |
| `Filenames.SuffixOnlyReplaced` | src/recorder.py:126 | a name whose only ".avi" is its suffix maps to its stem followed by "_audio.wav" |
| `Filenames.NoVideoExtensionLeft` | src/recorder.py:126 | no ".avi" remains in the audio name |
| `Filenames.AudioFilenameIdempotent` | src/recorder.py:126 | deriving the audio name twice equals deriving it once |

## Left out

- `start_recording` (src/recorder.py:132-135) only starts the thread. It is not modelled. Thread start and join, the 0.1 s sleep while paused, and the window in which `is_recording` is still false after a start are threading concerns. The loops are modelled as sequential steps, and a trace of steps stands for one interleaving. `run` raises `is_recording` only at src/recorder.py:58, after the audio thread has started (src/recorder.py:56). Two orders follow that the model admits but does not guard against. A `stop_recording` that comes before line 58 fails its guard and is lost, and the run then records on (`StopBeforeRunIsLost`); the window has already dropped its recorder (src/ui.py:160-161), so nothing stops it. An audio thread whose first test (src/recorder.py:97) comes before line 58 ends at once with no chunk, so with the microphone on `save_audio` only warns.
- Each loop iteration is one atomic step: its test and its body happen together. In the code, an iteration already past its test when `stop_recording` runs still writes its frame (src/recorder.py:68) or appends its chunk (src/recorder.py:108) after the flag is down. A trace places that iteration before `StopCalled`, so `NothingWrittenAfterStop` speaks of iterations that start after the stop.
- The calls into the screen, video, microphone and sound-file libraries are assumed to succeed; the code catches no exception. In the code, a failing screenshot (src/recorder.py:82-84) or frame write (src/recorder.py:68) ends `run` with `is_recording` still set: the audio loop keeps appending, the writer is never released and `save_audio` never runs. A failing microphone call (src/recorder.py:98) ends the audio thread with a traceback printed by Python's thread exception hook; the chunks already stored are still saved when `run` ends (src/recorder.py:75-77). A failing audio write (src/recorder.py:128) raises after the video has been saved.
- `capture_screen` (src/recorder.py:79-88) calls the screen library and converts colours. Frames are an opaque type parameter `F`, passed to `FrameLoopStep`.
- The display size from the screen library is a constructor parameter of `ScreenRecorder`.
- The video writer's encoding, codec, frame rate and file output are not modelled. The writer is the sequence of frames handed to it plus a finalised flag.
- The microphone call returns the 4410 requested samples. `AudioLoopStep` takes that block as its argument, and its requirement that the block has 4410 samples stands for this guarantee.
- Writing the WAV file is not modelled. `SaveAudio` returns the file's name, samples and rate.
- Samples are exact reals, not float32. `Audio.ProcessChunk` and `Audio.VolumeIsLinear` are idealised: float rounding is not modelled.
- Logging (`print`) is not modelled.
- Filenames.Replace: requires a non-empty pattern. Python's empty-pattern case is not modelled, because the recorder only passes ".avi".
- The window (src/ui.py), the region selector (src/utils.py) and the entry point (src/app.py) are not part of this model.
