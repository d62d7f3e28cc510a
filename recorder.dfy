/**
 * The `ScreenRecorder` of the recording utility, with its threads, screen grabber,
 * video encoder and microphone abstracted away.
 *
 * The recorder thread's frame loop and the microphone thread's audio loop are each
 * modelled by one step method per loop iteration; the control methods called from the
 * window set the two flags and the audio settings. Runs of several calls are described
 * by a trace of `Event`s and the pure `Apply`/`Replay` functions that the step and
 * control methods are proved to follow.
 */
module Recorder {
  import opened Options
  import Audio

  /** A capture rectangle in screen pixels, as `(x, y, width, height)`. */
  datatype Region = Region(x: int, y: int, width: int, height: int)

  /** Frame dimensions `(width, height)`. */
  datatype Size = Size(width: int, height: int)

  /**
   * `_get_screen_size`: the size of the region when one is given, otherwise the size of
   * the display (which the recorder asks the screen library for; here a parameter).
   */
  function GetScreenSize(region: Option<Region>, display: Size): (r: Size)
    ensures region.Some? ==> r.width == region.value.width && r.height == region.value.height
    ensures region.None? ==> r == display
  {
    match region
    case Some(Region(_, _, width, height)) => Size(width, height)
    case None => display
  }

  /** The two flags the loops poll: `is_recording` and `is_paused`. */
  datatype Control = Control(recording: bool, paused: bool)

  /** `pause_recording`: sets the pause flag, only while recording and not yet paused. */
  function Pause(c: Control): (r: Control)
    ensures r.recording == c.recording
    ensures r.paused <==> c.paused || c.recording
    ensures r != c <==> c.recording && !c.paused
  {
    if c.recording && !c.paused then c.(paused := true) else c
  }

  /** `resume_recording`: clears the pause flag, only while recording and paused. */
  function Resume(c: Control): (r: Control)
    ensures r.recording == c.recording
    ensures r.paused <==> c.paused && !c.recording
    ensures r != c <==> c.recording && c.paused
  {
    if c.recording && c.paused then c.(paused := false) else c
  }

  /** `stop_recording`: clears the recording flag if set; the pause flag is left alone. */
  function Stop(c: Control): (r: Control)
    ensures !r.recording
    ensures r.paused == c.paused
    ensures r != c <==> c.recording
  {
    if c.recording then c.(recording := false) else c
  }

  /** Pausing a running recording and resuming it gives back the flags it had. */
  lemma PauseThenResume(c: Control)
    requires c.recording && !c.paused
    ensures Pause(c).paused
    ensures Resume(Pause(c)) == c
  {
  }

  /** Resuming a paused recording and pausing it again gives back the flags it had. */
  lemma ResumeThenPause(c: Control)
    requires c.recording && c.paused
    ensures !Resume(c).paused
    ensures Pause(Resume(c)) == c
  {
  }

  /** Stopping twice is stopping once. */
  lemma StopIdempotent(c: Control)
    ensures Stop(Stop(c)) == Stop(c)
  {
  }

  /**
   * Once the recording flag is down, no control method changes anything: in particular a
   * recording stopped while paused keeps its pause flag set for good.
   */
  lemma ControlsInertWhenNotRecording(c: Control)
    requires !c.recording
    ensures Pause(c) == c && Resume(c) == c && Stop(c) == c
  {
  }

  /**
   * What the recorder's state holds, as values: the flags, the audio settings, the frames
   * handed to the video writer so far and the chunk list `audio_frames`.
   */
  datatype Snapshot<F> = Snapshot(
    control: Control,
    micEnabled: bool,
    volume: real,
    noiseReduction: bool,
    written: seq<F>,
    chunks: seq<Audio.Chunk>)

  /** One call into the recorder, or one iteration of one of its two loops. */
  datatype Event<F> =
    | RunStarted                          // `run` up to its loop: writer opened, flag raised
    | FrameIteration(frame: F)            // the frame loop's test and body, with the frame it would grab
    | AudioIteration(raw: Audio.Chunk)    // the audio loop's test and body, with the block it would record
    | PauseCalled
    | ResumeCalled
    | StopCalled
    | VolumeSet(volume: real)
    | NoiseReductionSet(enabled: bool)

  /** The state after one event. Frames and chunks are only ever appended, one at a time. */
  function Apply<F>(s: Snapshot<F>, e: Event<F>): (r: Snapshot<F>)
    ensures r.micEnabled == s.micEnabled
    ensures !e.RunStarted? ==> |s.written| <= |r.written| <= |s.written| + 1 && r.written[..|s.written|] == s.written
    ensures !e.RunStarted? ==> |s.chunks| <= |r.chunks| <= |s.chunks| + 1 && r.chunks[..|s.chunks|] == s.chunks
  {
    match e
    case RunStarted =>
      s.(control := s.control.(recording := true),
         written := [],
         chunks := if s.micEnabled then [] else s.chunks)
    case FrameIteration(frame) =>
      if s.control.recording && !s.control.paused then s.(written := s.written + [frame]) else s
    case AudioIteration(raw) =>
      if s.control.recording && s.micEnabled
      then s.(chunks := s.chunks + [Audio.ProcessChunk(raw, s.volume, s.noiseReduction)])
      else s
    case PauseCalled => s.(control := Pause(s.control))
    case ResumeCalled => s.(control := Resume(s.control))
    case StopCalled => s.(control := Stop(s.control))
    case VolumeSet(volume) => s.(volume := volume)
    case NoiseReductionSet(enabled) => s.(noiseReduction := enabled)
  }

  /**
   * The state after a whole trace of events, in order. The microphone setting never
   * changes, and without a run start the frames and chunks only grow at the end.
   */
  function Replay<F>(s: Snapshot<F>, es: seq<Event<F>>): (r: Snapshot<F>)
    ensures r.micEnabled == s.micEnabled
    ensures NoRunStart(es) ==> |s.written| <= |r.written| && r.written[..|s.written|] == s.written
    ensures NoRunStart(es) ==> |s.chunks| <= |r.chunks| && r.chunks[..|s.chunks|] == s.chunks
    decreases |es|
  {
    if es == [] then s else Replay(Apply(s, es[0]), es[1..])
  }

  /**
   * The frames offered to the frame-loop iterations of a trace, in trace order. Only the
   * iterations that run while recording and not paused actually grab theirs.
   */
  function Captured<F>(es: seq<Event<F>>): seq<F>
    decreases |es|
  {
    if es == [] then []
    else (if es[0].FrameIteration? then [es[0].frame] else []) + Captured(es[1..])
  }

  /** How many audio-loop iterations a trace holds. */
  function AudioIterations<F>(es: seq<Event<F>>): nat
    decreases |es|
  {
    if es == [] then 0 else (if es[0].AudioIteration? then 1 else 0) + AudioIterations(es[1..])
  }

  /**
   * The chunks the audio-loop iterations of a trace would store, each processed with the
   * volume and noise-reduction setting in force at that point; the flags play no part.
   */
  function Processed<F>(volume: real, noiseReduction: bool, es: seq<Event<F>>): (r: seq<Audio.Chunk>)
    ensures |r| == AudioIterations(es)
    decreases |es|
  {
    if es == [] then []
    else match es[0]
      case AudioIteration(raw) =>
        [Audio.ProcessChunk(raw, volume, noiseReduction)] + Processed(volume, noiseReduction, es[1..])
      case VolumeSet(v) => Processed(v, noiseReduction, es[1..])
      case NoiseReductionSet(enabled) => Processed(volume, enabled, es[1..])
      case _ => Processed(volume, noiseReduction, es[1..])
  }

  /** Every block the audio loop records in a trace has `ChunkSamples` samples. */
  predicate FullBlocks<F>(es: seq<Event<F>>) {
    forall i :: 0 <= i < |es| && es[i].AudioIteration? ==> |es[i].raw| == Audio.ChunkSamples
  }

  /** The flags after one event: only a run start and the three control calls touch them. */
  function ControlAfter<F>(c: Control, e: Event<F>): Control {
    match e
    case RunStarted => c.(recording := true)
    case PauseCalled => Pause(c)
    case ResumeCalled => Resume(c)
    case StopCalled => Stop(c)
    case _ => c
  }

  /** The frame one event has the frame loop grab under the flags `c`, if any. */
  function FrameGrabbed<F>(c: Control, e: Event<F>): seq<F> {
    if e.FrameIteration? && c.recording && !c.paused then [e.frame] else []
  }

  /** Apart from a run start, `Apply` hands the writer exactly the frame the event grabs. */
  lemma ApplyWritten<F>(s: Snapshot<F>, e: Event<F>)
    requires !e.RunStarted?
    ensures Apply(s, e).written == s.written + FrameGrabbed(s.control, e)
  {
  }

  /** `Apply` moves the flags as `ControlAfter` says, whatever the rest of the state. */
  lemma ApplyControl<F>(s: Snapshot<F>, e: Event<F>)
    ensures Apply(s, e).control == ControlAfter(s.control, e)
  {
  }

  /**
   * The frames the frame loop grabs in a trace, starting from the flags `c`: those of the
   * iterations that find the recording running and not paused, with the flags following
   * each control call.
   */
  function LiveFrames<F>(c: Control, es: seq<Event<F>>): seq<F>
    decreases |es|
  {
    if es == [] then []
    else
      FrameGrabbed(c, es[0]) + LiveFrames(ControlAfter(c, es[0]), es[1..])
  }

  /** `w` is `v` with some elements left out, the rest in their original order. */
  ghost predicate IsSubsequence<T>(w: seq<T>, v: seq<T>)
    decreases |v|
  {
    if w == [] then true
    else if v == [] then false
    else (w[0] == v[0] && IsSubsequence(w[1..], v[1..])) || IsSubsequence(w, v[1..])
  }

  predicate NoRunStart<F>(es: seq<Event<F>>) {
    forall i :: 0 <= i < |es| ==> !es[i].RunStarted?
  }

  /** The events that neither start, pause, resume nor stop the recording. */
  predicate OnlyLoopsAndSettings<F>(es: seq<Event<F>>) {
    forall i :: 0 <= i < |es| ==>
      es[i].FrameIteration? || es[i].AudioIteration? || es[i].VolumeSet? || es[i].NoiseReductionSet?
  }

  /**
   * Once the recording flag is down, and unless a run starts, neither loop writes
   * anything more: the frames, the chunks and the lowered flag stay as they are whatever
   * else is called.
   */
  lemma {:induction false} NothingWrittenAfterStop<F>(s: Snapshot<F>, es: seq<Event<F>>)
    requires !s.control.recording && NoRunStart(es)
    ensures !Replay(s, es).control.recording
    ensures Replay(s, es).written == s.written && Replay(s, es).chunks == s.chunks
    decreases |es|
  {
    if es != [] {
      NothingWrittenAfterStop(Apply(s, es[0]), es[1..]);
    }
  }

  /**
   * While paused, the number of written frames does not grow: with no resume the frames
   * stay as they are, whatever the frame loop grabs.
   */
  lemma {:induction false} PausedWritesNoFrames<F>(s: Snapshot<F>, es: seq<Event<F>>)
    requires s.control.paused && NoRunStart(es)
    requires forall i :: 0 <= i < |es| ==> !es[i].ResumeCalled?
    ensures Replay(s, es).control.paused
    ensures Replay(s, es).written == s.written
    decreases |es|
  {
    if es != [] {
      PausedWritesNoFrames(Apply(s, es[0]), es[1..]);
    }
  }

  /**
   * While recording and not paused, every offered frame is written, in trace order: the
   * frame count grows by exactly the number of frame-loop iterations.
   */
  lemma {:induction false} LiveRecordingWritesEveryFrame<F>(s: Snapshot<F>, es: seq<Event<F>>)
    requires s.control == Control(true, false) && OnlyLoopsAndSettings(es)
    ensures Replay(s, es).control == s.control
    ensures Replay(s, es).written == s.written + Captured(es)
    decreases |es|
  {
    if es != [] {
      var e := es[0];
      var s' := Apply(s, e);
      assert s'.control == s.control;
      assert OnlyLoopsAndSettings(es[1..]) by {
        forall i | 0 <= i < |es[1..]| ensures es[1..][i] == es[i + 1] { }
      }
      LiveRecordingWritesEveryFrame(s', es[1..]);
      if e.FrameIteration? {
        assert s'.written == s.written + [e.frame];
        assert Captured(es) == [e.frame] + Captured(es[1..]);
      } else {
        assert s'.written == s.written;
        assert Captured(es) == Captured(es[1..]);
      }
    }
  }

  /**
   * Whatever the flags do in between, the frames written during a run are some of the
   * offered frames, in trace order, after the ones written before.
   */
  lemma {:induction false} FramesWrittenInCaptureOrder<F>(s: Snapshot<F>, es: seq<Event<F>>)
    requires NoRunStart(es)
    ensures |s.written| <= |Replay(s, es).written|
    ensures Replay(s, es).written[..|s.written|] == s.written
    ensures IsSubsequence(Replay(s, es).written[|s.written|..], Captured(es))
    decreases |es|
  {
    if es != [] {
      var s' := Apply(s, es[0]);
      FramesWrittenInCaptureOrder(s', es[1..]);
      var all := Replay(s, es).written;
      var rest := all[|s'.written|..];
      assert all[..|s'.written|] == s'.written;
      if s'.written == s.written {
        assert all[|s.written|..] == rest;
        SubsequenceOfLonger(rest, Captured(es[1..]), Captured(es));
      } else {
        var f := es[0].frame;
        assert s'.written == s.written + [f];
        assert all[|s.written|..] == [f] + rest;
        assert all[..|s.written|] == s'.written[..|s.written|];
        assert Captured(es) == [f] + Captured(es[1..]);
        assert ([f] + rest)[1..] == rest;
      }
    }
  }

  /**
   * Within a run, the video writer receives exactly the frames the frame loop grabs, in
   * the order it grabs them, after the frames written before.
   */
  lemma {:induction false} WrittenFramesAreLiveFrames<F>(s: Snapshot<F>, es: seq<Event<F>>)
    requires NoRunStart(es)
    ensures Replay(s, es).written == s.written + LiveFrames(s.control, es)
    decreases |es|
  {
    if es != [] {
      var e, s' := es[0], Apply(s, es[0]);
      assert NoRunStart(es[1..]) by {
        forall i | 0 <= i < |es[1..]| ensures es[1..][i] == es[i + 1] { }
      }
      ApplyControl(s, e);
      WrittenFramesAreLiveFrames(s', es[1..]);
      var rest := LiveFrames(s'.control, es[1..]);
      var head := FrameGrabbed(s.control, e);
      ApplyWritten(s, e);
      assert s.written + head + rest == s.written + (head + rest);
    }
  }

  /**
   * A stop that comes before the run raises its flag is lost: the run then records on.
   * This is the order in which `stop_recording` fails its guard before `run` sets
   * `is_recording`, with nothing left to stop the recording afterwards.
   */
  lemma StopBeforeRunIsLost<F>(f: F)
    ensures var s := Replay(Snapshot(Control(false, false), true, 1.0, false, [], []),
                            [StopCalled, RunStarted, FrameIteration(f)]);
            s.control.recording && s.written == [f]
  {
    var s0: Snapshot<F> := Snapshot(Control(false, false), true, 1.0, false, [], []);
    var es := [StopCalled, RunStarted, FrameIteration(f)];
    var s1 := Apply(s0, StopCalled);
    var s2 := Apply(s1, RunStarted);
    var s3 := Apply(s2, FrameIteration(f));
    assert s1 == s0;
    assert s2.control == Control(true, false) && s2.written == [];
    assert s3.written == [f];
    assert es[1..][1..][1..] == [];
    assert Replay(s0, es) == Replay(s1, es[1..]) == Replay(s2, es[1..][1..]) == Replay(s3, []);
  }

  /** A subsequence of a suffix is a subsequence of the whole. */
  lemma {:induction false} SubsequenceOfLonger<T>(w: seq<T>, v: seq<T>, u: seq<T>)
    requires IsSubsequence(w, v)
    requires |u| >= |v| && u[|u| - |v|..] == v
    ensures IsSubsequence(w, u)
    decreases |u| - |v|
  {
    if |u| > |v| {
      assert u[1..][|u[1..]| - |v|..] == v;
      SubsequenceOfLonger(w, v, u[1..]);
    } else {
      assert u == v;
    }
  }

  /**
   * The audio loop does not look at the pause flag: until the recording is stopped, the
   * earlier chunks are kept and every audio-loop iteration appends its processed block,
   * paused or not, in capture order.
   */
  lemma {:induction false} AudioIgnoresPause<F>(s: Snapshot<F>, es: seq<Event<F>>)
    requires s.control.recording && s.micEnabled && NoRunStart(es)
    requires forall i :: 0 <= i < |es| ==> !es[i].StopCalled?
    ensures Replay(s, es).control.recording
    ensures Replay(s, es).chunks == s.chunks + Processed(s.volume, s.noiseReduction, es)
    decreases |es|
  {
    if es != [] {
      var s' := Apply(s, es[0]);
      AudioIgnoresPause(s', es[1..]);
      var rest := Processed(s'.volume, s'.noiseReduction, es[1..]);
      if es[0].AudioIteration? {
        var c := Audio.ProcessChunk(es[0].raw, s.volume, s.noiseReduction);
        assert s'.chunks == s.chunks + [c];
        assert Processed(s.volume, s.noiseReduction, es) == [c] + rest;
        assert s.chunks + [c] + rest == s.chunks + ([c] + rest);
      } else {
        assert s'.chunks == s.chunks;
        assert Processed(s.volume, s.noiseReduction, es) == rest;
      }
    }
  }

  /**
   * When every recorded block has `ChunkSamples` samples, so does every stored chunk, and
   * the chunks hold `ChunkSamples` times their count: the length of the saved audio.
   */
  lemma {:induction false} ChunksKeepBlockSize<F>(s: Snapshot<F>, es: seq<Event<F>>)
    requires Audio.UniformChunks(s.chunks) && FullBlocks(es)
    ensures Audio.UniformChunks(Replay(s, es).chunks)
    ensures Audio.TotalSamples(Replay(s, es).chunks) == Audio.ChunkSamples * |Replay(s, es).chunks|
    decreases |es|
  {
    if es != [] {
      var s' := Apply(s, es[0]);
      assert Audio.UniformChunks(s'.chunks);
      ChunksKeepBlockSize(s', es[1..]);
    } else {
      Audio.UniformChunksTotal(s.chunks);
    }
  }

  /** The recorder object, with the fields its methods and its threads update. */
  class ScreenRecorder<F> {
    const filename: string
    const fps: int
    const region: Option<Region>
    const screenSize: Size
    const micEnabled: bool
    var isRecording: bool
    var isPaused: bool
    var micVolume: real
    var noiseReduction: bool
    /** The frames handed to the video writer since it was opened. */
    var written: seq<F>
    /** Whether the video writer has been released, completing the video file. */
    var finalized: bool
    /** `audio_frames`: the processed chunks, in capture order. */
    var audioFrames: seq<Audio.Chunk>

    /** The state as a value, for the trace model. */
    function State(): Snapshot<F>
      reads this
    {
      Snapshot(Control(isRecording, isPaused), micEnabled, micVolume, noiseReduction, written, audioFrames)
    }

    /** The invariant of the chunk list: every stored chunk is one full 4410-sample block. */
    predicate Valid()
      reads this
    {
      Audio.UniformChunks(audioFrames)
    }

    /** `__init__`: nothing recorded, both flags down, the frame size fixed from the region. */
    constructor (filename: string, display: Size, fps: int := 10, region: Option<Region> := None,
                 micEnabled: bool := true, micVolume: real := 1.0, noiseReduction: bool := false)
      ensures this.filename == filename && this.fps == fps && this.region == region
      ensures screenSize == GetScreenSize(region, display)
      ensures this.micEnabled == micEnabled && this.micVolume == micVolume
      ensures this.noiseReduction == noiseReduction
      ensures !isRecording && !isPaused
      ensures written == [] && audioFrames == [] && !finalized
      ensures Valid()
    {
      this.filename := filename;
      this.fps := fps;
      this.region := region;
      this.screenSize := GetScreenSize(region, display);
      this.micEnabled := micEnabled;
      this.micVolume := micVolume;
      this.noiseReduction := noiseReduction;
      isRecording := false;
      isPaused := false;
      written := [];
      finalized := false;
      audioFrames := [];
    }

    /**
     * `run` up to its loop: a fresh video writer, the chunk list emptied when the
     * microphone is on, then the recording flag raised. The pause flag is not touched.
     */
    method BeginRun()
      requires Valid()
      modifies this`written, this`finalized, this`audioFrames, this`isRecording
      ensures Valid()
      ensures State() == Apply(old(State()), RunStarted)
      ensures isRecording && isPaused == old(isPaused)
      ensures written == [] && !finalized
      ensures audioFrames == if micEnabled then [] else old(audioFrames)
    {
      written := [];
      finalized := false;
      if micEnabled {
        audioFrames := [];
      }
      isRecording := true;
    }

    /**
     * One pass of the frame loop: the loop test, then either a pause (nothing written)
     * or one grabbed frame handed to the writer. `running` is the loop test's verdict.
     */
    method FrameLoopStep(frame: F) returns (running: bool)
      modifies this`written
      ensures running == isRecording
      ensures State() == Apply(old(State()), FrameIteration(frame))
      ensures written == if isRecording && !isPaused then old(written) + [frame] else old(written)
    {
      running := isRecording;
      if running && !isPaused {
        written := written + [frame];
      }
    }

    /**
     * One pass of the audio loop: the loop test, then one block of `ChunkSamples`
     * samples (the size the loop asks the microphone for) scaled, filtered and appended.
     * The pause flag plays no part.
     */
    method AudioLoopStep(raw: Audio.Chunk) returns (running: bool)
      requires micEnabled
      requires |raw| == Audio.ChunkSamples
      requires Valid()
      modifies this`audioFrames
      ensures Valid()
      ensures running == isRecording
      ensures State() == Apply(old(State()), AudioIteration(raw))
      ensures audioFrames == if isRecording
        then old(audioFrames) + [Audio.ProcessChunk(raw, micVolume, noiseReduction)]
        else old(audioFrames)
    {
      running := isRecording;
      if running {
        audioFrames := audioFrames + [Audio.ProcessChunk(raw, micVolume, noiseReduction)];
      }
    }

    /**
     * `run` after its loop, which it leaves only once the recording flag is down: the
     * writer is released, and with the microphone on the audio is saved (`save_audio`);
     * `audio` is the audio file written, if any, with 4410 samples per stored chunk.
     */
    method FinishRun() returns (audio: Option<Audio.AudioFile>)
      requires !isRecording && Valid()
      modifies this`finalized
      ensures finalized
      ensures audio == if micEnabled then Audio.SaveAudio(filename, audioFrames) else None
      ensures audio.Some? ==> |audio.value.samples| == Audio.ChunkSamples * |audioFrames|
    {
      Audio.UniformChunksTotal(audioFrames);
      finalized := true;
      if micEnabled {
        audio := Audio.SaveAudio(filename, audioFrames);
      } else {
        audio := None;
      }
    }

    /** `pause_recording`. */
    method PauseRecording()
      modifies this`isPaused
      ensures Control(isRecording, isPaused) == Pause(old(Control(isRecording, isPaused)))
      ensures State() == Apply(old(State()), PauseCalled)
    {
      if isRecording && !isPaused {
        isPaused := true;
      }
    }

    /** `resume_recording`. */
    method ResumeRecording()
      modifies this`isPaused
      ensures Control(isRecording, isPaused) == Resume(old(Control(isRecording, isPaused)))
      ensures State() == Apply(old(State()), ResumeCalled)
    {
      if isRecording && isPaused {
        isPaused := false;
      }
    }

    /** `stop_recording`: both loops see the lowered flag at their next test. */
    method StopRecording()
      modifies this`isRecording
      ensures Control(isRecording, isPaused) == Stop(old(Control(isRecording, isPaused)))
      ensures State() == Apply(old(State()), StopCalled)
    {
      if isRecording {
        isRecording := false;
      }
    }

    /** `set_mic_volume`: the value is stored as given, without clamping to [0, 1]. */
    method SetMicVolume(volume: real)
      modifies this`micVolume
      ensures micVolume == volume
      ensures State() == Apply(old(State()), VolumeSet(volume))
    {
      micVolume := volume;
    }

    /** `set_noise_reduction`. */
    method SetNoiseReduction(enabled: bool)
      modifies this`noiseReduction
      ensures noiseReduction == enabled
      ensures State() == Apply(old(State()), NoiseReductionSet(enabled))
    {
      noiseReduction := enabled;
    }
  }
}
