/**
 * The microphone side of the recorder: how one captured chunk is scaled and filtered,
 * and how `save_audio` turns the ordered chunk list into the companion audio file.
 * Samples are idealised as exact reals (the recorder uses float32 arrays).
 */
module Audio {
  import opened Options
  import Filenames

  /** Samples per second, for both capture and the written file. */
  const SampleRate: nat := 44100
  /** Samples per chunk: `int(0.1 * 44100)`, a 100 ms block (0.1 * 44100 rounds to 4410.0). */
  const ChunkSamples: nat := 4410
  /** The attenuation of the placeholder noise filter. */
  const NoiseReductionFactor: real := 0.8

  /** One mono block of samples. */
  type Chunk = seq<real>

  /** Every sample multiplied by `k` (numpy's elementwise `array * k`). */
  function Scale(samples: Chunk, k: real): (r: Chunk)
    ensures |r| == |samples|
    ensures forall i :: 0 <= i < |samples| ==> r[i] == samples[i] * k
  {
    seq(|samples|, i requires 0 <= i < |samples| => samples[i] * k)
  }

  /** `apply_dummy_noise_reduction`: the placeholder filter attenuates every sample by 0.8. */
  function ApplyDummyNoiseReduction(samples: Chunk): (r: Chunk)
    ensures |r| == |samples|
    ensures forall i :: 0 <= i < |samples| ==> r[i] == samples[i] * NoiseReductionFactor
  {
    Scale(samples, NoiseReductionFactor)
  }

  /**
   * What one audio-loop iteration stores for a captured block: scaled by the current
   * volume, then filtered when noise reduction is on.
   */
  function ProcessChunk(raw: Chunk, volume: real, noiseReduction: bool): (r: Chunk)
    ensures |r| == |raw|
    ensures forall i :: 0 <= i < |raw| ==>
      r[i] == if noiseReduction then raw[i] * volume * NoiseReductionFactor else raw[i] * volume
  {
    var scaled := Scale(raw, volume);
    if noiseReduction then ApplyDummyNoiseReduction(scaled) else scaled
  }

  /** Turning noise reduction on multiplies the stored chunk by the fixed factor and nothing else. */
  lemma NoiseReductionIsAttenuation(raw: Chunk, volume: real)
    ensures ProcessChunk(raw, volume, true) == Scale(ProcessChunk(raw, volume, false), NoiseReductionFactor)
  {
  }

  /** The volume acts linearly: a chunk at volume v is v times the same chunk at volume 1. */
  lemma VolumeIsLinear(raw: Chunk, volume: real, noiseReduction: bool)
    ensures ProcessChunk(raw, volume, noiseReduction) == Scale(ProcessChunk(raw, 1.0, noiseReduction), volume)
  {
    ScaleByOne(raw);
    if noiseReduction {
      ScaleTwice(raw, volume, NoiseReductionFactor);
      ScaleTwice(raw, NoiseReductionFactor, volume);
      assert volume * NoiseReductionFactor == NoiseReductionFactor * volume;
    }
  }

  /** Scaling by 1 changes nothing. */
  lemma ScaleByOne(s: Chunk)
    ensures Scale(s, 1.0) == s
  {
  }

  /** Scaling twice is scaling once by the product. */
  lemma ScaleTwice(s: Chunk, j: real, k: real)
    ensures Scale(Scale(s, j), k) == Scale(s, j * k)
  {
    forall i | 0 <= i < |s| ensures Scale(Scale(s, j), k)[i] == Scale(s, j * k)[i] {
      MulAssociates(s[i], j, k);
    }
  }

  lemma MulAssociates(x: real, j: real, k: real)
    ensures x * j * k == x * (j * k)
  {
  }

  /** The number of samples in all chunks together. */
  function TotalSamples(chunks: seq<Chunk>): nat
    decreases |chunks|
  {
    if chunks == [] then 0 else |chunks[0]| + TotalSamples(chunks[1..])
  }

  /**
   * `np.concatenate(chunks, axis=0)`: the chunks' samples one after another, as many as
   * all chunks hold together.
   */
  function Concat(chunks: seq<Chunk>): (r: Chunk)
    ensures |r| == TotalSamples(chunks)
    decreases |chunks|
  {
    if chunks == [] then [] else chunks[0] + Concat(chunks[1..])
  }

  /** A chunk appended to the list lands at the end of the concatenation. */
  lemma {:induction false} ConcatAppend(chunks: seq<Chunk>, c: Chunk)
    ensures Concat(chunks + [c]) == Concat(chunks) + c
    decreases |chunks|
  {
    if chunks == [] {
      assert chunks + [c] == [c];
    } else {
      assert (chunks + [c])[1..] == chunks[1..] + [c];
      ConcatAppend(chunks[1..], c);
    }
  }

  /** Sample `j` of chunk `k` sits in the concatenation right after the samples of chunks 0..k-1. */
  lemma {:induction false} ConcatSampleAt(chunks: seq<Chunk>, k: nat, j: nat)
    requires k < |chunks| && j < |chunks[k]|
    ensures TotalSamples(chunks[..k]) + j < |Concat(chunks)|
    ensures Concat(chunks)[TotalSamples(chunks[..k]) + j] == chunks[k][j]
    decreases k
  {
    if k > 0 {
      ConcatSampleAt(chunks[1..], k - 1, j);
      assert chunks[..k][1..] == chunks[1..][..k - 1];
    } else {
      assert chunks[..0] == [];
    }
  }

  /** Every chunk holds one full block of `ChunkSamples` samples. */
  predicate UniformChunks(chunks: seq<Chunk>) {
    forall k :: 0 <= k < |chunks| ==> |chunks[k]| == ChunkSamples
  }

  /** Chunks of the fixed block size add up to block size times chunk count. */
  lemma {:induction false} UniformChunksTotal(chunks: seq<Chunk>)
    requires UniformChunks(chunks)
    ensures TotalSamples(chunks) == ChunkSamples * |chunks|
    decreases |chunks|
  {
    if chunks != [] {
      UniformChunksTotal(chunks[1..]);
    }
  }

  /** A written audio file: its name, its samples and its sample rate. */
  datatype AudioFile = AudioFile(name: string, samples: Chunk, rate: nat)

  /**
   * `save_audio`: no chunks means no file (a warning only); otherwise the chunks,
   * concatenated in capture order, go to the name derived from the video filename.
   */
  function SaveAudio(videoFilename: string, chunks: seq<Chunk>): (r: Option<AudioFile>)
    ensures r.None? <==> chunks == []
    ensures r.Some? ==> r.value.name == Filenames.AudioFilename(videoFilename)
    ensures r.Some? ==> r.value.rate == SampleRate
    ensures r.Some? ==> r.value.samples == Concat(chunks) && |r.value.samples| == TotalSamples(chunks)
  {
    if chunks == [] then None
    else
      Some(AudioFile(Filenames.AudioFilename(videoFilename), Concat(chunks), SampleRate))
  }
}
