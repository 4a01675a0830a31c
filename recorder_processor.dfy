/** The audio-worklet `RecorderProcessor` of
    app/lib/audio-worklet/recorder-processor.ts. Each render quantum yields a
    message holding the source samples and, once the converter exists, the
    formants of the resampled audio. Chunks are accumulated until they make
    up one standard chunk at the output rate, then merged and converted in
    one call. Formants are suppressed after more than five quiet chunks in a row. */
module Recorder {
  import opened Wrappers
  import SampleAccumulator
  import Dsp
  import Resampling

  /** Silence threshold on the chunk energy. */
  const QuietEnergy: real := 0.01
  /** Formants stop once `quietNumber` exceeds this. */
  const MaxQuietChunks: nat := 5

  /** The processor's message; its `type` is always `'data'`. */
  datatype Message = Message(kind: string, sourceSamples: seq<real>, formants: Option<Dsp.FormantData>)

  /** The squares of all samples, summed. */
  function SumOfSquares(s: seq<real>): real
  {
    if s == [] then 0.0 else SumOfSquares(s[..|s| - 1]) + s[|s| - 1] * s[|s| - 1]
  }

  /** `samples.reduce((prev, curr) => prev + curr ** 2)` with no seed: the
      accumulator starts at the first sample itself, which is never squared,
      so the result differs from the sum of squares exactly in its first term. */
  function Energy(s: seq<real>): (r: real)
    requires s != []
    ensures r == SumOfSquares(s) - s[0] * s[0] + s[0]
  {
    if |s| == 1 then
      assert s[..0] == [];
      s[0]
    else
      var init := s[..|s| - 1];
      assert init[0] == s[0];
      Energy(init) + s[|s| - 1] * s[|s| - 1]
  }

  /** A chunk whose first sample is negative can count as quiet however loud
      the rest is, when that sample outweighs the remaining squares. */
  lemma NegativeFirstSampleCanMaskEnergy()
    ensures Energy([-1.0, 0.5]) <= QuietEnergy
    ensures SumOfSquares([-1.0, 0.5]) > QuietEnergy
  {
    assert [-1.0, 0.5][..1] == [-1.0];
    assert [-1.0, 0.5][..1][..0] == [];
  }

  /** The quiet counter's update for one chunk. */
  function NextQuiet(quietNumber: nat, energy: real): (r: nat)
    ensures energy <= QuietEnergy <==> r == quietNumber + 1
    ensures energy > QuietEnergy <==> r == 0
  {
    if energy <= QuietEnergy then quietNumber + 1 else 0
  }

  /** The counter after a run of chunk energies. */
  function QuietAfter(quietNumber: nat, energies: seq<real>): nat
  {
    if energies == [] then quietNumber
    else NextQuiet(QuietAfter(quietNumber, energies[..|energies| - 1]), energies[|energies| - 1])
  }

  /** After a trailing run of k quiet chunks the counter is at least k, so
      six quiet chunks in a row close the gate. */
  lemma {:induction false} QuietCountsTrailingRun(quietNumber: nat, energies: seq<real>, k: nat)
    requires k <= |energies|
    requires forall i :: |energies| - k <= i < |energies| ==> energies[i] <= QuietEnergy
    ensures QuietAfter(quietNumber, energies) >= k
  {
    if k > 0 {
      QuietCountsTrailingRun(quietNumber, energies[..|energies| - 1], k - 1);
    }
  }

  lemma GateClosesAfterSixQuietChunks(quietNumber: nat, energies: seq<real>)
    requires |energies| >= MaxQuietChunks + 1
    requires forall i :: |energies| - (MaxQuietChunks + 1) <= i < |energies| ==> energies[i] <= QuietEnergy
    ensures QuietAfter(quietNumber, energies) > MaxQuietChunks
  {
    QuietCountsTrailingRun(quietNumber, energies, MaxQuietChunks + 1);
  }

  lemma GateReopensAfterLoudChunk(quietNumber: nat, energies: seq<real>, energy: real)
    requires energy > QuietEnergy
    ensures QuietAfter(quietNumber, energies + [energy]) == 0
  {
    assert (energies + [energy])[..|energies|] == energies;
  }

  /** What `getFormants` returns for a resampled chunk, paired with the
      quiet counter after it. */
  function FormantsStep(kernels: Dsp.Kernels, quietNumber: nat, resampledSamples: Option<Resampling.Resampled>)
    : (Outcome<Option<Dsp.FormantData>>, nat)
  {
    match resampledSamples
    case None => (Returned(None), quietNumber)
    case Some(chunk) =>
      if chunk.samples == [] then (Threw, quietNumber)
      else
        var q := NextQuiet(quietNumber, Energy(chunk.samples));
        if q > MaxQuietChunks then (Returned(None), q)
        else (Returned(Some(Dsp.FormantsOf(kernels, chunk.samples, chunk.sampleRate))), q)
  }

  class RecorderProcessor {
    /** The worklet's global `sampleRate`. */
    const sampleRate: real
    /** The application's `outputSampleRate`. */
    const outputSampleRate: real
    /** The application's `CHUNK_SIZE`. */
    const chunkSize: real
    const kernels: Dsp.Kernels
    var quietNumber: nat
    var storedBuffers: seq<seq<real>>
    var storedBuffersLength: nat
    var src: Option<Resampling.Converter>

    /** `storedBuffersLength` is the total length of the stored chunks. */
    ghost predicate Valid()
      reads this
    {
      && 0.0 < sampleRate
      && storedBuffersLength == SampleAccumulator.TotalLength(storedBuffers)
    }

    /** `numResampledChunksInStandardChunk`. */
    function Threshold(): real
      reads this
      requires Valid()
    {
      chunkSize * outputSampleRate / sampleRate
    }

    /** What `resample` returns for a chunk, paired with the stored chunks after it. */
    function ResampleStep(samples: seq<real>): (Option<Resampling.Resampled>, seq<seq<real>>)
      reads this
      requires Valid()
    {
      if sampleRate <= outputSampleRate then (Some(Resampling.Resampled(samples, sampleRate)), storedBuffers)
      else if src.None? then (None, storedBuffers)
      else
        var all := storedBuffers + [samples];
        if (SampleAccumulator.TotalLength(all) as real) < Threshold() then (None, all)
        else (Some(Resampling.Resampled(src.value(SampleAccumulator.Concat(all)), outputSampleRate)), [])
    }

    constructor (sampleRate: real, outputSampleRate: real, chunkSize: real, kernels: Dsp.Kernels)
      requires 0.0 < sampleRate
      ensures Valid()
      ensures this.sampleRate == sampleRate && this.outputSampleRate == outputSampleRate
      ensures this.chunkSize == chunkSize && this.kernels == kernels
      ensures quietNumber == 0 && storedBuffers == [] && storedBuffersLength == 0 && src.None?
    {
      this.sampleRate := sampleRate;
      this.outputSampleRate := outputSampleRate;
      this.chunkSize := chunkSize;
      this.kernels := kernels;
      quietNumber := 0;
      storedBuffers := [];
      storedBuffersLength := 0;
      src := None;
    }

    /** The continuation of `init`: the converter from the worklet rate to
        the output rate has been created. */
    method Init(created: Resampling.Converter)
      requires Valid()
      modifies this
      ensures Valid()
      ensures src == Some(created)
      ensures quietNumber == old(quietNumber) && storedBuffers == old(storedBuffers)
      ensures storedBuffersLength == old(storedBuffersLength)
    {
      src := Some(created);
    }

    /** Pass-through when the worklet rate is not above the output rate;
        otherwise accumulate, and convert the merged chunks once they reach
        the threshold, emptying the store. */
    method Resample(samples: seq<real>) returns (r: Option<Resampling.Resampled>)
      requires Valid()
      modifies this
      ensures Valid()
      ensures quietNumber == old(quietNumber) && src == old(src)
      ensures sampleRate <= outputSampleRate ==>
        r == Some(Resampling.Resampled(samples, sampleRate)) && storedBuffers == old(storedBuffers)
      ensures sampleRate > outputSampleRate && src.None? ==>
        r.None? && storedBuffers == old(storedBuffers)
      ensures sampleRate > outputSampleRate && src.Some? ==>
        var all := old(storedBuffers) + [samples];
        if (SampleAccumulator.TotalLength(all) as real) < Threshold()
        then r.None? && storedBuffers == all
        else r == Some(Resampling.Resampled(src.value(SampleAccumulator.Concat(all)), outputSampleRate))
             && storedBuffers == []
      ensures (r, storedBuffers) == old(ResampleStep(samples))
    {
      if sampleRate <= outputSampleRate {
        return Some(Resampling.Resampled(samples, sampleRate));
      }
      if src.None? {
        return None;
      }
      storedBuffersLength := storedBuffersLength + |samples|;
      storedBuffers := storedBuffers + [samples];
      assert storedBuffers[..|storedBuffers| - 1] == old(storedBuffers);
      if (storedBuffersLength as real) < Threshold() {
        return None;
      }
      var buffer := src.value(SampleAccumulator.Concat(storedBuffers));
      storedBuffersLength := 0;
      storedBuffers := [];
      r := Some(Resampling.Resampled(buffer, outputSampleRate));
    }

    /** Updates the quiet counter from the chunk energy and estimates the
        formants unless the counter exceeds five. An empty chunk makes the
        unseeded reduce throw. */
    method GetFormants(resampledSamples: Option<Resampling.Resampled>) returns (r: Outcome<Option<Dsp.FormantData>>)
      requires Valid()
      modifies this
      ensures Valid()
      ensures storedBuffers == old(storedBuffers) && storedBuffersLength == old(storedBuffersLength)
      ensures src == old(src)
      ensures resampledSamples.None? ==> r == Returned(None) && quietNumber == old(quietNumber)
      ensures resampledSamples.Some? && resampledSamples.value.samples == [] ==>
        r.Threw? && quietNumber == old(quietNumber)
      ensures resampledSamples.Some? && resampledSamples.value.samples != [] ==>
        var samples, rate := resampledSamples.value.samples, resampledSamples.value.sampleRate;
        && quietNumber == NextQuiet(old(quietNumber), Energy(samples))
        && r == if quietNumber > MaxQuietChunks then Returned(None)
                else Returned(Some(Dsp.FormantsOf(kernels, samples, rate)))
      ensures (r, quietNumber) == FormantsStep(kernels, old(quietNumber), resampledSamples)
    {
      if resampledSamples.None? {
        return Returned(None);
      }
      var samples, rate := resampledSamples.value.samples, resampledSamples.value.sampleRate;
      if samples == [] {
        return Threw;
      }
      var energy := Energy(samples);
      quietNumber := if energy <= QuietEnergy then quietNumber + 1 else 0;
      if quietNumber > MaxQuietChunks {
        return Returned(None);
      }
      var copy := new real[|samples|](i requires 0 <= i < |samples| => samples[i]);
      assert copy[..] == samples;
      var formants := Dsp.ComputeFormantsBase(kernels, copy, rate);
      r := Returned(Some(formants));
    }

    /** Reads channel 0 of input 0 (which throws when there is no input at
        all), returns no message when the input has no channels, omits the
        formants while the converter does not exist, and otherwise attaches
        the formants of the resampled chunk. */
    method CreateMessage(inputs: seq<seq<seq<real>>>) returns (r: Outcome<Option<Message>>)
      requires Valid()
      modifies this
      ensures Valid()
      ensures inputs == [] ==> r.Threw?
      ensures inputs != [] && inputs[0] == [] ==> r == Returned(None)
      ensures inputs != [] && inputs[0] != [] && old(src).None? ==>
        r == Returned(Some(Message("data", inputs[0][0], None)))
      ensures r.Returned? && r.value.Some? ==> r.value.value.sourceSamples == inputs[0][0]
      ensures inputs == [] || inputs[0] == [] || old(src).None? ==>
        quietNumber == old(quietNumber) && storedBuffers == old(storedBuffers) && src == old(src)
      ensures inputs != [] && inputs[0] != [] && old(src).Some? ==>
        var (resampled, stored) := old(ResampleStep(inputs[0][0]));
        var (formants, quiet) := FormantsStep(kernels, old(quietNumber), resampled);
        && storedBuffers == stored && quietNumber == quiet && src == old(src)
        && r == if formants.Threw? then Threw else Returned(Some(Message("data", inputs[0][0], formants.value)))
    {
      if inputs == [] {
        return Threw;
      }
      var input := inputs[0];
      if input == [] {
        return Returned(None);
      }
      var samples := input[0];
      if src.None? {
        return Returned(Some(Message("data", samples, None)));
      }
      var resampled := Resample(samples);
      var formants := GetFormants(resampled);
      if formants.Threw? {
        return Threw;
      }
      r := Returned(Some(Message("data", samples, formants.value)));
    }
  }
}
