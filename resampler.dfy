/** The `Resampler` of app/lib/Resampler.ts: a gate that either passes samples
    through at the input rate or hands them to a libsamplerate converter.
    The library is foreign code: a converter is a function on sample
    sequences, and the library's `create` is a constructor parameter. */
module Resampling {
  import opened Wrappers

  /** A sample-rate converter's `full`/`simple` call. */
  type Converter = seq<real> -> seq<real>

  datatype Resampled = Resampled(samples: seq<real>, sampleRate: real)

  class Resampler {
    const inputSampleRate: real
    const outputSampleRate: real
    /** libsamplerate's `create(1, from, to, {converterType})`, awaited. */
    const create: (real, real) -> Converter
    var resampler: Option<Converter>

    /** A converter only exists when it converts downwards. */
    ghost predicate Valid()
      reads this
    {
      resampler.Some? ==> outputSampleRate < inputSampleRate
    }

    constructor (inputSampleRate: real, outputSampleRate: real, create: (real, real) -> Converter)
      ensures Valid()
      ensures this.inputSampleRate == inputSampleRate && this.outputSampleRate == outputSampleRate
      ensures this.create == create
      ensures resampler.None?
    {
      this.inputSampleRate := inputSampleRate;
      this.outputSampleRate := outputSampleRate;
      this.create := create;
      resampler := None;
    }

    /** Creates the converter when the target rate is below the input rate.
        The converter is built with the application-wide output rate
        `moduleOutputSampleRate`, not with this object's `outputSampleRate`. */
    method Init(moduleOutputSampleRate: real)
      requires Valid()
      modifies this
      ensures Valid()
      ensures outputSampleRate < inputSampleRate ==>
        resampler == Some(create(inputSampleRate, moduleOutputSampleRate))
      ensures outputSampleRate >= inputSampleRate ==> resampler == old(resampler)
    {
      if outputSampleRate < inputSampleRate {
        resampler := Some(create(inputSampleRate, moduleOutputSampleRate));
      }
    }

    /** Pass-through tagged with the input rate, or the converted samples
        tagged with this object's output rate. Never tags a rate above the input rate. */
    method Resample(samples: seq<real>) returns (r: Resampled)
      requires Valid()
      ensures resampler.None? ==> r == Resampled(samples, inputSampleRate)
      ensures resampler.Some? ==> r == Resampled(resampler.value(samples), outputSampleRate)
      ensures r.sampleRate <= inputSampleRate
    {
      if resampler.None? {
        return Resampled(samples, inputSampleRate);
      }
      r := Resampled(resampler.value(samples), outputSampleRate);
    }
  }
}
