/** `AudioAnalyzer.computeAllFormants` of app/lib/AudioAnalyzer.ts: merge the
    recorded chunks, split the recording into word segments, then extract the
    formants of each segment. The speech recogniser and the extractor are
    supplied by the caller and left abstract; their promises are modelled by
    the values they resolve to. */
module Analysis {
  import SampleAccumulator
  import Dsp

  /** The audio context; only its sample rate is observed here. */
  datatype AudioContext = AudioContext(sampleRate: real)

  type Segmenter = (AudioContext, seq<real>) -> seq<Dsp.Segment>

  type FormantExtractor = (Dsp.Segment, seq<real>, real) -> Dsp.WordWithFormants

  datatype AudioAnalyzer = AudioAnalyzer(
    audioCtx: AudioContext,
    extractWordSegments: Segmenter,
    extractFormantsFromWords: FormantExtractor)
  {
    /** One extractor result per segment, in segment order; every extractor
        call sees the whole merged recording and the context's sample rate. */
    function ComputeAllFormants(recordedChunks: seq<seq<real>>): (r: seq<Dsp.WordWithFormants>)
      ensures var samples := SampleAccumulator.Concat(recordedChunks);
        var segments := extractWordSegments(audioCtx, samples);
        && |r| == |segments|
        && forall i :: 0 <= i < |segments| ==>
             r[i] == extractFormantsFromWords(segments[i], samples, audioCtx.sampleRate)
    {
      var samples := SampleAccumulator.Concat(recordedChunks);
      var segments := extractWordSegments(audioCtx, samples);
      seq(|segments|, i requires 0 <= i < |segments| =>
        extractFormantsFromWords(segments[i], samples, audioCtx.sampleRate))
    }
  }

  /** Recording an empty chunk does not change the result. */
  lemma EmptyChunkIrrelevant(analyzer: AudioAnalyzer, chunks: seq<seq<real>>)
    ensures analyzer.ComputeAllFormants(chunks + [[]]) == analyzer.ComputeAllFormants(chunks)
  {
    SampleAccumulator.ConcatAppend(chunks, [[]]);
    assert SampleAccumulator.Concat([[]]) == [];
    assert SampleAccumulator.Concat(chunks) + [] == SampleAccumulator.Concat(chunks);
  }

  /** With the formant estimator of app/lib/DSP.ts as extractor, entry i
      carries the word of segment i, and a segment too short to analyse yields
      all-zero formants. */
  lemma WithFormantEstimator(kernels: Dsp.Kernels, ctx: AudioContext, segmenter: Segmenter,
                             recordedChunks: seq<seq<real>>, i: nat)
    requires var samples := SampleAccumulator.Concat(recordedChunks);
      i < |segmenter(ctx, samples)|
    ensures var analyzer := AudioAnalyzer(ctx, segmenter,
                                          (s, samples, rate) => Dsp.WordFormants(kernels, s, samples, rate));
      var samples := SampleAccumulator.Concat(recordedChunks);
      var segment := segmenter(ctx, samples)[i];
      var r := analyzer.ComputeAllFormants(recordedChunks);
      && r[i].word == segment.word
      && (Dsp.ExtractAudioSegment(samples, ctx.sampleRate, segment).None? ==>
            r[i].formants == Dsp.FormantData(0, 0, 0, 0))
  {
  }
}
