/** The formant estimator of app/lib/DSP.ts: the decision logic around the
    numeric kernels. Pitch detection, LPC, polynomial root finding, `cos` and
    `atan2` are foreign library code; they are bundled as the function-typed
    fields of `Kernels` and left uninterpreted. Samples are `real`. */
module Dsp {
  import opened Wrappers
  import Seqs

  datatype Segment = Segment(word: string, start: real, end: real, conf: real)

  datatype FormantData = FormantData(f0: int, f1: int, f2: int, f3: int)

  datatype WordWithFormants = WordWithFormants(word: string, formants: FormantData)

  datatype Complex = Complex(re: real, im: real)

  /** The external numerics. `pitchYin` returns the detector's `pitch` field
      (`None` when it is null or undefined) or throws; `lpc` returns the
      coefficient vector including `a0`, or throws (a missing vector throws
      too); `findRoots` returns the real parts and the imaginary parts. */
  datatype Kernels = Kernels(
    cos: real -> real,
    atan2: (real, real) -> real,
    pitchYin: (seq<real>, real) -> Outcome<Option<real>>,
    lpc: (seq<real>, int, real) -> Outcome<seq<real>>,
    findRoots: seq<real> -> Outcome<(seq<real>, seq<real>)>)

  const PreEmphasisAlpha: real := 0.97
  const Pi: real := 3.141592653589793
  const TwoPi: real := 6.283185307179586
  const MinSegmentLength: int := 10
  const MinPitch: real := 75.0
  const MaxPitch: real := 500.0
  const MinFormant: real := 90.0
  const MaxFormant: real := 4000.0

  /** JavaScript `Math.round`: the nearest integer, halves rounded up. */
  function Round(x: real): (r: int)
    ensures x - 0.5 < r as real <= x + 0.5
  {
    (x + 0.5).Floor
  }

  lemma RoundMonotone(x: real, y: real)
    requires x <= y
    ensures Round(x) <= Round(y)
  {
  }

  function Abs(x: real): (r: real)
    ensures r >= 0.0 && (r == x || r == -x)
  {
    if x < 0.0 then -x else x
  }

  // ---------------------------------------------------------------------------
  // extractAudioSegment
  // ---------------------------------------------------------------------------

  /** `max(0, floor(start * sampleRate))`. */
  function StartIndex(start: real, sampleRate: real): (r: nat)
    ensures r == 0 || r as real <= start * sampleRate < r as real + 1.0
    ensures start * sampleRate < r as real + 1.0
  {
    if (start * sampleRate).Floor < 0 then 0 else (start * sampleRate).Floor
  }

  /** `min(length, floor(end * sampleRate))`. */
  function EndIndex(end: real, sampleRate: real, length: nat): (r: int)
    ensures r <= length
    ensures r == length || r as real <= end * sampleRate < r as real + 1.0
    ensures r as real <= end * sampleRate
  {
    if length < (end * sampleRate).Floor then length else (end * sampleRate).Floor
  }

  /** The samples of the segment's time window, or `None` when the window is
      empty, reversed or shorter than 10 samples. */
  function ExtractAudioSegment(samples: seq<real>, sampleRate: real, segment: Segment): (r: Option<seq<real>>)
    ensures var lo, hi := StartIndex(segment.start, sampleRate), EndIndex(segment.end, sampleRate, |samples|);
      && (r.None? <==> lo >= hi || hi - lo < MinSegmentLength)
      && (r.Some? ==> 0 <= lo < hi <= |samples| && r.value == samples[lo..hi])
    ensures r.Some? ==> |r.value| >= MinSegmentLength
  {
    var startIndex := StartIndex(segment.start, sampleRate);
    var endIndex := EndIndex(segment.end, sampleRate, |samples|);
    if startIndex >= endIndex || endIndex - startIndex < MinSegmentLength then None
    else Some(samples[startIndex..endIndex])
  }

  /** Every sample of an extracted segment lies in the time window
      `[start - 1/sampleRate, end)`: sample `k` is recording sample `lo + k`. */
  lemma SegmentInsideWindow(samples: seq<real>, sampleRate: real, segment: Segment, k: nat)
    requires ExtractAudioSegment(samples, sampleRate, segment).Some?
    requires k < |ExtractAudioSegment(samples, sampleRate, segment).value|
    ensures var lo := StartIndex(segment.start, sampleRate);
      && lo + k < |samples|
      && ExtractAudioSegment(samples, sampleRate, segment).value[k] == samples[lo + k]
      && segment.start * sampleRate < (lo + k) as real + 1.0
      && (lo + k) as real < segment.end * sampleRate
  {
  }

  // ---------------------------------------------------------------------------
  // estimateF0
  // ---------------------------------------------------------------------------

  /** The pitch gate: the detected pitch when it lies in [75, 500], otherwise 0
      (also when the pitch is missing or the detector throws). */
  function GateF0(detected: Outcome<Option<real>>): (r: real)
    ensures r == 0.0 || MinPitch <= r <= MaxPitch
    ensures r != 0.0 ==> detected == Returned(Some(r))
    ensures (detected.Returned? && detected.value.Some?
             && MinPitch <= detected.value.value <= MaxPitch) ==> r == detected.value.value
  {
    match detected
    case Threw => 0.0
    case Returned(pitch) =>
      var detectedPitch := pitch.GetOr(0.0);
      if detectedPitch < MinPitch || detectedPitch > MaxPitch then 0.0 else detectedPitch
  }

  function EstimateF0(kernels: Kernels, samples: seq<real>, sampleRate: real): (r: real)
    ensures r == 0.0 || MinPitch <= r <= MaxPitch
    ensures r != 0.0 ==> kernels.pitchYin(samples, sampleRate) == Returned(Some(r))
  {
    GateF0(kernels.pitchYin(samples, sampleRate))
  }

  // ---------------------------------------------------------------------------
  // preprocessForLPC
  // ---------------------------------------------------------------------------

  /** The Hamming window weight of sample `i` out of `n`; with a cosine
      bounded by 1 every weight lies in [0.08, 1]. For `n <= 1` the source
      divides 0 by 0; the model uses angle 0 instead. */
  function Hamming(cos: real -> real, i: nat, n: nat): (r: real)
    ensures (forall x :: -1.0 <= cos(x) <= 1.0) ==> 0.08 <= r <= 1.0
  {
    0.54 - 0.46 * cos(if n <= 1 then 0.0 else TwoPi * i as real / (n - 1) as real)
  }

  /** The samples multiplied by the Hamming window. */
  function Windowed(cos: real -> real, s: seq<real>): (r: seq<real>)
    ensures |r| == |s|
    ensures forall i :: 0 <= i < |s| ==> r[i] == s[i] * Hamming(cos, i, |s|)
  {
    seq(|s|, i requires 0 <= i < |s| => s[i] * Hamming(cos, i, |s|))
  }

  /** The first-order pre-emphasis filter `y[i] = w[i] - 0.97 w[i-1]`, with
      `y[0] = w[0]`. */
  function PreEmphasis(w: seq<real>): (r: seq<real>)
    ensures |r| == |w|
    ensures forall i :: 0 <= i < |w| ==> r[i] == if i == 0 then w[0] else w[i] - PreEmphasisAlpha * w[i - 1]
  {
    seq(|w|, i requires 0 <= i < |w| => if i == 0 then w[0] else w[i] - PreEmphasisAlpha * w[i - 1])
  }

  /** The inverse (de-emphasis) filter `w[i] = y[i] + 0.97 w[i-1]`. */
  function DeEmphasis(y: seq<real>): (r: seq<real>)
    ensures |r| == |y|
  {
    if y == [] then []
    else
      var w := DeEmphasis(y[..|y| - 1]);
      w + [if |y| == 1 then y[0] else y[|y| - 1] + PreEmphasisAlpha * w[|w| - 1]]
  }

  /** Pre-emphasis loses nothing: de-emphasis recovers the windowed samples. */
  lemma {:induction false} DeEmphasisInvertsPreEmphasis(w: seq<real>)
    ensures DeEmphasis(PreEmphasis(w)) == w
  {
    if w != [] {
      DeEmphasisInvertsPreEmphasis(w[..|w| - 1]);
      DeEmphasisStep(w);
    }
  }

  /** The induction step: if de-emphasis recovers all but the last sample, it
      recovers the last one too. */
  lemma DeEmphasisStep(w: seq<real>)
    requires w != [] && DeEmphasis(PreEmphasis(w[..|w| - 1])) == w[..|w| - 1]
    ensures DeEmphasis(PreEmphasis(w)) == w
  {
    var n := |w|;
    var y := PreEmphasis(w);
    PreEmphasisPrefix(w);
    var front := DeEmphasis(y[..n - 1]);
    var last := if n == 1 then y[0] else y[n - 1] + PreEmphasisAlpha * front[n - 2];
    assert DeEmphasis(y) == front + [last];
    assert last == w[n - 1];
    assert w == w[..n - 1] + [w[n - 1]];
  }

  /** Pre-emphasis is causal: its output on a prefix is the prefix of its output. */
  lemma PreEmphasisPrefix(w: seq<real>)
    requires w != []
    ensures PreEmphasis(w)[..|w| - 1] == PreEmphasis(w[..|w| - 1])
  {
    var y, z := PreEmphasis(w), PreEmphasis(w[..|w| - 1]);
    forall i | 0 <= i < |w| - 1
      ensures y[i] == z[i]
    {
      if i > 0 {
        assert w[..|w| - 1][i - 1] == w[i - 1];
      }
    }
  }

  /** The first loop of `preprocessForLPC`: the windowed copy. */
  method ApplyWindow(cos: real -> real, segmentSamples: array<real>) returns (windowed: array<real>)
    ensures fresh(windowed)
    ensures windowed[..] == Windowed(cos, segmentSamples[..])
  {
    var segmentLength := segmentSamples.Length;
    ghost var target := Windowed(cos, segmentSamples[..]);
    windowed := new real[segmentLength];
    for i := 0 to segmentLength
      invariant forall k :: 0 <= k < i ==> windowed[k] == target[k]
    {
      windowed[i] := segmentSamples[i] * Hamming(cos, i, segmentLength);
    }
  }

  /** The second loop of `preprocessForLPC`: the pre-emphasised copy. Writing
      index 0 of an empty typed array has no effect, hence the guard. */
  method ApplyPreEmphasis(windowed: array<real>) returns (emphasized: array<real>)
    ensures fresh(emphasized)
    ensures emphasized[..] == PreEmphasis(windowed[..])
  {
    var segmentLength := windowed.Length;
    emphasized := new real[segmentLength];
    if segmentLength > 0 {
      emphasized[0] := windowed[0];
      for i := 1 to segmentLength
        invariant emphasized[0] == windowed[0]
        invariant forall k :: 1 <= k < i ==> emphasized[k] == windowed[k] - PreEmphasisAlpha * windowed[k - 1]
      {
        emphasized[i] := windowed[i] - PreEmphasisAlpha * windowed[i - 1];
      }
    }
  }

  /** Windows the segment, then applies pre-emphasis, each in its own array. */
  method PreprocessForLPC(cos: real -> real, segmentSamples: array<real>) returns (emphasized: array<real>)
    ensures fresh(emphasized)
    ensures emphasized[..] == PreEmphasis(Windowed(cos, segmentSamples[..]))
  {
    var windowed := ApplyWindow(cos, segmentSamples);
    emphasized := ApplyPreEmphasis(windowed);
  }

  // ---------------------------------------------------------------------------
  // computeLPC
  // ---------------------------------------------------------------------------

  /** `floor(2 + sampleRate / 1000)`. */
  function LpcOrder(sampleRate: real): (r: int)
    ensures r as real <= 2.0 + sampleRate / 1000.0 < r as real + 1.0
  {
    (2.0 + sampleRate / 1000.0).Floor
  }

  /** The LPC coefficients without `a0`; `None` when the segment is not
      longer than the order or the kernel throws. */
  function ComputeLPC(kernels: Kernels, emphasized: seq<real>, sampleRate: real): (r: Option<seq<real>>)
    ensures |emphasized| <= LpcOrder(sampleRate) ==> r.None?
    ensures |emphasized| > LpcOrder(sampleRate) ==>
      (r.Some? <==> kernels.lpc(emphasized, LpcOrder(sampleRate), sampleRate).Returned?)
    ensures r.Some? ==> var all := kernels.lpc(emphasized, LpcOrder(sampleRate), sampleRate).value;
      if all == [] then r.value == [] else all == [all[0]] + r.value
  {
    var order := LpcOrder(sampleRate);
    if |emphasized| <= order then None
    else
      match kernels.lpc(emphasized, order, sampleRate)
      case Threw => None
      case Returned(coeffs) => Some(if coeffs == [] then [] else coeffs[1..])
  }

  // ---------------------------------------------------------------------------
  // extractFormantsFromLPC
  // ---------------------------------------------------------------------------

  function Reverse<T>(s: seq<T>): (r: seq<T>)
    ensures |r| == |s|
    ensures forall i :: 0 <= i < |s| ==> r[i] == s[|s| - 1 - i]
  {
    if s == [] then [] else Reverse(s[1..]) + [s[0]]
  }

  /** The polynomial handed to the root finder: the coefficients reversed
      (ascending powers), then the leading 1. */
  function Polynomial(lpcCoeffs: seq<real>): (r: seq<real>)
    ensures |r| == |lpcCoeffs| + 1 && r[|lpcCoeffs|] == 1.0
    ensures forall i :: 0 <= i < |lpcCoeffs| ==> r[i] == lpcCoeffs[|lpcCoeffs| - 1 - i]
  {
    Reverse(lpcCoeffs) + [1.0]
  }

  /** Pairs the real and imaginary parts; a part missing from the shorter list is 0. */
  function PairRoots(reals: seq<real>, imag: seq<real>): (r: seq<Complex>)
    ensures |r| == if |reals| < |imag| then |imag| else |reals|
    ensures forall i :: 0 <= i < |r| ==>
      r[i] == Complex(if i < |reals| then reals[i] else 0.0, if i < |imag| then imag[i] else 0.0)
  {
    var n := if |reals| < |imag| then |imag| else |reals|;
    seq(n, i requires 0 <= i < n =>
      Complex(if i < |reals| then reals[i] else 0.0, if i < |imag| then imag[i] else 0.0))
  }

  /** A root in the upper half-plane, inside the unit circle
      (`|z| < 1` written without the square root). */
  predicate IsCandidate(root: Complex)
  {
    root.im >= 0.001 && root.re * root.re + root.im * root.im < 1.0
  }

  /** The root's angle converted to Hz. */
  function Frequency(atan2: (real, real) -> real, sampleRate: real, root: Complex): real
  {
    Abs(atan2(root.im, root.re) * (sampleRate / (2.0 * Pi)))
  }

  predicate InBand(f: real)
  {
    MinFormant < f < MaxFormant
  }

  function Frequencies(atan2: (real, real) -> real, sampleRate: real, roots: seq<Complex>): (r: seq<real>)
    ensures |r| == |roots|
    ensures forall i :: 0 <= i < |roots| ==> r[i] == Frequency(atan2, sampleRate, roots[i])
  {
    seq(|roots|, i requires 0 <= i < |roots| => Frequency(atan2, sampleRate, roots[i]))
  }

  /** The in-band frequencies of the candidate roots, in root order, each
      copy kept. */
  function InBandFrequencies(atan2: (real, real) -> real, sampleRate: real, roots: seq<Complex>): seq<real>
  {
    Seqs.Filter(InBand, Frequencies(atan2, sampleRate, Seqs.Filter(IsCandidate, roots)))
  }

  /** Candidate frequencies, ascending, restricted to (90, 4000): an ascending
      arrangement of exactly the in-band candidate frequencies, repeats
      included. */
  function FormantFrequencies(atan2: (real, real) -> real, sampleRate: real, roots: seq<Complex>): (r: seq<real>)
    ensures Seqs.Ascending(r)
    ensures forall i :: 0 <= i < |r| ==> InBand(r[i])
    ensures multiset(r) == multiset(InBandFrequencies(atan2, sampleRate, roots))
  {
    var freqs := Frequencies(atan2, sampleRate, Seqs.Filter(IsCandidate, roots));
    var sorted := Seqs.Sort(freqs);
    FilterOfAscending(InBand, sorted);
    Seqs.FilterSameElements(InBand, sorted, freqs);
    Seqs.Filter(InBand, sorted)
  }

  /** The first three frequencies, rounded; 0 for each one that is missing. */
  function FirstThree(fs: seq<real>): (r: (int, int, int))
    ensures |fs| > 0 ==> fs[0] - 0.5 < r.0 as real <= fs[0] + 0.5
    ensures |fs| > 1 ==> fs[1] - 0.5 < r.1 as real <= fs[1] + 0.5
    ensures |fs| > 2 ==> fs[2] - 0.5 < r.2 as real <= fs[2] + 0.5
    ensures |fs| == 0 ==> r.0 == 0
    ensures |fs| <= 1 ==> r.1 == 0
    ensures |fs| <= 2 ==> r.2 == 0
  {
    (if |fs| > 0 then Round(fs[0]) else 0,
     if |fs| > 1 then Round(fs[1]) else 0,
     if |fs| > 2 then Round(fs[2]) else 0)
  }

  /** `[F1, F2, F3]`, or `[0, 0, 0]` for missing or empty coefficients and
      whenever root finding throws. */
  function ExtractFormantsFromLPC(kernels: Kernels, lpcCoeffs: Option<seq<real>>, sampleRate: real): (r: (int, int, int))
    ensures lpcCoeffs.None? || lpcCoeffs.value == [] ==> r == (0, 0, 0)
    ensures lpcCoeffs.Some? && kernels.findRoots(Polynomial(lpcCoeffs.value)).Threw? ==> r == (0, 0, 0)
  {
    if lpcCoeffs.None? || lpcCoeffs.value == [] then (0, 0, 0)
    else
      match kernels.findRoots(Polynomial(lpcCoeffs.value))
      case Threw => (0, 0, 0)
      case Returned((reals, imag)) =>
        FirstThree(FormantFrequencies(kernels.atan2, sampleRate, PairRoots(reals, imag)))
  }

  /** Each formant frequency is the frequency of some candidate root. */
  lemma FormantFrequenciesSound(atan2: (real, real) -> real, sampleRate: real, roots: seq<Complex>, i: nat)
    requires i < |FormantFrequencies(atan2, sampleRate, roots)|
    ensures exists root :: (root in roots && IsCandidate(root)
      && Frequency(atan2, sampleRate, root) == FormantFrequencies(atan2, sampleRate, roots)[i])
  {
    var candidates := Seqs.Filter(IsCandidate, roots);
    var freqs := Frequencies(atan2, sampleRate, candidates);
    var f := FormantFrequencies(atan2, sampleRate, roots)[i];
    assert f in Seqs.Sort(freqs);
    Seqs.SortMembers(freqs, f);
    var j :| 0 <= j < |freqs| && freqs[j] == f;
    assert candidates[j] in roots && IsCandidate(candidates[j]);
  }

  /** Every candidate root whose frequency is in band contributes that frequency. */
  lemma FormantFrequenciesComplete(atan2: (real, real) -> real, sampleRate: real, roots: seq<Complex>, root: Complex)
    requires root in roots && IsCandidate(root) && InBand(Frequency(atan2, sampleRate, root))
    ensures Frequency(atan2, sampleRate, root) in FormantFrequencies(atan2, sampleRate, roots)
  {
    var candidates := Seqs.Filter(IsCandidate, roots);
    var freqs := Frequencies(atan2, sampleRate, candidates);
    var sorted := Seqs.Sort(freqs);
    var i :| 0 <= i < |roots| && roots[i] == root;
    assert root in candidates;
    var j :| 0 <= j < |candidates| && candidates[j] == root;
    assert freqs[j] == Frequency(atan2, sampleRate, root);
    Seqs.SortMembers(freqs, freqs[j]);
    var k :| 0 <= k < |sorted| && sorted[k] == freqs[j];
  }

  /** Filtering an ascending sequence leaves it ascending. */
  lemma {:induction false} FilterOfAscending(p: real -> bool, s: seq<real>)
    requires Seqs.Ascending(s)
    ensures Seqs.Ascending(Seqs.Filter(p, s))
  {
    if s != [] {
      FilterOfAscending(p, s[1..]);
      var rest := Seqs.Filter(p, s[1..]);
      assert forall k :: 0 <= k < |rest| ==> s[0] <= rest[k];
    }
  }

  /** Selecting the first three of an ascending in-band list: F1, F2, F3 are
      each 0 or within [90, 4000]; a 0 is followed only by 0s; the non-zero
      ones are ascending. */
  lemma FirstThreeSpec(fs: seq<real>)
    requires Seqs.Ascending(fs)
    requires forall i :: 0 <= i < |fs| ==> InBand(fs[i])
    ensures var (f1, f2, f3) := FirstThree(fs);
      && (f1 == 0 || 90 <= f1 <= 4000) && (f2 == 0 || 90 <= f2 <= 4000) && (f3 == 0 || 90 <= f3 <= 4000)
      && (f1 == 0 ==> f2 == 0) && (f2 == 0 ==> f3 == 0)
      && (f2 != 0 ==> f1 <= f2) && (f3 != 0 ==> f2 <= f3)
      && (f1 == 0 <==> fs == [])
  {
    if |fs| > 1 {
      RoundMonotone(fs[0], fs[1]);
    }
    if |fs| > 2 {
      RoundMonotone(fs[1], fs[2]);
    }
  }

  /** The properties promised of `extractFormantsFromLPC` when root finding
      succeeds: F1, F2 and F3 are the first, second and third in-band
      candidate frequencies in ascending order, rounded (0 where there are
      fewer); so F1 is the lowest, and the three are ascending and within
      [90, 4000] or 0. */
  lemma ExtractFormantsSpec(kernels: Kernels, lpcCoeffs: seq<real>, sampleRate: real)
    requires lpcCoeffs != []
    requires kernels.findRoots(Polynomial(lpcCoeffs)).Returned?
    ensures var roots := PairRoots(kernels.findRoots(Polynomial(lpcCoeffs)).value.0,
                                   kernels.findRoots(Polynomial(lpcCoeffs)).value.1);
      var (f1, f2, f3) := ExtractFormantsFromLPC(kernels, Some(lpcCoeffs), sampleRate);
      && (f1 == 0 || 90 <= f1 <= 4000) && (f2 == 0 || 90 <= f2 <= 4000) && (f3 == 0 || 90 <= f3 <= 4000)
      && (f1 == 0 ==> f2 == 0) && (f2 == 0 ==> f3 == 0)
      && (f2 != 0 ==> f1 <= f2) && (f3 != 0 ==> f2 <= f3)
      && (forall root :: root in roots && IsCandidate(root) && InBand(Frequency(kernels.atan2, sampleRate, root)) ==>
            f1 != 0 && f1 <= Round(Frequency(kernels.atan2, sampleRate, root)))
      && (forall arranged ::
            (Seqs.Ascending(arranged) && multiset(arranged) == multiset(InBandFrequencies(kernels.atan2, sampleRate, roots)))
            ==> (f1, f2, f3) == FirstThree(arranged))
  {
    var (reals, imag) := kernels.findRoots(Polynomial(lpcCoeffs)).value;
    var roots := PairRoots(reals, imag);
    var fs := FormantFrequencies(kernels.atan2, sampleRate, roots);
    FirstThreeSpec(fs);
    forall arranged | Seqs.Ascending(arranged)
        && multiset(arranged) == multiset(InBandFrequencies(kernels.atan2, sampleRate, roots))
      ensures fs == arranged
    {
      Seqs.AscendingUnique(fs, arranged);
    }
    forall root | root in roots && IsCandidate(root) && InBand(Frequency(kernels.atan2, sampleRate, root))
      ensures fs != [] && Round(fs[0]) <= Round(Frequency(kernels.atan2, sampleRate, root))
    {
      FormantFrequenciesComplete(kernels.atan2, sampleRate, roots, root);
      var k :| 0 <= k < |fs| && fs[k] == Frequency(kernels.atan2, sampleRate, root);
      RoundMonotone(fs[0], fs[k]);
    }
  }

  // ---------------------------------------------------------------------------
  // computeFormantsBase and computeFormants
  // ---------------------------------------------------------------------------

  /** The formant record for a run of samples: rounded F0 and the three
      formants. F0 is 0 or a rounded pitch in [75, 500], and a run not longer
      than the LPC order has no formants. */
  function FormantsOf(kernels: Kernels, samples: seq<real>, sampleRate: real): (r: FormantData)
    ensures r.f0 == 0 || 75 <= r.f0 <= 500
    ensures |samples| <= LpcOrder(sampleRate) ==> r.f1 == 0 && r.f2 == 0 && r.f3 == 0
  {
    var lpcCoeffs := ComputeLPC(kernels, PreEmphasis(Windowed(kernels.cos, samples)), sampleRate);
    var (f1, f2, f3) := ExtractFormantsFromLPC(kernels, lpcCoeffs, sampleRate);
    FormantData(Round(EstimateF0(kernels, samples, sampleRate)), f1, f2, f3)
  }

  method ComputeFormantsBase(kernels: Kernels, samples: array<real>, sampleRate: real) returns (r: FormantData)
    ensures r == FormantsOf(kernels, samples[..], sampleRate)
  {
    var f0 := EstimateF0(kernels, samples[..], sampleRate);
    var emphasized := PreprocessForLPC(kernels.cos, samples);
    var lpcCoeffs := ComputeLPC(kernels, emphasized[..], sampleRate);
    var (f1, f2, f3) := ExtractFormantsFromLPC(kernels, lpcCoeffs, sampleRate);
    r := FormantData(Round(f0), f1, f2, f3);
  }

  /** The record for one recognised word: zeros when its segment is invalid,
      otherwise the formants of the segment's samples. */
  function WordFormants(kernels: Kernels, segment: Segment, samples: seq<real>, sampleRate: real): (r: WordWithFormants)
    ensures r.word == segment.word
    ensures ExtractAudioSegment(samples, sampleRate, segment).None? ==> r.formants == FormantData(0, 0, 0, 0)
  {
    match ExtractAudioSegment(samples, sampleRate, segment)
    case None => WordWithFormants(segment.word, FormantData(0, 0, 0, 0))
    case Some(segmentSamples) => WordWithFormants(segment.word, FormantsOf(kernels, segmentSamples, sampleRate))
  }

  method ComputeFormants(kernels: Kernels, segment: Segment, samples: array<real>, sampleRate: real)
    returns (r: WordWithFormants)
    ensures r == WordFormants(kernels, segment, samples[..], sampleRate)
  {
    var word := segment.word;
    var extracted := ExtractAudioSegment(samples[..], sampleRate, segment);
    if extracted.None? {
      return WordWithFormants(word, FormantData(0, 0, 0, 0));
    }
    var segmentSamples := extracted.value;
    var copy := new real[|segmentSamples|](i requires 0 <= i < |segmentSamples| => segmentSamples[i]);
    assert copy[..] == segmentSamples;
    var formants := ComputeFormantsBase(kernels, copy, sampleRate);
    r := WordWithFormants(word, formants);
  }
}
