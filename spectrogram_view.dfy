/** The frequency range of the live spectrogram in `useSpectrogram`
    (app/stores/spectrogram/SpectrogramStore.ts): the validated upper-frequency
    setting and the canvas height it implies. */
module SpectrogramView {
  import opened Wrappers

  const DefaultUpperFrequency: int := 5000

  /** The hook's state: the upper frequency shown, in Hz. */
  datatype ViewState = ViewState(upperFrequency: int)

  const InitialView: ViewState := ViewState(5000)

  /** Accepted settings: a parsed integer in (0, sampleRate/2]. */
  predicate Acceptable(value: Option<int>, sampleRate: real)
  {
    value.Some? && value.value > 0 && value.value as real <= sampleRate / 2.0
  }

  /** `setUpperFrequency`: `parseInt(input, 10)` (the parser is a parameter,
      `None` for NaN) is kept when it is a positive integer not above the
      Nyquist frequency; anything else resets the setting to 5000 Hz. */
  function SetUpperFrequency(state: ViewState, parseInt: string -> Option<int>, input: string, sampleRate: real): (r: ViewState)
    ensures Acceptable(parseInt(input), sampleRate) ==> r.upperFrequency == parseInt(input).value
    ensures !Acceptable(parseInt(input), sampleRate) ==> r.upperFrequency == DefaultUpperFrequency
    ensures r.upperFrequency > 0
  {
    var value := parseInt(input);
    if value.Some? && value.value > 0 && value.value as real <= sampleRate / 2.0 then state.(upperFrequency := value.value)
    else state.(upperFrequency := DefaultUpperFrequency)
  }

  /** `frequencyBinCount || fftSize / 2`: the analyser's bin count when there
      is an analyser with a non-zero count, half the FFT size otherwise. */
  function FullHeight(frequencyBinCount: Option<real>, fftSize: real): (r: real)
    ensures frequencyBinCount.GetOr(0.0) != 0.0 ==> r == frequencyBinCount.value
    ensures frequencyBinCount.GetOr(0.0) == 0.0 ==> r * 2.0 == fftSize
  {
    if frequencyBinCount.Some? && frequencyBinCount.value != 0.0 then frequencyBinCount.value else fftSize / 2.0
  }

  /** Hz per bin. */
  function FrequencyResolution(sampleRate: real, fftSize: real): (r: real)
    requires fftSize > 0.0
    ensures r * fftSize == sampleRate
  {
    sampleRate / fftSize
  }

  /** `Math.floor(upperFrequency / frequencyResolution)`: the number of whole
      bins below the upper frequency. */
  function VisibleFrequencyBins(upperFrequency: int, frequencyResolution: real): (r: int)
    requires frequencyResolution > 0.0
    ensures r as real * frequencyResolution <= upperFrequency as real
    ensures upperFrequency as real < (r + 1) as real * frequencyResolution
  {
    FloorBounds(upperFrequency as real, frequencyResolution);
    (upperFrequency as real / frequencyResolution).Floor
  }

  /** `floor(x / d) * d <= x < (floor(x / d) + 1) * d` for a positive `d`. */
  lemma FloorBounds(x: real, d: real)
    requires d > 0.0
    ensures (x / d).Floor as real * d <= x
    ensures x < ((x / d).Floor + 1) as real * d
  {
    var q := x / d;
    var b := q.Floor;
    assert q * d == x;
    assert b as real <= q < (b + 1) as real;
    ScaleMonotone(b as real, q, d);
    ScaleMonotone(q, (b + 1) as real, d);
    assert x < (b + 1) as real * d;
  }

  lemma ScaleMonotone(a: real, b: real, d: real)
    requires a <= b && d > 0.0
    ensures a * d <= b * d
    ensures a < b ==> a * d < b * d
  {
  }

  /** `Math.min(fullHeight, visibleFrequencyBins)`. */
  function Height(frequencyBinCount: Option<real>, fftSize: real, sampleRate: real, upperFrequency: int): (r: real)
    requires fftSize > 0.0 && sampleRate > 0.0
    ensures r <= FullHeight(frequencyBinCount, fftSize)
    ensures r <= VisibleFrequencyBins(upperFrequency, FrequencyResolution(sampleRate, fftSize)) as real
    ensures r == FullHeight(frequencyBinCount, fftSize)
         || r == VisibleFrequencyBins(upperFrequency, FrequencyResolution(sampleRate, fftSize)) as real
  {
    var fullHeight := FullHeight(frequencyBinCount, fftSize);
    var visibleFrequencyBins := VisibleFrequencyBins(upperFrequency, FrequencyResolution(sampleRate, fftSize)) as real;
    if fullHeight < visibleFrequencyBins then fullHeight else visibleFrequencyBins
  }

  /** A higher upper frequency never shows fewer bins. */
  lemma VisibleBinsMonotone(lower: int, higher: int, frequencyResolution: real)
    requires frequencyResolution > 0.0 && lower <= higher
    ensures VisibleFrequencyBins(lower, frequencyResolution) <= VisibleFrequencyBins(higher, frequencyResolution)
  {
    var a := VisibleFrequencyBins(lower, frequencyResolution);
    var b := VisibleFrequencyBins(higher, frequencyResolution);
    assert a as real * frequencyResolution <= lower as real <= higher as real;
    assert higher as real < (b + 1) as real * frequencyResolution;
    ScaleCancel(a as real, (b + 1) as real, frequencyResolution);
  }

  lemma ScaleCancel(x: real, y: real, d: real)
    requires d > 0.0 && x * d < y * d
    ensures x < y
  {
    assert (y - x) * d > 0.0;
  }

  /** An accepted setting never asks for more bins than half the FFT size, so
      without an analyser the canvas shows every visible bin. */
  lemma AcceptedFitsHalfSpectrum(state: ViewState, parseInt: string -> Option<int>, input: string, sampleRate: real, fftSize: real)
    requires fftSize > 0.0 && sampleRate > 0.0
    requires Acceptable(parseInt(input), sampleRate)
    ensures var upper := SetUpperFrequency(state, parseInt, input, sampleRate).upperFrequency;
      VisibleFrequencyBins(upper, FrequencyResolution(sampleRate, fftSize)) as real <= fftSize / 2.0
      && Height(None, fftSize, sampleRate, upper) == VisibleFrequencyBins(upper, FrequencyResolution(sampleRate, fftSize)) as real
  {
    var upper := SetUpperFrequency(state, parseInt, input, sampleRate).upperFrequency;
    var res := FrequencyResolution(sampleRate, fftSize);
    var bins := VisibleFrequencyBins(upper, res);
    assert bins as real * res <= upper as real <= sampleRate / 2.0;
    assert bins as real * sampleRate <= fftSize * sampleRate / 2.0 by {
      assert bins as real * res * fftSize <= sampleRate / 2.0 * fftSize;
    }
  }
}
