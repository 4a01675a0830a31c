/** The inverted "Alpha Scale" slider of
    app/ui/spectrogram/controls/MaxValueSlider.tsx: the slider shows
    `ALPHA_MAX - max` and writes back `max(1, ALPHA_MAX - value)`. The
    constant `ALPHA_MAX` is defined outside this model and is a parameter. */
module AlphaSlider {

  function MaxR(a: real, b: real): real { if a < b then b else a }

  /** `Math.max(1, Math.floor(max / 100))`: one hundredth of the range, at least 1. */
  function Step(max: real): (r: int)
    ensures r >= 1
    ensures max >= 100.0 ==> r as real <= max / 100.0 < (r + 1) as real
    ensures max < 200.0 ==> r == 1
  {
    var hundredth := (max / 100.0).Floor;
    if hundredth < 1 then 1 else hundredth
  }

  /** The value the slider shows for the current heat-map maximum. */
  function SliderValue(alphaMax: real, maxValue: real): (r: real)
    ensures r + maxValue == alphaMax
  {
    alphaMax - maxValue
  }

  /** The heat-map maximum set when the slider moves to `newValue`. */
  function NewMax(alphaMax: real, newValue: int): (r: real)
    ensures r >= 1.0
    ensures r == 1.0 || r + newValue as real == alphaMax
    ensures alphaMax - newValue as real >= 1.0 ==> r + newValue as real == alphaMax
  {
    MaxR(1.0, alphaMax - newValue as real)
  }

  /** Moving the slider to any value the mapping does not clamp redisplays
      that value; otherwise the slider snaps to `ALPHA_MAX - 1`. */
  lemma SliderRoundTrip(alphaMax: real, newValue: int)
    ensures alphaMax - newValue as real >= 1.0 ==> SliderValue(alphaMax, NewMax(alphaMax, newValue)) == newValue as real
    ensures alphaMax - newValue as real < 1.0 ==> SliderValue(alphaMax, NewMax(alphaMax, newValue)) == alphaMax - 1.0
  {
  }
}
