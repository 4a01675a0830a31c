/** The colour a measured formant is shown in, against the average formants of
    masculine and feminine speakers: `getFormantColor` and
    `getColorByRelativeDifference` of app/ui/FormantAnalysis.tsx, and the
    `getFormantColor` of app/ui/spectrogram/FormantAnalysis.tsx. */
module FormantColors {
  import opened Wrappers

  /** `'text-green-400'`, `'text-red-400'` and `''`. */
  datatype Color = Green | Red | NoColor

  datatype Comparison = Feminine | Masculine

  datatype FormantKey = F0 | F1 | F2 | F3

  datatype DatabaseFormants = DatabaseFormants(f0: real, f1: real, f2: real, f3: real, numSamples: real)
  {
    function Get(key: FormantKey): real
    {
      match key
      case F0 => f0
      case F1 => f1
      case F2 => f2
      case F3 => f3
    }
  }

  datatype GenderedFormants = GenderedFormants(masculine: Option<DatabaseFormants>, feminine: Option<DatabaseFormants>)

  const RelativePercentage: real := 0.3
  const Percentage: real := 0.1

  function Abs(x: real): real { if x < 0.0 then -x else x }
  function Max(a: real, b: real): real { if a < b then b else a }

  /** `averageFormants?.masculine?.[formant]` (or `feminine`), `None` when any link is missing. */
  function Reference(averageFormants: Option<GenderedFormants>, formant: FormantKey, comparison: Comparison): (r: Option<real>)
    ensures r.Some? <==> (averageFormants.Some? &&
      (if comparison == Feminine then averageFormants.value.feminine.Some? else averageFormants.value.masculine.Some?))
  {
    match averageFormants
    case None => None
    case Some(g) =>
      var side := if comparison == Feminine then g.feminine else g.masculine;
      match side
      case None => None
      case Some(d) => Some(d.Get(formant))
  }

  /** A value already past the target in the desired direction is green;
      otherwise it is green exactly when it lies within the allowed distance
      of the target: the larger of 30% of the gap between the two averages and
      5% of the value. */
  function ColorByRelativeDifference(masculineValue: real, feminineValue: real, comparison: Comparison, value: real): (r: Color)
    ensures r != NoColor
    ensures comparison == Feminine && value >= feminineValue ==> r == Green
    ensures comparison == Masculine && value <= masculineValue ==> r == Green
    ensures comparison == Feminine && value < feminineValue ==>
      (r == Green <==> feminineValue - value <= Max(RelativePercentage * Abs(masculineValue - feminineValue), 0.05 * value))
    ensures comparison == Masculine && value > masculineValue ==>
      (r == Green <==> value - masculineValue <= Max(RelativePercentage * Abs(masculineValue - feminineValue), 0.05 * value))
  {
    if comparison == Feminine && value >= feminineValue then Green
    else if comparison == Masculine && value <= masculineValue then Green
    else
      var differenceBetween := Abs(masculineValue - feminineValue);
      var allowedDifference := Max(RelativePercentage * differenceBetween, 0.05 * value);
      var targetValue := if comparison == Feminine then feminineValue else masculineValue;
      var isInTarget := Abs(targetValue - value) <= allowedDifference;
      if isInTarget then Green else Red
  }

  /** Moving towards the feminine side never turns a green feminine reading red. */
  lemma RelativeFeminineUpwardClosed(m: real, f: real, value: real, higher: real)
    requires value <= higher
    requires ColorByRelativeDifference(m, f, Feminine, value) == Green
    ensures ColorByRelativeDifference(m, f, Feminine, higher) == Green
  {
    if higher < f {
      assert f - higher <= f - value;
      assert 0.05 * value <= 0.05 * higher;
    }
  }

  /** Moving towards the masculine side never turns a green masculine reading red. */
  lemma RelativeMasculineDownwardClosed(m: real, f: real, value: real, lower: real)
    requires lower <= value
    requires ColorByRelativeDifference(m, f, Masculine, value) == Green
    ensures ColorByRelativeDifference(m, f, Masculine, lower) == Green
  {
    if lower > m {
      var gap := RelativePercentage * Abs(m - f);
      if value - m > gap {
        assert value - m <= 0.05 * value;
        assert 0.95 * lower <= 0.95 * value;
      }
    }
  }

  /** `getFormantColor` of the analysis page: no colour when the reference
      value for the chosen side is missing or 0; otherwise green at or past the
      reference, and red exactly when the shortfall (feminine) or excess
      (masculine) is more than 10% of the reference. */
  function FormantColor(value: real, formant: FormantKey, averageFormants: Option<GenderedFormants>, comparison: Comparison): (r: Color)
    ensures r == NoColor <==> Reference(averageFormants, formant, comparison).GetOr(0.0) == 0.0
    ensures var ref := Reference(averageFormants, formant, comparison).GetOr(0.0);
      ref != 0.0 && comparison == Feminine ==>
        (r == Red <==> value < ref && ref - value > Percentage * ref)
    ensures var ref := Reference(averageFormants, formant, comparison).GetOr(0.0);
      ref != 0.0 && comparison == Masculine ==>
        (r == Red <==> value > ref && value - ref > Percentage * ref)
  {
    var masculineValue := Reference(averageFormants, formant, Masculine);
    var feminineValue := Reference(averageFormants, formant, Feminine);
    if comparison == Feminine && feminineValue.GetOr(0.0) != 0.0 then
      var f := feminineValue.value;
      if value >= f then Green
      else
        var absoluteDifferenceAllowed := Percentage * f;
        if f - value > absoluteDifferenceAllowed then Red else Green
    else if comparison == Masculine && masculineValue.GetOr(0.0) != 0.0 then
      var m := masculineValue.value;
      if value <= m then Green
      else
        var absoluteDifferenceAllowed := Percentage * m;
        if value - m > absoluteDifferenceAllowed then Red else Green
    else NoColor
  }

  /** `getFormantColor` of the spectrogram page: no colour without a target;
      otherwise green at or past the target or within 10% of it on the wrong
      side, red beyond. */
  function SpectrogramFormantColor(current: real, target: Option<real>, comparison: Comparison): (r: Color)
    ensures target.None? <==> r == NoColor
    ensures target.Some? && comparison == Feminine ==>
      (r == Green <==> current >= target.value || current >= target.value * 0.9)
    ensures target.Some? && comparison == Masculine ==>
      (r == Green <==> current <= target.value || current <= target.value * 1.1)
  {
    match target
    case None => NoColor
    case Some(t) =>
      var lowerBoundFeminine := t * 0.9;
      var upperBoundMasculine := t * 1.1;
      if comparison == Feminine && (current >= t || current >= lowerBoundFeminine) then Green
      else if comparison == Masculine && (current <= t || current <= upperBoundMasculine) then Green
      else Red
  }

  /** For a positive target, the spectrogram colour is a plain 10% threshold. */
  lemma SpectrogramThresholds(current: real, t: real)
    requires t > 0.0
    ensures SpectrogramFormantColor(current, Some(t), Feminine) == Green <==> current >= 0.9 * t
    ensures SpectrogramFormantColor(current, Some(t), Masculine) == Green <==> current <= 1.1 * t
  {
  }

  /** The two pages colour a reading alike whenever the reference value is
      present and non-zero; they differ only on a zero reference, which the
      analysis page leaves uncoloured. */
  lemma ColorsAgree(value: real, formant: FormantKey, averageFormants: Option<GenderedFormants>, comparison: Comparison)
    ensures var ref := Reference(averageFormants, formant, comparison);
      ref.GetOr(0.0) != 0.0 ==>
        FormantColor(value, formant, averageFormants, comparison) == SpectrogramFormantColor(value, ref, comparison)
    ensures var ref := Reference(averageFormants, formant, comparison);
      ref == Some(0.0) ==>
        FormantColor(value, formant, averageFormants, comparison) == NoColor
        && SpectrogramFormantColor(value, ref, comparison) != NoColor
  {
  }
}
