/** The noise classifier of the mobile app: a three-way decibel threshold with a
    piecewise-linear confidence, and an enhanced variant that adds a descriptive
    label chosen by a first-match chain over spectral features and averages in a
    spectral confidence. */
module NoiseClassifier {

  import opened Outcomes
  import opened JsNumbers
  import FftProcessor

  type SpectralFeatures = FftProcessor.SpectralFeatures

  datatype Category = Quiet | Normal | Noisy

  /** Decibel thresholds: below 50 is Quiet, below 70 Normal, the rest Noisy. */
  const QUIET_UPPER: real := 50.0
  const NORMAL_UPPER: real := 70.0

  /** Spectral flatness thresholds: below 0.4 is tonal, above 0.6 is noise. */
  const TONAL_UPPER: real := 0.4
  const NOISY_LOWER: real := 0.6

  /** A band dominates when its ratio exceeds its threshold. */
  const LOW_DOMINANT: real := 0.5
  const MID_DOMINANT: real := 0.6
  const HIGH_DOMINANT: real := 0.4

  /** The descriptive labels of the enhanced classification. */
  datatype Description =
    | WhiteNoise
    | TrafficOrMachinery
    | LowFrequencyRumble
    | VoiceOrMusic
    | GeneralEnvironmentalNoise
    | HighFrequencyNoise
    | TonalSound
    | MixedNoise
  {
    function Label(): string {
      match this
      case WhiteNoise => "White Noise / Static"
      case TrafficOrMachinery => "Traffic / Heavy Machinery"
      case LowFrequencyRumble => "Low Frequency Rumble"
      case VoiceOrMusic => "Voice / Music"
      case GeneralEnvironmentalNoise => "General Environmental Noise"
      case HighFrequencyNoise => "High-Frequency Noise"
      case TonalSound => "Tonal Sound"
      case MixedNoise => "Mixed Noise"
    }
  }

  /** Distinct labels for distinct descriptions. */
  lemma LabelsAreDistinct(a: Description, b: Description)
    requires a != b
    ensures a.Label() != b.Label()
  {
  }

  datatype ClassificationResult = ClassificationResult(
    category: Category,
    decibels: real,
    confidence: real,
    description: Option<Description>,
    features: Option<SpectralFeatures>)

  /** The thrown "Invalid decibel value" error. */
  datatype ClassifierError = InvalidDecibelValue(value: Number)

  function Max(a: real, b: real): real {
    if a >= b then a else b
  }

  function Min(a: real, b: real): real {
    if a <= b then a else b
  }

  function Abs(x: real): real {
    if x < 0.0 then -x else x
  }

  /** A level `classifySimple` accepts: finite and not negative. */
  predicate IsValidLevel(decibels: Number) {
    decibels.Finite? && 0.0 <= decibels.value
  }

  /** Category order: Quiet < Normal < Noisy. */
  function Rank(c: Category): nat {
    match c
    case Quiet => 0
    case Normal => 1
    case Noisy => 2
  }

  /** The category the thresholds assign to a level. */
  function CategoryOf(d: real): (c: Category)
    ensures c == Quiet <==> d < QUIET_UPPER
    ensures c == Normal <==> QUIET_UPPER <= d < NORMAL_UPPER
    ensures c == Noisy <==> NORMAL_UPPER <= d
  {
    if d < QUIET_UPPER then Quiet
    else if d < NORMAL_UPPER then Normal
    else Noisy
  }

  /** A louder level never gets a quieter category. */
  lemma CategoryMonotone(a: real, b: real)
    requires a <= b
    ensures Rank(CategoryOf(a)) <= Rank(CategoryOf(b))
  {
  }

  /** The confidence of a category before the 0.5 floor. */
  function RawConfidence(d: real): real {
    if d < QUIET_UPPER then
      Max(0.0, 1.0 - d / QUIET_UPPER)
    else if d < NORMAL_UPPER then
      var midpoint := (QUIET_UPPER + NORMAL_UPPER) / 2.0;
      var maxDistance := (NORMAL_UPPER - QUIET_UPPER) / 2.0;
      Max(0.0, 1.0 - Abs(d - midpoint) / maxDistance)
    else
      Min(1.0, (d - NORMAL_UPPER) / 30.0)
  }

  /** The confidence `classifySimple` reports: never below 0.5, never above 1 for
      a valid level. */
  function SimpleConfidence(d: real): (c: real)
    requires 0.0 <= d
    ensures 0.5 <= c <= 1.0
  {
    Max(0.5, RawConfidence(d))
  }

  /** `classifySimple`. */
  function ClassifySimple(decibels: Number): (r: Result<ClassificationResult, ClassifierError>)
    ensures r.Err? <==> !IsValidLevel(decibels)
    ensures r.Err? ==> r.error == InvalidDecibelValue(decibels)
    ensures r.Ok? ==>
      && (r.value.category == Quiet <==> decibels.value < 50.0)
      && (r.value.category == Normal <==> 50.0 <= decibels.value < 70.0)
      && (r.value.category == Noisy <==> 70.0 <= decibels.value)
    ensures r.Ok? ==> 0.5 <= r.value.confidence <= 1.0
    ensures r.Ok? ==> r.value.decibels == decibels.value
    ensures r.Ok? ==> r.value.description.None? && r.value.features.None?
  {
    if !decibels.Finite? || decibels.value < 0.0 then Err(InvalidDecibelValue(decibels))
    else
      var d := decibels.value;
      Ok(ClassificationResult(CategoryOf(d), d, SimpleConfidence(d), None, None))
  }

  /** NaN, both infinities and negative levels are rejected; 0 dB is accepted. */
  lemma InvalidLevelsRejected()
    ensures ClassifySimple(NaN).Err?
    ensures ClassifySimple(PositiveInfinity).Err? && ClassifySimple(NegativeInfinity).Err?
    ensures ClassifySimple(Finite(-0.5)).Err?
    ensures ClassifySimple(Finite(0.0)).Ok?
  {
  }

  /** The thresholds are half-open: 50 dB is Normal and 70 dB is Noisy. */
  lemma ThresholdsAreHalfOpen()
    ensures ClassifySimple(Finite(49.9)).value.category == Quiet
    ensures ClassifySimple(Finite(50.0)).value.category == Normal
    ensures ClassifySimple(Finite(69.9)).value.category == Normal
    ensures ClassifySimple(Finite(70.0)).value.category == Noisy
  {
  }

  /** Quiet confidence falls as the level rises. */
  lemma QuietConfidenceNonIncreasing(a: real, b: real)
    requires 0.0 <= a <= b < QUIET_UPPER
    ensures SimpleConfidence(b) <= SimpleConfidence(a)
  {
  }

  /** Normal confidence is 1 at the 60 dB midpoint, at most 1 elsewhere, and
      symmetric about the midpoint. */
  lemma NormalConfidencePeaksAtMidpoint(t: real)
    requires 0.0 <= t < 10.0
    ensures SimpleConfidence(60.0) == 1.0
    ensures SimpleConfidence(60.0 - t) == SimpleConfidence(60.0 + t)
  {
  }

  /** Noisy confidence rises with the level and is 1 from 100 dB on. */
  lemma NoisyConfidenceNonDecreasing(a: real, b: real)
    requires NORMAL_UPPER <= a <= b
    ensures SimpleConfidence(a) <= SimpleConfidence(b)
    ensures 100.0 <= a ==> SimpleConfidence(a) == 1.0
  {
  }

  /** The floor: the raw confidence just above 50 dB and at 70 dB is below 0.5,
      and the reported value is 0.5 there. */
  lemma ConfidenceFloorApplies()
    ensures RawConfidence(70.0) == 0.0 && SimpleConfidence(70.0) == 0.5
    ensures RawConfidence(50.0) == 0.0 && SimpleConfidence(50.0) == 0.5
    ensures SimpleConfidence(30.0) == 0.5
    ensures SimpleConfidence(0.0) == 1.0
  {
  }

  /** `describeNoiseType`: the first matching rule of the chain decides. */
  function DescribeNoiseType(features: SpectralFeatures, decibels: real): (r: Description)
    ensures r == WhiteNoise <==> features.spectralFlatness > NOISY_LOWER
    ensures r == TrafficOrMachinery <==>
      features.spectralFlatness <= NOISY_LOWER && features.lowFreqRatio > LOW_DOMINANT && decibels > 70.0
    ensures r == LowFrequencyRumble <==>
      features.spectralFlatness <= NOISY_LOWER && features.lowFreqRatio > LOW_DOMINANT && decibels <= 70.0
    ensures r == VoiceOrMusic <==>
      && features.spectralFlatness <= NOISY_LOWER && features.lowFreqRatio <= LOW_DOMINANT
      && features.midFreqRatio > MID_DOMINANT && features.spectralFlatness < TONAL_UPPER
    ensures r == GeneralEnvironmentalNoise <==>
      && features.spectralFlatness <= NOISY_LOWER && features.lowFreqRatio <= LOW_DOMINANT
      && features.midFreqRatio > MID_DOMINANT && TONAL_UPPER <= features.spectralFlatness
    ensures r == HighFrequencyNoise <==>
      && features.spectralFlatness <= NOISY_LOWER && features.lowFreqRatio <= LOW_DOMINANT
      && features.midFreqRatio <= MID_DOMINANT && features.highFreqRatio > HIGH_DOMINANT
    ensures r == TonalSound <==>
      && features.lowFreqRatio <= LOW_DOMINANT && features.midFreqRatio <= MID_DOMINANT
      && features.highFreqRatio <= HIGH_DOMINANT && features.spectralFlatness < TONAL_UPPER
    ensures r == MixedNoise <==>
      && features.lowFreqRatio <= LOW_DOMINANT && features.midFreqRatio <= MID_DOMINANT
      && features.highFreqRatio <= HIGH_DOMINANT
      && TONAL_UPPER <= features.spectralFlatness <= NOISY_LOWER
  {
    if features.spectralFlatness > NOISY_LOWER then WhiteNoise
    else if features.lowFreqRatio > LOW_DOMINANT then
      (if decibels > 70.0 then TrafficOrMachinery else LowFrequencyRumble)
    else if features.midFreqRatio > MID_DOMINANT then
      (if features.spectralFlatness < TONAL_UPPER then VoiceOrMusic else GeneralEnvironmentalNoise)
    else if features.highFreqRatio > HIGH_DOMINANT then HighFrequencyNoise
    else if features.spectralFlatness < TONAL_UPPER then TonalSound
    else MixedNoise
  }

  /** The label's loudness test is strict while the category's is not: at exactly
      70 dB a bass-heavy sound is a "Low Frequency Rumble" although its category
      is Noisy. */
  lemma RumbleAtSeventyIsNoisy(features: SpectralFeatures)
    requires features.spectralFlatness <= NOISY_LOWER && features.lowFreqRatio > LOW_DOMINANT
    ensures DescribeNoiseType(features, 70.0) == LowFrequencyRumble
    ensures ClassifySimple(Finite(70.0)).value.category == Noisy
  {
  }

  /** "Traffic / Heavy Machinery" is only ever given to Noisy levels. */
  lemma TrafficImpliesNoisy(features: SpectralFeatures, decibels: Number)
    requires IsValidLevel(decibels)
    requires DescribeNoiseType(features, decibels.value) == TrafficOrMachinery
    ensures ClassifySimple(decibels).value.category == Noisy
  {
  }

  /** `calculateSpectralConfidence`: 0.8 when the features fit the category, 0.5
      otherwise. */
  function SpectralConfidence(features: SpectralFeatures, category: Category): (r: real)
    ensures r == 0.5 || r == 0.8
    ensures r == 0.8 <==>
      || (category == Quiet && (features.spectralFlatness < 0.3 || features.spectralFlatness > 0.8))
      || (category == Normal && features.midFreqRatio > 0.4)
      || (category == Noisy && (features.lowFreqRatio > 0.3 || features.spectralFlatness > 0.5))
  {
    var base := 0.5;
    var quiet := if category == Quiet && (features.spectralFlatness < 0.3 || features.spectralFlatness > 0.8)
      then 0.3 else 0.0;
    var normal := if category == Normal && features.midFreqRatio > 0.4 then 0.3 else 0.0;
    var noisy := if category == Noisy && (features.lowFreqRatio > 0.3 || features.spectralFlatness > 0.5)
      then 0.3 else 0.0;
    Min(1.0, base + quiet + normal + noisy)
  }

  /** `classifyEnhanced`: the simple result with a description, the features, and
      the mean of the simple and spectral confidences. */
  function ClassifyEnhanced(decibels: Number, features: SpectralFeatures): (r: Result<ClassificationResult, ClassifierError>)
    ensures r.Err? <==> ClassifySimple(decibels).Err?
    ensures r.Err? ==> r.error == InvalidDecibelValue(decibels)
    ensures r.Ok? ==>
      && r.value.category == ClassifySimple(decibels).value.category
      && r.value.decibels == decibels.value
      && r.value.description == Some(DescribeNoiseType(features, decibels.value))
      && r.value.features == Some(features)
    ensures r.Ok? ==> 0.5 <= r.value.confidence <= 0.9
    ensures r.Ok? ==>
      r.value.confidence * 2.0
        == ClassifySimple(decibels).value.confidence + SpectralConfidence(features, r.value.category)
  {
    match ClassifySimple(decibels)
    case Err(e) => Err(e)
    case Ok(base) =>
      var description := DescribeNoiseType(features, decibels.value);
      var spectral := SpectralConfidence(features, base.category);
      var combined := (base.confidence + spectral) / 2.0;
      Ok(base.(confidence := combined, description := Some(description), features := Some(features)))
  }

  /** `classifyNoise`: only the category of `classifySimple`. */
  function ClassifyNoise(decibels: Number): (r: Result<Category, ClassifierError>)
    ensures r.Err? <==> !IsValidLevel(decibels)
    ensures r.Err? ==> r.error == InvalidDecibelValue(decibels)
    ensures r.Ok? ==> r.value == CategoryOf(decibels.value)
  {
    match ClassifySimple(decibels)
    case Err(e) => Err(e)
    case Ok(result) => Ok(result.category)
  }

  /** `classifyNoiseEnhanced`: a fresh classifier's `classifyEnhanced`. */
  function ClassifyNoiseEnhanced(decibels: Number, features: SpectralFeatures): (r: Result<ClassificationResult, ClassifierError>)
    ensures r.Err? <==> !IsValidLevel(decibels)
    ensures r.Ok? ==>
      && r.value.category == CategoryOf(decibels.value)
      && r.value.description.Some? && r.value.features == Some(features)
      && 0.5 <= r.value.confidence <= 0.9
  {
    ClassifyEnhanced(decibels, features)
  }
}
